/**
 * The body normaliser: Go's `strings.NewReplacer` with the processor's
 * substitution table (processor.go:69-74). A replacer with multi-character
 * patterns scans its input once, left to right; at each position it takes the
 * EARLIEST listed pattern that starts there, emits that pattern's replacement
 * and resumes after the pattern, and where no pattern starts it copies one
 * character. Its own output is never rescanned.
 */
module Replacer {
  import opened Wrappers
  import opened Text

  datatype Rule = Rule(pattern: string, replacement: string)

  /** The substitution table, in the order the processor lists it. */
  const Table: seq<Rule> := [
    Rule("\t", ""), Rule(" ", ""),
    Rule("&quot;", "\""), Rule("&nbsp;", ""),
    Rule("\\\\", ""), Rule("&amp;amp;", "&"),
    Rule("&amp;", "&"), Rule("\\", "")
  ]

  predicate WellFormed(rules: seq<Rule>) {
    forall i :: 0 <= i < |rules| ==> rules[i].pattern != []
  }

  /** Index of the first rule, in table order, whose pattern starts `s`. */
  function FirstRule(rules: seq<Rule>, s: string): (r: Option<nat>)
    ensures r.Some? ==> r.value < |rules| && IsPrefix(rules[r.value].pattern, s)
    ensures r.Some? ==> forall j :: 0 <= j < r.value ==> !IsPrefix(rules[j].pattern, s)
    ensures r.None? ==> forall j :: 0 <= j < |rules| ==> !IsPrefix(rules[j].pattern, s)
    decreases |rules|
  {
    if rules == [] then None
    else if IsPrefix(rules[0].pattern, s) then Some(0)
    else match FirstRule(rules[1..], s)
      case None => None
      case Some(k) => Some(k + 1)
  }

  /** One left-to-right pass of the replacer over `s`. */
  function Replace(rules: seq<Rule>, s: string): string
    requires WellFormed(rules)
    decreases |s|
  {
    if s == [] then []
    else match FirstRule(rules, s)
      case Some(i) => rules[i].replacement + Replace(rules, s[|rules[i].pattern|..])
      case None => [s[0]] + Replace(rules, s[1..])
  }

  /** `replacer.Replace`, the normalisation applied before every extraction. */
  function Normalize(s: string): string {
    Replace(Table, s)
  }

  /** Characters that never survive normalisation. */
  predicate Stripped(c: char) {
    c == '\t' || c == ' ' || c == '\\'
  }

  /** Characters at which some pattern of the table can start. */
  predicate Special(c: char) {
    Stripped(c) || c == '&'
  }

  predicate NoStripped(s: string) {
    forall i :: 0 <= i < |s| ==> !Stripped(s[i])
  }

  predicate NoSpecial(s: string) {
    forall i :: 0 <= i < |s| ==> !Special(s[i])
  }

  /** A replacer never lengthens text when no replacement is longer than its pattern. */
  lemma {:induction false} ReplaceNotLonger(rules: seq<Rule>, s: string)
    requires WellFormed(rules)
    requires forall i :: 0 <= i < |rules| ==> |rules[i].replacement| <= |rules[i].pattern|
    ensures |Replace(rules, s)| <= |s|
    decreases |s|
  {
    if s != [] {
      match FirstRule(rules, s)
      case Some(i) => ReplaceNotLonger(rules, s[|rules[i].pattern|..]);
      case None => ReplaceNotLonger(rules, s[1..]);
    }
  }

  /** The normalised text is never longer than the input. */
  lemma NormalizeNotLonger(s: string)
    ensures |Normalize(s)| <= |s|
  {
    ReplaceNotLonger(Table, s);
  }

  /** Where no pattern starts, the first character is one the table does not strip. */
  lemma NoRuleNotStripped(s: string)
    requires s != [] && FirstRule(Table, s).None?
    ensures !Stripped(s[0])
  {
    assert !IsPrefix(Table[0].pattern, s) && !IsPrefix(Table[1].pattern, s) && !IsPrefix(Table[7].pattern, s);
    assert s[..1] == [s[0]];
  }

  /** A pass never produces a stripped character when no replacement holds
      one and every stripped character starts some pattern. */
  lemma {:induction false} ReplaceStrips(rules: seq<Rule>, s: string)
    requires WellFormed(rules)
    requires forall i :: 0 <= i < |rules| ==> NoStripped(rules[i].replacement)
    requires forall t :: t != [] && FirstRule(rules, t).None? ==> !Stripped(t[0])
    ensures NoStripped(Replace(rules, s))
    decreases |s|
  {
    if s != [] {
      match FirstRule(rules, s)
      case Some(i) =>
        ReplaceStrips(rules, s[|rules[i].pattern|..]);
        NoStrippedConcat(rules[i].replacement, Replace(rules, s[|rules[i].pattern|..]));
      case None =>
        ReplaceStrips(rules, s[1..]);
        NoStrippedConcat([s[0]], Replace(rules, s[1..]));
    }
  }

  lemma NoStrippedConcat(x: string, y: string)
    requires NoStripped(x) && NoStripped(y)
    ensures NoStripped(x + y)
  {
    assert forall k :: 0 <= k < |x + y| ==> (x + y)[k] == if k < |x| then x[k] else y[k - |x|];
  }

  /** No replacement of the table holds a stripped character. */
  lemma TableReplacementsPlain(i: nat)
    requires i < |Table|
    ensures NoStripped(Table[i].replacement)
  {
  }

  /** The normalised text contains no tab, no space and no backslash. */
  lemma NormalizeStrips(s: string)
    ensures NoStripped(Normalize(s))
  {
    forall i | 0 <= i < |Table|
      ensures NoStripped(Table[i].replacement)
    {
      TableReplacementsPlain(i);
    }
    forall t | t != [] && FirstRule(Table, t).None?
      ensures !Stripped(t[0])
    {
      NoRuleNotStripped(t);
    }
    ReplaceStrips(Table, s);
  }

  /** Every pattern of the table starts with a special character. */
  lemma TablePatternStartsSpecial(i: nat)
    requires i < |Table|
    ensures Special(Table[i].pattern[0])
  {
  }

  /** Text holding no character at which a pattern starts passes through a pass
      unchanged, and so does what follows it. */
  lemma {:induction false} ReplaceCopiesPlain(rules: seq<Rule>, a: string, b: string)
    requires WellFormed(rules)
    requires forall i, k :: 0 <= i < |rules| && 0 <= k < |a| ==> rules[i].pattern[0] != a[k]
    ensures Replace(rules, a + b) == a + Replace(rules, b)
    decreases |a|
  {
    if a == [] {
      assert a + b == b;
    } else {
      var ab := a + b;
      assert ab[0] == a[0] && ab[1..] == a[1..] + b;
      assert FirstRule(rules, ab).None?;
      forall i, k | 0 <= i < |rules| && 0 <= k < |a[1..]|
        ensures rules[i].pattern[0] != a[1..][k]
      {
        assert a[1..][k] == a[k + 1];
      }
      ReplaceCopiesPlain(rules, a[1..], b);
      assert a == [a[0]] + a[1..];
    }
  }

  /** Text free of special characters passes through unchanged, and so does
      what follows it: normalisation copies plain text in order. */
  lemma CopiesPlainText(a: string, b: string)
    requires NoSpecial(a)
    ensures Normalize(a + b) == a + Normalize(b)
  {
    forall i, k | 0 <= i < |Table| && 0 <= k < |a|
      ensures Table[i].pattern[0] != a[k]
    {
      TablePatternStartsSpecial(i);
    }
    ReplaceCopiesPlain(Table, a, b);
  }

  /** Deleting every tab, space and backslash: an independent description of the
      replacer on text that holds no entity (no `&`). */
  function RemoveStripped(s: string): (r: string)
    ensures NoStripped(r)
    decreases |s|
  {
    if s == [] then []
    else if Stripped(s[0]) then RemoveStripped(s[1..])
    else [s[0]] + RemoveStripped(s[1..])
  }

  /** The shape of each rule of the table: a rule whose pattern does not start
      an entity deletes one stripped character or a double backslash. */
  lemma TableRuleShape(i: nat)
    requires i < |Table|
    ensures Table[i].pattern != [] && |Table[i].replacement| <= |Table[i].pattern|
    ensures Table[i].pattern[0] != '&' ==>
      Table[i].replacement == [] && 1 <= |Table[i].pattern| <= 2 &&
      forall k :: 0 <= k < |Table[i].pattern| ==> Stripped(Table[i].pattern[k])
  {
  }

  /** Without an entity at the front, the rule that applies deletes one or two
      stripped characters. */
  lemma RuleWithoutEntity(s: string)
    requires s != [] && s[0] != '&' && FirstRule(Table, s).Some?
    ensures var i := FirstRule(Table, s).value;
      Table[i].replacement == [] && 1 <= |Table[i].pattern| <= 2 &&
      forall k :: 0 <= k < |Table[i].pattern| ==> Stripped(s[k])
  {
    var i := FirstRule(Table, s).value;
    assert IsPrefix(Table[i].pattern, s);
    TableRuleShape(i);
    forall k | 0 <= k < |Table[i].pattern| ensures Stripped(s[k]) {
      assert s[k] == s[..|Table[i].pattern|][k];
    }
  }

  /** On text without `&`, normalisation deletes exactly the tabs, spaces and
      backslashes, including the double backslash it removes as one unit. */
  lemma {:induction false} NormalizeWithoutEntities(s: string)
    requires '&' !in s
    ensures Normalize(s) == RemoveStripped(s)
    decreases |s|
  {
    if s != [] {
      var r := FirstRule(Table, s);
      if r.Some? {
        RuleWithoutEntity(s);
        var n := |Table[r.value].pattern|;
        assert Normalize(s) == Normalize(s[n..]);
        assert '&' !in s[n..] by { assert forall c :: c in s[n..] ==> c in s; }
        NormalizeWithoutEntities(s[n..]);
        assert RemoveStripped(s) == RemoveStripped(s[1..]);
        if n == 2 {
          assert s[1..][1..] == s[2..];
          assert RemoveStripped(s[1..]) == RemoveStripped(s[2..]);
        }
      } else {
        NoRuleNotStripped(s);
        assert '&' !in s[1..] by { assert forall c :: c in s[1..] ==> c in s; }
        NormalizeWithoutEntities(s[1..]);
      }
    }
  }

  /** A pattern that differs from `s` at some position is not a prefix of it. */
  lemma DiffersAt(p: string, s: string, k: nat)
    requires k < |p| && k < |s| && p[k] != s[k]
    ensures !IsPrefix(p, s)
  {
  }

  /** The rule that applies is rule `k` when `k` matches and no earlier rule does. */
  lemma FirstRuleAt(rules: seq<Rule>, s: string, k: nat)
    requires k < |rules| && IsPrefix(rules[k].pattern, s)
    requires forall j :: 0 <= j < k ==> !IsPrefix(rules[j].pattern, s)
    ensures FirstRule(rules, s) == Some(k)
  {
  }

  /** Unfolds one step of the pass at a position where rule `k` applies. */
  lemma ReplaceAt(s: string, k: nat, t: string)
    requires FirstRule(Table, s) == Some(k) && s[|Table[k].pattern|..] == t
    ensures Normalize(s) == Table[k].replacement + Normalize(t)
  {
  }

  /** `&amp;amp;` is listed before `&amp;`, so it is rewritten as one unit. */
  lemma DoubleAmpIsOneUnit(t: string)
    ensures Normalize("&amp;amp;" + t) == "&" + Normalize(t)
  {
    var s := "&amp;amp;" + t;
    assert s[..9] == "&amp;amp;" && s[9..] == t;
    assert s[0] == '&' && s[1] == 'a';
    DiffersAt(Table[0].pattern, s, 0);
    DiffersAt(Table[1].pattern, s, 0);
    DiffersAt(Table[2].pattern, s, 1);
    DiffersAt(Table[3].pattern, s, 1);
    DiffersAt(Table[4].pattern, s, 0);
    FirstRuleAt(Table, s, 5);
    ReplaceAt(s, 5, t);
  }

  /** `&quot;` becomes a double quote. */
  lemma QuotIsOneUnit(t: string)
    ensures Normalize("&quot;" + t) == "\"" + Normalize(t)
  {
    var s := "&quot;" + t;
    assert s[..6] == "&quot;" && s[6..] == t;
    assert s[0] == '&';
    DiffersAt(Table[0].pattern, s, 0);
    DiffersAt(Table[1].pattern, s, 0);
    FirstRuleAt(Table, s, 2);
    ReplaceAt(s, 2, t);
  }

  /** `&amp;` not followed by `amp;` becomes `&`. */
  lemma AmpIsOneUnit(t: string)
    requires !IsPrefix("amp;", t)
    ensures Normalize("&amp;" + t) == "&" + Normalize(t)
  {
    var s := "&amp;" + t;
    assert s[..5] == "&amp;" && s[5..] == t;
    assert s[0] == '&' && s[1] == 'a';
    DiffersAt(Table[0].pattern, s, 0);
    DiffersAt(Table[1].pattern, s, 0);
    DiffersAt(Table[2].pattern, s, 1);
    DiffersAt(Table[3].pattern, s, 1);
    DiffersAt(Table[4].pattern, s, 0);
    if |t| >= 4 {
      assert s[5..9] == t[..4];
    }
    FirstRuleAt(Table, s, 6);
    ReplaceAt(s, 6, t);
  }

  /** One pass turns `&amp;quot;` into `&quot;`. */
  lemma AmpQuotFirstPass(t: string)
    ensures Normalize("&amp;quot;" + t) == "&quot;" + Normalize(t)
  {
    AmpQuotSplit(t);
    AmpIsOneUnit("quot;" + t);
    QuotPlain();
    CopiesPlainText("quot;", t);
    AmpQuotSplit(Normalize(t));
  }

  /** `&amp;quot;` is `&amp;` followed by `quot;`, and `&quot;` is `&` followed by it. */
  lemma AmpQuotSplit(t: string)
    ensures "&amp;quot;" + t == "&amp;" + ("quot;" + t)
    ensures "&quot;" + t == "&" + ("quot;" + t)
    ensures !IsPrefix("amp;", "quot;" + t)
  {
    assert ("quot;" + t)[0] == 'q';
  }

  lemma QuotPlain()
    ensures NoSpecial("quot;")
  {
  }

  /** The replacer is not idempotent: on any text that starts with `&amp;quot;`
      a second pass rewrites the `&quot;` that the first pass produced. */
  lemma NotIdempotent(t: string)
    ensures Normalize(Normalize("&amp;quot;" + t)) == "\"" + Normalize(Normalize(t))
    ensures Normalize(Normalize("&amp;quot;" + t)) != Normalize("&amp;quot;" + t)
  {
    AmpQuotFirstPass(t);
    QuotIsOneUnit(Normalize(t));
    var n := Normalize("&amp;quot;" + t);
    assert n[0] == '&';
    assert Normalize(n)[0] == '"';
  }
}
