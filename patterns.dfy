/**
 * The three fixed patterns of the processor (processor.go:75-77), written as
 * scanners with the semantics of Go's `regexp` `FindAll…` calls: the
 * leftmost match is taken first, quantifiers are greedy, and the search
 * resumes where the previous match ended, so matches never overlap.
 */
module Patterns {
  import opened Wrappers
  import opened Text

  // ---------------------------------------------------------------------
  // A fixed pattern followed by `[^#"',]*`
  // ---------------------------------------------------------------------

  /** How one pattern character matches one text character: `.` matches anything
      except a newline, every other character only itself. */
  predicate PatternChar(p: char, c: char) {
    if p == '.' then c != '\n' else c == p
  }

  /** The pattern characters `p` match the first characters of `s`, one for one. */
  predicate PatternPrefix(p: string, s: string)
    decreases |p|
  {
    |p| <= |s| && (p == [] || (PatternChar(p[0], s[0]) && PatternPrefix(p[1..], s[1..])))
  }

  /** The characters `[^#"',]` excludes: they end a URL. */
  predicate IsUrlStop(c: char) {
    c == '#' || c == '"' || c == '\'' || c == ','
  }

  /** A string that the pattern `p` followed by `[^#"',]*` matches in full. */
  predicate IsMatch(p: string, m: string) {
    PatternPrefix(p, m) && forall k :: |p| <= k < |m| ==> !IsUrlStop(m[k])
  }

  /** Length of the longest prefix of `s` free of stop characters (the greedy `*`). */
  function RunLength(s: string): (n: nat)
    ensures n <= |s|
    ensures forall k :: 0 <= k < n ==> !IsUrlStop(s[k])
    ensures n < |s| ==> IsUrlStop(s[n])
    decreases |s|
  {
    if s == [] || IsUrlStop(s[0]) then 0 else 1 + RunLength(s[1..])
  }

  /** Length of the maximal match of `p` followed by the run, at the start of `s`. */
  function MatchLength(p: string, s: string): (n: nat)
    requires PatternPrefix(p, s)
    ensures |p| <= n <= |s| && IsMatch(p, s[..n])
    ensures n < |s| ==> IsUrlStop(s[n])
  {
    var n := |p| + RunLength(s[|p|..]);
    PatternPrefixTruncate(p, s, n);
    assert forall k :: |p| <= k < n ==> s[..n][k] == s[|p|..][k - |p|];
    n
  }

  /** A pattern that matches the start of `s` matches every longer prefix of it. */
  lemma {:induction false} PatternPrefixTruncate(p: string, s: string, n: nat)
    requires PatternPrefix(p, s) && |p| <= n <= |s|
    ensures PatternPrefix(p, s[..n])
    decreases |p|
  {
    if p != [] {
      assert s[..n][1..] == s[1..][..n - 1];
      PatternPrefixTruncate(p[1..], s[1..], n - 1);
    }
  }

  /** All leftmost-first, non-overlapping, maximal matches of `p` followed by
      `[^#"',]*` in `s`. */
  function FindAll(p: string, s: string): (r: seq<string>)
    requires p != []
    ensures forall k :: 0 <= k < |r| ==> IsMatch(p, r[k])
    decreases |s|
  {
    if s == [] then []
    else if PatternPrefix(p, s) then
      var n := MatchLength(p, s);
      [s[..n]] + FindAll(p, s[n..])
    else FindAll(p, s[1..])
  }

  /** `i` is the leftmost position at which `p` matches. */
  predicate FirstAt(p: string, s: string, i: int) {
    0 <= i <= |s| && PatternPrefix(p, s[i..]) && forall j :: 0 <= j < i ==> !PatternPrefix(p, s[j..])
  }

  /** Position of the leftmost place where `p` matches. */
  function Leftmost(p: string, s: string): (r: Option<nat>)
    ensures r.Some? ==> FirstAt(p, s, r.value)
    decreases |s|
  {
    if PatternPrefix(p, s) then assert s[0..] == s; Some(0)
    else if s == [] then None
    else match Leftmost(p, s[1..])
      case None => None
      case Some(i) =>
        assert s[i + 1..] == s[1..][i..];
        assert forall j :: 1 <= j <= i ==> s[j..] == s[1..][j - 1..];
        assert s[0..] == s;
        Some(i + 1)
  }

  /** The matches of `s` are the match at `i` followed by the matches after it. */
  predicate SplitAt(p: string, s: string, i: nat)
    requires p != [] && i <= |s| && PatternPrefix(p, s[i..])
  {
    var n := MatchLength(p, s[i..]);
    FindAll(p, s) == [s[i..i + n]] + FindAll(p, s[i + n..])
  }

  lemma SplitShift(p: string, s: string, i: nat)
    requires p != [] && s != [] && !PatternPrefix(p, s) && i < |s|
    requires PatternPrefix(p, s[1..][i..]) && SplitAt(p, s[1..], i)
    ensures PatternPrefix(p, s[i + 1..]) && SplitAt(p, s, i + 1)
  {
    var t := s[1..];
    assert t[i..] == s[i + 1..];
    var n := MatchLength(p, t[i..]);
    assert t[i..i + n] == s[i + 1..i + 1 + n] && t[i + n..] == s[i + 1 + n..];
  }

  /** When there is a match, the first one is the maximal match at the leftmost
      position where `p` matches, and the rest are the matches of what follows. */
  lemma {:induction false} FindAllLeftmost(p: string, s: string)
    requires p != [] && FindAll(p, s) != []
    ensures Leftmost(p, s).Some? && SplitAt(p, s, Leftmost(p, s).value)
    decreases |s|
  {
    if PatternPrefix(p, s) {
      assert s[0..] == s;
    } else {
      FindAllLeftmost(p, s[1..]);
      SplitShift(p, s, Leftmost(p, s[1..]).value);
    }
  }

  /** There is no match exactly when `p` matches at no position of `s`. */
  lemma {:induction false} FindAllEmptyIff(p: string, s: string)
    requires p != []
    ensures FindAll(p, s) == [] <==> forall i :: 0 <= i <= |s| ==> !PatternPrefix(p, s[i..])
    decreases |s|
  {
    if s == [] {
      assert forall i :: 0 <= i <= |s| ==> s[i..] == [];
    } else if PatternPrefix(p, s) {
      assert s[0..] == s;
    } else {
      FindAllEmptyIff(p, s[1..]);
      assert forall i :: 1 <= i <= |s| ==> s[i..] == s[1..][i - 1..];
      assert s[0..] == s;
    }
  }

  /** A pattern matches its own text when it holds no newline: each `.` then
      stands for itself. */
  lemma {:induction false} PatternMatchesItself(p: string, t: string)
    requires '\n' !in p
    ensures PatternPrefix(p, p + t)
    decreases |p|
  {
    if p != [] {
      assert (p + t)[1..] == p[1..] + t;
      assert '\n' !in p[1..] by { assert forall c :: c in p[1..] ==> c in p; }
      PatternMatchesItself(p[1..], t);
    }
  }

  // ---------------------------------------------------------------------
  // `http://mp.weixin.qq.com/s?[^#"',]*`
  // ---------------------------------------------------------------------

  /** The fixed part of the URL pattern. Each `.` in it is a regexp wildcard;
      the optional `s` that follows is absorbed by the run, since `s` is not a
      stop character. */
  const UrlPrefix: string := "http://mp.weixin.qq.com/"

  predicate IsUrl(m: string) {
    IsMatch(UrlPrefix, m)
  }

  /** `urlRegex.FindAllString(s, -1)`. */
  function UrlMatches(s: string): (r: seq<string>)
    ensures forall k :: 0 <= k < |r| ==> IsUrl(r[k]) && |r[k]| >= |UrlPrefix|
  {
    FindAll(UrlPrefix, s)
  }

  /** There is no URL exactly when the pattern matches at no position. */
  lemma UrlMatchesEmptyIff(s: string)
    ensures UrlMatches(s) == [] <==> forall i :: 0 <= i <= |s| ==> !PatternPrefix(UrlPrefix, s[i..])
  {
    FindAllEmptyIff(UrlPrefix, s);
  }

  /** The URLs come leftmost first: the first is the maximal match at the
      leftmost position where the pattern matches, the rest are found after it. */
  lemma UrlMatchesLeftmost(s: string)
    requires UrlMatches(s) != []
    ensures var i := Leftmost(UrlPrefix, s);
      i.Some? && FirstAt(UrlPrefix, s, i.value) && SplitAt(UrlPrefix, s, i.value)
  {
    FindAllLeftmost(UrlPrefix, s);
  }

  /** The site prefix written out literally starts a URL. */
  lemma LiteralPrefixIsUrl(t: string)
    ensures PatternPrefix(UrlPrefix, UrlPrefix + t)
  {
    PatternMatchesItself(UrlPrefix, t);
  }

  // ---------------------------------------------------------------------
  // `"id":(\d+)`
  // ---------------------------------------------------------------------

  const IdKey: string := "\"id\":"

  /** The id pattern matches at the start of `s`: the key and at least one digit. */
  predicate IdAt(s: string) {
    IsPrefix(IdKey, s) && |s| > |IdKey| && IsDigit(s[|IdKey|])
  }

  /** Length of the longest all-digit prefix of `s` (the greedy `\d+`). */
  function DigitRunLength(s: string): (n: nat)
    ensures n <= |s| && AllDigits(s[..n])
    ensures n < |s| ==> !IsDigit(s[n])
    decreases |s|
  {
    if s == [] || !IsDigit(s[0]) then 0 else 1 + DigitRunLength(s[1..])
  }

  /** The captured group of every match of `idRegex.FindAllStringSubmatch(s, -1)`. */
  function IdMatches(s: string): (r: seq<string>)
    ensures forall k :: 0 <= k < |r| ==> r[k] != [] && AllDigits(r[k])
    decreases |s|
  {
    if s == [] then []
    else if IdAt(s) then
      var d := DigitRunLength(s[|IdKey|..]);
      assert s[|IdKey|..][0] == s[|IdKey|] && d > 0;
      assert s[|IdKey|..|IdKey| + d] == s[|IdKey|..][..d];
      [s[|IdKey|..|IdKey| + d]] + IdMatches(s[|IdKey| + d..])
    else IdMatches(s[1..])
  }

  /** There is no id match exactly when the id pattern starts nowhere in `s`. */
  lemma {:induction false} IdMatchesEmptyIff(s: string)
    ensures IdMatches(s) == [] <==> forall i :: 0 <= i <= |s| ==> !IdAt(s[i..])
    decreases |s|
  {
    if s == [] {
      assert forall i :: 0 <= i <= |s| ==> s[i..] == [];
    } else if IdAt(s) {
      assert s[0..] == s;
    } else {
      IdMatchesEmptyIff(s[1..]);
      forall i | 1 <= i <= |s| ensures s[i..] == s[1..][i - 1..] { }
    }
  }

  /** An id key followed by digits and then a non-digit yields exactly those digits. */
  lemma IdMatchesOne(d: string, t: string)
    requires d != [] && AllDigits(d) && (t != [] ==> !IsDigit(t[0]))
    ensures IdMatches(IdKey + d + t) == [d] + IdMatches(t)
  {
    var s := IdKey + d + t;
    assert s[..|IdKey|] == IdKey && s[|IdKey|] == d[0];
    assert s[|IdKey|..] == d + t;
    DigitRunFull(d, t);
    assert s[|IdKey|..|IdKey| + |d|] == d && s[|IdKey| + |d|..] == t;
  }

  /** Text at none of whose positions the id pattern starts is skipped: it
      contributes no id and the scan goes on after it. */
  lemma {:induction false} IdMatchesSkip(a: string, s: string)
    requires forall i :: 0 <= i < |a| ==> !IdAt((a + s)[i..])
    ensures IdMatches(a + s) == IdMatches(s)
    decreases |a|
  {
    var t := a + s;
    if a == [] {
      assert t == s;
    } else {
      assert t[0..] == t && !IdAt(t);
      assert t[1..] == a[1..] + s;
      forall i | 0 <= i < |a[1..]|
        ensures !IdAt((a[1..] + s)[i..])
      {
        assert (a[1..] + s)[i..] == t[i + 1..];
      }
      IdMatchesSkip(a[1..], s);
    }
  }

  /** The ids come leftmost first: when the pattern starts nowhere in `a`,
      the first id of `a`, the key, digits `d` and then a non-digit is `d`,
      and the rest are the ids found after it. */
  lemma IdMatchesFirst(a: string, d: string, t: string)
    requires forall i :: 0 <= i < |a| ==> !IdAt((a + (IdKey + d + t))[i..])
    requires d != [] && AllDigits(d) && (t != [] ==> !IsDigit(t[0]))
    ensures IdMatches(a + (IdKey + d + t)) == [d] + IdMatches(t)
  {
    IdMatchesSkip(a, IdKey + d + t);
    IdMatchesOne(d, t);
  }

  lemma {:induction false} DigitRunFull(d: string, t: string)
    requires AllDigits(d) && (t != [] ==> !IsDigit(t[0]))
    ensures DigitRunLength(d + t) == |d|
    decreases |d|
  {
    if d == [] {
      assert d + t == t;
    } else {
      assert (d + t)[1..] == d[1..] + t;
      DigitRunFull(d[1..], t);
    }
  }

  // ---------------------------------------------------------------------
  // `"(.*)"`
  // ---------------------------------------------------------------------

  /** The part of `s` before its first newline (`.` does not match a newline). */
  function UpToNewline(s: string): (r: string)
    ensures '\n' !in r && IsPrefix(r, s)
    ensures '\n' !in s ==> r == s
  {
    match IndexOf(s, '\n')
    case Some(k) => s[..k]
    case None => s
  }

  /** The captured group of the first match of `tokenRegex.FindAllStringSubmatch(s, -1)`:
      from a double quote, the greedy `.*` runs to the end of the line and backs
      off to the last double quote on it. */
  function TokenMatch(s: string): Option<string>
    decreases |s|
  {
    if s == [] then None
    else if s[0] == '"' then
      var line := UpToNewline(s[1..]);
      match LastIndexOf(line, '"')
      case Some(j) => Some(line[..j])
      case None => TokenMatch(s[1..])
    else TokenMatch(s[1..])
  }

  /** Without a double quote there is no token. */
  lemma {:induction false} NoQuoteNoToken(s: string)
    requires '"' !in s
    ensures TokenMatch(s) == None
    decreases |s|
  {
    if s != [] {
      assert '"' !in s[1..] by { assert forall c :: c in s[1..] ==> c in s; }
      NoQuoteNoToken(s[1..]);
    }
  }

  /** A single line: no newline except possibly as its last character. */
  predicate SingleLine(s: string) {
    forall k :: 0 <= k < |s| - 1 ==> s[k] != '\n'
  }

  /** The token found between the first and the last double quote, if they differ. */
  predicate TokenSpec(s: string, t: Option<string>) {
    var i := IndexOf(s, '"');
    var j := LastIndexOf(s, '"');
    if i.Some? && j.Some? && i.value < j.value then t == Some(s[i.value + 1..j.value]) else t == None
  }

  /** On one line, the token is the text strictly between the first and the last
      double quote, and there is none unless the line holds two quotes. */
  lemma {:induction false} TokenBetweenQuotes(s: string)
    requires SingleLine(s)
    ensures TokenSpec(s, TokenMatch(s))
    decreases |s|
  {
    if s == [] {
    } else if s[0] != '"' {
      TokenBetweenQuotes(s[1..]);
      TokenSkip(s);
    } else {
      TokenAtQuote(s);
    }
  }

  /** A leading character other than a quote shifts both quote positions by one. */
  lemma TokenSkip(s: string)
    requires s != [] && s[0] != '"' && TokenSpec(s[1..], TokenMatch(s[1..]))
    ensures TokenSpec(s, TokenMatch(s))
  {
    TokenMatchSkip(s);
    TokenSpecShift(s, TokenMatch(s[1..]));
  }

  lemma TokenSpecShift(s: string, t: Option<string>)
    requires s != [] && s[0] != '"' && TokenSpec(s[1..], t)
    ensures TokenSpec(s, t)
  {
    var rest := s[1..];
    var i, j := IndexOf(rest, '"'), LastIndexOf(rest, '"');
    IndexOfShift(s);
    LastIndexOfShift(s);
    if i.Some? && j.Some? && i.value < j.value {
      SliceShift(s, i.value + 1, j.value);
    }
  }

  lemma SliceShift(s: string, a: nat, b: nat)
    requires a <= b < |s|
    ensures s[a + 1..b + 1] == s[1..][a..b]
  {
    forall k | 0 <= k < b - a
      ensures s[a + 1..b + 1][k] == s[1..][a..b][k]
    {
      assert s[1..][a..b][k] == s[1..][a + k] == s[a + 1 + k];
    }
  }

  lemma TokenMatchSkip(s: string)
    requires s != [] && s[0] != '"'
    ensures TokenMatch(s) == TokenMatch(s[1..])
  {
  }

  lemma IndexOfShift(s: string)
    requires s != [] && s[0] != '"'
    ensures var i := IndexOf(s[1..], '"'); IndexOf(s, '"') == if i.Some? then Some(i.value + 1) else None
  {
  }

  lemma LastIndexOfShift(s: string)
    requires s != [] && s[0] != '"'
    ensures var j := LastIndexOf(s[1..], '"'); LastIndexOf(s, '"') == if j.Some? then Some(j.value + 1) else None
  {
    assert s == [s[0]] + s[1..];
    LastIndexOfCons(s[0], s[1..], '"');
  }

  /** A line that starts with a quote: the token runs to the last quote on the
      line, or there is none when it holds no other quote. */
  lemma TokenAtQuote(s: string)
    requires SingleLine(s) && s != [] && s[0] == '"'
    ensures TokenSpec(s, TokenMatch(s))
  {
    var rest := s[1..];
    assert SingleLine(rest);
    LineQuotes(rest);
    LastIndexOfAtQuote(s);
    assert IndexOf(s, '"') == Some(0);
    match LastIndexOf(rest, '"')
    case Some(j) =>
      assert UpToNewline(rest)[..j] == s[1..j + 1];
    case None =>
      NoQuoteNoToken(rest);
  }

  /** On a single line, the line `.*` can reach holds the last quote of the text. */
  lemma LineQuotes(rest: string)
    requires SingleLine(rest)
    ensures var line := UpToNewline(rest);
      && |line| <= |rest| && line == rest[..|line|]
      && LastIndexOf(line, '"') == LastIndexOf(rest, '"')
  {
    var line := UpToNewline(rest);
    var tail := rest[|line|..];
    assert rest == line + tail;
    assert '"' !in tail by { LineOfSingleLine(rest); }
    LastIndexOfDropTail(line, tail, '"');
  }

  lemma LastIndexOfAtQuote(s: string)
    requires s != [] && s[0] == '"'
    ensures var j := LastIndexOf(s[1..], '"'); LastIndexOf(s, '"') == if j.Some? then Some(j.value + 1) else Some(0)
  {
    assert s == [s[0]] + s[1..];
    LastIndexOfCons(s[0], s[1..], '"');
  }

  /** What follows the line of a single line is at most its final newline. */
  lemma LineOfSingleLine(rest: string)
    requires forall k :: 0 <= k < |rest| - 1 ==> rest[k] != '\n'
    ensures forall k :: |UpToNewline(rest)| <= k < |rest| ==> rest[k] == '\n'
  {
  }

  lemma {:induction false} LastIndexOfDropTail(x: string, y: string, c: char)
    requires c !in y
    ensures LastIndexOf(x + y, c) == LastIndexOf(x, c)
    decreases |y|
  {
    if y == [] {
      assert x + y == x;
    } else {
      var y' := y[..|y| - 1];
      assert (x + y)[..|x + y| - 1] == x + y';
      assert c !in y' by { assert forall d :: d in y' ==> d in y; }
      LastIndexOfDropTail(x, y', c);
    }
  }

  lemma {:induction false} LastIndexOfCons(c0: char, x: string, c: char)
    ensures LastIndexOf([c0] + x, c) ==
      match LastIndexOf(x, c)
      case Some(j) => Some(j + 1)
      case None => if c0 == c then Some(0) else None
    decreases |x|
  {
    if x != [] {
      var x' := x[..|x| - 1];
      assert ([c0] + x)[..|x|] == [c0] + x';
      LastIndexOfCons(c0, x', c);
    }
  }
}
