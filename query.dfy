/**
 * Query strings as `url.Values` (a map from a key to its values), the
 * next-page URL of the pagination loop (processor.go:309-330) and the key
 * from which a content id is hashed (processor.go:332-335).
 */
module Query {
  import opened Wrappers
  import opened Text

  /** `url.Values`. */
  type Values = map<string, seq<string>>

  /** `url.Values.Get`: the first value of `key`, or the empty string. */
  function Get(q: Values, key: string): string {
    if key in q && q[key] != [] then q[key][0] else ""
  }

  /** `url.Values.Set`: `key` now has exactly the one value `value`. */
  function Set(q: Values, key: string, value: string): Values {
    q[key := [value]]
  }

  /** The scheme, host and path every next-page request goes to. */
  const ProfileExt: string := "http://mp.weixin.qq.com/mp/profile_ext?"

  /** A request URL: `base` followed by the encoding of `query`. */
  datatype PageUrl = PageUrl(base: string, query: Values)

  /** `Set` applied to each pair in turn, earliest first. */
  function SetAll(q: Values, pairs: seq<(string, string)>): Values
    decreases |pairs|
  {
    if pairs == [] then q else SetAll(Set(q, pairs[0].0, pairs[0].1), pairs[1..])
  }

  /** The keys a list of pairs sets. */
  function KeysOf(pairs: seq<(string, string)>): set<string> {
    set i | 0 <= i < |pairs| :: pairs[i].0
  }

  /** No key is set twice. */
  predicate DistinctKeys(pairs: seq<(string, string)>) {
    forall i, j :: 0 <= i < j < |pairs| ==> pairs[i].0 != pairs[j].0
  }

  /** Setting keys adds exactly those keys and leaves every other key alone. */
  lemma {:induction false} SetAllKeeps(q: Values, pairs: seq<(string, string)>)
    ensures SetAll(q, pairs).Keys == q.Keys + KeysOf(pairs)
    ensures forall k :: k in q && k !in KeysOf(pairs) ==> SetAll(q, pairs)[k] == q[k]
    decreases |pairs|
  {
    if pairs != [] {
      var q' := Set(q, pairs[0].0, pairs[0].1);
      SetAllKeeps(q', pairs[1..]);
      assert KeysOf(pairs) == {pairs[0].0} + KeysOf(pairs[1..]) by {
        forall k | k in KeysOf(pairs) ensures k in {pairs[0].0} + KeysOf(pairs[1..]) {
          var i :| 0 <= i < |pairs| && pairs[i].0 == k;
          if i > 0 { assert pairs[1..][i - 1].0 == k; }
        }
        forall k | k in KeysOf(pairs[1..]) ensures k in KeysOf(pairs) {
          var i :| 0 <= i < |pairs[1..]| && pairs[1..][i].0 == k;
          assert pairs[i + 1].0 == k;
        }
      }
    }
  }

  /** With no key set twice, each key ends up holding just the value paired with it. */
  lemma {:induction false} SetAllAt(q: Values, pairs: seq<(string, string)>, i: nat)
    requires DistinctKeys(pairs) && i < |pairs|
    ensures pairs[i].0 in SetAll(q, pairs) && SetAll(q, pairs)[pairs[i].0] == [pairs[i].1]
    decreases |pairs|
  {
    var q' := Set(q, pairs[0].0, pairs[0].1);
    if i == 0 {
      SetAllKeeps(q', pairs[1..]);
      assert pairs[0].0 !in KeysOf(pairs[1..]);
    } else {
      assert pairs[1..][i - 1] == pairs[i];
      SetAllAt(q', pairs[1..], i - 1);
    }
  }

  /** The keys `genPageUrl` sets, with their values, in the order it sets them. */
  function PagingPairs(offset: int, token: string): seq<(string, string)> {
    [("offset", Itoa(offset)), ("action", "getmsg"), ("count", "10"), ("f", "json"),
     ("is_ok", "1"), ("uin", "777"), ("key", "777"), ("appmsg_token", token), ("x5", "1")]
  }

  /** The keys the next-page request overrides. */
  const PageKeys: set<string> :=
    {"offset", "action", "count", "f", "is_ok", "uin", "key", "appmsg_token", "x5"}

  /** `genPageUrl`: the original query with the paging keys set, in the source's order. */
  function GenPageUrl(q: Values, offset: int, token: string): PageUrl {
    PageUrl(ProfileExt, SetAll(q, PagingPairs(offset, token)))
  }

  lemma PagingPairsKeys(offset: int, token: string)
    ensures KeysOf(PagingPairs(offset, token)) == PageKeys
    ensures DistinctKeys(PagingPairs(offset, token))
  {
    var ps := PagingPairs(offset, token);
    assert ps[0].0 == "offset" && ps[1].0 == "action" && ps[2].0 == "count";
    assert ps[3].0 == "f" && ps[4].0 == "is_ok" && ps[5].0 == "uin";
    assert ps[6].0 == "key" && ps[7].0 == "appmsg_token" && ps[8].0 == "x5";
  }

  /** The next-page request goes to the profile endpoint with exactly the
      original keys plus the paging keys, and every other key of the original
      query keeps its values. */
  lemma GenPageUrlKeeps(q: Values, offset: int, token: string)
    ensures var u := GenPageUrl(q, offset, token);
      && u.base == ProfileExt
      && u.query.Keys == q.Keys + PageKeys
      && forall k :: k in q && k !in PageKeys ==> u.query[k] == q[k]
  {
    PagingPairsKeys(offset, token);
    SetAllKeeps(q, PagingPairs(offset, token));
  }

  /** Each paging key holds exactly its one fixed value; the offset reads back
      as the offset and the token is the session token. */
  lemma GenPageUrlSets(q: Values, offset: int, token: string)
    ensures var u := GenPageUrl(q, offset, token);
      && PageKeys <= u.query.Keys
      && u.query["offset"] == [Itoa(offset)]
      && ParseInt(Get(u.query, "offset")) == Some(offset)
      && u.query["action"] == ["getmsg"]
      && u.query["count"] == ["10"]
      && u.query["f"] == ["json"]
      && u.query["is_ok"] == ["1"]
      && u.query["uin"] == ["777"]
      && u.query["key"] == ["777"]
      && u.query["appmsg_token"] == [token]
      && u.query["x5"] == ["1"]
  {
    var ps := PagingPairs(offset, token);
    PagingPairsKeys(offset, token);
    forall i | 0 <= i < |ps|
      ensures ps[i].0 in SetAll(q, ps) && SetAll(q, ps)[ps[i].0] == [ps[i].1]
    {
      SetAllAt(q, ps, i);
    }
    assert ps[0] == ("offset", Itoa(offset)) && ps[1] == ("action", "getmsg") && ps[2] == ("count", "10");
    assert ps[3] == ("f", "json") && ps[4] == ("is_ok", "1") && ps[5] == ("uin", "777");
    assert ps[6] == ("key", "777") && ps[7] == ("appmsg_token", token) && ps[8] == ("x5", "1");
    GenPageUrlKeeps(q, offset, token);
    ItoaRoundTrip(offset);
  }

  // ---------------------------------------------------------------------
  // Content ids
  // ---------------------------------------------------------------------

  /** The string `genId` hands to `hashKey`: `__biz`, `mid` and `idx` joined by `_`. */
  function IdKey(q: Values): string {
    Get(q, "__biz") + "_" + Get(q, "mid") + "_" + Get(q, "idx")
  }

  /** `genId` over a parsed URL; `hashKey` (an MD5 hex digest) is the parameter. */
  function GenId(hashKey: string -> string, q: Values): string {
    hashKey(IdKey(q))
  }

  /** Two URLs that agree on `__biz`, `mid` and `idx` get the same id, whatever
      else their queries hold. */
  lemma {:induction false} SameIdKeySameId(hashKey: string -> string, q1: Values, q2: Values)
    requires Get(q1, "__biz") == Get(q2, "__biz")
    requires Get(q1, "mid") == Get(q2, "mid") && Get(q1, "idx") == Get(q2, "idx")
    ensures IdKey(q1) == IdKey(q2) && GenId(hashKey, q1) == GenId(hashKey, q2)
  {
  }

  /** Joining with `_` loses information once a value holds `_` itself. */
  lemma IdKeyNotInjective()
    ensures var q1 := map["__biz" := ["a_b"], "mid" := ["c"], "idx" := ["1"]];
      var q2 := map["__biz" := ["a"], "mid" := ["b_c"], "idx" := ["1"]];
      Get(q1, "__biz") != Get(q2, "__biz") && IdKey(q1) == IdKey(q2)
  {
    var q1 := map["__biz" := ["a_b"], "mid" := ["c"], "idx" := ["1"]];
    var q2 := map["__biz" := ["a"], "mid" := ["b_c"], "idx" := ["1"]];
    assert Get(q1, "__biz") == "a_b" && Get(q2, "__biz") == "a";
    assert Get(q1, "mid") == "c" && Get(q2, "mid") == "b_c";
  }

  /** The first `_` of a join is the separator when `a` holds none. */
  lemma SeparatorFirst(a: string, b: string)
    requires '_' !in a
    ensures IndexOf(a + "_" + b, '_') == Some(|a|)
  {
    var s := a + "_" + b;
    assert s[..|a|] == a && s[|a|] == '_';
  }

  /** Splitting at the first `_` is unique. */
  lemma JoinUnique(a: string, b: string, a': string, b': string)
    requires '_' !in a && '_' !in a' && a + "_" + b == a' + "_" + b'
    ensures a == a' && b == b'
  {
    var s := a + "_" + b;
    SeparatorFirst(a, b);
    SeparatorFirst(a', b');
    assert a == s[..|a|] && a' == s[..|a'|];
    assert b == s[|a| + 1..] && b' == (a' + "_" + b')[|a'| + 1..];
  }

  /** Without `_` in any of the three values, the key determines them. */
  lemma IdKeyInjectiveWithoutUnderscore(q1: Values, q2: Values)
    requires '_' !in Get(q1, "__biz") && '_' !in Get(q1, "mid")
    requires '_' !in Get(q2, "__biz") && '_' !in Get(q2, "mid")
    requires IdKey(q1) == IdKey(q2)
    ensures Get(q1, "__biz") == Get(q2, "__biz")
    ensures Get(q1, "mid") == Get(q2, "mid") && Get(q1, "idx") == Get(q2, "idx")
  {
    var b1, m1, i1 := Get(q1, "__biz"), Get(q1, "mid"), Get(q1, "idx");
    var b2, m2, i2 := Get(q2, "__biz"), Get(q2, "mid"), Get(q2, "idx");
    assert IdKey(q1) == b1 + "_" + (m1 + "_" + i1);
    assert IdKey(q2) == b2 + "_" + (m2 + "_" + i2);
    JoinUnique(b1, m1 + "_" + i1, b2, m2 + "_" + i2);
    JoinUnique(m1, i1, m2, i2);
  }
}
