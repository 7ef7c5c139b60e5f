/**
 * JSON documents at the level of parsed trees. The model does not fix the
 * exact text `json.dumps` emits (indentation, escapes); it keeps what the
 * relay depends on: the members of an object in the order they are written,
 * with `sort_keys=True` putting them in key order, and `json.loads` keeping
 * the last of several equal keys.
 */
module Json {
  import opened Wrappers
  import Strings

  datatype Json =
    | JNull
    | JString(str: string)
    | JArray(items: seq<Json>)
    | JObject(members: seq<(string, Json)>)

  /** The keys of an object's members, in written order. */
  function Keys(members: seq<(string, Json)>): (keys: seq<string>)
    ensures |keys| == |members|
    ensures forall i :: 0 <= i < |members| ==> keys[i] == members[i].0
  {
    if members == [] then [] else Keys(members[..|members| - 1]) + [members[|members| - 1].0]
  }

  /**
   * Member lookup as a parsed Python dict answers it: absent when no member
   * has the key, otherwise the value of the LAST member with that key.
   */
  function Get(members: seq<(string, Json)>, key: string): (r: Option<Json>)
    ensures r.None? <==> forall i :: 0 <= i < |members| ==> members[i].0 != key
    ensures r.Some? ==> (key, r.value) in members
  {
    if members == [] then None
    else if members[|members| - 1].0 == key then Some(members[|members| - 1].1)
    else Get(members[..|members| - 1], key)
  }

  /** The member Get finds is the last one with the key: a later member with the key takes over. */
  lemma {:induction false} GetFindsLast(members: seq<(string, Json)>, key: string, i: nat)
    requires i < |members| && members[i].0 == key
    requires forall j :: i < j < |members| ==> members[j].0 != key
    ensures Get(members, key) == Some(members[i].1)
  {
    if i < |members| - 1 {
      GetFindsLast(members[..|members| - 1], key, i);
    }
  }

  /** Members whose keys never decrease. */
  predicate KeyOrdered(members: seq<(string, Json)>)
  {
    forall i, j :: 0 <= i < j < |members| ==> Strings.LessEq(members[i].0, members[j].0)
  }

  /** Every member of `members` has a key at or after `key`. */
  predicate AllAtOrAfter(key: string, members: seq<(string, Json)>)
  {
    forall j :: 0 <= j < |members| ==> Strings.LessEq(key, members[j].0)
  }

  lemma AtOrAfterOfSameMembers(key: string, xs: seq<(string, Json)>, ys: seq<(string, Json)>)
    requires AllAtOrAfter(key, xs) && multiset(ys) <= multiset(xs)
    ensures AllAtOrAfter(key, ys)
  {
    forall j | 0 <= j < |ys| ensures Strings.LessEq(key, ys[j].0) {
      assert ys[j] in multiset(xs);
    }
  }

  lemma AtOrAfterOfFirst(key: string, sorted: seq<(string, Json)>)
    requires KeyOrdered(sorted) && sorted != [] && Strings.LessEq(key, sorted[0].0)
    ensures AllAtOrAfter(key, sorted)
  {
    forall j | 1 <= j < |sorted| ensures Strings.LessEq(key, sorted[j].0) {
      Strings.LessEqTransitive(key, sorted[0].0, sorted[j].0);
    }
  }

  lemma FirstBeforeRest(sorted: seq<(string, Json)>, m: (string, Json))
    requires KeyOrdered(sorted) && sorted != [] && Strings.LessEq(sorted[0].0, m.0)
    ensures AllAtOrAfter(sorted[0].0, sorted + [m]) && KeyOrdered(sorted[1..])
  {
  }

  lemma ConsKeyOrdered(x: (string, Json), rest: seq<(string, Json)>)
    requires KeyOrdered(rest) && AllAtOrAfter(x.0, rest)
    ensures KeyOrdered([x] + rest)
  {
  }

  /** Inserts one member into members already in key order. */
  function InsertByKey(m: (string, Json), sorted: seq<(string, Json)>): (r: seq<(string, Json)>)
    requires KeyOrdered(sorted)
    ensures multiset(r) == multiset(sorted) + multiset{m}
    ensures KeyOrdered(r)
  {
    if sorted == [] then [m]
    else if Strings.LessEq(m.0, sorted[0].0) then
      AtOrAfterOfFirst(m.0, sorted);
      [m] + sorted
    else
      Strings.LessTotal(m.0, sorted[0].0);
      FirstBeforeRest(sorted, m);
      var rest := InsertByKey(m, sorted[1..]);
      assert sorted == [sorted[0]] + sorted[1..];
      AtOrAfterOfSameMembers(sorted[0].0, sorted + [m], rest);
      ConsKeyOrdered(sorted[0], rest);
      [sorted[0]] + rest
  }

  /** The members in the order `json.dumps(..., sort_keys=True)` writes them. */
  function SortKeys(members: seq<(string, Json)>): (r: seq<(string, Json)>)
    ensures multiset(r) == multiset(members)
    ensures KeyOrdered(r)
  {
    if members == [] then []
    else
      assert members == members[..|members| - 1] + [members[|members| - 1]];
      InsertByKey(members[|members| - 1], SortKeys(members[..|members| - 1]))
  }
}
