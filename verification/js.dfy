/** JavaScript values as `JSON.parse` produces them and as the server builds
    them for `JSON.stringify`. Objects keep their members in insertion order;
    a key may occur twice only in parsed text, and then the later member wins,
    as it does in `JSON.parse`. */
module Js {
  import opened Wrappers

  datatype Json =
    | JNull
    | JBool(b: bool)
    | JNum(n: int)
    | JStr(s: string)
    | JArr(items: seq<Json>)
    | JObj(members: seq<Member>)

  datatype Member = Member(key: string, value: Json)

  /** The position of the LAST member named `key`, or -1 when there is none. */
  function LastIndex(ms: seq<Member>, key: string): (i: int)
    ensures -1 <= i < |ms|
    ensures 0 <= i ==> ms[i].key == key
  {
    if |ms| == 0 then -1
    else if ms[|ms| - 1].key == key then |ms| - 1
    else
      var i := LastIndex(ms[..|ms| - 1], key);
      assert 0 <= i ==> ms[..|ms| - 1][i] == ms[i];
      i
  }

  /** No member after the one LastIndex picks carries `key`; -1 means none does. */
  lemma {:induction false} LastIndexIsLast(ms: seq<Member>, key: string)
    ensures forall j :: LastIndex(ms, key) < j < |ms| ==> ms[j].key != key
  {
    if |ms| > 0 && ms[|ms| - 1].key != key {
      var init := ms[..|ms| - 1];
      LastIndexIsLast(init, key);
      assert forall j :: 0 <= j < |init| ==> init[j] == ms[j];
    }
  }

  /** The value of the last member named `key`, or None when there is none. */
  function Find(ms: seq<Member>, key: string): Option<Json> {
    var i := LastIndex(ms, key);
    if i < 0 then None else Some(ms[i].value)
  }

  /** Appending a member: it wins if it carries `key`, otherwise nothing changes. */
  lemma FindSnoc(ms: seq<Member>, m: Member, key: string)
    ensures Find(ms + [m], key) == if m.key == key then Some(m.value) else Find(ms, key)
  {
    assert (ms + [m])[..|ms|] == ms;
    var i := LastIndex(ms, key);
    if 0 <= i {
      assert (ms + [m])[i] == ms[i];
    }
  }

  /** Lookup in a three-member object, last member first. */
  lemma FindThree(m0: Member, m1: Member, m2: Member, key: string)
    ensures Find([m0, m1, m2], key)
            == if m2.key == key then Some(m2.value)
               else if m1.key == key then Some(m1.value)
               else if m0.key == key then Some(m0.value)
               else None
  {
    assert [m0, m1, m2] == [m0, m1] + [m2] && [m0, m1] == [m0] + [m1] && [m0] == [] + [m0];
    FindSnoc([m0, m1], m2, key);
    FindSnoc([m0], m1, key);
    FindSnoc([], m0, key);
  }

  /** Property access `v?.key`: undefined unless `v` is an object holding `key`. */
  function Get(v: Json, key: string): (r: Option<Json>)
    ensures !v.JObj? ==> r.None?
  {
    if v.JObj? then Find(v.members, key) else None
  }

  /** A two-member object `{k1: v1, k2: v2}` with distinct keys. */
  function Pair(k1: string, v1: Json, k2: string, v2: Json): (r: Json)
    requires k1 != k2
    ensures Get(r, k1) == Some(v1) && Get(r, k2) == Some(v2)
    ensures OnlyKeys(r, k1, k2)
  {
    var ms := [Member(k1, v1), Member(k2, v2)];
    assert ms[..1] == [Member(k1, v1)];
    assert Find(ms[..1], k1) == Some(v1);
    JObj(ms)
  }

  /** `v` is an object with exactly two members, named `k1` and `k2` in that order. */
  predicate OnlyKeys(v: Json, k1: string, k2: string) {
    v.JObj? && |v.members| == 2 && v.members[0].key == k1 && v.members[1].key == k2
  }

  /** An object with only the keys `k1` and `k2` has no other property. */
  lemma OnlyKeysOthersAbsent(v: Json, k1: string, k2: string, k: string)
    requires OnlyKeys(v, k1, k2) && k != k1 && k != k2
    ensures Get(v, k).None?
  {
    var ms := v.members;
    assert ms == [ms[0]] + [ms[1]] && [ms[0]] == [] + [ms[0]];
    FindSnoc([ms[0]], ms[1], k);
    FindSnoc([], ms[0], k);
  }

  /** JavaScript truthiness of a possibly undefined value (`!x` is its negation).
      `undefined`, `null`, `false`, `0` and `""` are falsy; arrays and objects,
      even empty ones, are truthy. */
  predicate Truthy(v: Option<Json>) {
    match v
    case None => false
    case Some(JNull) => false
    case Some(JBool(b)) => b
    case Some(JNum(n)) => n != 0
    case Some(JStr(s)) => s != ""
    case Some(JArr(_)) => true
    case Some(JObj(_)) => true
  }
}
