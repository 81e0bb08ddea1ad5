/**
  The JSON document model (a serde_json::Value): null, booleans, numbers,
  strings, arrays and objects. An object is an association list; lookups take
  the first entry with a key, so the model does not depend on the key order
  that serde_json::Map keeps.
 */
module Json {
  import opened Wrappers

  datatype Json =
    | Null
    | Bool(b: bool)
    | Number(n: int)
    | String(s: string)
    | Array(items: seq<Json>)
    | Object(members: seq<(string, Json)>)

  type Members = seq<(string, Json)>

  /** The keys an object carries. */
  function Keys(ms: Members): set<string>
  {
    if ms == [] then {} else {ms[0].0} + Keys(ms[1..])
  }

  /** `map.get(key)`: the value under `k`, if any. */
  function Get(ms: Members, k: string): (r: Option<Json>)
    ensures r.Some? <==> k in Keys(ms)
    ensures r.Some? ==> (k, r.value) in ms
  {
    if ms == [] then None
    else if ms[0].0 == k then Some(ms[0].1)
    else Get(ms[1..], k)
  }

  /** `value.get(key)`: only objects have fields. */
  function Field(v: Json, k: string): (r: Option<Json>)
    ensures r.Some? <==> v.Object? && k in Keys(v.members)
    ensures r.Some? ==> (k, r.value) in v.members
  {
    if v.Object? then Get(v.members, k) else None
  }

  /** `map.remove(key)`: drops every entry under `k`, keeps the others in order. */
  function Remove(ms: Members, k: string): (r: Members)
    ensures Keys(r) == Keys(ms) - {k}
    ensures forall j :: j != k ==> Get(r, j) == Get(ms, j)
    ensures forall e :: e in r ==> e in ms
    ensures |r| <= |ms|
  {
    if ms == [] then []
    else if ms[0].0 == k then Remove(ms[1..], k)
    else [ms[0]] + Remove(ms[1..], k)
  }

  lemma {:induction false} GetAppend(ms: Members, ns: Members, k: string)
    ensures Get(ms + ns, k) == if k in Keys(ms) then Get(ms, k) else Get(ns, k)
    ensures Keys(ms + ns) == Keys(ms) + Keys(ns)
  {
    if ms == [] {
      assert ms + ns == ns;
    } else {
      assert (ms + ns)[1..] == ms[1..] + ns;
      GetAppend(ms[1..], ns, k);
    }
  }

  /** `map.insert(key, value)`: afterwards `k` maps to `v`, every other key is as before. */
  function Insert(ms: Members, k: string, v: Json): (r: Members)
    ensures Get(r, k) == Some(v)
    ensures Keys(r) == Keys(ms) + {k}
    ensures forall j :: j != k ==> Get(r, j) == Get(ms, j)
  {
    var rest := Remove(ms, k);
    GetAppend(rest, [(k, v)], k);
    forall j | j != k
      ensures Get(rest + [(k, v)], j) == Get(ms, j)
    {
      GetAppend(rest, [(k, v)], j);
    }
    rest + [(k, v)]
  }

  /** No object anywhere in `v` carries a `$ref` key. */
  predicate NoRefs(v: Json)
  {
    match v
    case Array(items) => forall i :: 0 <= i < |items| ==> NoRefs(items[i])
    case Object(ms) => "$ref" !in Keys(ms) && forall i :: 0 <= i < |ms| ==> NoRefs(ms[i].1)
    case _ => true
  }

  /** The nesting depth of a value: a scalar has depth 1, a container one more than its deepest child. */
  function Depth(v: Json): (d: nat)
    ensures d >= 1
    ensures v.Array? ==> forall i :: 0 <= i < |v.items| ==> Depth(v.items[i]) < d
    ensures v.Object? ==> forall i :: 0 <= i < |v.members| ==> Depth(v.members[i].1) < d
  {
    match v
    case Array(items) =>
      var ds := seq(|items|, i requires 0 <= i < |items| => Depth(items[i]));
      assert forall i :: 0 <= i < |items| ==> ds[i] == Depth(items[i]);
      1 + MaxOf(ds)
    case Object(ms) =>
      var ds := seq(|ms|, i requires 0 <= i < |ms| => Depth(ms[i].1));
      assert forall i :: 0 <= i < |ms| ==> ds[i] == Depth(ms[i].1);
      1 + MaxOf(ds)
    case _ => 1
  }

  function MaxOf(s: seq<nat>): (m: nat)
    ensures forall i :: 0 <= i < |s| ==> s[i] <= m
  {
    if s == [] then 0
    else var m := MaxOf(s[1..]); if s[0] < m then m else s[0]
  }

  /** Concatenation regrouped, for the proofs that build sequences element by element. */
  lemma Regroup<T>(a: seq<T>, b: seq<T>, c: seq<T>)
    ensures a + (b + c) == a + b + c
  {
  }
}
