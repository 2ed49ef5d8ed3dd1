/** JavaScript `Map`s, and plain objects used as dictionaries, iterate in
    insertion order, and the extension's sorts, "first maximum" scans and
    language searches depend on that order.  They are modelled as lists of
    entries in insertion order; `set` on an existing key keeps its place. */
module JsMap {
  import opened Common

  function Keys<K, V>(m: seq<(K, V)>): (ks: seq<K>)
    ensures |ks| == |m|
    ensures forall i :: 0 <= i < |m| ==> ks[i] == m[i].0
  {
    if m == [] then [] else [m[0].0] + Keys(m[1..])
  }

  function Values<K, V>(m: seq<(K, V)>): (vs: seq<V>)
    ensures |vs| == |m|
    ensures forall i :: 0 <= i < |m| ==> vs[i] == m[i].1
  {
    if m == [] then [] else [m[0].1] + Values(m[1..])
  }

  /** No key occurs twice, as in every `Map`. */
  predicate DistinctKeys<K(==), V>(m: seq<(K, V)>) {
    forall i, j | 0 <= i < j < |m| :: m[i].0 != m[j].0
  }

  /** Position of `k`, or `|m|` when `m.has(k)` is false. */
  function IndexOfKey<K(==), V>(m: seq<(K, V)>, k: K): (i: nat)
    ensures i <= |m|
    ensures i < |m| ==> m[i].0 == k
    ensures forall j :: 0 <= j < i ==> m[j].0 != k
  {
    if m == [] then 0 else if m[0].0 == k then 0 else 1 + IndexOfKey(m[1..], k)
  }

  /** `m.has(k)`. */
  predicate Has<K(==), V>(m: seq<(K, V)>, k: K) {
    IndexOfKey(m, k) < |m|
  }

  /** `m.get(k)`, `None` standing for `undefined`. */
  function Get<K(==), V>(m: seq<(K, V)>, k: K): (r: Option<V>)
    ensures r.Some? <==> Has(m, k)
    ensures r.Some? ==> exists i | 0 <= i < |m| :: m[i] == (k, r.value)
  {
    var i := IndexOfKey(m, k);
    if i < |m| then Some(m[i].1) else None
  }

  /** `m.set(k, v)`: overwrites in place, or appends a new last entry. */
  function Set<K(==), V>(m: seq<(K, V)>, k: K, v: V): (r: seq<(K, V)>)
    ensures Has(m, k) ==> |r| == |m| && r == m[IndexOfKey(m, k) := (k, v)]
    ensures !Has(m, k) ==> r == m + [(k, v)]
  {
    var i := IndexOfKey(m, k);
    if i < |m| then m[i := (k, v)] else m + [(k, v)]
  }

  /** Setting a key other than the first leaves the first entry in front. */
  lemma SetCons<K, V>(m: seq<(K, V)>, k: K, v: V)
    requires m != [] && m[0].0 != k
    ensures Set(m, k, v) == [m[0]] + Set(m[1..], k, v)
  {
    var i := IndexOfKey(m, k);
    assert IndexOfKey(m[1..], k) == i - 1;
    if i < |m| {
      assert m[i := (k, v)] == [m[0]] + m[1..][i - 1 := (k, v)];
    } else {
      assert m + [(k, v)] == [m[0]] + (m[1..] + [(k, v)]);
    }
  }

  /** `m.delete(k)`. */
  function Delete<K(==), V>(m: seq<(K, V)>, k: K): (r: seq<(K, V)>)
    ensures Has(m, k) ==> |r| == |m| - 1
    ensures !Has(m, k) ==> r == m
  {
    var i := IndexOfKey(m, k);
    if i < |m| then m[..i] + m[i + 1..] else m
  }

  /** After `m.set(k, v)`, `get` sees `v` at `k` and the old value elsewhere. */
  lemma {:induction false} GetSet<K, V>(m: seq<(K, V)>, k: K, v: V, j: K)
    ensures Get(Set(m, k, v), j) == if j == k then Some(v) else Get(m, j)
  {
    if m != [] && m[0].0 != k {
      SetCons(m, k, v);
      assert ([m[0]] + Set(m[1..], k, v))[1..] == Set(m[1..], k, v);
      if m[0].0 != j {
        GetSet(m[1..], k, v, j);
      }
    }
  }

  lemma SetKeepsDistinct<K, V>(m: seq<(K, V)>, k: K, v: V)
    requires DistinctKeys(m)
    ensures DistinctKeys(Set(m, k, v))
  {
  }

  lemma DeleteKeepsDistinct<K, V>(m: seq<(K, V)>, k: K)
    requires DistinctKeys(m)
    ensures DistinctKeys(Delete(m, k))
    ensures !Has(Delete(m, k), k)
  {
    var i := IndexOfKey(m, k);
    var r := Delete(m, k);
    if i < |m| {
      forall t | 0 <= t < |r| ensures r[t].0 != k {
        if t < i { } else { assert r[t] == m[t + 1]; }
      }
    }
  }
}
