/** `Array.prototype.sort` with a numeric comparator `(a, b) => key(a) - key(b)`.
    The sort is stable, so it is modelled as an insertion sort that places an
    element before the first element whose key is not smaller. */
module Sorting {

  predicate SortedBy<T>(s: seq<T>, key: T -> int) {
    forall i, j | 0 <= i < j < |s| :: key(s[i]) <= key(s[j])
  }

  function Insert<T>(x: T, s: seq<T>, key: T -> int): (r: seq<T>)
    requires SortedBy(s, key)
    ensures |r| == |s| + 1
    ensures multiset(r) == multiset(s) + multiset{x}
    ensures SortedBy(r, key)
  {
    if s == [] || key(x) <= key(s[0]) then [x] + s
    else
      var t := Insert(x, s[1..], key);
      InsertBehindHead(x, s, t, key);
      [s[0]] + t
  }

  /** Inserting behind the head keeps the head first and the elements. */
  lemma InsertBehindHead<T>(x: T, s: seq<T>, t: seq<T>, key: T -> int)
    requires s != [] && key(s[0]) < key(x) && SortedBy(s, key)
    requires multiset(t) == multiset(s[1..]) + multiset{x} && SortedBy(t, key)
    ensures multiset([s[0]] + t) == multiset(s) + multiset{x}
    ensures SortedBy([s[0]] + t, key)
  {
    assert s == [s[0]] + s[1..];
    forall k | 0 <= k < |t| ensures key(s[0]) <= key(t[k]) {
      assert t[k] in multiset(t);
      if t[k] != x {
        assert t[k] in multiset(s[1..]);
        var j :| 0 <= j < |s[1..]| && s[1..][j] == t[k];
        assert s[j + 1] == t[k];
      }
    }
    var r := [s[0]] + t;
    forall i, j | 0 <= i < j < |r| ensures key(r[i]) <= key(r[j]) {
      if i > 0 { assert r[i] == t[i - 1] && r[j] == t[j - 1]; }
      else { assert r[j] == t[j - 1]; }
    }
  }

  /** The stable ascending sort by `key`. */
  function SortBy<T>(s: seq<T>, key: T -> int): (r: seq<T>)
    ensures |r| == |s|
    ensures multiset(r) == multiset(s)
    ensures SortedBy(r, key)
  {
    if s == [] then []
    else
      assert s == [s[0]] + s[1..];
      Insert(s[0], SortBy(s[1..], key), key)
  }

  /** Every element of a sorted prefix has a key no larger than any element after it. */
  lemma PrefixBelowRest<T>(s: seq<T>, key: T -> int, n: nat, x: T, y: T)
    requires SortedBy(s, key) && n <= |s|
    requires x in s[..n] && y in s[n..]
    ensures key(x) <= key(y)
  {
    var i :| 0 <= i < n && s[i] == x;
    var j :| n <= j < |s| && s[j] == y;
  }

  /** The first `n` of the sorted order: drawn from `s`, in key order, and
      no element left out has a smaller key than one kept. */
  lemma Top<T>(s: seq<T>, key: T -> int, n: nat)
    requires n <= |s|
    ensures var top := SortBy(s, key)[..n];
      && multiset(top) <= multiset(s)
      && (forall i, j | 0 <= i < j < |top| :: key(top[i]) <= key(top[j]))
      && forall x, k | x in multiset(s) - multiset(top) && 0 <= k < |top| :: key(top[k]) <= key(x)
  {
    var sorted := SortBy(s, key);
    var top := sorted[..n];
    assert sorted == top + sorted[n..];
    assert multiset(s) == multiset(top) + multiset(sorted[n..]);
    forall x, k | x in multiset(s) - multiset(top) && 0 <= k < |top|
      ensures key(top[k]) <= key(x)
    {
      assert x in multiset(sorted[n..]);
      assert top[k] in sorted[..n];
      PrefixBelowRest(sorted, key, n, top[k], x);
    }
  }
}
