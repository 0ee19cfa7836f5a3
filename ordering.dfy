/**
 * Stable ordering by an integer timestamp. JavaScript's `Array.prototype.sort`
 * is stable, and SQL `ORDER BY created_at` is read here with ties kept in
 * insertion order; both are this insertion sort.
 */
module Ordering {

  ghost predicate SortedBy<T>(xs: seq<T>, key: T -> int) {
    forall i, j :: 0 <= i < j < |xs| ==> key(xs[i]) <= key(xs[j])
  }

  /** The elements of `xs` whose key is `k`, in their order in `xs`. */
  function WithKey<T>(xs: seq<T>, key: T -> int, k: int): seq<T> {
    if xs == [] then []
    else (if key(xs[0]) == k then [xs[0]] else []) + WithKey(xs[1..], key, k)
  }

  /** Puts `x` before the first element whose key is not smaller than its own. */
  function Insert<T>(x: T, xs: seq<T>, key: T -> int): (r: seq<T>)
    ensures multiset(r) == multiset(xs) + multiset{x}
    ensures |r| == |xs| + 1
  {
    if xs == [] || key(x) <= key(xs[0]) then [x] + xs
    else
      assert xs == [xs[0]] + xs[1..];
      [xs[0]] + Insert(x, xs[1..], key)
  }

  /** Putting an element no larger than any other in front keeps a list sorted. */
  lemma ConsKeepsSorted<T>(y: T, ys: seq<T>, key: T -> int)
    requires SortedBy(ys, key)
    requires forall i :: 0 <= i < |ys| ==> key(y) <= key(ys[i])
    ensures SortedBy([y] + ys, key)
  {
    var r := [y] + ys;
    forall i, j | 0 <= i < j < |r| ensures key(r[i]) <= key(r[j]) {
      assert r[j] == ys[j - 1];
      if i > 0 {
        assert r[i] == ys[i - 1];
      }
    }
  }

  /** Inserting an element whose key is at least `k` into a list whose keys are all at least `k`. */
  lemma {:induction false} InsertKeepsBound<T>(x: T, xs: seq<T>, key: T -> int, k: int)
    requires k <= key(x)
    requires forall i :: 0 <= i < |xs| ==> k <= key(xs[i])
    ensures forall i :: 0 <= i < |xs| + 1 ==> k <= key(Insert(x, xs, key)[i])
    decreases |xs|
  {
    if xs != [] && key(xs[0]) < key(x) {
      InsertKeepsBound(x, xs[1..], key, k);
    }
  }

  /** Inserting into a sorted list keeps it sorted. */
  lemma {:induction false} InsertKeepsSorted<T>(x: T, xs: seq<T>, key: T -> int)
    requires SortedBy(xs, key)
    ensures SortedBy(Insert(x, xs, key), key)
    decreases |xs|
  {
    if xs == [] || key(x) <= key(xs[0]) {
      ConsKeepsSorted(x, xs, key);
    } else {
      var rest := Insert(x, xs[1..], key);
      InsertKeepsSorted(x, xs[1..], key);
      InsertKeepsBound(x, xs[1..], key, key(xs[0]));
      ConsKeepsSorted(xs[0], rest, key);
    }
  }

  /** The list sorted by key, equal keys in their original order. */
  function SortBy<T>(xs: seq<T>, key: T -> int): (r: seq<T>)
    ensures SortedBy(r, key)
    ensures multiset(r) == multiset(xs) && |r| == |xs|
  {
    if xs == [] then []
    else
      assert xs == [xs[0]] + xs[1..];
      var rest := SortBy(xs[1..], key);
      InsertKeepsSorted(xs[0], rest, key);
      Insert(xs[0], rest, key)
  }

  lemma WithKeyConcat<T>(xs: seq<T>, ys: seq<T>, key: T -> int, k: int)
    ensures WithKey(xs + ys, key, k) == WithKey(xs, key, k) + WithKey(ys, key, k)
  {
    if xs != [] {
      assert (xs + ys)[1..] == xs[1..] + ys;
      WithKeyConcat(xs[1..], ys, key, k);
    } else {
      assert xs + ys == ys;
    }
  }

  lemma {:induction false} InsertWithKey<T>(x: T, xs: seq<T>, key: T -> int, k: int)
    ensures WithKey(Insert(x, xs, key), key, k) == (if key(x) == k then [x] else []) + WithKey(xs, key, k)
    decreases |xs|
  {
    if xs == [] || key(x) <= key(xs[0]) {
      assert ([x] + xs)[1..] == xs;
    } else {
      var rest := Insert(x, xs[1..], key);
      InsertWithKey(x, xs[1..], key, k);
      var r := [xs[0]] + rest;
      assert r[1..] == rest;
      var head := if key(xs[0]) == k then [xs[0]] else [];
      assert WithKey(r, key, k) == head + WithKey(rest, key, k);
      assert WithKey(xs, key, k) == head + WithKey(xs[1..], key, k);
    }
  }

  /** Sorting keeps the relative order of elements with equal keys. */
  lemma {:induction false} SortByIsStable<T>(xs: seq<T>, key: T -> int, k: int)
    ensures WithKey(SortBy(xs, key), key, k) == WithKey(xs, key, k)
  {
    if xs != [] {
      SortByIsStable(xs[1..], key, k);
      InsertWithKey(xs[0], SortBy(xs[1..], key), key, k);
    }
  }
}
