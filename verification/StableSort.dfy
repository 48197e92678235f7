/** Python's stable `sorted(xs, key=...)` as a function, for integer keys. */
module StableSort {

  ghost predicate SortedBy<T>(key: T -> int, xs: seq<T>) {
    forall i, j :: 0 <= i < j < |xs| ==> key(xs[i]) <= key(xs[j])
  }

  /** Puts x before the first element with a larger-or-equal key. */
  function Insert<T>(key: T -> int, x: T, xs: seq<T>): (r: seq<T>)
    ensures multiset(r) == multiset{x} + multiset(xs)
    ensures |r| == |xs| + 1
  {
    if xs == [] then [x]
    else if key(x) <= key(xs[0]) then [x] + xs
    else
      assert xs == [xs[0]] + xs[1..];
      [xs[0]] + Insert(key, x, xs[1..])
  }

  function Sort<T>(key: T -> int, xs: seq<T>): (r: seq<T>)
    ensures multiset(r) == multiset(xs)
    ensures |r| == |xs|
  {
    if xs == [] then []
    else
      assert xs == [xs[0]] + xs[1..];
      Insert(key, xs[0], Sort(key, xs[1..]))
  }

  lemma {:induction false} InsertSorts<T>(key: T -> int, x: T, xs: seq<T>)
    requires SortedBy(key, xs)
    ensures SortedBy(key, Insert(key, x, xs))
  {
    if xs == [] || key(x) <= key(xs[0]) {
    } else {
      assert SortedBy(key, xs[1..]);
      InsertSorts(key, x, xs[1..]);
      var r := Insert(key, x, xs[1..]);
      forall i | 0 <= i < |r| ensures key(xs[0]) <= key(r[i]) {
        assert r[i] in multiset(r);
        if r[i] != x {
          assert r[i] in multiset(xs[1..]);
        }
      }
    }
  }

  lemma {:induction false} SortSorts<T>(key: T -> int, xs: seq<T>)
    ensures SortedBy(key, Sort(key, xs))
  {
    if xs != [] {
      SortSorts(key, xs[1..]);
      InsertSorts(key, xs[0], Sort(key, xs[1..]));
    }
  }

  /** The elements with a given key, in order. */
  function WithKey<T>(key: T -> int, k: int, xs: seq<T>): seq<T> {
    if xs == [] then [] else (if key(xs[0]) == k then [xs[0]] else []) + WithKey(key, k, xs[1..])
  }

  lemma {:induction false} InsertIsStable<T>(key: T -> int, k: int, x: T, xs: seq<T>)
    ensures WithKey(key, k, Insert(key, x, xs)) == WithKey(key, k, [x] + xs)
  {
    assert ([x] + xs)[1..] == xs;
    if xs != [] && key(x) > key(xs[0]) {
      InsertIsStable(key, k, x, xs[1..]);
      assert ([x] + xs[1..])[1..] == xs[1..];
      var r := Insert(key, x, xs[1..]);
      assert ([xs[0]] + r)[1..] == r;
    }
  }

  /** Elements with equal keys keep their order. */
  lemma {:induction false} SortIsStable<T>(key: T -> int, k: int, xs: seq<T>)
    ensures WithKey(key, k, Sort(key, xs)) == WithKey(key, k, xs)
  {
    if xs != [] {
      SortIsStable(key, k, xs[1..]);
      var r := Sort(key, xs[1..]);
      InsertIsStable(key, k, xs[0], r);
      assert ([xs[0]] + r)[1..] == r;
    }
  }

  /** The same elements in order of their keys, those with equal keys in their old order. */
  ghost predicate IsStableSort<T(!new)>(key: T -> int, sorted: seq<T>, xs: seq<T>) {
    && multiset(sorted) == multiset(xs) && SortedBy(key, sorted)
    && forall k :: WithKey(key, k, sorted) == WithKey(key, k, xs)
  }

  lemma SortMeetsSpec<T(!new)>(key: T -> int, xs: seq<T>)
    ensures IsStableSort(key, Sort(key, xs), xs)
  {
    SortSorts(key, xs);
    forall k ensures WithKey(key, k, Sort(key, xs)) == WithKey(key, k, xs) {
      SortIsStable(key, k, xs);
    }
  }

  /** A list already in order is left alone. */
  lemma {:induction false} SortFixesSorted<T>(key: T -> int, xs: seq<T>)
    requires SortedBy(key, xs)
    ensures Sort(key, xs) == xs
  {
    if xs != [] {
      SortFixesSorted(key, xs[1..]);
      if |xs| > 1 {
        assert xs[1..][0] == xs[1] && key(xs[0]) <= key(xs[1]);
      }
      assert xs == [xs[0]] + xs[1..];
    }
  }
}
