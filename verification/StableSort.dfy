/**
 The stable sort by an integer key that every ordered projection of a report uses.
 Its meaning is fixed without naming the algorithm: the keys ascend, and for each key
 the elements with that key keep their order (StableSortUnique).
 */
module StableSort {

  /** The subsequence of the elements whose key is k. */
  function WithKey<T>(xs: seq<T>, key: T -> int, k: int): seq<T> {
    if xs == [] then []
    else (if key(xs[0]) == k then [xs[0]] else []) + WithKey(xs[1..], key, k)
  }

  ghost predicate Ascending<T>(xs: seq<T>, key: T -> int) {
    forall i, j | 0 <= i < j < |xs| :: key(xs[i]) <= key(xs[j])
  }

  ghost predicate StrictlyAscending<T>(xs: seq<T>, key: T -> int) {
    forall i, j | 0 <= i < j < |xs| :: key(xs[i]) < key(xs[j])
  }

  /** ys is the stable sort of xs. */
  ghost predicate IsStableSort<T>(xs: seq<T>, ys: seq<T>, key: T -> int) {
    Ascending(ys, key) && forall k :: WithKey(ys, key, k) == WithKey(xs, key, k)
  }

  function Insert<T>(x: T, xs: seq<T>, key: T -> int): seq<T> {
    if xs == [] || key(x) <= key(xs[0]) then [x] + xs
    else [xs[0]] + Insert(x, xs[1..], key)
  }

  lemma {:induction false} InsertPermutes<T>(x: T, xs: seq<T>, key: T -> int)
    ensures multiset(Insert(x, xs, key)) == multiset{x} + multiset(xs)
    decreases |xs|
  {
    if xs == [] || key(x) <= key(xs[0]) {
    } else {
      InsertPermutes(x, xs[1..], key);
      assert xs == [xs[0]] + xs[1..];
      assert multiset(xs) == multiset{xs[0]} + multiset(xs[1..]);
    }
  }

  lemma {:induction false} InsertAscends<T>(x: T, xs: seq<T>, key: T -> int)
    requires Ascending(xs, key)
    ensures Ascending(Insert(x, xs, key), key)
    ensures forall e | e in Insert(x, xs, key) :: e == x || e in xs
    decreases |xs|
  {
    if xs == [] || key(x) <= key(xs[0]) {
    } else {
      InsertAscends(x, xs[1..], key);
      var rest := Insert(x, xs[1..], key);
      forall i | 0 <= i < |rest| ensures key(xs[0]) <= key(rest[i]) {
        assert rest[i] in rest;
        if rest[i] != x {
          var j :| 0 <= j < |xs[1..]| && xs[1..][j] == rest[i];
          assert xs[j + 1] == rest[i];
        }
      }
    }
  }

  function Sort<T>(xs: seq<T>, key: T -> int): (r: seq<T>)
    ensures multiset(r) == multiset(xs) && |r| == |xs|
    ensures Ascending(r, key)
  {
    if xs == [] then []
    else
      var rest := Sort(xs[1..], key);
      InsertAscends(xs[0], rest, key);
      InsertPermutes(xs[0], rest, key);
      assert xs == [xs[0]] + xs[1..];
      var r := Insert(xs[0], rest, key);
      assert |multiset(r)| == |r| && |multiset(xs)| == |xs|;
      r
  }

  lemma WithKeyCons<T>(x: T, xs: seq<T>, key: T -> int, k: int)
    ensures WithKey([x] + xs, key, k) == (if key(x) == k then [x] else []) + WithKey(xs, key, k)
  {
    assert ([x] + xs)[1..] == xs;
  }

  lemma {:induction false} InsertKeepsKeys<T>(x: T, xs: seq<T>, key: T -> int, k: int)
    requires Ascending(xs, key)
    ensures WithKey(Insert(x, xs, key), key, k) == (if key(x) == k then [x] else []) + WithKey(xs, key, k)
    decreases |xs|
  {
    if xs == [] || key(x) <= key(xs[0]) {
      WithKeyCons(x, xs, key, k);
    } else {
      InsertKeepsKeys(x, xs[1..], key, k);
      WithKeyCons(xs[0], Insert(x, xs[1..], key), key, k);
      var rest := WithKey(xs[1..], key, k);
      assert key(xs[0]) != k || key(x) != k;
      assert [] + rest == rest && [] + ([xs[0]] + rest) == [xs[0]] + ([] + rest);
    }
  }

  lemma {:induction false} SortKeepsKeys<T>(xs: seq<T>, key: T -> int, k: int)
    ensures WithKey(Sort(xs, key), key, k) == WithKey(xs, key, k)
    decreases |xs|
  {
    if xs != [] {
      SortKeepsKeys(xs[1..], key, k);
      InsertKeepsKeys(xs[0], Sort(xs[1..], key), key, k);
    }
  }

  lemma SortIsStable<T>(xs: seq<T>, key: T -> int)
    ensures IsStableSort(xs, Sort(xs, key), key)
  {
    forall k ensures WithKey(Sort(xs, key), key, k) == WithKey(xs, key, k) {
      SortKeepsKeys(xs, key, k);
    }
  }

  lemma {:induction false} WithKeyFinds<T>(xs: seq<T>, key: T -> int, i: nat)
    requires i < |xs|
    ensures xs[i] in WithKey(xs, key, key(xs[i]))
    decreases |xs|
  {
    if i > 0 { WithKeyFinds(xs[1..], key, i - 1); }
  }

  lemma {:induction false} WithKeySound<T>(xs: seq<T>, key: T -> int, k: int, x: T)
    requires x in WithKey(xs, key, k)
    ensures x in xs && key(x) == k
    decreases |xs|
  {
    if xs[0] != x || key(xs[0]) != k { WithKeySound(xs[1..], key, k, x); }
  }

  /** The two conditions of IsStableSort leave exactly one sequence. */
  lemma {:induction false} StableSortUnique<T>(a: seq<T>, b: seq<T>, key: T -> int)
    requires Ascending(a, key) && Ascending(b, key)
    requires forall k :: WithKey(a, key, k) == WithKey(b, key, k)
    ensures a == b
    decreases |a|
  {
    if a == [] {
      if b != [] { assert false; }
    } else {
      WithKeyFinds(a, key, 0);
      WithKeySound(b, key, key(a[0]), a[0]);
      WithKeyFinds(b, key, 0);
      WithKeySound(a, key, key(b[0]), b[0]);
      assert key(a[0]) == key(b[0]);
      var k := key(a[0]);
      assert WithKey(a, key, k)[0] == a[0] && WithKey(b, key, k)[0] == b[0];
      forall j ensures WithKey(a[1..], key, j) == WithKey(b[1..], key, j) {
        assert WithKey(a, key, j) == (if k == j then [a[0]] else []) + WithKey(a[1..], key, j);
        assert WithKey(b, key, j) == (if k == j then [b[0]] else []) + WithKey(b[1..], key, j);
        assert WithKey(a, key, j)[if k == j then 1 else 0..] == WithKey(a[1..], key, j);
        assert WithKey(b, key, j)[if k == j then 1 else 0..] == WithKey(b[1..], key, j);
      }
      StableSortUnique(a[1..], b[1..], key);
    }
  }

  /** With pairwise different keys any ascending arrangement is the same one, stable or not. */
  lemma {:induction false} SortDistinct<T>(xs: seq<T>, ys: seq<T>, key: T -> int)
    requires StrictlyAscending(ys, key) && multiset(xs) == multiset(ys)
    ensures Sort(xs, key) == ys
  {
    AscendingUnique(Sort(xs, key), ys, key);
  }

  lemma {:induction false} AscendingUnique<T>(a: seq<T>, b: seq<T>, key: T -> int)
    requires Ascending(a, key) && StrictlyAscending(b, key) && multiset(a) == multiset(b)
    ensures a == b
    decreases |a|
  {
    assert |multiset(a)| == |a| && |multiset(b)| == |b|;
    if a != [] {
      assert a[0] in multiset(b) && b[0] in multiset(a);
      var i :| 0 <= i < |b| && b[i] == a[0];
      assert i == 0;
      assert a == [a[0]] + a[1..];
      assert b == [b[0]] + b[1..];
      assert multiset(a[1..]) == multiset(a) - multiset{a[0]};
      assert multiset(b[1..]) == multiset(b) - multiset{b[0]};
      AscendingUnique(a[1..], b[1..], key);
    }
  }
}
