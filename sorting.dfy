/** `DataFrame.sort_values` on one integer column: a stable insertion sort
    by a key.  The frame's sort is not stable, so the model fixes one order
    of ties.  `SortBy` promises what any sort does: the result is ordered by
    the key and is a permutation of the input.  `SortByMap` proves more,
    that sorting commutes with a map preserving the key; that holds for
    this sort, not for every unstable one, and the model uses it only with
    `EventTime`, where equal keys (timestamps) give equal rows, so there it
    holds whatever order the ties take. */
module Sorting {

  predicate SortedBy<T>(s: seq<T>, key: T -> int) {
    forall i, j :: 0 <= i < j < |s| ==> key(s[i]) <= key(s[j])
  }

  function MapSeq<A, B>(f: A -> B, s: seq<A>): (r: seq<B>)
    ensures |r| == |s|
    ensures forall i {:trigger r[i]} :: 0 <= i < |s| ==> r[i] == f(s[i])
  {
    if s == [] then [] else [f(s[0])] + MapSeq(f, s[1..])
  }

  /** Places `x` before the first element of `s` whose key exceeds its own. */
  function Insert<T>(x: T, s: seq<T>, key: T -> int): (r: seq<T>)
    ensures multiset(r) == multiset(s) + multiset{x}
    ensures |r| == |s| + 1
  {
    if s == [] || key(x) <= key(s[0]) then [x] + s
    else
      assert s == [s[0]] + s[1..];
      [s[0]] + Insert(x, s[1..], key)
  }

  predicate AllAtLeast<T>(s: seq<T>, key: T -> int, lo: int) {
    forall k :: 0 <= k < |s| ==> lo <= key(s[k])
  }

  /** A lower bound on the keys of `x` and of `s` bounds the keys of the
      insertion. */
  lemma {:induction false} InsertBound<T>(x: T, s: seq<T>, key: T -> int, lo: int)
    requires lo <= key(x) && AllAtLeast(s, key, lo)
    ensures AllAtLeast(Insert(x, s, key), key, lo)
  {
    if s != [] && key(x) > key(s[0]) {
      InsertBound(x, s[1..], key, lo);
      var rest := Insert(x, s[1..], key);
      assert Insert(x, s, key) == [s[0]] + rest;
    }
  }

  /** Inserting into a sorted sequence keeps it sorted. */
  lemma {:induction false} InsertSorted<T>(x: T, s: seq<T>, key: T -> int)
    requires SortedBy(s, key)
    ensures SortedBy(Insert(x, s, key), key)
  {
    if s == [] || key(x) <= key(s[0]) {
      PrependSorted(x, s, key);
    } else {
      InsertSorted(x, s[1..], key);
      InsertBound(x, s[1..], key, key(s[0]));
      PrependSorted(s[0], Insert(x, s[1..], key), key);
    }
  }

  /** A head no greater than anything in a sorted tail keeps it sorted. */
  lemma PrependSorted<T>(h: T, s: seq<T>, key: T -> int)
    requires SortedBy(s, key)
    requires s == [] || key(h) <= key(s[0])
    ensures SortedBy([h] + s, key)
  {
    var r := [h] + s;
    forall a, b | 0 <= a < b < |r| ensures key(r[a]) <= key(r[b]) {
      assert r[b] == s[b - 1];
      if a > 0 {
        assert r[a] == s[a - 1];
      } else {
        assert key(s[0]) <= key(s[b - 1]);
      }
    }
  }

  function SortBy<T>(s: seq<T>, key: T -> int): (r: seq<T>)
    ensures SortedBy(r, key)
    ensures multiset(r) == multiset(s)
    ensures |r| == |s|
  {
    if s == [] then []
    else
      assert s == [s[0]] + s[1..];
      InsertSorted(s[0], SortBy(s[1..], key), key);
      Insert(s[0], SortBy(s[1..], key), key)
  }

  /** Sorting commutes with a map that carries the key along. */
  lemma {:induction false} InsertMap<A, B>(f: A -> B, x: A, s: seq<A>, ka: A -> int, kb: B -> int)
    requires forall a :: kb(f(a)) == ka(a)
    requires SortedBy(s, ka)
    ensures SortedBy(MapSeq(f, s), kb)
    ensures Insert(f(x), MapSeq(f, s), kb) == MapSeq(f, Insert(x, s, ka))
  {
    if s != [] {
      InsertMap(f, x, s[1..], ka, kb);
    }
  }

  lemma {:induction false} SortByMap<A, B>(f: A -> B, s: seq<A>, ka: A -> int, kb: B -> int)
    requires forall a :: kb(f(a)) == ka(a)
    ensures SortBy(MapSeq(f, s), kb) == MapSeq(f, SortBy(s, ka))
  {
    if s != [] {
      SortByMap(f, s[1..], ka, kb);
      InsertMap(f, s[0], SortBy(s[1..], ka), ka, kb);
    }
  }
}
