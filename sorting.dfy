/**
 * Python's stable `sorted(records, key=lambda r: r.year)`, which every
 * module applies to its year records before deriving anything.
 */
module Sorting {

  predicate SortedBy<T>(s: seq<T>, key: T -> int)
  {
    forall i, j :: 0 <= i < j < |s| ==> key(s[i]) <= key(s[j])
  }

  /** Inserts `x` after every element whose key is not larger, keeping the sort stable. */
  function Insert<T>(x: T, s: seq<T>, key: T -> int): (r: seq<T>)
    requires SortedBy(s, key)
    ensures |r| == |s| + 1
    ensures SortedBy(r, key)
    ensures multiset(r) == multiset(s) + multiset{x}
    ensures forall i :: 0 <= i < |r| ==> r[i] == x || r[i] in s
    decreases |s|
  {
    if s == [] || key(s[|s| - 1]) <= key(x) then s + [x]
    else
      var init := s[..|s| - 1];
      assert s == init + [s[|s| - 1]];
      Insert(x, init, key) + [s[|s| - 1]]
  }

  /** Insertion sort by `key`; equal keys keep their input order, as Python's sort does (SortStable). */
  function SortBy<T>(s: seq<T>, key: T -> int): (r: seq<T>)
    ensures |r| == |s|
    ensures SortedBy(r, key)
    ensures multiset(r) == multiset(s)
    decreases |s|
  {
    if s == [] then []
    else
      var init := s[..|s| - 1];
      assert s == init + [s[|s| - 1]];
      Insert(s[|s| - 1], SortBy(init, key), key)
  }

  lemma SortedElements<T>(s: seq<T>, key: T -> int, i: nat)
    requires i < |s|
    ensures SortBy(s, key)[i] in s
  {
    var r := SortBy(s, key);
    assert r[i] in multiset(r);
  }

  /** No element's key exceeds the key of the last element after sorting. */
  lemma SortedLastBound<T>(s: seq<T>, key: T -> int, i: nat)
    requires i < |s|
    ensures key(s[i]) <= key(SortBy(s, key)[|s| - 1])
  {
    var r := SortBy(s, key);
    assert s[i] in multiset(r) by { assert s[i] in multiset(s); }
    var k :| 0 <= k < |r| && r[k] == s[i];
  }

  /** The elements of `s` whose key is `k`, in their order in `s`. */
  function WithKey<T>(s: seq<T>, key: T -> int, k: int): (r: seq<T>)
    ensures |r| <= |s|
    ensures forall i :: 0 <= i < |r| ==> key(r[i]) == k && r[i] in s
  {
    if s == [] then []
    else
      var init := s[..|s| - 1];
      assert forall y :: y in init ==> y in s;
      WithKey(init, key, k) + (if key(s[|s| - 1]) == k then [s[|s| - 1]] else [])
  }

  lemma WithKeyAppend<T>(s: seq<T>, x: T, key: T -> int, k: int)
    ensures WithKey(s + [x], key, k) == WithKey(s, key, k) + (if key(x) == k then [x] else [])
  {
    assert (s + [x])[..|s + [x]| - 1] == s;
  }

  /** An element with a larger key than `x` can pass it: at most one of the two has key `k`. */
  lemma SwapPast<T>(w: seq<T>, x: T, last: T, key: T -> int, k: int)
    requires key(x) < key(last)
    ensures w + (if key(x) == k then [x] else []) + (if key(last) == k then [last] else [])
            == w + (if key(last) == k then [last] else []) + (if key(x) == k then [x] else [])
  {
  }

  /** Inserting `x` into a sorted list puts it after every element of its key. */
  lemma {:induction false} InsertWithKey<T>(x: T, s: seq<T>, key: T -> int, k: int)
    requires SortedBy(s, key)
    ensures WithKey(Insert(x, s, key), key, k) == WithKey(s, key, k) + (if key(x) == k then [x] else [])
    decreases |s|
  {
    if s == [] || key(s[|s| - 1]) <= key(x) {
      WithKeyAppend(s, x, key, k);
    } else {
      var init := s[..|s| - 1];
      var last := s[|s| - 1];
      assert s == init + [last];
      assert Insert(x, s, key) == Insert(x, init, key) + [last];
      InsertWithKey(x, init, key, k);
      WithKeyAppend(Insert(x, init, key), last, key, k);
      WithKeyAppend(init, last, key, k);
      SwapPast(WithKey(init, key, k), x, last, key, k);
    }
  }

  /**
   * Stability: for every key, the elements with that key appear in the
   * sorted list in the order they had in the input.
   */
  lemma {:induction false} SortStable<T>(s: seq<T>, key: T -> int, k: int)
    ensures WithKey(SortBy(s, key), key, k) == WithKey(s, key, k)
    decreases |s|
  {
    if s != [] {
      var init := s[..|s| - 1];
      var last := s[|s| - 1];
      assert s == init + [last];
      SortStable(init, key, k);
      InsertWithKey(last, SortBy(init, key), key, k);
      WithKeyAppend(init, last, key, k);
    }
  }

  /** Reverse of `s`. */
  function Reverse<T>(s: seq<T>): (r: seq<T>)
    ensures |r| == |s|
    ensures forall i :: 0 <= i < |s| ==> r[i] == s[|s| - 1 - i]
  {
    if s == [] then [] else Reverse(s[1..]) + [s[0]]
  }

  lemma {:induction false} ReverseMultiset<T>(s: seq<T>)
    ensures multiset(Reverse(s)) == multiset(s)
  {
    if s != [] {
      ReverseMultiset(s[1..]);
      assert s == [s[0]] + s[1..];
    }
  }
}
