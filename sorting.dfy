/** `Array.prototype.sort` with a numeric comparator `(a, b) => key(a) - key(b)`:
    a stable sort into ascending key order (the language requires stability since ES2019).
    Sorting by `(a, b) => key(b) - key(a)` is this sort on the negated key. */
module Sorting {
  import opened Seqs

  ghost predicate SortedBy<T>(s: seq<T>, key: T -> int) {
    forall i, j :: 0 <= i < j < |s| ==> key(s[i]) <= key(s[j])
  }

  /** Places `x` before the first element whose key is not smaller than its own. */
  function Insert<T>(x: T, s: seq<T>, key: T -> int): (r: seq<T>)
    requires SortedBy(s, key)
    ensures SortedBy(r, key)
    ensures multiset(r) == multiset(s) + multiset{x}
    ensures |r| == |s| + 1 && (r[0] == x || (s != [] && r[0] == s[0]))
  {
    if s == [] || key(x) <= key(s[0]) then
      ConsSorted(x, s, key);
      [x] + s
    else
      var t := Insert(x, s[1..], key);
      assert s == [s[0]] + s[1..];
      ConsSorted(s[0], t, key);
      [s[0]] + t
  }

  /** An element no larger than the head of a sorted list can go in front of it. */
  lemma ConsSorted<T>(y: T, t: seq<T>, key: T -> int)
    requires SortedBy(t, key) && (t == [] || key(y) <= key(t[0]))
    ensures SortedBy([y] + t, key)
  {
    var r := [y] + t;
    forall i, j | 0 <= i < j < |r| ensures key(r[i]) <= key(r[j]) {
      if i == 0 {
        assert key(t[0]) <= key(t[j - 1]) || j == 1;
      }
    }
  }

  /** Insertion sort: sorted by `key`, and a permutation of the input. */
  function SortBy<T>(s: seq<T>, key: T -> int): (r: seq<T>)
    ensures SortedBy(r, key)
    ensures multiset(r) == multiset(s)
  {
    if s == [] then []
    else
      assert s == [s[0]] + s[1..];
      Insert(s[0], SortBy(s[1..], key), key)
  }

  /** The elements with one given key, in order. */
  function WithKey<T>(s: seq<T>, key: T -> int, k: int): seq<T> {
    if s == [] then []
    else if key(s[0]) == k then [s[0]] + WithKey(s[1..], key, k)
    else WithKey(s[1..], key, k)
  }

  /** `WithKey` is the filter by any predicate that picks out exactly that key. */
  lemma {:induction false} WithKeyIsFilter<T>(s: seq<T>, key: T -> int, k: int, p: T -> bool)
    requires forall i :: 0 <= i < |s| ==> p(s[i]) == (key(s[i]) == k)
    ensures WithKey(s, key, k) == Filter(s, p)
  {
    if s != [] {
      WithKeyIsFilter(s[1..], key, k, p);
    }
  }

  /** Inserting `x` leaves the elements of every other key in place and puts `x`
      ahead of the elements that share its key. */
  lemma {:induction false} InsertStable<T>(x: T, s: seq<T>, key: T -> int, k: int)
    requires SortedBy(s, key)
    ensures WithKey(Insert(x, s, key), key, k)
         == if key(x) == k then [x] + WithKey(s, key, k) else WithKey(s, key, k)
  {
    if s == [] || key(x) <= key(s[0]) {
      assert ([x] + s)[1..] == s;
    } else {
      InsertStable(x, s[1..], key, k);
      var t := Insert(x, s[1..], key);
      assert ([s[0]] + t)[1..] == t;
      if key(x) == k {
        assert key(s[0]) != k;
      }
    }
  }

  /** Stability: for every key, the elements with that key keep their input order. */
  lemma {:induction false} SortStable<T>(s: seq<T>, key: T -> int, k: int)
    ensures WithKey(SortBy(s, key), key, k) == WithKey(s, key, k)
  {
    if s != [] {
      SortStable(s[1..], key, k);
      InsertStable(s[0], SortBy(s[1..], key), key, k);
    }
  }

  /** Stability stated with a filter: any predicate that picks out one key sees the same
      elements, in the same order, before and after the sort. */
  lemma SortStableFilter<T>(s: seq<T>, key: T -> int, k: int, p: T -> bool)
    requires forall i :: 0 <= i < |s| ==> p(s[i]) == (key(s[i]) == k)
    ensures Filter(SortBy(s, key), p) == Filter(s, p)
  {
    var r := SortBy(s, key);
    forall i | 0 <= i < |r| ensures p(r[i]) == (key(r[i]) == k) {
      assert r[i] in multiset(r);
      var j :| 0 <= j < |s| && s[j] == r[i];
    }
    SortStable(s, key, k);
    WithKeyIsFilter(r, key, k, p);
    WithKeyIsFilter(s, key, k, p);
  }
}
