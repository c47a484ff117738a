/**
 * The two query shapes the chat routes use: `find(filter)` keeps the matching records in
 * storage order, and `.sort({ key: 1 })` orders them by a numeric key. Sorting is an insertion
 * sort; only its result, not its algorithm, matters to the model.
 */
module Ordering {

  /** Non-decreasing by `key`. */
  predicate SortedBy<T>(s: seq<T>, key: T -> int)
  {
    forall i, j :: 0 <= i < j < |s| ==> key(s[i]) <= key(s[j])
  }

  /** Strictly increasing by `key`. */
  predicate IncreasingBy<T>(s: seq<T>, key: T -> int)
  {
    forall i, j :: 0 <= i < j < |s| ==> key(s[i]) < key(s[j])
  }

  /** Appending an element with a larger key than all others keeps a strict order. */
  lemma IncreasingAppend<T>(s: seq<T>, x: T, key: T -> int)
    requires IncreasingBy(s, key) && forall k :: 0 <= k < |s| ==> key(s[k]) < key(x)
    ensures IncreasingBy(s + [x], key)
  {
    forall i, j | 0 <= i < j < |s + [x]|
      ensures key((s + [x])[i]) < key((s + [x])[j])
    {
      assert (s + [x])[i] == s[i];
      if j < |s| {
        assert (s + [x])[j] == s[j];
      }
    }
  }

  /** The elements of `s` that satisfy `p`, in the order of `s`. */
  function Filter<T(!new)>(s: seq<T>, p: T -> bool): (r: seq<T>)
    ensures |r| <= |s|
    ensures forall x :: x in r <==> x in s && p(x)
  {
    if s == [] then [] else (if p(s[0]) then [s[0]] else []) + Filter(s[1..], p)
  }

  /** Inserts `x` into a sorted sequence before the first element whose key is not smaller. */
  function Insert<T(!new)>(x: T, s: seq<T>, key: T -> int): (r: seq<T>)
    requires SortedBy(s, key)
    ensures |r| == |s| + 1
    ensures forall y :: y in r <==> y == x || y in s
    ensures multiset(r) == multiset(s) + multiset{x}
    ensures SortedBy(r, key)
  {
    if s == [] || key(x) <= key(s[0]) then [x] + s
    else
      var rest := Insert(x, s[1..], key);
      assert s == [s[0]] + s[1..];
      LowerBound(key(s[0]), x, s[1..], rest, key);
      SortedCons(s[0], rest, key);
      [s[0]] + rest
  }

  /** A lower bound of `x` and of every element of `s` bounds every element of `r`, which holds just those. */
  lemma LowerBound<T>(b: int, x: T, s: seq<T>, r: seq<T>, key: T -> int)
    requires b <= key(x) && forall k :: 0 <= k < |s| ==> b <= key(s[k])
    requires forall y :: y in r <==> y == x || y in s
    ensures forall k :: 0 <= k < |r| ==> b <= key(r[k])
  {
    forall k | 0 <= k < |r|
      ensures b <= key(r[k])
    {
      assert r[k] in r;
      if r[k] != x {
        var j :| 0 <= j < |s| && s[j] == r[k];
      }
    }
  }

  /** A sorted sequence stays sorted behind an element no greater than any of it. */
  lemma SortedCons<T>(h: T, t: seq<T>, key: T -> int)
    requires SortedBy(t, key) && forall k :: 0 <= k < |t| ==> key(h) <= key(t[k])
    ensures SortedBy([h] + t, key)
  {
    forall i, j | 0 <= i < j < |[h] + t|
      ensures key(([h] + t)[i]) <= key(([h] + t)[j])
    {
      if i > 0 {
        assert ([h] + t)[i] == t[i - 1];
      }
      assert ([h] + t)[j] == t[j - 1];
    }
  }

  /** `s` ordered by `key`: a sorted permutation of `s`. */
  function SortBy<T(!new)>(s: seq<T>, key: T -> int): (r: seq<T>)
    ensures multiset(r) == multiset(s)
    ensures SortedBy(r, key)
  {
    if s == [] then []
    else
      assert s == [s[0]] + s[1..];
      Insert(s[0], SortBy(s[1..], key), key)
  }

  lemma {:induction false} FilterAppend<T(!new)>(a: seq<T>, b: seq<T>, p: T -> bool)
    ensures Filter(a + b, p) == Filter(a, p) + Filter(b, p)
  {
    if a == [] {
      assert a + b == b;
    } else {
      assert (a + b)[1..] == a[1..] + b;
      FilterAppend(a[1..], b, p);
    }
  }

  /** Filtering keeps a strict order: the survivors appear in the order they had. */
  lemma {:induction false} FilterIncreasing<T(!new)>(s: seq<T>, p: T -> bool, key: T -> int)
    requires IncreasingBy(s, key)
    ensures IncreasingBy(Filter(s, p), key)
  {
    if s != [] {
      var tail := Filter(s[1..], p);
      FilterIncreasing(s[1..], p, key);
      forall k | 0 <= k < |tail|
        ensures key(s[0]) < key(tail[k])
      {
        assert tail[k] in s[1..];
        var j :| 0 <= j < |s[1..]| && s[1..][j] == tail[k];
        assert s[j + 1] == tail[k];
      }
    }
  }

  /** Sorting a sequence that is already in order leaves it as it was. */
  lemma {:induction false} SortByOfSorted<T(!new)>(s: seq<T>, key: T -> int)
    requires SortedBy(s, key)
    ensures SortBy(s, key) == s
  {
    if s != [] {
      SortByOfSorted(s[1..], key);
      assert s == [s[0]] + s[1..];
    }
  }

  /**
   * Appending an element whose key is smaller than every other puts it first in the sorted
   * result, and leaves the order of the others as it was.
   */
  lemma {:induction false} SortByAppendSmallest<T(!new)>(s: seq<T>, x: T, key: T -> int)
    requires forall k :: 0 <= k < |s| ==> key(x) < key(s[k])
    ensures SortBy(s + [x], key) == [x] + SortBy(s, key)
  {
    if s == [] {
      assert s + [x] == [x];
    } else {
      assert (s + [x])[1..] == s[1..] + [x];
      SortByAppendSmallest(s[1..], x, key);
      var t := SortBy(s[1..], key);
      assert SortBy(s + [x], key) == Insert(s[0], [x] + t, key);
      assert ([x] + t)[1..] == t;
    }
  }
}
