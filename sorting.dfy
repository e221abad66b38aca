/**
 * `Array.prototype.sort` with a comparator. ECMAScript requires the sort to be stable, so
 * for a consistent comparator the result is the stable insertion sort defined here: each
 * element is placed before the first already-sorted element that compares greater than it.
 */
module Sorting {
  import opened Seqs

  /** Every pair is ordered one way or the other (`cmp(a, b) <= 0` means a may precede b). */
  ghost predicate Total<T(!new)>(cmp: (T, T) -> real)
  {
    forall a, b :: cmp(a, b) <= 0.0 || cmp(b, a) <= 0.0
  }

  /** Adjacent elements are in comparator order. */
  predicate SortedBy<T>(s: seq<T>, cmp: (T, T) -> real)
  {
    forall i :: 0 < i < |s| ==> cmp(s[i - 1], s[i]) <= 0.0
  }

  /** Inserts x after every leading element that does not compare greater than x. */
  function Insert<T>(s: seq<T>, x: T, cmp: (T, T) -> real): (r: seq<T>)
    ensures |r| == |s| + 1
    ensures multiset(r) == multiset(s) + multiset{x}
    ensures r[0] == x || (s != [] && r[0] == s[0])
  {
    if s == [] then [x]
    else if cmp(s[0], x) > 0.0 then [x] + s
    else
      assert s == [s[0]] + s[1..];
      [s[0]] + Insert(s[1..], x, cmp)
  }

  /** `s.slice().sort(cmp)`: the stable sort of s. */
  function SortBy<T>(s: seq<T>, cmp: (T, T) -> real): (r: seq<T>)
    ensures |r| == |s|
    ensures multiset(r) == multiset(s)
  {
    if s == [] then []
    else
      assert s == s[..|s| - 1] + [s[|s| - 1]];
      Insert(SortBy(s[..|s| - 1], cmp), s[|s| - 1], cmp)
  }

  /** Every element of the sorted sequence is an element of the input. */
  lemma SortByMembers<T>(s: seq<T>, cmp: (T, T) -> real)
    ensures forall i :: 0 <= i < |SortBy(s, cmp)| ==> SortBy(s, cmp)[i] in s
  {
    var r := SortBy(s, cmp);
    forall i | 0 <= i < |r|
      ensures r[i] in s
    {
      assert r[i] in multiset(r);
      assert r[i] in multiset(s);
    }
  }

  /** The keys of the sorted sequence are keys of the input. */
  lemma SortByKeys<T, K>(s: seq<T>, cmp: (T, T) -> real, key: T -> K, ks: seq<K>)
    requires |ks| == |s| && forall i :: 0 <= i < |s| ==> key(s[i]) == ks[i]
    ensures forall i :: 0 <= i < |SortBy(s, cmp)| ==> key(SortBy(s, cmp)[i]) in ks
  {
    var r := SortBy(s, cmp);
    SortByMembers(s, cmp);
    forall i | 0 <= i < |r|
      ensures key(r[i]) in ks
    {
      var j :| 0 <= j < |s| && s[j] == r[i];
      assert key(r[i]) == ks[j];
    }
  }

  lemma {:induction false} InsertSorted<T(!new)>(s: seq<T>, x: T, cmp: (T, T) -> real)
    requires Total(cmp)
    requires SortedBy(s, cmp)
    ensures SortedBy(Insert(s, x, cmp), cmp)
  {
    if s != [] && cmp(s[0], x) <= 0.0 {
      InsertSorted(s[1..], x, cmp);
    }
  }

  /** The sort's output is ordered. */
  lemma {:induction false} SortBySorted<T(!new)>(s: seq<T>, cmp: (T, T) -> real)
    requires Total(cmp)
    ensures SortedBy(SortBy(s, cmp), cmp)
  {
    if s != [] {
      SortBySorted(s[..|s| - 1], cmp);
      InsertSorted(SortBy(s[..|s| - 1], cmp), s[|s| - 1], cmp);
    }
  }

  lemma {:induction false} SumInsert<T>(s: seq<T>, x: T, cmp: (T, T) -> real, f: T -> real)
    ensures Sum(Insert(s, x, cmp), f) == Sum(s, f) + f(x)
  {
    if s == [] {
      assert Insert(s, x, cmp) == [] + [x];
    } else if cmp(s[0], x) > 0.0 {
      SumCons(x, s, f);
    } else {
      SumInsert(s[1..], x, cmp, f);
      SumCons(s[0], Insert(s[1..], x, cmp), f);
      SumCons(s[0], s[1..], f);
      assert [s[0]] + s[1..] == s;
    }
  }

  /** Sorting keeps the total of any per-element quantity. */
  lemma {:induction false} SumSortBy<T>(s: seq<T>, cmp: (T, T) -> real, f: T -> real)
    ensures Sum(SortBy(s, cmp), f) == Sum(s, f)
  {
    if s != [] {
      SumSortBy(s[..|s| - 1], cmp, f);
      SumInsert(SortBy(s[..|s| - 1], cmp), s[|s| - 1], cmp, f);
    }
  }

  lemma {:induction false} InsertDistinctBy<T, K>(s: seq<T>, x: T, cmp: (T, T) -> real, key: T -> K)
    requires DistinctBy(s, key)
    requires forall i :: 0 <= i < |s| ==> key(s[i]) != key(x)
    ensures DistinctBy(Insert(s, x, cmp), key)
  {
    if s != [] && cmp(s[0], x) <= 0.0 {
      var t := Insert(s[1..], x, cmp);
      InsertDistinctBy(s[1..], x, cmp, key);
      forall i | 0 <= i < |t|
        ensures key(t[i]) != key(s[0])
      {
        assert t[i] in multiset(t);
        assert t[i] == x || t[i] in s[1..];
      }
    }
  }

  /** Elements with pairwise distinct keys stay pairwise distinct after sorting. */
  lemma {:induction false} SortByDistinctBy<T, K>(s: seq<T>, cmp: (T, T) -> real, key: T -> K)
    requires DistinctBy(s, key)
    ensures DistinctBy(SortBy(s, cmp), key)
  {
    if s != [] {
      var s' := s[..|s| - 1];
      var t := SortBy(s', cmp);
      SortByDistinctBy(s', cmp, key);
      forall i | 0 <= i < |t|
        ensures key(t[i]) != key(s[|s| - 1])
      {
        assert t[i] in multiset(s');
        var j :| 0 <= j < |s'| && s'[j] == t[i];
        assert s[j] == t[i];
      }
      InsertDistinctBy(t, s[|s| - 1], cmp, key);
    }
  }

  /**
   * A sequence sorted by a comparator `(a, b) => f(b) - f(a)` is ordered by non-increasing f
   * between any two positions, not only adjacent ones.
   */
  lemma {:induction false} SortedDescending<T>(s: seq<T>, cmp: (T, T) -> real, f: T -> real, i: nat, j: nat)
    requires SortedBy(s, cmp)
    requires forall k :: 0 < k < |s| ==> cmp(s[k - 1], s[k]) == f(s[k]) - f(s[k - 1])
    requires i <= j < |s|
    ensures f(s[i]) >= f(s[j])
    decreases j - i
  {
    if i < j {
      SortedDescending(s, cmp, f, i, j - 1);
    }
  }

  /** In a sequence ordered by non-increasing f, an element left out of the first n is no larger than any of them. */
  lemma TakeSortedAbove<T>(s: seq<T>, cmp: (T, T) -> real, f: T -> real, x: T, n: nat)
    requires SortedBy(s, cmp)
    requires forall k :: 0 < k < |s| ==> cmp(s[k - 1], s[k]) == f(s[k]) - f(s[k - 1])
    requires x in s
    requires forall i :: 0 <= i < |Take(s, n)| ==> Take(s, n)[i] != x
    ensures forall i :: 0 <= i < |Take(s, n)| ==> f(Take(s, n)[i]) >= f(x)
  {
    assert forall i :: 0 <= i < n && i < |s| ==> s[i] != x by {
      forall i | 0 <= i < n && i < |s|
        ensures s[i] != x
      {
        assert Take(s, n)[i] == s[i];
      }
    }
    var j :| 0 <= j < |s| && s[j] == x;
    forall i | 0 <= i < |Take(s, n)|
      ensures f(Take(s, n)[i]) >= f(x)
    {
      SortedDescending(s, cmp, f, i, j);
    }
  }
}
