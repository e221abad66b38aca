/**
 * Sequence vocabulary shared by the ledger computations: sums (`reduce`), filters,
 * grouping by a key in first-occurrence order (how a JavaScript `Map` orders its
 * entries) and maps built by "the last assignment wins" (how an object filled in a
 * loop ends up).
 */
module Seqs {
  import opened Wrappers

  /** `s.reduce((sum, x) => sum + f(x), 0)`: accumulated from the left, so defined from the end. */
  function Sum<T>(s: seq<T>, f: T -> real): real
  {
    if s == [] then 0.0 else Sum(s[..|s| - 1], f) + f(s[|s| - 1])
  }

  function One<T>(x: T): real { 1.0 }

  /** `s.filter(p)`: the elements satisfying p, in their original order. */
  function Filter<T>(s: seq<T>, p: T -> bool): (r: seq<T>)
    ensures |r| <= |s|
    ensures forall i :: 0 <= i < |r| ==> r[i] in s && p(r[i])
    ensures forall i :: 0 <= i < |s| && p(s[i]) ==> s[i] in r
  {
    if s == [] then []
    else Filter(s[..|s| - 1], p) + (if p(s[|s| - 1]) then [s[|s| - 1]] else [])
  }

  /** A filter every element passes keeps the sequence. */
  lemma {:induction false} FilterAll<T>(s: seq<T>, p: T -> bool)
    requires forall i :: 0 <= i < |s| ==> p(s[i])
    ensures Filter(s, p) == s
  {
    if s != [] {
      FilterAll(s[..|s| - 1], p);
    }
  }

  /** `s.slice(0, n)`. */
  function Take<T>(s: seq<T>, n: nat): (r: seq<T>)
    ensures |r| == if |s| < n then |s| else n
    ensures forall i :: 0 <= i < |r| ==> r[i] == s[i]
  {
    if |s| <= n then s else s[..n]
  }

  predicate Distinct<K(==)>(ks: seq<K>)
  {
    forall i, j :: 0 <= i < j < |ks| ==> ks[i] != ks[j]
  }

  /** No two elements of s share a key. */
  predicate DistinctBy<T, K(==)>(s: seq<T>, key: T -> K)
  {
    forall i, j :: 0 <= i < j < |s| ==> key(s[i]) != key(s[j])
  }

  /** Sum of f over the elements whose key is `Some(k)`. */
  function SumFor<T, K(==)>(s: seq<T>, key: T -> Option<K>, k: K, f: T -> real): real
  {
    if s == [] then 0.0
    else SumFor(s[..|s| - 1], key, k, f) + (if key(s[|s| - 1]) == Some(k) then f(s[|s| - 1]) else 0.0)
  }

  /** Number of elements whose key is `Some(k)`. */
  function CountFor<T, K(==)>(s: seq<T>, key: T -> Option<K>, k: K): nat
  {
    if s == [] then 0
    else CountFor(s[..|s| - 1], key, k) + (if key(s[|s| - 1]) == Some(k) then 1 else 0)
  }

  /** Sum of f over the elements that have a key at all. */
  function SumKeyed<T, K>(s: seq<T>, key: T -> Option<K>, f: T -> real): real
  {
    if s == [] then 0.0
    else SumKeyed(s[..|s| - 1], key, f) + (if key(s[|s| - 1]).Some? then f(s[|s| - 1]) else 0.0)
  }

  /**
   * The distinct keys of s in order of first occurrence: the key order of a JavaScript
   * `Map` filled by `map.set(key(x), ...)` for each x of s that has a key.
   */
  function GroupKeys<T, K(==)>(s: seq<T>, key: T -> Option<K>): seq<K>
  {
    if s == [] then []
    else
      var ks' := GroupKeys(s[..|s| - 1], key);
      match key(s[|s| - 1])
      case None => ks'
      case Some(k) => if k in ks' then ks' else ks' + [k]
  }

  /** The keys are distinct, each is the key of some element, and every element's key is among them. */
  lemma {:induction false} GroupKeysSpec<T, K>(s: seq<T>, key: T -> Option<K>)
    ensures var ks := GroupKeys(s, key);
            && Distinct(ks)
            && (forall i :: 0 <= i < |ks| ==> exists j :: 0 <= j < |s| && key(s[j]) == Some(ks[i]))
            && (forall j :: 0 <= j < |s| && key(s[j]).Some? ==> key(s[j]).value in ks)
  {
    if s != [] {
      var s' := s[..|s| - 1];
      GroupKeysSpec(s', key);
      assert forall i :: 0 <= i < |s'| ==> s'[i] == s[i];
    }
  }

  /** The first element of s whose key is `Some(k)`, if there is one. */
  function FirstOf<T, K(==)>(s: seq<T>, key: T -> Option<K>, k: K): (r: Option<T>)
    ensures r.Some? ==> key(r.value) == Some(k)
  {
    if s == [] then None
    else
      var r := FirstOf(s[..|s| - 1], key, k);
      if r.Some? then r else if key(s[|s| - 1]) == Some(k) then Some(s[|s| - 1]) else None
  }

  /** There is a first element keyed k exactly when some element is keyed k. */
  lemma {:induction false} FirstOfExists<T, K>(s: seq<T>, key: T -> Option<K>, k: K)
    ensures FirstOf(s, key, k).Some? <==> exists j :: 0 <= j < |s| && key(s[j]) == Some(k)
  {
    if s != [] {
      FirstOfExists(s[..|s| - 1], key, k);
      assert forall j :: 0 <= j < |s| - 1 ==> s[..|s| - 1][j] == s[j];
    }
  }

  /** The element at i is the first keyed k when no earlier element is. */
  lemma {:induction false} FirstOfAt<T, K>(s: seq<T>, key: T -> Option<K>, k: K, i: nat)
    requires i < |s| && key(s[i]) == Some(k)
    requires forall h :: 0 <= h < i ==> key(s[h]) != Some(k)
    ensures FirstOf(s, key, k) == Some(s[i])
  {
    var s' := s[..|s| - 1];
    if i == |s| - 1 {
      FirstOfExists(s', key, k);
      assert forall j :: 0 <= j < |s'| ==> s'[j] == s[j];
    } else {
      FirstOfAt(s', key, k, i);
    }
  }

  /** Appending one element: the earlier first match stays, otherwise the new element may be it. */
  lemma FirstOfSnoc<T, K>(s: seq<T>, x: T, key: T -> Option<K>, k: K)
    ensures FirstOf(s + [x], key, k)
         == if FirstOf(s, key, k).Some? then FirstOf(s, key, k) else if key(x) == Some(k) then Some(x) else None
  {
    assert (s + [x])[..|s|] == s;
  }

  /** Appending one element adds its summand to its own key's sum and nothing to the others. */
  lemma SumForSnoc<T, K>(s: seq<T>, x: T, key: T -> Option<K>, k: K, f: T -> real)
    ensures SumFor(s + [x], key, k, f) == SumFor(s, key, k, f) + (if key(x) == Some(k) then f(x) else 0.0)
  {
    assert (s + [x])[..|s|] == s;
  }

  /** Appending one element adds one to its own key's count and nothing to the others. */
  lemma CountForSnoc<T, K>(s: seq<T>, x: T, key: T -> Option<K>, k: K)
    ensures CountFor(s + [x], key, k) == CountFor(s, key, k) + (if key(x) == Some(k) then 1 else 0)
  {
    assert (s + [x])[..|s|] == s;
  }

  /**
   * keys and groups are the map a loop over s builds with `map.set(k, existing + x)`: keys in
   * insertion order, and for each key the sum of f and the number of elements under it.
   */
  ghost predicate GroupedBy<T, K(!new)>(s: seq<T>, key: T -> Option<K>, f: T -> real, keys: seq<K>, groups: map<K, (real, nat)>)
  {
    && keys == GroupKeys(s, key)
    && (forall k :: k in groups <==> k in keys)
    && (forall k :: k in groups ==> groups[k].0 == SumFor(s, key, k, f))
    && (forall k :: k in groups ==> groups[k].1 == CountFor(s, key, k))
  }

  /** One more element with key k adds its summand and one to k's entry, opening it if k is new. */
  lemma GroupedStep<T, K(!new)>(s: seq<T>, x: T, key: T -> Option<K>, f: T -> real, keys: seq<K>, groups: map<K, (real, nat)>,
                                 k: K, keys': seq<K>, groups': map<K, (real, nat)>)
    requires GroupedBy(s, key, f, keys, groups)
    requires key(x) == Some(k)
    requires keys' == if k in keys then keys else keys + [k]
    requires groups' == var existing := if k in groups then groups[k] else (0.0, 0);
                        groups[k := (existing.0 + f(x), existing.1 + 1)]
    ensures GroupedBy(s + [x], key, f, keys', groups')
  {
    GroupKeysSnoc(s, x, key);
    if k !in groups {
      GroupKeysSpec(s, key);
      SumForAbsent(s, key, k, f);
    }
    forall c | c in groups'
      ensures groups'[c].0 == SumFor(s + [x], key, c, f)
      ensures groups'[c].1 == CountFor(s + [x], key, c)
    {
      SumForSnoc(s, x, key, c, f);
      CountForSnoc(s, x, key, c);
    }
  }

  /**
   * keys and sums are the map a loop over s builds with `map.set(k, (map.get(k) || 0) + x)`:
   * keys in insertion order, and for each key the sum of f over the elements under it.
   */
  ghost predicate SummedBy<T, K(!new)>(s: seq<T>, key: T -> Option<K>, f: T -> real, keys: seq<K>, sums: map<K, real>)
  {
    && keys == GroupKeys(s, key)
    && (forall k :: k in sums <==> k in keys)
    && (forall k :: k in sums ==> sums[k] == SumFor(s, key, k, f))
  }

  /** One more element adds its summand to its key's entry (opening it if new); an element without a key changes nothing. */
  lemma SummedStep<T, K(!new)>(s: seq<T>, x: T, key: T -> Option<K>, f: T -> real, keys: seq<K>, sums: map<K, real>,
                                keys': seq<K>, sums': map<K, real>)
    requires SummedBy(s, key, f, keys, sums)
    requires keys' == match key(x) case None => keys case Some(k) => if k in keys then keys else keys + [k]
    requires sums' == match key(x) case None => sums case Some(k) => sums[k := (if k in sums then sums[k] else 0.0) + f(x)]
    ensures SummedBy(s + [x], key, f, keys', sums')
  {
    GroupKeysSnoc(s, x, key);
    if key(x).Some? && key(x).value !in sums {
      GroupKeysSpec(s, key);
      SumForAbsent(s, key, key(x).value, f);
    }
    forall c | c in sums'
      ensures sums'[c] == SumFor(s + [x], key, c, f)
    {
      SumForSnoc(s, x, key, c, f);
    }
  }

  /** Appending one element adds its key at the end if the key is new. */
  lemma GroupKeysSnoc<T, K>(s: seq<T>, x: T, key: T -> Option<K>)
    ensures GroupKeys(s + [x], key)
         == match key(x) case None => GroupKeys(s, key)
            case Some(k) => if k in GroupKeys(s, key) then GroupKeys(s, key) else GroupKeys(s, key) + [k]
  {
    assert (s + [x])[..|s|] == s;
  }

  /** A key that no element has contributes nothing. */
  lemma {:induction false} SumForAbsent<T, K>(s: seq<T>, key: T -> Option<K>, k: K, f: T -> real)
    requires forall j :: 0 <= j < |s| ==> key(s[j]) != Some(k)
    ensures SumFor(s, key, k, f) == 0.0
    ensures CountFor(s, key, k) == 0
  {
    if s != [] {
      SumForAbsent(s[..|s| - 1], key, k, f);
    }
  }

  /** Sum over the keys ks of the per-key sums. */
  function GroupTotal<T, K(==)>(s: seq<T>, key: T -> Option<K>, f: T -> real, ks: seq<K>): real
  {
    if ks == [] then 0.0
    else GroupTotal(s, key, f, ks[..|ks| - 1]) + SumFor(s, key, ks[|ks| - 1], f)
  }

  lemma {:induction false} SumAppend<T>(a: seq<T>, b: seq<T>, f: T -> real)
    ensures Sum(a + b, f) == Sum(a, f) + Sum(b, f)
    decreases |b|
  {
    if b == [] {
      assert a + b == a;
    } else {
      assert (a + b)[..|a + b| - 1] == a + b[..|b| - 1];
      SumAppend(a, b[..|b| - 1], f);
    }
  }

  lemma SumCons<T>(x: T, s: seq<T>, f: T -> real)
    ensures Sum([x] + s, f) == f(x) + Sum(s, f)
  {
    SumAppend([x], s, f);
    assert [x][..0] == [];
  }

  lemma {:induction false} SumNonNegative<T>(s: seq<T>, f: T -> real)
    requires forall i :: 0 <= i < |s| ==> f(s[i]) >= 0.0
    ensures Sum(s, f) >= 0.0
  {
    if s != [] {
      SumNonNegative(s[..|s| - 1], f);
    }
  }

  /** Two summands that agree on every element give the same sum. */
  lemma {:induction false} SumCongruent<T>(s: seq<T>, f: T -> real, g: T -> real)
    requires forall i :: 0 <= i < |s| ==> f(s[i]) == g(s[i])
    ensures Sum(s, f) == Sum(s, g)
  {
    if s != [] {
      SumCongruent(s[..|s| - 1], f, g);
    }
  }

  lemma {:induction false} SumOne<T>(s: seq<T>)
    ensures Sum(s, One) == |s| as real
  {
    if s != [] {
      SumOne(s[..|s| - 1]);
    }
  }

  lemma {:induction false} CountForIsSumOfOnes<T, K>(s: seq<T>, key: T -> Option<K>, k: K)
    ensures CountFor(s, key, k) as real == SumFor(s, key, k, One)
  {
    if s != [] {
      CountForIsSumOfOnes(s[..|s| - 1], key, k);
    }
  }

  /** When every element has a key, the keyed sum is the plain sum. */
  lemma {:induction false} SumKeyedAll<T, K>(s: seq<T>, key: T -> Option<K>, f: T -> real)
    requires forall i :: 0 <= i < |s| ==> key(s[i]).Some?
    ensures SumKeyed(s, key, f) == Sum(s, f)
  {
    if s != [] {
      SumKeyedAll(s[..|s| - 1], key, f);
    }
  }

  /** A per-key sum over non-negative summands is at most the keyed sum. */
  lemma {:induction false} SumForAtMostKeyed<T, K>(s: seq<T>, key: T -> Option<K>, k: K, f: T -> real)
    requires forall i :: 0 <= i < |s| ==> f(s[i]) >= 0.0
    ensures 0.0 <= SumFor(s, key, k, f) <= SumKeyed(s, key, f)
  {
    if s != [] {
      SumForAtMostKeyed(s[..|s| - 1], key, k, f);
    }
  }

  /** Adding one element to s raises the grouped total by f(x) exactly when x's key is one of ks. */
  lemma {:induction false} GroupTotalSnoc<T, K>(s: seq<T>, x: T, key: T -> Option<K>, f: T -> real, ks: seq<K>)
    requires Distinct(ks)
    ensures GroupTotal(s + [x], key, f, ks)
         == GroupTotal(s, key, f, ks) + (if key(x).Some? && key(x).value in ks then f(x) else 0.0)
    decreases |ks|
  {
    if ks != [] {
      var ks' := ks[..|ks| - 1];
      assert Distinct(ks');
      GroupTotalSnoc(s, x, key, f, ks');
      assert (s + [x])[..|s + [x]| - 1] == s;
      assert key(x).Some? && key(x).value in ks <==>
        (key(x).Some? && key(x).value in ks') || key(x) == Some(ks[|ks| - 1]);
      assert !(key(x).Some? && key(x).value in ks' && key(x) == Some(ks[|ks| - 1]));
    }
  }

  /**
   * Partition: summing the per-key sums over a list of distinct keys that covers every
   * key occurring in s gives the sum over all keyed elements of s.
   */
  lemma {:induction false} GroupTotalPartition<T, K>(s: seq<T>, key: T -> Option<K>, f: T -> real, ks: seq<K>)
    requires Distinct(ks)
    requires forall i :: 0 <= i < |s| && key(s[i]).Some? ==> key(s[i]).value in ks
    ensures GroupTotal(s, key, f, ks) == SumKeyed(s, key, f)
    decreases |s|
  {
    if s == [] {
      GroupTotalEmpty(key, f, ks);
    } else {
      var s' := s[..|s| - 1];
      GroupTotalPartition(s', key, f, ks);
      assert s' + [s[|s| - 1]] == s;
      GroupTotalSnoc(s', s[|s| - 1], key, f, ks);
    }
  }

  lemma {:induction false} GroupTotalEmpty<T, K>(key: T -> Option<K>, f: T -> real, ks: seq<K>)
    ensures GroupTotal([], key, f, ks) == 0.0
  {
    if ks != [] {
      GroupTotalEmpty(key, f, ks[..|ks| - 1]);
    }
  }

  /** Builds a map from a sequence of (key, value) assignments, applied left to right. */
  function Assign<K, V>(ups: seq<(K, V)>): map<K, V>
  {
    if ups == [] then map[] else Assign(ups[..|ups| - 1])[ups[|ups| - 1].0 := ups[|ups| - 1].1]
  }

  /** A further assignment overwrites its own key only. */
  lemma AssignSnoc<K, V>(ups: seq<(K, V)>, e: (K, V))
    ensures Assign(ups + [e]) == Assign(ups)[e.0 := e.1]
  {
    assert (ups + [e])[..|ups|] == ups;
  }

  /** A key holds the value of its last assignment. */
  lemma {:induction false} AssignLastWins<K, V>(ups: seq<(K, V)>, i: nat)
    requires i < |ups|
    requires forall j :: i < j < |ups| ==> ups[j].0 != ups[i].0
    ensures ups[i].0 in Assign(ups) && Assign(ups)[ups[i].0] == ups[i].1
  {
    if i < |ups| - 1 {
      var ups' := ups[..|ups| - 1];
      assert ups'[i] == ups[i];
      AssignLastWins(ups', i);
    }
  }

  /** Only assigned keys are present. */
  lemma {:induction false} AssignKeys<K, V>(ups: seq<(K, V)>, k: K)
    requires k in Assign(ups)
    ensures exists i :: 0 <= i < |ups| && ups[i].0 == k
  {
    var ups' := ups[..|ups| - 1];
    if k != ups[|ups| - 1].0 {
      AssignKeys(ups', k);
      var i :| 0 <= i < |ups'| && ups'[i].0 == k;
      assert ups[i] == ups'[i];
    }
  }

  /** A filter no element passes leaves nothing. */
  lemma {:induction false} FilterNone<T>(s: seq<T>, p: T -> bool)
    requires forall i :: 0 <= i < |s| ==> !p(s[i])
    ensures Filter(s, p) == []
  {
    if s != [] {
      FilterNone(s[..|s| - 1], p);
    }
  }

  /** With non-negative values, a filter implied by another sums to no more than it. */
  lemma {:induction false} FilterSumMonotone<T>(s: seq<T>, p: T -> bool, q: T -> bool, f: T -> real)
    requires forall x :: p(x) ==> q(x)
    requires forall i :: 0 <= i < |s| ==> f(s[i]) >= 0.0
    ensures 0.0 <= Sum(Filter(s, p), f) <= Sum(Filter(s, q), f)
  {
    if s != [] {
      var s', x := s[..|s| - 1], s[|s| - 1];
      FilterSumMonotone(s', p, q, f);
      assert p(x) ==> q(x);
      SumAppend(Filter(s', p), if p(x) then [x] else [], f);
      SumAppend(Filter(s', q), if q(x) then [x] else [], f);
      assert Sum([x], f) == f(x) by {
        assert [x][..0] == [];
      }
    }
  }

  /**
   * Two sequences of the same length, aligned element by element, whose filters agree at
   * every position and whose values agree where the elements pass, have the same filtered sum.
   */
  lemma {:induction false} FilterSumAligned<T, U>(s: seq<T>, u: seq<U>, p: T -> bool, q: U -> bool, f: T -> real, g: U -> real)
    requires |s| == |u|
    requires forall i :: 0 <= i < |s| ==> p(s[i]) == q(u[i]) && (p(s[i]) ==> f(s[i]) == g(u[i]))
    ensures Sum(Filter(s, p), f) == Sum(Filter(u, q), g)
  {
    if s != [] {
      var s', x := s[..|s| - 1], s[|s| - 1];
      var u', y := u[..|u| - 1], u[|u| - 1];
      FilterSumAligned(s', u', p, q, f, g);
      assert p(x) == q(y) && (p(x) ==> f(x) == g(y));
      SumAppend(Filter(s', p), if p(x) then [x] else [], f);
      SumAppend(Filter(u', q), if q(y) then [y] else [], g);
      assert Sum([x], f) == f(x) by {
        assert [x][..0] == [];
      }
      assert Sum([y], g) == g(y) by {
        assert [y][..0] == [];
      }
    }
  }

  lemma FilterSnoc<T>(s: seq<T>, x: T, p: T -> bool)
    ensures Filter(s + [x], p) == Filter(s, p) + (if p(x) then [x] else [])
  {
    assert (s + [x])[..|s|] == s;
  }

  /** `s.some(p)`. */
  predicate Any<T>(s: seq<T>, p: T -> bool)
  {
    exists k :: 0 <= k < |s| && p(s[k])
  }

  /** Extending a prefix by the next element makes some element satisfy p exactly when one did already or that element does. */
  lemma AnyPrefix<T>(s: seq<T>, k: nat, p: T -> bool)
    requires k < |s|
    ensures Any(s[..k + 1], p) <==> Any(s[..k], p) || p(s[k])
  {
    if Any(s[..k + 1], p) {
      var i :| 0 <= i < |s[..k + 1]| && p(s[..k + 1][i]);
      if i < k { assert s[..k + 1][i] == s[..k][i]; }
    }
    if Any(s[..k], p) {
      var i :| 0 <= i < |s[..k]| && p(s[..k][i]);
      assert s[..k + 1][i] == s[..k][i];
    }
    if p(s[k]) {
      assert s[..k + 1][k] == s[k];
    }
  }

  /** The defined results of f over s, in order: a filter and a map in one. */
  function Collect<T, U>(s: seq<T>, f: T -> Option<U>): seq<U>
  {
    if s == [] then []
    else Collect(s[..|s| - 1], f) + (if f(s[|s| - 1]).Some? then [f(s[|s| - 1]).value] else [])
  }

  /** Collecting over a concatenation collects over each part. */
  lemma {:induction false} CollectAppend<T, U>(a: seq<T>, b: seq<T>, f: T -> Option<U>)
    ensures Collect(a + b, f) == Collect(a, f) + Collect(b, f)
    decreases |b|
  {
    if b == [] {
      assert a + b == a;
    } else {
      var b' := b[..|b| - 1];
      CollectAppend(a, b', f);
      assert (a + b)[..|a + b| - 1] == a + b';
    }
  }

  /** Nothing is collected when f is defined nowhere. */
  lemma {:induction false} CollectNone<T, U>(s: seq<T>, f: T -> Option<U>)
    requires forall i :: 0 <= i < |s| ==> f(s[i]).None?
    ensures Collect(s, f) == []
  {
    if s != [] {
      CollectNone(s[..|s| - 1], f);
    }
  }

  /** Everything is collected, in order, when f is defined everywhere. */
  lemma {:induction false} CollectEvery<T, U>(s: seq<T>, f: T -> Option<U>, r: seq<U>)
    requires |r| == |s| && forall i :: 0 <= i < |s| ==> f(s[i]) == Some(r[i])
    ensures Collect(s, f) == r
  {
    if s != [] {
      CollectEvery(s[..|s| - 1], f, r[..|r| - 1]);
      assert r[..|r| - 1] + [r[|r| - 1]] == r;
    }
  }

  lemma CollectSnoc<T, U>(s: seq<T>, x: T, f: T -> Option<U>)
    ensures Collect(s + [x], f) == Collect(s, f) + (if f(x).Some? then [f(x).value] else [])
  {
    assert (s + [x])[..|s|] == s;
  }

  /** A key assigned by the results of f holds the value of the last element assigning it. */
  lemma {:induction false} CollectLastWins<T, K, V>(s: seq<T>, f: T -> Option<(K, V)>, j: nat)
    requires j < |s| && f(s[j]).Some?
    requires forall l :: j < l < |s| && f(s[l]).Some? ==> f(s[l]).value.0 != f(s[j]).value.0
    ensures f(s[j]).value.0 in Assign(Collect(s, f))
    ensures Assign(Collect(s, f))[f(s[j]).value.0] == f(s[j]).value.1
  {
    var s' := s[..|s| - 1];
    var x := s[|s| - 1];
    assert s' + [x] == s;
    CollectSnoc(s', x, f);
    if f(x).Some? {
      AssignSnoc(Collect(s', f), f(x).value);
    } else {
      assert Collect(s, f) == Collect(s', f);
    }
    if j < |s| - 1 {
      assert s'[j] == s[j];
      assert forall l :: j < l < |s'| ==> s'[l] == s[l];
      CollectLastWins(s', f, j);
    }
  }

  /** Every key assigned by the results of f comes from some element. */
  lemma {:induction false} CollectKeys<T, K, V>(s: seq<T>, f: T -> Option<(K, V)>, k: K)
    requires k in Assign(Collect(s, f))
    ensures exists j :: 0 <= j < |s| && f(s[j]).Some? && f(s[j]).value.0 == k
  {
    var s' := s[..|s| - 1];
    var x := s[|s| - 1];
    assert s' + [x] == s;
    CollectSnoc(s', x, f);
    if f(x).Some? {
      AssignSnoc(Collect(s', f), f(x).value);
    } else {
      assert Collect(s, f) == Collect(s', f);
    }
    if !(f(x).Some? && f(x).value.0 == k) {
      CollectKeys(s', f, k);
      var j :| 0 <= j < |s'| && f(s'[j]).Some? && f(s'[j]).value.0 == k;
      assert s[j] == s'[j];
    }
  }
}
