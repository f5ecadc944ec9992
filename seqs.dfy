/** Sequence helpers: Python's `s[:n]`, JavaScript's `[...new Set(s)]`, and
    the ordering an `ORDER BY key ASC` produces. */
module Seqs {

  /** `s[:n]` for `n >= 0`: the first `n` elements, or all of them. */
  function Take<T>(s: seq<T>, n: nat): (r: seq<T>)
    ensures |r| == if n < |s| then n else |s|
    ensures r == s[..|r|]
  {
    if n >= |s| then s else s[..n]
  }

  predicate NoDuplicates<T(==)>(s: seq<T>)
  {
    forall i, j :: 0 <= i < j < |s| ==> s[i] != s[j]
  }

  /** `[...new Set(s)]`: every element of `s` exactly once. */
  function Dedupe<T(==)>(s: seq<T>): (r: seq<T>)
    ensures NoDuplicates(r)
    ensures forall i :: 0 <= i < |r| ==> r[i] in s
    ensures forall i :: 0 <= i < |s| ==> s[i] in r
  {
    if s == [] then []
    else
      var d := Dedupe(s[..|s| - 1]);
      var x := s[|s| - 1];
      assert forall i :: 0 <= i < |s| - 1 ==> s[i] == s[..|s| - 1][i];
      if x in d then d else d + [x]
  }

  /** A sequence without duplicates is left as it is. */
  lemma {:induction false} DedupeOfDistinct<T>(s: seq<T>)
    requires NoDuplicates(s)
    ensures Dedupe(s) == s
  {
    if s != [] {
      var init := s[..|s| - 1];
      assert NoDuplicates(init);
      DedupeOfDistinct(init);
      assert s[|s| - 1] !in init;
      assert s == init + [s[|s| - 1]];
    }
  }

  /** Deduplicating `a + b` keeps the deduplication of `a` as its prefix. */
  lemma {:induction false} DedupeExtends<T>(a: seq<T>, b: seq<T>)
    ensures |Dedupe(a)| <= |Dedupe(a + b)|
    ensures Dedupe(a + b)[..|Dedupe(a)|] == Dedupe(a)
    decreases |b|
  {
    if b == [] {
      assert a + b == a;
    } else {
      var b' := b[..|b| - 1];
      DedupeExtends(a, b');
      assert (a + b)[..|a + b| - 1] == a + b';
    }
  }

  /** `[f(x) for x in s if keep(x)]`: the kept elements, mapped, in order. */
  function FilterMap<T, U>(s: seq<T>, keep: T -> bool, f: T -> U): (r: seq<U>)
    ensures |r| <= |s|
  {
    if s == [] then [] else (if keep(s[0]) then [f(s[0])] else []) + FilterMap(s[1..], keep, f)
  }

  function Shifted(idx: seq<int>): (r: seq<int>)
    ensures |r| == |idx|
    ensures forall i :: 0 <= i < |idx| ==> r[i] == idx[i] + 1
  {
    seq(|idx|, i requires 0 <= i < |idx| => idx[i] + 1)
  }

  /** The positions of the kept elements of `s`. */
  function KeptIndices<T>(s: seq<T>, keep: T -> bool): seq<int>
  {
    if s == [] then [] else (if keep(s[0]) then [0] else []) + Shifted(KeptIndices(s[1..], keep))
  }

  predicate Ascending(idx: seq<int>)
  {
    forall i, k :: 0 <= i < k < |idx| ==> idx[i] < idx[k]
  }

  /** Adding one to ascending positions keeps them ascending. */
  lemma ShiftedAscend(idx: seq<int>)
    requires Ascending(idx)
    ensures Ascending(Shifted(idx))
  {
  }

  /** A position below all others can go in front. */
  lemma PrependAscend(x: int, idx: seq<int>)
    requires Ascending(idx)
    requires forall i :: 0 <= i < |idx| ==> x < idx[i]
    ensures Ascending([x] + idx)
  {
    var r := [x] + idx;
    forall i, k | 0 <= i < k < |r|
      ensures r[i] < r[k]
    {
      assert r[k] == idx[k - 1];
      if i > 0 {
        assert r[i] == idx[i - 1];
      }
    }
  }

  /** The kept positions lie within `s` and hold kept elements. */
  lemma {:induction false} KeptIndicesInRange<T>(s: seq<T>, keep: T -> bool)
    ensures forall i :: 0 <= i < |KeptIndices(s, keep)| ==>
      0 <= KeptIndices(s, keep)[i] < |s| && keep(s[KeptIndices(s, keep)[i]])
  {
    if s != [] {
      var tail := s[1..];
      KeptIndicesInRange(tail, keep);
      var idx' := KeptIndices(tail, keep);
      var h: seq<int> := if keep(s[0]) then [0] else [];
      var idx := h + Shifted(idx');
      assert idx == KeptIndices(s, keep);
      forall i | 0 <= i < |idx|
        ensures 0 <= idx[i] < |s| && keep(s[idx[i]])
      {
        if i >= |h| {
          var k := i - |h|;
          assert idx[i] == idx'[k] + 1;
          assert s[idx'[k] + 1] == tail[idx'[k]];
        }
      }
    }
  }

  /** The kept positions ascend. */
  lemma {:induction false} KeptIndicesAscend<T>(s: seq<T>, keep: T -> bool)
    ensures Ascending(KeptIndices(s, keep))
  {
    if s != [] {
      var tail := s[1..];
      KeptIndicesAscend(tail, keep);
      KeptIndicesInRange(tail, keep);
      var sh := Shifted(KeptIndices(tail, keep));
      ShiftedAscend(KeptIndices(tail, keep));
      if keep(s[0]) {
        PrependAscend(0, sh);
        assert KeptIndices(s, keep) == [0] + sh;
      } else {
        assert KeptIndices(s, keep) == [] + sh;
      }
    }
  }

  /** Every position holding a kept element is a kept position. */
  lemma {:induction false} KeptIndicesCover<T>(s: seq<T>, keep: T -> bool)
    ensures forall j :: 0 <= j < |s| && keep(s[j]) ==> j in KeptIndices(s, keep)
  {
    if s != [] {
      var tail := s[1..];
      KeptIndicesCover(tail, keep);
      var idx' := KeptIndices(tail, keep);
      var h: seq<int> := if keep(s[0]) then [0] else [];
      var idx := h + Shifted(idx');
      assert idx == KeptIndices(s, keep);
      forall j | 0 <= j < |s| && keep(s[j])
        ensures j in idx
      {
        if j > 0 {
          assert tail[j - 1] == s[j];
          var k :| 0 <= k < |idx'| && idx'[k] == j - 1;
          assert idx[|h| + k] == j;
        }
      }
    }
  }

  /** There are as many kept positions as filtered elements. */
  lemma {:induction false} KeptIndicesLength<T, U>(s: seq<T>, keep: T -> bool, f: T -> U)
    ensures |KeptIndices(s, keep)| == |FilterMap(s, keep, f)|
  {
    if s != [] {
      KeptIndicesLength(s[1..], keep, f);
    }
  }

  /** The i-th element of the filter is `f` of the element at the i-th kept position. */
  lemma {:induction false} FilterMapAtIndex<T, U>(s: seq<T>, keep: T -> bool, f: T -> U, i: int)
    requires 0 <= i < |KeptIndices(s, keep)|
    ensures 0 <= KeptIndices(s, keep)[i] < |s| && i < |FilterMap(s, keep, f)|
    ensures FilterMap(s, keep, f)[i] == f(s[KeptIndices(s, keep)[i]])
  {
    var tail := s[1..];
    var idx', r' := KeptIndices(tail, keep), FilterMap(tail, keep, f);
    var h: seq<int> := if keep(s[0]) then [0] else [];
    var hr: seq<U> := if keep(s[0]) then [f(s[0])] else [];
    assert KeptIndices(s, keep) == h + Shifted(idx');
    assert FilterMap(s, keep, f) == hr + r';
    KeptIndicesLength(tail, keep, f);
    if i >= |h| {
      var k := i - |h|;
      FilterMapAtIndex(tail, keep, f, k);
      assert (h + Shifted(idx'))[i] == idx'[k] + 1;
      assert (hr + r')[i] == r'[k];
      assert s[idx'[k] + 1] == tail[idx'[k]];
    }
  }

  lemma FilterMapAt<T, U>(s: seq<T>, keep: T -> bool, f: T -> U)
    ensures |KeptIndices(s, keep)| == |FilterMap(s, keep, f)|
    ensures forall i :: 0 <= i < |KeptIndices(s, keep)| ==>
      0 <= KeptIndices(s, keep)[i] < |s| && FilterMap(s, keep, f)[i] == f(s[KeptIndices(s, keep)[i]])
  {
    KeptIndicesLength(s, keep, f);
    forall i | 0 <= i < |KeptIndices(s, keep)|
      ensures 0 <= KeptIndices(s, keep)[i] < |s| && FilterMap(s, keep, f)[i] == f(s[KeptIndices(s, keep)[i]])
    {
      FilterMapAtIndex(s, keep, f, i);
    }
  }

  /** `FilterMap` is an order-preserving filter: its i-th element is `f` of
      the i-th kept element of `s`, the kept positions ascend, and every
      position whose element is kept is among them. */
  lemma FilterMapIndexed<T, U>(s: seq<T>, keep: T -> bool, f: T -> U)
    ensures var r, idx := FilterMap(s, keep, f), KeptIndices(s, keep);
      && |idx| == |r|
      && Ascending(idx)
      && (forall i :: 0 <= i < |idx| ==> 0 <= idx[i] < |s| && keep(s[idx[i]]) && r[i] == f(s[idx[i]]))
      && (forall j :: 0 <= j < |s| && keep(s[j]) ==> j in idx)
  {
    KeptIndicesInRange(s, keep);
    KeptIndicesAscend(s, keep);
    KeptIndicesCover(s, keep);
    FilterMapAt(s, keep, f);
  }

  /** Every element of a filter is `f` of a kept element. */
  lemma {:induction false} FilterMapMember<T, U>(s: seq<T>, keep: T -> bool, f: T -> U, y: U)
    requires y in FilterMap(s, keep, f)
    ensures exists j :: 0 <= j < |s| && keep(s[j]) && f(s[j]) == y
  {
    if !(keep(s[0]) && f(s[0]) == y) {
      FilterMapMember(s[1..], keep, f, y);
      var j :| 0 <= j < |s[1..]| && keep(s[1..][j]) && f(s[1..][j]) == y;
      assert s[j + 1] == s[1..][j];
    }
  }

  /** The first element of a filter comes from the first kept element. */
  lemma FilterMapFirst<T, U>(s: seq<T>, keep: T -> bool, f: T -> U, j: int)
    requires 0 <= j < |s| && keep(s[j])
    requires forall k :: 0 <= k < j ==> !keep(s[k])
    ensures FilterMap(s, keep, f) != [] && FilterMap(s, keep, f)[0] == f(s[j])
  {
    FilterMapIndexed(s, keep, f);
    var idx := KeptIndices(s, keep);
    var m :| 0 <= m < |idx| && idx[m] == j;
    assert Ascending(idx);
    assert idx[0] <= idx[m];
    assert keep(s[idx[0]]);
    assert idx[0] == j;
  }

  predicate SortedBy<T>(s: seq<T>, key: T -> real)
  {
    forall i, j :: 0 <= i < j < |s| ==> key(s[i]) <= key(s[j])
  }

  /** Insert `x` before the first element whose key is not smaller. */
  function InsertBy<T>(x: T, s: seq<T>, key: T -> real): seq<T>
  {
    if s == [] then [x]
    else if key(x) <= key(s[0]) then [x] + s
    else [s[0]] + InsertBy(x, s[1..], key)
  }

  /** Insertion sort by ascending key; among equal keys the earlier element
      comes first. */
  function SortBy<T>(s: seq<T>, key: T -> real): seq<T>
  {
    if s == [] then [] else InsertBy(s[0], SortBy(s[1..], key), key)
  }

  lemma {:induction false} InsertByPermutes<T>(x: T, s: seq<T>, key: T -> real)
    ensures multiset(InsertBy(x, s, key)) == multiset(s) + multiset{x}
  {
    if s != [] && key(x) > key(s[0]) {
      InsertByPermutes(x, s[1..], key);
      assert s == [s[0]] + s[1..];
    }
  }

  lemma {:induction false} InsertBySorted<T>(x: T, s: seq<T>, key: T -> real)
    requires SortedBy(s, key)
    ensures SortedBy(InsertBy(x, s, key), key)
    ensures InsertBy(x, s, key)[0] == x || (s != [] && InsertBy(x, s, key)[0] == s[0])
  {
    if s != [] && key(x) > key(s[0]) {
      InsertBySorted(x, s[1..], key);
      var tail := InsertBy(x, s[1..], key);
      assert key(s[0]) <= key(tail[0]);
      assert InsertBy(x, s, key) == [s[0]] + tail;
    }
  }

  /** The sort orders by key. */
  lemma {:induction false} SortBySorted<T>(s: seq<T>, key: T -> real)
    ensures SortedBy(SortBy(s, key), key)
  {
    if s != [] {
      SortBySorted(s[1..], key);
      InsertBySorted(s[0], SortBy(s[1..], key), key);
    }
  }

  /** The sort only reorders: the result is a permutation of its input. */
  lemma {:induction false} SortByPermutes<T>(s: seq<T>, key: T -> real)
    ensures multiset(SortBy(s, key)) == multiset(s)
  {
    if s != [] {
      SortByPermutes(s[1..], key);
      InsertByPermutes(s[0], SortBy(s[1..], key), key);
      assert s == [s[0]] + s[1..];
    }
  }

  /** An element of a sorted sequence that its first `n` elements leave out
      has a key no smaller than each of them, and they are `n` in number. */
  lemma TakeSortedOmits<T>(s: seq<T>, key: T -> real, n: nat, x: T)
    requires SortedBy(s, key) && x in s && x !in Take(s, n)
    ensures |Take(s, n)| == n
    ensures forall i :: 0 <= i < n ==> key(Take(s, n)[i]) <= key(x)
  {
    var m :| 0 <= m < |s| && s[m] == x;
    assert m >= n;
  }

  /** No two elements share the same `f`, as ids or group names must not. */
  predicate DistinctBy<T, K(==)>(s: seq<T>, f: T -> K)
  {
    forall i, j :: 0 <= i < j < |s| ==> f(s[i]) != f(s[j])
  }

  /** The head of a sequence without repeated keys differs from the rest. */
  lemma HeadDistinct<T, K>(s: seq<T>, f: T -> K, y: T)
    requires DistinctBy(s, f) && s != [] && y in s[1..]
    ensures f(y) != f(s[0])
  {
    var j :| 0 <= j < |s[1..]| && s[1..][j] == y;
    assert s[j + 1] == y;
  }

  /** Every element of an insertion is the inserted one or an old one. */
  lemma InsertByMembers<T>(x: T, s: seq<T>, key: T -> real, y: T)
    requires y in InsertBy(x, s, key)
    ensures y == x || y in s
  {
    InsertByPermutes(x, s, key);
    assert y in multiset(InsertBy(x, s, key));
    assert y in multiset(s) + multiset{x};
  }

  lemma {:induction false} InsertByDistinct<T, K>(x: T, s: seq<T>, key: T -> real, f: T -> K)
    requires DistinctBy(s, f)
    requires forall i :: 0 <= i < |s| ==> f(s[i]) != f(x)
    ensures DistinctBy(InsertBy(x, s, key), f)
  {
    if s != [] && key(x) > key(s[0]) {
      InsertByDistinct(x, s[1..], key, f);
      var tail := InsertBy(x, s[1..], key);
      forall i | 0 <= i < |tail|
        ensures f(tail[i]) != f(s[0])
      {
        InsertByMembers(x, s[1..], key, tail[i]);
        if tail[i] != x {
          HeadDistinct(s, f, tail[i]);
        }
      }
      assert InsertBy(x, s, key) == [s[0]] + tail;
    }
  }

  /** Sorting keeps distinct elements distinct. */
  lemma {:induction false} SortByDistinct<T, K>(s: seq<T>, key: T -> real, f: T -> K)
    requires DistinctBy(s, f)
    ensures DistinctBy(SortBy(s, key), f)
  {
    if s != [] {
      SortByDistinct(s[1..], key, f);
      SortByPermutes(s[1..], key);
      var sorted := SortBy(s[1..], key);
      forall i | 0 <= i < |sorted|
        ensures f(sorted[i]) != f(s[0])
      {
        assert sorted[i] in multiset(sorted);
        var j :| 0 <= j < |s[1..]| && s[1..][j] == sorted[i];
        assert s[j + 1] == sorted[i];
      }
      InsertByDistinct(s[0], sorted, key, f);
    }
  }
}
