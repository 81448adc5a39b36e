// Order statistics: the k-th smallest sample and the nearest-rank percentile, stated by counting and not
// by sorting, and the in-place insertion sort.

module Ranks {

  /** How many samples are at most v. */
  function AtMost(s: seq<int>, v: int): nat {
    if s == [] then 0 else (if s[0] <= v then 1 else 0) + AtMost(s[1..], v)
  }

  /** How many samples are less than v. */
  function Below(s: seq<int>, v: int): nat {
    AtMost(s, v - 1)
  }

  /** v is the k-th smallest sample, counting from 0. */
  predicate IsRank(s: seq<int>, k: int, v: int) {
    v in s && Below(s, v) <= k < AtMost(s, v)
  }

  /** m of n are at least p percent. */
  predicate Covers(m: int, n: int, p: real) {
    p * n as real <= 100.0 * m as real
  }

  /** v is the least sample with at least p percent of the samples at or below it. */
  predicate IsNearestRank(s: seq<int>, p: real, v: int) {
    v in s && Covers(AtMost(s, v), |s|, p) && !Covers(Below(s, v), |s|, p)
  }

  predicate Sorted(s: seq<int>) {
    forall i, j :: 0 <= i < j < |s| ==> s[i] <= s[j]
  }

  // ----- Counting.

  lemma {:induction false} AtMostMonotone(s: seq<int>, v: int, w: int)
    requires v <= w
    ensures AtMost(s, v) <= AtMost(s, w) <= |s|
  {
    if s != [] {
      AtMostMonotone(s[1..], v, w);
    }
  }

  lemma {:induction false} AtMostConcat(s: seq<int>, t: seq<int>, v: int)
    ensures AtMost(s + t, v) == AtMost(s, v) + AtMost(t, v)
  {
    if s == [] {
      assert s + t == t;
    } else {
      assert (s + t)[1..] == s[1..] + t;
      AtMostConcat(s[1..], t, v);
    }
  }

  function WhereAtMost(s: seq<int>, v: int): set<nat> {
    set i: nat | i < |s| && s[i] <= v
  }

  lemma WhereAtMostLast(s: seq<int>, v: int)
    requires s != []
    ensures var n := |s| - 1; |WhereAtMost(s, v)| == |WhereAtMost(s[..n], v)| + if s[n] <= v then 1 else 0
  {
    var n := |s| - 1;
    assert WhereAtMost(s, v) == WhereAtMost(s[..n], v) + if s[n] <= v then {n} else {};
  }

  /** AtMost counts indices. */
  lemma {:induction false} AtMostCounts(s: seq<int>, v: int)
    ensures AtMost(s, v) == |WhereAtMost(s, v)|
  {
    if s == [] {
      assert WhereAtMost(s, v) == {};
    } else {
      var n := |s| - 1;
      AtMostCounts(s[..n], v);
      WhereAtMostLast(s, v);
      AtMostConcat(s[..n], [s[n]], v);
      assert s == s[..n] + [s[n]];
    }
  }

  lemma MultisetWithout(t: seq<int>, j: nat)
    requires j < |t|
    ensures multiset(t[..j] + t[j + 1..]) == multiset(t) - multiset{t[j]}
  {
    var front, back := t[..j], t[j + 1..];
    assert t == front + [t[j]] + back;
    assert multiset(t) == multiset(front) + multiset{t[j]} + multiset(back);
    assert multiset(front + back) == multiset(front) + multiset(back);
  }

  lemma MultisetTail(s: seq<int>)
    requires s != []
    ensures multiset(s[1..]) == multiset(s) - multiset{s[0]} && s[0] in multiset(s)
  {
    MultisetWithout(s, 0);
    assert s[..0] + s[1..] == s[1..];
  }

  /** A permutation has the first sample somewhere; without it, what is left is a permutation. */
  lemma FindFirst(s: seq<int>, t: seq<int>) returns (j: nat)
    requires s != [] && multiset(s) == multiset(t)
    ensures j < |t| && t[j] == s[0] && multiset(s[1..]) == multiset(t[..j] + t[j + 1..])
  {
    MultisetTail(s);
    assert s[0] in t;
    j :| 0 <= j < |t| && t[j] == s[0];
    MultisetWithout(t, j);
  }

  lemma AtMostWithout(t: seq<int>, j: nat, v: int)
    requires j < |t|
    ensures AtMost(t, v) == AtMost(t[..j] + t[j + 1..], v) + if t[j] <= v then 1 else 0
  {
    var front, back := t[..j], t[j + 1..];
    assert t == front + ([t[j]] + back);
    AtMostConcat(front, back, v);
    AtMostConcat(front, [t[j]] + back, v);
    assert ([t[j]] + back)[1..] == back;
  }

  /** Counting does not look at the order. */
  lemma {:induction false} AtMostPermuted(s: seq<int>, t: seq<int>, v: int)
    requires multiset(s) == multiset(t)
    ensures AtMost(s, v) == AtMost(t, v)
  {
    if s == [] {
      assert |t| == |multiset(t)| == 0;
    } else {
      var j := FindFirst(s, t);
      AtMostWithout(t, j, v);
      AtMostPermuted(s[1..], t[..j] + t[j + 1..], v);
    }
  }

  lemma {:induction false} AllAtMost(s: seq<int>, v: int)
    requires forall i :: 0 <= i < |s| ==> s[i] <= v
    ensures AtMost(s, v) == |s|
  {
    if s != [] {
      AllAtMost(s[1..], v);
    }
  }

  lemma {:induction false} NoneAtMost(s: seq<int>, v: int)
    requires forall i :: 0 <= i < |s| ==> v < s[i]
    ensures AtMost(s, v) == 0
  {
    if s != [] {
      NoneAtMost(s[1..], v);
    }
  }

  lemma {:induction false} AllCounted(s: seq<int>, v: int)
    requires AtMost(s, v) == |s|
    ensures forall x :: x in s ==> x <= v
  {
    if s != [] {
      AtMostMonotone(s[1..], v, v);
      AllCounted(s[1..], v);
      assert forall x :: x in s ==> x == s[0] || x in s[1..];
    }
  }

  lemma {:induction false} PermutationKeepsMembers(s: seq<int>, t: seq<int>)
    requires multiset(s) == multiset(t)
    ensures |s| == |t| && forall x :: x in s <==> x in t
  {
    assert |s| == |multiset(s)| == |multiset(t)| == |t|;
    assert forall x :: x in s <==> x in multiset(s);
    assert forall x :: x in t <==> x in multiset(t);
  }

  // ----- Ranks.

  lemma SortedCounts(sorted: seq<int>, k: int)
    requires Sorted(sorted) && 0 <= k < |sorted|
    ensures Below(sorted, sorted[k]) <= k < AtMost(sorted, sorted[k])
  {
    var v := sorted[k];
    assert sorted == sorted[..k] + sorted[k..];
    AtMostConcat(sorted[..k], sorted[k..], v - 1);
    NoneAtMost(sorted[k..], v - 1);
    AtMostMonotone(sorted[..k], v - 1, v - 1);
    assert sorted == sorted[..k + 1] + sorted[k + 1..];
    AtMostConcat(sorted[..k + 1], sorted[k + 1..], v);
    AllAtMost(sorted[..k + 1], v);
  }

  /** Of a sorted sequence, index k holds the k-th smallest sample of every permutation. */
  lemma SortedHoldsRank(s: seq<int>, sorted: seq<int>, k: int)
    requires Sorted(sorted) && multiset(s) == multiset(sorted) && 0 <= k < |sorted|
    ensures IsRank(s, k, sorted[k])
  {
    PermutationKeepsMembers(s, sorted);
    AtMostPermuted(s, sorted, sorted[k]);
    AtMostPermuted(s, sorted, sorted[k] - 1);
    SortedCounts(sorted, k);
  }

  /** Higher ranks are no smaller. */
  lemma RankMonotone(s: seq<int>, j: int, v: int, k: int, w: int)
    requires IsRank(s, j, v) && IsRank(s, k, w) && j <= k
    ensures v <= w
  {
    if w < v {
      AtMostMonotone(s, w, v - 1);
    }
  }

  /** There is only one sample of a rank. */
  lemma RankUnique(s: seq<int>, k: int, v: int, w: int)
    requires IsRank(s, k, v) && IsRank(s, k, w)
    ensures v == w
  {
    RankMonotone(s, k, v, k, w);
    RankMonotone(s, k, w, k, v);
  }

  function Ceil(x: real): int {
    -((-x).Floor)
  }

  /** The nearest-rank percentile is the sample of rank ceil(p/100 * n) - 1. */
  lemma NearestRankIff(s: seq<int>, p: real, v: int)
    ensures IsNearestRank(s, p, v) <==> IsRank(s, Ceil(p / 100.0 * |s| as real) - 1, v)
  {
    var x := p / 100.0 * |s| as real;
    assert x * 100.0 == p * |s| as real;
    var m, b := AtMost(s, v), Below(s, v);
    assert x <= m as real <==> Ceil(x) <= m;
    assert (b as real) < x <==> b < Ceil(x);
  }

  lemma CoversLess(m: int, k: int, n: nat, p: real, q: real)
    requires p <= q && m <= k && Covers(m, n, q)
    ensures Covers(k, n, p)
  {
    assert (q - p) * n as real >= 0.0;
  }

  /** Percentiles grow with p. */
  lemma NearestRankOrder(s: seq<int>, p: real, v: int, q: real, w: int)
    requires IsNearestRank(s, p, v) && IsNearestRank(s, q, w) && p <= q
    ensures v <= w
  {
    if w < v {
      AtMostMonotone(s, w, v - 1);
      CoversLess(AtMost(s, w), Below(s, v), |s|, p, q);
      assert false;
    }
  }

  /** The percentile for p = 100 is the largest sample. */
  lemma HundredIsMax(s: seq<int>, w: int)
    requires IsNearestRank(s, 100.0, w)
    ensures forall x :: x in s ==> x <= w
  {
    AtMostMonotone(s, w, w);
    AllCounted(s, w);
  }

  // ----- The sort.

  /** Any two sorts agree. */
  lemma SortedUnique(s: seq<int>, t: seq<int>)
    requires Sorted(s) && Sorted(t) && multiset(s) == multiset(t)
    ensures s == t
  {
    PermutationKeepsMembers(s, t);
    forall k | 0 <= k < |s|
      ensures s[k] == t[k]
    {
      SortedHoldsRank(s, s, k);
      SortedHoldsRank(s, t, k);
      RankUnique(s, k, s[k], t[k]);
    }
  }

  /** percentileDuration's nested loops (spikes/tenant-isolation/internal/probe/speed.go:225-229). */
  method InsertionSort(a: array<int>)
    modifies a
    ensures Sorted(a[..]) && multiset(a[..]) == multiset(old(a[..]))
    ensures Sorted(old(a[..])) ==> a[..] == old(a[..])
  {
    var i := 1;
    while i < a.Length
      invariant 1 <= i
      invariant forall x, y :: 0 <= x < y < i && y < a.Length ==> a[x] <= a[y]
      invariant multiset(a[..]) == multiset(old(a[..]))
    {
      var j := i;
      while j > 0 && a[j] < a[j - 1]
        invariant 0 <= j <= i
        invariant forall x, y :: 0 <= x < y <= i && y != j ==> a[x] <= a[y]
        invariant multiset(a[..]) == multiset(old(a[..]))
      {
        a[j], a[j - 1] := a[j - 1], a[j];
        j := j - 1;
      }
      i := i + 1;
    }
    if Sorted(old(a[..])) {
      SortedUnique(a[..], old(a[..]));
    }
  }
}
