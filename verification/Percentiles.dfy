// The three nearest-rank percentile implementations (spikes/knative-coldstart/internal/measure/stats.go,
// spikes/nats-routing/internal/spike/stats.go, spikes/scylladb-accounts/internal/bench/stats.go), in
// exact arithmetic, with the library sorts replaced by an in-place sort.

module Percentiles {
  import opened Ranks
  import opened Selections

  // ----- The index.

  function NearestIndex(n: nat, p: real): int {
    Ceil(p / 100.0 * n as real) - 1
  }

  /** The index needs no clamp exactly for p in (0, 100]; otherwise it is out on the side of p. */
  lemma IndexInRangeIff(n: nat, p: real)
    requires n > 0
    ensures 0 <= NearestIndex(n, p) < n <==> 0.0 < p <= 100.0
    ensures p <= 0.0 ==> NearestIndex(n, p) < 0
    ensures p > 100.0 ==> NearestIndex(n, p) >= n
  {
    var x := p / 100.0 * n as real;
    Sign(p, n as real);
    Sign(100.0 - p, n as real);
    assert (100.0 - p) / 100.0 * n as real == n as real - x;
    assert 0.0 < x <==> 0 < Ceil(x);
    assert x <= n as real <==> Ceil(x) <= n;
  }

  lemma Sign(d: real, n: real)
    requires n > 0.0
    ensures d > 0.0 ==> d / 100.0 * n > 0.0
    ensures d <= 0.0 ==> d / 100.0 * n <= 0.0
    ensures d < 0.0 ==> d / 100.0 * n < 0.0
  {
  }

  function ClampedIndex(n: nat, p: real): (k: nat)
    requires n > 0
    ensures k < n
  {
    var idx := NearestIndex(n, p);
    if idx < 0 then 0 else if idx >= n then n - 1 else idx
  }

  /** percentileAt of a sorted sequence: the index clamped on both sides. */
  function PercentileAt(sorted: seq<int>, p: real): int {
    if sorted == [] then 0 else sorted[ClampedIndex(|sorted|, p)]
  }

  /** The value at p of the sorted samples is the nearest-rank percentile of the samples, for every p
      in (0, 100]; beyond, it is the least or the largest sample. */
  lemma PercentileAtIsNearest(s: seq<int>, sorted: seq<int>, p: real)
    requires s != [] && Sorted(sorted) && multiset(s) == multiset(sorted)
    ensures 0.0 < p <= 100.0 ==> IsNearestRank(s, p, PercentileAt(sorted, p))
    ensures p <= 0.0 ==> IsRank(s, 0, PercentileAt(sorted, p))
    ensures p > 100.0 ==> IsRank(s, |s| - 1, PercentileAt(sorted, p))
  {
    PermutationKeepsMembers(s, sorted);
    IndexInRangeIff(|sorted|, p);
    var k := if p <= 0.0 then 0 else if p > 100.0 then |sorted| - 1 else NearestIndex(|sorted|, p);
    SortedHoldsRank(s, sorted, k);
    if 0.0 < p <= 100.0 {
      NearestRankIff(s, p, sorted[k]);
    }
  }

  // ----- What all three report.

  /** The figures of a non-empty set of samples. */
  predicate Describes(s: seq<int>, min: int, p50: int, p95: int, p99: int, max: int) {
    && IsRank(s, 0, min)
    && IsNearestRank(s, 50.0, p50)
    && IsNearestRank(s, 95.0, p95)
    && IsNearestRank(s, 99.0, p99)
    && IsRank(s, |s| - 1, max)
  }

  /** Rank 0 is the least sample and rank n-1 the largest. */
  lemma ExtremeRanks(s: seq<int>, v: int)
    ensures IsRank(s, 0, v) ==> forall x :: x in s ==> v <= x
    ensures IsRank(s, |s| - 1, v) ==> forall x :: x in s ==> x <= v
  {
    if IsRank(s, 0, v) {
      forall x | x in s
        ensures v <= x
      {
        if x < v {
          CountsItself(s, x);
          AtMostMonotone(s, x, v - 1);
        }
      }
    }
    if IsRank(s, |s| - 1, v) {
      AtMostMonotone(s, v, v);
      AllCounted(s, v);
    }
  }

  lemma {:induction false} CountsItself(s: seq<int>, x: int)
    requires x in s
    ensures AtMost(s, x) > 0
  {
    if s[0] != x {
      CountsItself(s[1..], x);
    }
  }

  /** The reported figures are in order. */
  lemma FiguresInOrder(s: seq<int>, min: int, p50: int, p95: int, p99: int, max: int)
    requires Describes(s, min, p50, p95, p99, max)
    ensures min <= p50 <= p95 <= p99 <= max
    ensures forall x :: x in s ==> min <= x <= max
  {
    ExtremeRanks(s, min);
    ExtremeRanks(s, max);
    NearestRankOrder(s, 50.0, p50, 95.0, p95);
    NearestRankOrder(s, 95.0, p95, 99.0, p99);
  }

  /** There is one nearest-rank value for each p, however the samples are ordered. */
  lemma NearestRankUnique(s: seq<int>, t: seq<int>, p: real, v: int, w: int)
    requires multiset(s) == multiset(t) && IsNearestRank(s, p, v) && IsNearestRank(t, p, w)
    ensures v == w
  {
    PermutationKeepsMembers(s, t);
    AtMostPermuted(s, t, w);
    AtMostPermuted(s, t, w - 1);
    NearestRankOrder(s, p, v, p, w);
    NearestRankOrder(s, p, w, p, v);
  }

  /** The implementations agree: on the same samples in any order they report the same figures. */
  lemma FiguresAgree(s: seq<int>, t: seq<int>, min: int, p50: int, p95: int, p99: int, max: int,
                     min': int, p50': int, p95': int, p99': int, max': int)
    requires multiset(s) == multiset(t)
    requires Describes(s, min, p50, p95, p99, max) && Describes(t, min', p50', p95', p99', max')
    ensures min == min' && p50 == p50' && p95 == p95' && p99 == p99' && max == max'
  {
    NearestRankUnique(s, t, 50.0, p50, p50');
    NearestRankUnique(s, t, 95.0, p95, p95');
    NearestRankUnique(s, t, 99.0, p99, p99');
    PermutationKeepsMembers(s, t);
    ExtremeRanks(s, min);
    ExtremeRanks(t, min');
    ExtremeRanks(s, max);
    ExtremeRanks(t, max');
  }

  // ----- knative-coldstart: ComputeStats.

  datatype Sample = Sample(failed: bool, ttfb: int)

  datatype Stats = Stats(sampleCount: nat, failCount: nat, min: int, max: int, p50: int, p75: int, p95: int, p99: int)

  /** The times of the samples that did not fail. */
  function Successes(samples: seq<Sample>): (times: seq<int>)
    ensures |times| <= |samples|
  {
    if samples == [] then []
    else
      var last := samples[|samples| - 1];
      Successes(samples[..|samples| - 1]) + if last.failed then [] else [last.ttfb]
  }

  predicate Succeeded(sample: Sample) {
    !sample.failed
  }

  predicate Failed(sample: Sample) {
    sample.failed
  }

  function Ttfb(sample: Sample): int {
    sample.ttfb
  }

  lemma {:induction false} SuccessesSelect(samples: seq<Sample>)
    ensures Selects(samples, Succeeded, Ttfb, Successes(samples))
  {
    if samples == [] {
      SelectsNone(Succeeded, Ttfb);
    } else {
      SuccessesSelect(samples[..|samples| - 1]);
      SelectsMore(samples, Succeeded, Ttfb, Successes(samples[..|samples| - 1]));
    }
  }

  /** The indices of the samples that failed, and of those that did not and took the given time. */
  function Failures(samples: seq<Sample>): set<nat> {
    set i: nat | i < |samples| && samples[i].failed
  }

  function TookTime(samples: seq<Sample>, v: int): set<nat> {
    set i: nat | i < |samples| && !samples[i].failed && samples[i].ttfb == v
  }

  /** The times kept are those of the samples that did not fail, in order, each as often as it was taken,
      and the failures are the rest. */
  lemma SuccessesAre(samples: seq<Sample>)
    ensures Selects(samples, Succeeded, Ttfb, Successes(samples))
    ensures forall v :: multiset(Successes(samples))[v] == |TookTime(samples, v)|
    ensures |Failures(samples)| == |samples| - |Successes(samples)|
  {
    SuccessesSelect(samples);
    forall v
      ensures multiset(Successes(samples))[v] == |TookTime(samples, v)|
    {
      SelectionCounts(samples, Succeeded, Ttfb, Successes(samples), v);
      assert Places(samples, Succeeded, Ttfb, v) == TookTime(samples, v);
    }
    KeptOrNot(samples, Succeeded, Failed, |samples|);
    assert KeptBefore(samples, Failed, |samples|) == Failures(samples);
  }

  /** The figures describe exactly the samples that did not fail; if all failed they are zero. */
  method ComputeStats(samples: seq<Sample>) returns (s: Stats)
    ensures s.sampleCount == |samples| && s.failCount == |Failures(samples)|
    ensures Selects(samples, Succeeded, Ttfb, Successes(samples))
    ensures forall v :: multiset(Successes(samples))[v] == |TookTime(samples, v)|
    ensures Successes(samples) == [] ==> s.min == s.max == s.p50 == s.p75 == s.p95 == s.p99 == 0
    ensures Successes(samples) != [] ==> Describes(Successes(samples), s.min, s.p50, s.p95, s.p99, s.max)
    ensures Successes(samples) != [] ==> IsNearestRank(Successes(samples), 75.0, s.p75) && s.p50 <= s.p75 <= s.p95
  {
    var durations: seq<int> := [];
    var failCount := 0;
    var i := 0;
    while i < |samples|
      invariant 0 <= i <= |samples|
      invariant durations == Successes(samples[..i]) && failCount + |durations| == i
    {
      assert samples[..i + 1][..i] == samples[..i];
      if samples[i].failed {
        failCount := failCount + 1;
      } else {
        durations := durations + [samples[i].ttfb];
      }
      i := i + 1;
    }
    assert samples[..i] == samples;
    SuccessesAre(samples);
    if |durations| == 0 {
      return Stats(|samples|, failCount, 0, 0, 0, 0, 0, 0);
    }
    var a := new int[|durations|](j requires 0 <= j < |durations| => durations[j]);
    assert a[..] == durations;
    InsertionSort(a);
    var sorted := a[..];
    PermutationKeepsMembers(durations, sorted);
    s := Stats(|samples|, failCount, sorted[0], sorted[|sorted| - 1], PercentileAt(sorted, 50.0),
        PercentileAt(sorted, 75.0),
               PercentileAt(sorted, 95.0), PercentileAt(sorted, 99.0));
    FiguresOfSorted(durations, sorted);
    PercentileAtIsNearest(durations, sorted, 75.0);
    NearestRankOrder(durations, 50.0, s.p50, 75.0, s.p75);
    NearestRankOrder(durations, 75.0, s.p75, 95.0, s.p95);
  }

  /** What all three read off the sorted samples. */
  lemma FiguresOfSorted(s: seq<int>, sorted: seq<int>)
    requires s != [] && Sorted(sorted) && multiset(s) == multiset(sorted) && |sorted| == |s|
    ensures Describes(s, sorted[0], PercentileAt(sorted, 50.0), PercentileAt(sorted, 95.0),
            PercentileAt(sorted, 99.0), sorted[|sorted| - 1])
  {
    PercentileAtIsNearest(s, sorted, 50.0);
    PercentileAtIsNearest(s, sorted, 95.0);
    PercentileAtIsNearest(s, sorted, 99.0);
    SortedHoldsRank(s, sorted, 0);
    SortedHoldsRank(s, sorted, |sorted| - 1);
  }

  // ----- nats-routing: ComputePercentiles, which does not clamp.

  datatype LatencyStats = LatencyStats(p50: int, p95: int, p99: int, min: int, max: int)

  /** The closure of ComputePercentiles: no clamp is needed for p in (0, 100]. */
  function Pct(sorted: seq<int>, p: real): (r: int)
    requires sorted != [] && 0.0 < p <= 100.0
    ensures r == PercentileAt(sorted, p)
  {
    IndexInRangeIff(|sorted|, p);
    sorted[NearestIndex(|sorted|, p)]
  }

  method ComputePercentiles(latencies: array<int>) returns (s: LatencyStats)
    requires latencies.Length > 0
    modifies latencies
    ensures Sorted(latencies[..]) && multiset(latencies[..]) == multiset(old(latencies[..]))
    ensures Describes(old(latencies[..]), s.min, s.p50, s.p95, s.p99, s.max)
  {
    ghost var samples := latencies[..];
    InsertionSort(latencies);
    var sorted := latencies[..];
    s := LatencyStats(Pct(sorted, 50.0), Pct(sorted, 95.0), Pct(sorted, 99.0), sorted[0], sorted[|sorted| - 1]);
    PermutationKeepsMembers(samples, sorted);
    FiguresOfSorted(samples, sorted);
  }

  // ----- scylladb-accounts: Percentile, MinDuration, MaxDuration, BuildResult.

  /** Clamping the rank is clamping the index. */
  method ClampedRank(n: nat, p: real) returns (rank: nat)
    requires n > 0
    ensures rank == ClampedIndex(n, p) + 1
  {
    var r := Ceil(p / 100.0 * n as real);
    if r < 1 {
      r := 1;
    }
    if r > n {
      r := n;
    }
    rank := r;
  }

  /** Percentile clamps the rank, not the index; the value is that of percentileAt for every p. */
  method Percentile(samples: array<int>, p: real) returns (r: int)
    modifies samples
    ensures Sorted(samples[..]) && multiset(samples[..]) == multiset(old(samples[..]))
    ensures r == PercentileAt(samples[..], p)
    ensures Sorted(old(samples[..])) ==> samples[..] == old(samples[..])
    ensures samples.Length > 0 && 0.0 < p <= 100.0 ==> IsNearestRank(old(samples[..]), p, r)
  {
    if samples.Length == 0 {
      return 0;
    }
    ghost var unsorted := samples[..];
    InsertionSort(samples);
    PercentileAtIsNearest(unsorted, samples[..], p);
    var rank := ClampedRank(samples.Length, p);
    return samples[rank - 1];
  }

  method MinDuration(samples: array<int>) returns (m: int)
    ensures samples.Length == 0 ==> m == 0
    ensures samples.Length > 0 ==> m in samples[..] && forall x :: x in samples[..] ==> m <= x
  {
    if samples.Length == 0 {
      return 0;
    }
    m := samples[0];
    var i := 1;
    while i < samples.Length
      invariant 1 <= i <= samples.Length
      invariant m in samples[..] && forall k :: 0 <= k < i ==> m <= samples[k]
    {
      if samples[i] < m {
        m := samples[i];
      }
      i := i + 1;
    }
  }

  method MaxDuration(samples: array<int>) returns (m: int)
    ensures samples.Length == 0 ==> m == 0
    ensures samples.Length > 0 ==> m in samples[..] && forall x :: x in samples[..] ==> x <= m
  {
    if samples.Length == 0 {
      return 0;
    }
    m := samples[0];
    var i := 1;
    while i < samples.Length
      invariant 1 <= i <= samples.Length
      invariant m in samples[..] && forall k :: 0 <= k < i ==> samples[k] <= m
    {
      if samples[i] > m {
        m := samples[i];
      }
      i := i + 1;
    }
  }

  datatype Result = Result(ops: nat, p50: int, p95: int, p99: int, min: int, max: int, errors: int)

  /** Sorting again inside every Percentile call changes nothing. */
  method BuildResult(samples: array<int>, errs: int) returns (r: Result)
    modifies samples
    ensures Sorted(samples[..]) && multiset(samples[..]) == multiset(old(samples[..]))
    ensures r.ops == samples.Length && r.errors == errs
    ensures samples.Length == 0 ==> r.p50 == r.p95 == r.p99 == r.min == r.max == 0
    ensures samples.Length > 0 ==> Describes(old(samples[..]), r.min, r.p50, r.p95, r.p99, r.max)
  {
    ghost var unsorted := samples[..];
    InsertionSort(samples);
    ghost var sorted := samples[..];
    var p50 := Percentile(samples, 50.0);
    var p95 := Percentile(samples, 95.0);
    var p99 := Percentile(samples, 99.0);
    assert samples[..] == sorted;
    var min := MinDuration(samples);
    var max := MaxDuration(samples);
    r := Result(samples.Length, p50, p95, p99, min, max, errs);
    if samples.Length > 0 {
      EndsOfSorted(sorted, min, max);
      FiguresOfSorted(unsorted, sorted);
    }
  }

  lemma EndsOfSorted(sorted: seq<int>, min: int, max: int)
    requires Sorted(sorted) && min in sorted && max in sorted && forall x :: x in sorted ==> min <= x <= max
    ensures min == sorted[0] && max == sorted[|sorted| - 1]
  {
    var i, j :| 0 <= i < |sorted| && sorted[i] == min && 0 <= j < |sorted| && sorted[j] == max;
    assert sorted[0] in sorted && sorted[|sorted| - 1] in sorted;
  }
}
