// The provisioning-speed figures (spikes/tenant-isolation/internal/probe/speed.go:192-235): an in-place
// sort and an index rounded to the nearest position, unlike the nearest rank of the other spikes.

module SpeedStats {
  import opened Ranks
  import opened Selections
  import Percentiles

  /** Conversion to int drops the fraction, towards zero. */
  function Truncated(numerator: int, denominator: nat): int
    requires denominator > 0
  {
    if numerator >= 0 then numerator / denominator else -(-numerator / denominator)
  }

  /** p/100 * (n-1) + 1/2, as a fraction of 200, truncated. */
  function RoundedIndex(n: nat, p: int): int {
    Truncated(2 * (p * (n - 1)) + 100, 200)
  }

  /** For p in 0..100 the index is the position nearest to p percent of the way from the first to the last,
      and lies among them; 0 is the first and 100 the last. */
  lemma RoundedIsNearest(n: nat, p: int)
    requires n > 0 && 0 <= p <= 100
    ensures p * (n - 1) - 50 < 100 * RoundedIndex(n, p) <= p * (n - 1) + 50
    ensures 0 <= RoundedIndex(n, p) < n
    ensures RoundedIndex(n, 0) == 0 && RoundedIndex(n, 100) == n - 1
  {
    PercentOfSteps(n - 1, p);
    HalfUp(p * (n - 1));
    HalfUp(100 * (n - 1));
  }

  lemma PercentOfSteps(k: nat, p: int)
    requires 0 <= p <= 100
    ensures 0 <= p * k <= 100 * k
  {
    assert (100 - p) * k >= 0;
  }

  /** Adding a half and truncating rounds a hundredth to the nearest whole, a half up. */
  lemma HalfUp(x: nat)
    ensures x - 50 < 100 * Truncated(2 * x + 100, 200) <= x + 50
  {
    var q := (2 * x + 100) / 200;
    assert 200 * q <= 2 * x + 100 < 200 * q + 200;
  }

  /** The clamp acts exactly from p percent of n-1 positions being n - 1/2 on. */
  lemma ClampActsIff(n: nat, p: int)
    requires n > 0
    ensures RoundedIndex(n, p) >= n <==> p * (n - 1) >= 100 * n - 50
  {
  }

  lemma RoundedIndexMonotone(n: nat, p: int, q: int)
    requires n > 0 && p <= q
    ensures RoundedIndex(n, p) <= RoundedIndex(n, q)
  {
    ProductMonotone(p, q, n - 1);
    TruncatedMonotone(2 * (p * (n - 1)) + 100, 2 * (q * (n - 1)) + 100);
  }

  lemma ProductMonotone(p: int, q: int, k: nat)
    requires p <= q
    ensures p * k <= q * k
  {
  }

  lemma TruncatedMonotone(a: int, b: int)
    requires a <= b
    ensures Truncated(a, 200) <= Truncated(b, 200)
  {
  }

  /** percentileDuration sorts its slice in place and returns the sample of the rounded rank. Below
      about -150/(n-1) percent the program would index before the slice. */
  method PercentileDuration(ds: array<int>, p: int) returns (r: int)
    requires ds.Length > 0 ==> p * (ds.Length - 1) > -150
    modifies ds
    ensures Sorted(ds[..]) && multiset(ds[..]) == multiset(old(ds[..]))
    ensures ds.Length == 0 ==> r == 0
    ensures ds.Length > 0 ==>
              IsRank(old(ds[..]), if RoundedIndex(ds.Length, p) < ds.Length then RoundedIndex(ds.Length, p)
                  else ds.Length - 1, r)
  {
    if ds.Length == 0 {
      return 0;
    }
    ghost var samples := ds[..];
    InsertionSort(ds);
    var idx := RoundedIndex(ds.Length, p);
    if idx >= ds.Length {
      idx := ds.Length - 1;
    }
    SortedHoldsRank(samples, ds[..], idx);
    return ds[idx];
  }

  datatype SpeedSample = SpeedSample(failed: bool, vcluster: int, nats: int)

  datatype Stats = Stats(samples: nat, failedSamples: nat, p50VCluster: int, p95VCluster: int, p50NATS: int,
      p95NATS: int)

  /** The times of the samples that did not fail. */
  function VClusterTimes(samples: seq<SpeedSample>): seq<int> {
    if samples == [] then []
    else
      var last := samples[|samples| - 1];
      VClusterTimes(samples[..|samples| - 1]) + if last.failed then [] else [last.vcluster]
  }

  function NATSTimes(samples: seq<SpeedSample>): seq<int> {
    if samples == [] then []
    else
      var last := samples[|samples| - 1];
      NATSTimes(samples[..|samples| - 1]) + if last.failed then [] else [last.nats]
  }

  predicate Succeeded(sample: SpeedSample) {
    !sample.failed
  }

  predicate Failed(sample: SpeedSample) {
    sample.failed
  }

  function VCluster(sample: SpeedSample): int {
    sample.vcluster
  }

  function NATS(sample: SpeedSample): int {
    sample.nats
  }

  lemma {:induction false} TimesSelect(samples: seq<SpeedSample>)
    ensures Selects(samples, Succeeded, VCluster, VClusterTimes(samples))
    ensures Selects(samples, Succeeded, NATS, NATSTimes(samples))
  {
    if samples == [] {
      SelectsNone(Succeeded, VCluster);
      SelectsNone(Succeeded, NATS);
    } else {
      var before := samples[..|samples| - 1];
      TimesSelect(before);
      SelectsMore(samples, Succeeded, VCluster, VClusterTimes(before));
      SelectsMore(samples, Succeeded, NATS, NATSTimes(before));
    }
  }

  /** The indices of the samples that failed, and of those that did not and took the given time for the
      virtual cluster, or for NATS. */
  function Failures(samples: seq<SpeedSample>): set<nat> {
    set i: nat | i < |samples| && samples[i].failed
  }

  function TookVCluster(samples: seq<SpeedSample>, v: int): set<nat> {
    set i: nat | i < |samples| && !samples[i].failed && samples[i].vcluster == v
  }

  function TookNATS(samples: seq<SpeedSample>, v: int): set<nat> {
    set i: nat | i < |samples| && !samples[i].failed && samples[i].nats == v
  }

  /** Each list holds the times of the samples that did not fail, in order, each as often as it was taken. */
  lemma TimesAre(samples: seq<SpeedSample>)
    ensures Selects(samples, Succeeded, VCluster, VClusterTimes(samples))
    ensures Selects(samples, Succeeded, NATS, NATSTimes(samples))
    ensures forall v :: multiset(VClusterTimes(samples))[v] == |TookVCluster(samples, v)|
    ensures forall v :: multiset(NATSTimes(samples))[v] == |TookNATS(samples, v)|
    ensures |Failures(samples)| == |samples| - |VClusterTimes(samples)|
  {
    TimesSelect(samples);
    forall v
      ensures multiset(VClusterTimes(samples))[v] == |TookVCluster(samples, v)|
      ensures multiset(NATSTimes(samples))[v] == |TookNATS(samples, v)|
    {
      SelectionCounts(samples, Succeeded, VCluster, VClusterTimes(samples), v);
      assert Places(samples, Succeeded, VCluster, v) == TookVCluster(samples, v);
      SelectionCounts(samples, Succeeded, NATS, NATSTimes(samples), v);
      assert Places(samples, Succeeded, NATS, v) == TookNATS(samples, v);
    }
    KeptOrNot(samples, Succeeded, Failed, |samples|);
    assert KeptBefore(samples, Failed, |samples|) == Failures(samples);
  }

  /** The two figures of a list of times; both zero if there is none. */
  predicate HasFigures(times: seq<int>, p50: int, p95: int) {
    if times == [] then p50 == p95 == 0
    else IsRank(times, RoundedIndex(|times|, 50), p50) && IsRank(times, RoundedIndex(|times|, 95), p95)
  }

  method Figures(times: seq<int>) returns (p50: int, p95: int)
    ensures HasFigures(times, p50, p95) && p50 <= p95
  {
    p50, p95 := 0, 0;
    if |times| > 0 {
      var a := new int[|times|](j requires 0 <= j < |times| => times[j]);
      assert a[..] == times;
      p50 := PercentileDuration(a, 50);
      ghost var sorted := a[..];
      p95 := PercentileDuration(a, 95);
      FiguresFromSorted(times, sorted, p50, p95);
    }
  }

  /** The second call finds the slice sorted by the first; that makes no difference. */
  lemma FiguresFromSorted(times: seq<int>, sorted: seq<int>, p50: int, p95: int)
    requires times != [] && multiset(times) == multiset(sorted)
    requires var n := |times|; RoundedIndex(n, 50) < n ==> IsRank(times, RoundedIndex(n, 50), p50)
    requires var n := |times|; |sorted| == n && (RoundedIndex(n, 95) < n ==> IsRank(sorted, RoundedIndex(n, 95), p95))
    ensures HasFigures(times, p50, p95) && p50 <= p95
  {
    var n := |times|;
    RoundedIsNearest(n, 50);
    RoundedIsNearest(n, 95);
    PermutationKeepsMembers(times, sorted);
    AtMostPermuted(times, sorted, p95);
    AtMostPermuted(times, sorted, p95 - 1);
    RoundedIndexMonotone(n, 50, 95);
    RankMonotone(times, RoundedIndex(n, 50), p50, RoundedIndex(n, 95), p95);
  }

  /** The figures describe exactly the samples that did not fail, and P50 never exceeds P95. */
  method ComputeSpeedStats(samples: seq<SpeedSample>) returns (s: Stats)
    ensures s.samples == |samples| && s.failedSamples == |Failures(samples)|
    ensures Selects(samples, Succeeded, VCluster, VClusterTimes(samples))
    ensures Selects(samples, Succeeded, NATS, NATSTimes(samples))
    ensures forall v :: multiset(VClusterTimes(samples))[v] == |TookVCluster(samples, v)|
    ensures forall v :: multiset(NATSTimes(samples))[v] == |TookNATS(samples, v)|
    ensures HasFigures(VClusterTimes(samples), s.p50VCluster, s.p95VCluster) && s.p50VCluster <= s.p95VCluster
    ensures HasFigures(NATSTimes(samples), s.p50NATS, s.p95NATS) && s.p50NATS <= s.p95NATS
  {
    var vcs: seq<int>, nats: seq<int> := [], [];
    var failed := 0;
    var i := 0;
    while i < |samples|
      invariant 0 <= i <= |samples|
      invariant vcs == VClusterTimes(samples[..i]) && nats == NATSTimes(samples[..i]) && failed + |vcs| == i
    {
      assert samples[..i + 1][..i] == samples[..i];
      if samples[i].failed {
        failed := failed + 1;
      } else {
        vcs := vcs + [samples[i].vcluster];
        nats := nats + [samples[i].nats];
      }
      i := i + 1;
    }
    assert samples[..i] == samples;
    TimesAre(samples);
    var p50VCluster, p95VCluster := Figures(vcs);
    var p50NATS, p95NATS := Figures(nats);
    s := Stats(|samples|, failed, p50VCluster, p95VCluster, p50NATS, p95NATS);
  }

  /** The rounded index is never more than one position from the nearest rank, and for two samples it is
      one off at p = 50. */
  lemma WithinOneOfNearestRank(n: nat, p: int)
    requires n > 0 && 0 < p <= 100
    ensures -1 <= RoundedIndex(n, p) - Percentiles.NearestIndex(n, p as real) <= 1
    ensures RoundedIndex(2, 50) == Percentiles.NearestIndex(2, 50.0) + 1
  {
    RoundedIsNearest(n, p);
    NearestIndexBounds(n, p);
    assert p * n == p * (n - 1) + p;
    assert RoundedIndex(2, 50) == 1;
    NearestIndexBounds(2, 50);
  }

  lemma NearestIndexBounds(n: nat, p: int)
    ensures p * n - 100 <= 100 * Percentiles.NearestIndex(n, p as real) < p * n
  {
    var x := p as real / 100.0 * n as real;
    assert 100.0 * x == (p * n) as real;
    assert x <= Ceil(x) as real < x + 1.0;
  }
}
