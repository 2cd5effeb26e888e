/** What the overhead verdict of benchmark/internal/experiment compares, and how that differs from the
    comparison of P95 that it is described as. */
module OverheadVerdict {
  import opened Reals
  import opened Sorting
  import opened Quantile
  import opened IqrFilter
  import opened Bootstrap
  import opened Summary
  import opened Medians
  import opened Results
  import opened OverheadRuns

  /** A result with runs, summarized from its own values. */
  ghost predicate Measured(r: Result, rng: Source) {
    |r.runs| > 0 && r.values != [] && Summarizes(r.summary, r.values, rng)
  }

  /** The comparison that the documentation describes. */
  predicate P95Passes(off: Result, on: Result) {
    on.summary.center.p95 <= off.summary.center.p95 * 1.05
  }

  /** The order statistics of an ascending sample from the one below its median rank to the one above its 95%
      rank are all equal. */
  predicate LevelSample(s: seq<real>) {
    |s| >= 2 ==> (BothRanksInRange(|s|); s[Rank(|s|, 0.5).Floor] == s[Ceil(Rank(|s|, 0.95))])
  }

  lemma BothRanksInRange(n: nat)
    requires n >= 1
    ensures 0 <= Rank(n, 0.5).Floor < n && 0 <= Ceil(Rank(n, 0.95)) < n
  {
    RankInRange(n, 0.5);
    RankInRange(n, 0.95);
  }

  predicate Level(r: Result) {
    LevelSample(Sort(Kept(r.values)))
  }

  lemma CenterOfMeasured(r: Result, rng: Source)
    requires Measured(r, rng)
    ensures Kept(r.values) != [] && r.summary.center == CenterOf(Sort(Kept(r.values)))
  {
    hide CenterOf, IntervalsOf;
    KeptIsNonEmpty(r.values);
  }

  lemma LevelCenter(s: seq<real>, c: Center)
    requires Sorted(s) && s != [] && c == CenterOf(s)
    ensures c.p50 <= c.p95
    ensures c.p50 == c.p95 <==> LevelSample(s)
  {
    hide Mean, Variance, CvSquared, Percentile;
    if |s| >= 2 {
      PercentilesAgreeIff(s, 0.5, 0.95);
    } else {
      OneSample(s);
    }
    PercentileMonotone(s, 0.5, 0.95);
  }

  lemma OneSample(s: seq<real>)
    requires |s| == 1
    ensures Percentile(s, 0.5) == Percentile(s, 0.95) == s[0]
  {
  }

  /** What the verdict observes is the P95 of the summarized values exactly when those kept by the filter are
      level between the median rank and the 95% rank; otherwise it is strictly less. */
  lemma ObservedIsP95Iff(r: Result, rng: Source)
    requires Measured(r, rng)
    ensures OverheadObserved(r) == r.summary.center.p95 <==> Level(r)
    ensures OverheadObserved(r) <= r.summary.center.p95
  {
    hide Measured, CenterOf, LevelSample, OverheadObserved;
    RunsObserved(r, rng);
    CenterOfMeasured(r, rng);
    LevelCenter(Sort(Kept(r.values)), r.summary.center);
  }

  lemma SummaryOfOne(t: real, rng: Source, sum: Summary)
    requires Seeded(rng) && sum == SummaryOf([t], [t], [], rng(1))
    ensures Summarizes(sum, [t], rng) && sum.center.p50 == sum.center.p95 == t
  {
    hide IntervalsOf, Mean, Variance, CvSquared, Percentile;
    assert OutlierSet([t]) == {};
    SummaryCenter([t], [t], [], rng(1), sum);
    SortIsDetermined([t], [t]);
    OneSample([t]);
  }

  /** A side measured in one run of one block. */
  lemma OneBlock(t: real, mirrorOn: bool, rng: Source) returns (r: Result)
    requires Seeded(rng)
    ensures Measured(r, rng) && Level(r) && r.summary.center.p50 == r.summary.center.p95 == t
  {
    hide SummaryOf;
    var sum := SummaryOf([t], [t], [], rng(1));
    SummaryOfOne(t, rng, sum);
    var record := RunRecord(1, 1, Probe(0, 0), false, false);
    r := Result(Overhead(mirrorOn), sum, NO_SUMMARY, sum, [t], [], [t], [record], false);
    ObservedIsP95Iff(r, rng);
  }

  ghost predicate SameVerdict(off: Result, on: Result) {
    OverheadPasses(off, on) <==> P95Passes(off, on)
  }

  /** Between two level sides the verdict is the documented one; and a side that is not level is, on its own,
      enough to make it differ: against some level side it comes out the other way. */
  lemma VerdictIsOnP95Iff(r: Result, rng: Source)
    requires Seeded(rng) && Measured(r, rng)
    ensures (forall on | Measured(on, rng) && Level(on) :: SameVerdict(r, on)) <==> Level(r)
    ensures (forall off | Measured(off, rng) && Level(off) :: SameVerdict(off, r)) <==> Level(r)
  {
    hide Measured, Level, OverheadObserved;
    ObservedIsP95Iff(r, rng);
    RunsObserved(r, rng);
    if Level(r) {
      LevelVerdicts(r, rng);
    } else {
      var on := OneBlock(r.summary.center.p95 * 1.05, true, rng);
      RunsObserved(on, rng);
      assert !SameVerdict(r, on);
      var off := OneBlock(r.summary.center.p50 / 1.05, false, rng);
      RunsObserved(off, rng);
      assert !SameVerdict(off, r);
    }
  }

  lemma RunsObserved(r: Result, rng: Source)
    requires Measured(r, rng)
    ensures OverheadObserved(r) == r.summary.center.p50
  {
    hide Summarizes;
  }

  lemma LevelVerdicts(r: Result, rng: Source)
    requires Measured(r, rng) && Level(r)
    ensures forall on | Measured(on, rng) && Level(on) :: SameVerdict(r, on)
    ensures forall off | Measured(off, rng) && Level(off) :: SameVerdict(off, r)
  {
    hide Measured, Level, OverheadObserved;
    ObservedIsP95Iff(r, rng);
    forall o | Measured(o, rng) && Level(o)
      ensures SameVerdict(r, o) && SameVerdict(o, r)
    {
      ObservedIsP95Iff(o, rng);
    }
  }

  // ----- A run on which the two comparisons differ

  /** With one request a second every latency is a block of its own. */
  lemma SingleBlocks(m: Manifest, t: Trial)
    requires m.rps == 1
    ensures BlocksOf(m, t) == ToReals(t.steady)
  {
    assert Blocks(|t.steady|, 1) == |t.steady|;
    forall b | 0 <= b < |t.steady|
      ensures BlockMedian(t.steady, 1, b) == t.steady[b] as real
    {
      SingleMedian(t.steady, b);
    }
  }

  lemma SingleMedian(s: seq<int>, b: nat)
    requires b < |s|
    ensures BlockMedian(s, 1, b) == s[b] as real
  {
    var x := s[b] as real;
    assert Block(s, 1, b) == [s[b]];
    assert ToReals([s[b]]) == [x];
    SortIsDetermined([x], [x]);
    OneSample([x]);
  }

  lemma ThreeSamples(a: real, b: real, c: Center)
    requires a <= b && c == CenterOf(Sort([a, a, b]))
    ensures c.p50 == a && c.p95 == Mix(a, b, 0.9)
  {
    hide Mean, Variance, CvSquared, At;
    var s := [a, a, b];
    SortIsDetermined(s, s);
    MedianIsMiddle(s);
    assert Rank(3, 0.95) == 1.9;
    AtIsMix(s, 1.9, 1, 0.9);
  }

  lemma ThreeBlocks(res: Result, a: real, b: real, rng: Source)
    requires a <= b && Measured(res, rng) && res.values == [a, a, b]
    ensures res.summary.center.p50 == a && res.summary.center.p95 == Mix(a, b, 0.9)
    ensures OverheadObserved(res) == a
  {
    hide CenterOf;
    CenterOfMeasured(res, rng);
    RunsObserved(res, rng);
    ThreeSamples(a, b, res.summary.center);
  }

  /** One attempt a side, one request a second, no adaptivity. */
  ghost predicate Brief(m: Manifest) {
    m.Loaded() && m.h4Runs == 1 && !m.profileOnHighCV && m.rps == 1
  }

  ghost predicate ThreeLatencies(t: Trial, last: int) {
    Succeeds(t) && t.steady == [100, 100, last]
  }

  lemma SideOfOne(m: Manifest, world: World, off: bool)
    requires m.rps == 1
    ensures var c := SideAt(SamplesOf(m, world), off, 2);
            |c.records| == 1 && c.blocks == ToReals(world(if off then 1 else 2).steady)
  {
    hide SampleOf;
    var take := SamplesOf(m, world);
    var k := if off then 1 else 2;
    assert Turns(off, 2) == 1 && Turn(off, 0) == k;
    assert Collected(take, off, 0) == Collection([], [], [], []);
    assert take(k, 1) == SampleOf(m, world(k), k, 1);
    SampleBlocks(m, world(k), k, 1);
    SingleBlocks(m, world(k));
    assert [] + BlocksOf(m, world(k)) == BlocksOf(m, world(k));
  }

  lemma SampleBlocks(m: Manifest, t: Trial, attempt: nat, runIndex: nat)
    ensures SampleOf(m, t, attempt, runIndex).blocks == BlocksOf(m, t)
  {
    hide BlocksOf, Percentile;
  }

  lemma ReportOfOne(m: Manifest, res: Result, c: Collection, mirrorOn: bool, a: int, b: int, rng: Source)
    requires a <= b && Reports(m, res, c, mirrorOn, rng) && |c.records| == 1 && c.blocks == ToReals([a, a, b])
    ensures res.summary.center.p95 == Mix(a as real, b as real, 0.9) && OverheadObserved(res) == a as real
  {
    hide CvPass, Summarizes;
    assert ToReals([a, a, b]) == [a as real, a as real, b as real];
    ThreeBlocks(res, a as real, b as real, rng);
  }

  /** Mirroring off: latencies 100, 100, 100. Mirroring on: 100, 100, 300. The two results of the run pass the
      verdict, their medians being equal, although P95 rises from 100 to 280. */
  lemma VerdictIgnoresTheTail(m: Manifest, world: World, offRes: Result, onRes: Result, rng: Source)
    requires Brief(m) && ThreeLatencies(world(1), 100) && ThreeLatencies(world(2), 300)
    requires Reports(m, offRes, SideAt(SamplesOf(m, world), true, 2), false, rng)
    requires Reports(m, onRes, SideAt(SamplesOf(m, world), false, 2), true, rng)
    ensures CompleteAt(m, PassCV(m), SamplesOf(m, world), 2)
    ensures offRes.summary.center.p95 == 100.0 && onRes.summary.center.p95 == 280.0
    ensures OverheadPasses(offRes, onRes) && !P95Passes(offRes, onRes)
  {
    hide Reports, SideAt, OverheadObserved, PassCV;
    SideOfOne(m, world, true);
    SideOfOne(m, world, false);
    ReportOfOne(m, offRes, SideAt(SamplesOf(m, world), true, 2), false, 100, 100, rng);
    ReportOfOne(m, onRes, SideAt(SamplesOf(m, world), false, 2), true, 100, 300, rng);
  }

  /** And that is what the loop returns. */
  method TailIsIgnored(m: Manifest, world: World, rng: Source) returns (out: (Result, Result))
    requires Seeded(rng) && Brief(m) && ThreeLatencies(world(1), 100) && ThreeLatencies(world(2), 300)
    ensures OverheadPasses(out.0, out.1) && !P95Passes(out.0, out.1)
  {
    hide Reports, SideAt, SamplesOf, PassCV, OverheadObserved, P95Passes, NotYet, CompleteAt, QuotasHold, Succeeds;
    var res, used := RunOverhead(m, world, rng);
    assert MaxPerSide(m) == 1;
    StopsAtTwo(m, PassCV(m), SamplesOf(m, world), used);
    out := res.value;
    VerdictIgnoresTheTail(m, world, out.0, out.1, rng);
  }

  lemma StopsAtTwo(m: Manifest, pass: Verdict, take: Sampling, used: nat)
    requires Brief(m) && used <= 2
    ensures CompleteAt(m, pass, take, used) <==> used == 2
  {
    CollectedCounts(take, true, Turns(true, used));
    CollectedCounts(take, false, Turns(false, used));
  }
}
