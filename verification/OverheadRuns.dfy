/** The overhead experiment of benchmark/internal/experiment: attempts alternate between mirroring off and
    on until both sides are complete. What happens in each attempt is arbitrary. */
module OverheadRuns {
  import opened Records
  import opened Reals
  import opened Sorting
  import opened Quantile
  import opened IqrFilter
  import opened Bootstrap
  import opened Summary
  import opened ShadowMetrics
  import opened Medians
  import opened Results

  /** One attempt: whether the mirror config is stored and the warm-up load completes, the latencies of the
      steady window and of the whole profile, and whether the collection ended with an error. */
  datatype Trial = Trial(configOK: bool, warmupOK: bool, steady: seq<int>, all: seq<int>, collectOK: bool)

  type World = nat -> Trial

  datatype OverheadSide = OverheadSide(enabled: bool, ratio: real)

  function OverheadSideSpec(mirrorOff: bool): OverheadSide {
    if mirrorOff then OverheadSide(false, 0.0) else OverheadSide(true, 1.0)
  }

  predicate CanCollect(count: nat, maxRuns: nat) {
    count < maxRuns
  }

  function TrySide(mirrorOff: bool, offCount: nat, onCount: nat, maxRuns: nat): Option<OverheadSide> {
    if !CanCollect(if mirrorOff then offCount else onCount, maxRuns) then None
    else Some(OverheadSideSpec(mirrorOff))
  }

  /** Odd attempts prefer the off side; a full side gives way to the other. */
  function PickOverheadSide(attempt: nat, offCount: nat, onCount: nat, maxRuns: nat): Option<OverheadSide> {
    var preferOff := attempt % 2 == 1;
    var first := TrySide(preferOff, offCount, onCount, maxRuns);
    if first.Some? then first else TrySide(!preferOff, offCount, onCount, maxRuns)
  }

  /** A side is picked exactly while one has room, and the one picked has. */
  lemma PickHasRoom(attempt: nat, offCount: nat, onCount: nat, maxRuns: nat)
    ensures var pick := PickOverheadSide(attempt, offCount, onCount, maxRuns);
            && (pick.Some? <==> offCount < maxRuns || onCount < maxRuns)
            && (pick.Some? ==> if pick.value.enabled then onCount < maxRuns else offCount < maxRuns)
  {
  }

  /** How many attempts each side has had after k of them. */
  function Turns(off: bool, k: nat): nat {
    if off then (k + 1) / 2 else k / 2
  }

  /** With the counts that alternation produces the preferred side always has room: the fallback is never taken. */
  lemma PickAlternates(attempt: nat, maxRuns: nat)
    requires 1 <= attempt <= 2 * maxRuns
    ensures PickOverheadSide(attempt, Turns(true, attempt - 1), Turns(false, attempt - 1), maxRuns)
         == Some(OverheadSideSpec(attempt % 2 == 1))
  {
  }

  // ----- One attempt

  datatype OverheadSample = OverheadSample(record: RunRecord, runP95: real, blocks: seq<real>, rtts: seq<real>)

  predicate Succeeds(t: Trial) {
    t.configOK && t.warmupOK && t.steady != []
  }

  ghost function BlocksOf(m: Manifest, t: Trial): seq<real> {
    seq(Blocks(|t.steady|, BlockSize(m.rps)), b requires 0 <= b => BlockMedian(t.steady, BlockSize(m.rps), b))
  }

  ghost function SampleOf(m: Manifest, t: Trial, attempt: nat, runIndex: nat): (s: OverheadSample)
    ensures s.record.runIndex == runIndex && s.record.attempt == attempt
  {
    var blocks := BlocksOf(m, t);
    var p95, p50 := Percentile(Sort(blocks), 0.95), Percentile(Sort(blocks), 0.5);
    OverheadSample(RunRecord(runIndex, attempt, Probe(Truncate(p95), Truncate(p50)), false, false), p95, blocks,
                   ToReals(t.all))
  }

  lemma TruncationGrows(x: real, y: real)
    requires x <= y
    ensures Truncate(x) <= Truncate(y)
  {
  }

  /** The figure of a run lies between the order statistics around the 95% rank of its block medians; its record holds
      that figure and the median, cut off to integers. */
  lemma SampleIsP95(m: Manifest, t: Trial, attempt: nat, runIndex: nat)
    requires t.steady != []
    ensures var s := SampleOf(m, t, attempt, runIndex);
            var sorted := Sort(s.blocks);
            && sorted != [] && s.blocks == BlocksOf(m, t) && s.rtts == ToReals(t.all)
            && (forall i: nat :: i < |sorted| && Rank(|sorted|, 0.95) <= i as real ==> s.runP95 <= sorted[i])
            && (forall i: nat :: i < |sorted| && i as real <= Rank(|sorted|, 0.95) ==> sorted[i] <= s.runP95)
            && s.record.probe.workloadNs == Truncate(s.runP95)
            && s.record.probe.e2eNs == Truncate(Percentile(sorted, 0.5)) <= s.record.probe.workloadNs
  {
    hide BlockMedian, Percentile, Rank;
    var sorted := Sort(BlocksOf(m, t));
    SomeBlocks(|t.steady|, BlockSize(m.rps));
    forall i: nat | i < |sorted|
      ensures Rank(|sorted|, 0.95) <= i as real ==> Percentile(sorted, 0.95) <= sorted[i]
      ensures i as real <= Rank(|sorted|, 0.95) ==> sorted[i] <= Percentile(sorted, 0.95)
    {
      PercentileSplits(sorted, 0.95, i);
    }
    PercentileMonotone(sorted, 0.5, 0.95);
    TruncationGrows(Percentile(sorted, 0.5), Percentile(sorted, 0.95));
  }

  lemma SomeBlocks(n: nat, size: nat)
    requires size >= 1
    ensures Blocks(n, size) > 0 <==> n > 0
  {
    BlockExists(n, size, 0);
  }

  /** An attempt fails exactly when the config or the warm-up does not get through or the steady window is
      empty; an error after some steady samples is ignored. */
  method RunOverheadAttempt(m: Manifest, t: Trial, attempt: nat, runIndex: nat, rng: Source)
    returns (sample: Option<OverheadSample>)
    requires Seeded(rng)
    ensures sample == if Succeeds(t) then Some(SampleOf(m, t, attempt, runIndex)) else None
    ensures sample.Some? <==> t.configOK && t.warmupOK && t.steady != []
  {
    hide BlockMedian, Percentile, SummaryOf, Mean, Variance, CvSquared;
    if !t.configOK || !t.warmupOK {
      return None;
    }
    if !t.collectOK && |t.steady| == 0 {
      return None;
    }
    var blocks := BlockMedians(t.steady, m.rps);
    SomeBlocks(|t.steady|, BlockSize(m.rps));
    if |blocks| == 0 {
      return None;
    }
    assert blocks == BlocksOf(m, t);
    var blockSum := SummarizeFilteredWithSeed(blocks, blocks, [], rng(|blocks|));
    SummaryCenter(blocks, blocks, [], rng(|blocks|), blockSum);
    var p95, p50 := blockSum.center.p95, blockSum.center.p50;
    sample := Some(OverheadSample(RunRecord(runIndex, attempt, Probe(Truncate(p95), Truncate(p50)), false, false),
                                  p95, blocks, ToReals(t.all)));
  }

  // ----- The two sides

  datatype Collection = Collection(records: seq<RunRecord>, runP95: seq<real>, blocks: seq<real>, rtts: seq<real>)

  function Extend(c: Collection, s: OverheadSample): Collection {
    Collection(c.records + [s.record], c.runP95 + [s.runP95], c.blocks + s.blocks, c.rtts + s.rtts)
  }

  /** Attempt number i of a side, counted from zero. */
  function Turn(off: bool, i: nat): nat {
    2 * i + if off then 1 else 2
  }

  /** What an attempt of this number and run index yields. */
  type Sampling = (nat, nat) -> OverheadSample

  ghost function SamplesOf(m: Manifest, world: World): Sampling {
    (attempt: nat, runIndex: nat) => SampleOf(m, world(attempt), attempt, runIndex)
  }

  /** The first n attempts of a side. */
  ghost function Collected(take: Sampling, off: bool, n: nat): Collection {
    if n == 0 then Collection([], [], [], [])
    else Extend(Collected(take, off, n - 1), take(Turn(off, n - 1), n))
  }

  ghost function SideAt(take: Sampling, off: bool, k: nat): Collection {
    Collected(take, off, Turns(off, k))
  }

  function ValuesOf(c: Collection): seq<real> {
    OverheadValues(|c.records|, c.runP95, c.blocks)
  }

  type Verdict = Collection -> bool

  function PassCV(m: Manifest): Verdict {
    (c: Collection) => CvPass(ValuesOf(c), m.cvThreshold)
  }

  function MaxPerSide(m: Manifest): nat {
    if m.profileOnHighCV then m.h4MaxRuns else m.h4Runs
  }

  /** The stopping rule, for any verdict on a side. */
  predicate Complete(m: Manifest, pass: Verdict, off: Collection, on: Collection) {
    && |off.records| >= m.h4Runs && |on.records| >= m.h4Runs
    && (!m.profileOnHighCV || (pass(off) && pass(on)) ||
        (|off.records| >= m.h4MaxRuns && |on.records| >= m.h4MaxRuns))
  }

  ghost predicate CompleteAt(m: Manifest, pass: Verdict, take: Sampling, k: nat) {
    Complete(m, pass, SideAt(take, true, k), SideAt(take, false, k))
  }

  ghost predicate Reports(m: Manifest, res: Result, c: Collection, mirrorOn: bool, rng: Source) {
    && res.scenario == Overhead(mirrorOn) && res.runs == c.records && res.values == ValuesOf(c)
    && res.e2eValues == c.rtts && res.blockValues == c.blocks && Summarizes(res.blockSummary, c.blocks, rng)
    && Built(res, m.cvThreshold, rng)
  }

  method Report(m: Manifest, c: Collection, mirrorOn: bool, rng: Source) returns (res: Result)
    requires Seeded(rng)
    ensures Reports(m, res, c, mirrorOn, rng)
  {
    hide Summarizes, CvPass;
    res := BuildOverheadResult(Overhead(mirrorOn), c.records, c.runP95, c.rtts, c.blocks, m, rng);
  }

  predicate OverheadCollectionDone(offRes: Result, onRes: Result, m: Manifest) {
    |offRes.runs| >= m.h4Runs && |onRes.runs| >= m.h4Runs &&
    (!m.profileOnHighCV || (offRes.cvPass && onRes.cvPass))
  }

  /** The tests that the loop makes on fresh results are the stopping rule. */
  lemma VerdictsDecide(m: Manifest, offRes: Result, onRes: Result, off: Collection, on: Collection, rng: Source)
    requires Reports(m, offRes, off, false, rng) && Reports(m, onRes, on, true, rng)
    requires |off.records| >= m.h4Runs && |on.records| >= m.h4Runs
    ensures OverheadCollectionDone(offRes, onRes, m) ||
            (|off.records| >= m.h4MaxRuns && |on.records| >= m.h4MaxRuns)
       <==> Complete(m, PassCV(m), off, on)
  {
    hide CvPass, Summarizes;
  }

  ghost predicate NotYet(m: Manifest, pass: Verdict, take: Sampling, k: nat) {
    forall j: nat :: j < k ==> !CompleteAt(m, pass, take, j)
  }

  ghost predicate AllSucceed(world: World, k: nat) {
    forall j: nat :: 1 <= j <= k ==> Succeeds(world(j))
  }

  lemma {:induction false} CollectedCounts(take: Sampling, off: bool, n: nat)
    ensures |Collected(take, off, n).records| == n == |Collected(take, off, n).runP95|
  {
    if n > 0 {
      CollectedCounts(take, off, n - 1);
    }
  }

  lemma SideGrows(take: Sampling, off: bool, k: nat, attempt: nat)
    requires attempt == k + 1 && off == (attempt % 2 == 1)
    ensures SideAt(take, !off, attempt) == SideAt(take, !off, k)
    ensures SideAt(take, off, attempt) == Extend(SideAt(take, off, k), take(attempt, Turns(off, k) + 1))
  {
    assert Turns(off, attempt) == Turns(off, k) + 1 && Turns(!off, attempt) == Turns(!off, k);
    assert Turn(off, Turns(off, k)) == attempt;
  }

  /** Attempt number k + 1 goes to the side whose turn it is and extends that side alone. */
  lemma OneMoreAttempt(take: Sampling, k: nat, attempt: nat, maxRuns: nat)
    requires attempt == k + 1 <= 2 * maxRuns
    ensures var off, on := SideAt(take, true, k), SideAt(take, false, k);
            && PickOverheadSide(attempt, |off.records|, |on.records|, maxRuns)
                 == Some(OverheadSideSpec(attempt % 2 == 1))
            && if attempt % 2 == 1
               then SideAt(take, true, attempt) == Extend(off, take(attempt, |off.records| + 1))
                    && SideAt(take, false, attempt) == on
               else SideAt(take, false, attempt) == Extend(on, take(attempt, |on.records| + 1))
                    && SideAt(take, true, attempt) == off
  {
    hide PickOverheadSide, Extend, Turn;
    CollectedCounts(take, true, Turns(true, k));
    CollectedCounts(take, false, Turns(false, k));
    PickAlternates(attempt, maxRuns);
    SideGrows(take, attempt % 2 == 1, k, attempt);
  }

  lemma Beginning(m: Manifest, pass: Verdict, take: Sampling)
    ensures NotYet(m, pass, take, 0)
    ensures SideAt(take, true, 0) == SideAt(take, false, 0) == Collection([], [], [], [])
  {
  }

  lemma NotYetGrows(m: Manifest, pass: Verdict, take: Sampling, k: nat, attempt: nat)
    requires attempt == k + 1 && NotYet(m, pass, take, k) && !CompleteAt(m, pass, take, k)
    ensures NotYet(m, pass, take, attempt)
  {
    hide CompleteAt;
  }

  lemma TooFew(m: Manifest, pass: Verdict, off: Collection, on: Collection)
    requires |off.records| < m.h4Runs || |on.records| < m.h4Runs
    ensures !Complete(m, pass, off, on)
  {
  }

  lemma MustBeComplete(m: Manifest, pass: Verdict, take: Sampling, k: nat)
    requires m.Loaded() && k >= 2 * MaxPerSide(m)
    ensures CompleteAt(m, pass, take, k)
  {
    CollectedCounts(take, true, Turns(true, k));
    CollectedCounts(take, false, Turns(false, k));
  }

  /** At no earlier point at which both sides had their minimum could the run have ended: adaptivity is on, and a
      side had failed CV. */
  ghost predicate FailedBefore(m: Manifest, pass: Verdict, take: Sampling, used: nat) {
    forall k: nat :: k < used ==>
      var off, on := SideAt(take, true, k), SideAt(take, false, k);
      |off.records| >= m.h4Runs && |on.records| >= m.h4Runs ==> m.profileOnHighCV && !(pass(off) && pass(on))
  }

  lemma NotYetMeansFailed(m: Manifest, pass: Verdict, take: Sampling, used: nat)
    requires NotYet(m, pass, take, used)
    ensures FailedBefore(m, pass, take, used)
  {
    hide SideAt;
    forall k: nat | k < used
      ensures var off, on := SideAt(take, true, k), SideAt(take, false, k);
              |off.records| >= m.h4Runs && |on.records| >= m.h4Runs ==> m.profileOnHighCV && !(pass(off) && pass(on))
    {
      assert !CompleteAt(m, pass, take, k);
    }
  }

  /** Counts at the return: both sides have their minimum and keep their quota, they differ by at most one
      and then in favour of off, and unless both pass or adaptivity is off both are at the maximum. */
  lemma QuotasAreKept(m: Manifest, pass: Verdict, take: Sampling, used: nat)
    requires m.Loaded() && NotYet(m, pass, take, used) && CompleteAt(m, pass, take, used)
    ensures var off, on := SideAt(take, true, used), SideAt(take, false, used);
            && |on.records| <= |off.records| <= |on.records| + 1
            && m.h4Runs <= |on.records| && |off.records| <= MaxPerSide(m)
            && (!m.profileOnHighCV ==> |off.records| == |on.records| == m.h4Runs)
            && (m.profileOnHighCV && !(pass(off) && pass(on)) ==> |off.records| == |on.records| == m.h4MaxRuns)
    ensures FailedBefore(m, pass, take, used)
  {
    NotYetMeansFailed(m, pass, take, used);
    CollectedCounts(take, true, Turns(true, used));
    CollectedCounts(take, false, Turns(false, used));
    MustBeComplete(m, pass, take, 2 * MaxPerSide(m));
    assert used <= 2 * MaxPerSide(m);
  }

  /** A side's records are numbered from one and made in every second attempt, the off side's in the odd ones. */
  predicate Numbered(runs: seq<RunRecord>, off: bool) {
    forall i :: 0 <= i < |runs| ==>
      runs[i].runIndex == i + 1 && runs[i].attempt == Turn(off, i) && (runs[i].attempt % 2 == 1 <==> off)
  }

  /** What the two returned results promise about their own records and verdicts. */
  ghost predicate QuotasHold(m: Manifest, offRes: Result, onRes: Result) {
    && Numbered(offRes.runs, true) && Numbered(onRes.runs, false)
    && |onRes.runs| <= |offRes.runs| <= |onRes.runs| + 1
    && m.h4Runs <= |onRes.runs| && |offRes.runs| <= MaxPerSide(m)
    && (!m.profileOnHighCV ==> |offRes.runs| == |onRes.runs| == m.h4Runs)
    && (m.profileOnHighCV && !(offRes.cvPass && onRes.cvPass) ==> |offRes.runs| == |onRes.runs| == m.h4MaxRuns)
  }

  lemma ResultsKeepQuotas(m: Manifest, take: Sampling, used: nat, offRes: Result, onRes: Result, rng: Source)
    requires m.Loaded() && NotYet(m, PassCV(m), take, used) && CompleteAt(m, PassCV(m), take, used)
    requires Labelled(take)
    requires Reports(m, offRes, SideAt(take, true, used), false, rng)
    requires Reports(m, onRes, SideAt(take, false, used), true, rng)
    ensures QuotasHold(m, offRes, onRes)
  {
    hide CvPass, Summarizes, Complete, Numbered;
    QuotasAreKept(m, PassCV(m), take, used);
    SidesAlternate(take, true, Turns(true, used));
    SidesAlternate(take, false, Turns(false, used));
  }

  /** The loop stops at the first complete pair of collections; the break and the statements after the loop
      are not reached. */
  method RunOverhead(m: Manifest, world: World, rng: Source) returns (out: Option<(Result, Result)>, ghost used: nat)
    requires m.Loaded() && Seeded(rng)
    ensures used <= 2 * MaxPerSide(m) && AllSucceed(world, used)
    ensures NotYet(m, PassCV(m), SamplesOf(m, world), used)
    ensures out.None? ==> !CompleteAt(m, PassCV(m), SamplesOf(m, world), used) && !Succeeds(world(used + 1))
    ensures out.Some? ==> CompleteAt(m, PassCV(m), SamplesOf(m, world), used)
    ensures out.Some? ==> Reports(m, out.value.0, SideAt(SamplesOf(m, world), true, used), false, rng)
    ensures out.Some? ==> Reports(m, out.value.1, SideAt(SamplesOf(m, world), false, used), true, rng)
    ensures out.Some? ==> QuotasHold(m, out.value.0, out.value.1)
    ensures FailedBefore(m, PassCV(m), SamplesOf(m, world), used)
  {
    hide SampleOf, Succeeds, Complete, NotYet, SideAt, Extend, Reports, OverheadCollectionDone, PickOverheadSide;
    hide PassCV, QuotasHold, Labelled, FailedBefore;
    ghost var pass, take := PassCV(m), SamplesOf(m, world);
    var off, on := Collection([], [], [], []), Collection([], [], [], []);
    var maxPerSide := MaxPerSide(m);
    used := 0;
    TooFew(m, pass, off, on);
    SamplesAreLabelled(m, world);
    Beginning(m, pass, take);
    for attempt := 1 to maxPerSide * 2 + 1
      invariant used == attempt - 1 && NotYet(m, pass, take, used) && !CompleteAt(m, pass, take, used)
      invariant AllSucceed(world, used)
      invariant off == SideAt(take, true, used) && on == SideAt(take, false, used)
    {
      OneMoreAttempt(take, used, attempt, maxPerSide);
      NotYetGrows(m, pass, take, used, attempt);
      var pick := PickOverheadSide(attempt, |off.records|, |on.records|, maxPerSide);
      if pick.None? {
        assert false;
      }
      var side := pick.value;
      var runIndex := |off.records| + 1;
      if side.enabled {
        runIndex := |on.records| + 1;
      }
      var sample := RunOverheadAttempt(m, world(attempt), attempt, runIndex, rng);
      if sample.None? {
        NotYetMeansFailed(m, pass, take, used);
        return None, used;
      }
      used := attempt;
      if side.enabled {
        on := Extend(on, sample.value);
      } else {
        off := Extend(off, sample.value);
      }
      if |off.records| >= m.h4Runs && |on.records| >= m.h4Runs {
        var offRes := Report(m, off, false, rng);
        var onRes := Report(m, on, true, rng);
        VerdictsDecide(m, offRes, onRes, off, on, rng);
        NotYetMeansFailed(m, pass, take, used);
        if OverheadCollectionDone(offRes, onRes, m) {
          ResultsKeepQuotas(m, take, used, offRes, onRes, rng);
          return Some((offRes, onRes)), used;
        }
        if |off.records| >= m.h4MaxRuns && |on.records| >= m.h4MaxRuns {
          ResultsKeepQuotas(m, take, used, offRes, onRes, rng);
          return Some((offRes, onRes)), used;
        }
      } else {
        TooFew(m, pass, off, on);
      }
    }
    MustBeComplete(m, pass, take, used);
    assert false;
  }

  // ----- What the run amounts to

  ghost predicate Labelled(take: Sampling) {
    forall attempt, runIndex ::
      take(attempt, runIndex).record.attempt == attempt && take(attempt, runIndex).record.runIndex == runIndex
  }

  lemma SamplesAreLabelled(m: Manifest, world: World)
    ensures Labelled(SamplesOf(m, world))
  {
    hide SampleOf;
    var take := SamplesOf(m, world);
    forall attempt: nat, runIndex: nat
      ensures take(attempt, runIndex).record.attempt == attempt
      ensures take(attempt, runIndex).record.runIndex == runIndex
    {
      assert take(attempt, runIndex) == SampleOf(m, world(attempt), attempt, runIndex);
    }
  }

  /** A side holds, attempt by attempt in order, the records and figures of its attempts, and the blocks and latencies
      of each in one piece. */
  lemma {:induction false} CollectionKeepsSamples(take: Sampling, off: bool, n: nat, i: nat) returns (b: nat, r: nat)
    requires i < n
    ensures var c, s := Collected(take, off, n), take(Turn(off, i), i + 1);
            && |c.records| == |c.runP95| == n && c.records[i] == s.record && c.runP95[i] == s.runP95
            && b + |s.blocks| <= |c.blocks| && c.blocks[b..b + |s.blocks|] == s.blocks
            && r + |s.rtts| <= |c.rtts| && c.rtts[r..r + |s.rtts|] == s.rtts
  {
    CollectedCounts(take, off, n - 1);
    var before := Collected(take, off, n - 1);
    if i == n - 1 {
      b, r := |before.blocks|, |before.rtts|;
    } else {
      b, r := CollectionKeepsSamples(take, off, n - 1, i);
    }
  }

  /** Each side's records are numbered from one and hold every second attempt, the off side the odd ones. */
  lemma {:induction false} SidesAlternate(take: Sampling, off: bool, n: nat)
    requires Labelled(take)
    ensures Numbered(Collected(take, off, n).records, off) && |Collected(take, off, n).records| == n
  {
    if n > 0 {
      SidesAlternate(take, off, n - 1);
    }
  }

  /** Measuring in another unit does not move the stop. */
  lemma StoppingHasNoUnit(m: Manifest, c: real, a: Collection, b: Collection)
    requires c > 0.0 && |b.records| == |a.records|
    requires b.runP95 == Map(Times(c), a.runP95) && b.blocks == Map(Times(c), a.blocks)
    ensures PassCV(m)(b) <==> PassCV(m)(a)
  {
    hide CvPass;
    TimesIsConversion(c);
    PipelineConverts(Times(c), Times(Square(c)), ValuesOf(a), m.cvThreshold);
  }
}
