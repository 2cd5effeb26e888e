/** Scenario results of benchmark/internal/experiment and the verdicts drawn from them. */
module Results {
  import opened Reals
  import opened Sorting
  import opened Quantile
  import opened IqrFilter
  import opened Bootstrap
  import opened Summary

  datatype Scenario = S0Control | SRef | SDw | Overhead(mirrorOn: bool)

  /** The settings of a benchmark run that its loops consult. */
  datatype Manifest = Manifest(
    runs: nat, maxRuns: nat, h4Runs: nat, h4MaxRuns: nat, profileOnHighCV: bool, rps: int,
    cvThreshold: real, cvThresholdS0: real, cvThresholdSRef: real, cvThresholdSDw: real)
  {
    /** What loading the manifest has checked. */
    predicate Loaded() {
      5 <= runs <= maxRuns && 1 <= h4Runs <= h4MaxRuns
    }

    function MaxAttempts(): nat {
      if profileOnHighCV then maxRuns * 2 else runs * 2
    }

    function CVThresholdForScenario(name: Scenario): real {
      match name
      case S0Control => cvThresholdS0
      case SRef => cvThresholdSRef
      case SDw => cvThresholdSDw
      case Overhead(_) => cvThreshold
    }
  }

  datatype Probe = Probe(workloadNs: int, e2eNs: int)

  datatype RunRecord = RunRecord(runIndex: nat, attempt: nat, probe: Probe, indexCold: bool, readyOK: bool)

  /** A scenario's result. The end-to-end and the block part are each empty where the builder has none. */
  datatype Result = Result(
    scenario: Scenario, summary: Summary, e2eSummary: Summary, blockSummary: Summary,
    values: seq<real>, e2eValues: seq<real>, blockValues: seq<real>, runs: seq<RunRecord>, cvPass: bool)

  const NO_SUMMARY := Summary(EMPTY_CENTER, EMPTY_INTERVALS, 0, 0, [])

  /** The generator's stream for data of a given size; every summary starts it afresh from the same seed. */
  type Source = nat -> nat -> nat

  ghost predicate Seeded(rng: Source) {
    forall n: nat, k: nat :: n > 0 ==> rng(n)(k) < n
  }

  ghost predicate Lists(outliers: seq<nat>, values: seq<real>) {
    Distinct(outliers) && forall i :: i in outliers <==> i in OutlierSet(values)
  }

  ghost predicate SummaryFrom(sum: Summary, all: seq<real>, filtered: seq<real>, rng: Source) {
    && (filtered != [] ==> Draws(rng(|filtered|), |filtered|))
    && sum == SummaryOf(all, filtered, sum.outliers, rng(|filtered|))
  }

  ghost predicate Summarizes(sum: Summary, values: seq<real>, rng: Source) {
    Lists(sum.outliers, values) && SummaryFrom(sum, values, Kept(values), rng)
  }

  lemma SummaryKeepsList(all: seq<real>, filtered: seq<real>, o: seq<nat>, rng: Source)
    requires Seeded(rng)
    ensures filtered != [] ==> Draws(rng(|filtered|), |filtered|)
    ensures var sum := SummaryOf(all, filtered, o, rng(|filtered|));
            sum.outliers == o && SummaryFrom(sum, all, filtered, rng)
  {
  }

  /** Filters and summarizes, as every result builder does. */
  method SummarizeValues(values: seq<real>, rng: Source) returns (sum: Summary)
    requires Seeded(rng)
    ensures Summarizes(sum, values, rng)
  {
    var filtered, outliers := FilterIQRIndexed(values);
    assert Lists(outliers, values);
    SummaryKeepsList(values, filtered, outliers, rng);
    sum := SummarizeFilteredWithSeed(values, filtered, outliers, rng(|filtered|));
  }

  lemma VerdictOnSummary(sum: Summary, values: seq<real>, rng: Source, threshold: real)
    requires Summarizes(sum, values, rng)
    ensures EvaluateCV(sum, threshold).Pass? <==> CvPass(values, threshold)
  {
    VerdictIgnoresDraws(values, sum, threshold);
  }

  /** The summary and the verdict are those of the result's own values. */
  ghost predicate Built(res: Result, threshold: real, rng: Source) {
    Summarizes(res.summary, res.values, rng) && (res.cvPass <==> CvPass(res.values, threshold))
  }

  method BuildResult(name: Scenario, records: seq<RunRecord>, values: seq<real>, e2e: seq<real>,
                     m: Manifest, rng: Source)
    returns (res: Result)
    requires Seeded(rng)
    ensures res.scenario == name && res.runs == records && res.values == values && res.e2eValues == e2e
    ensures Summarizes(res.e2eSummary, e2e, rng)
    ensures Built(res, m.CVThresholdForScenario(name), rng)
  {
    hide Summarizes, CvPass, EvaluateCV;
    var sum := SummarizeValues(values, rng);
    var cv := EvaluateCV(sum, m.CVThresholdForScenario(name));
    VerdictOnSummary(sum, values, rng, m.CVThresholdForScenario(name));
    var e2eSum := SummarizeValues(e2e, rng);
    res := Result(name, sum, e2eSum, NO_SUMMARY, values, e2e, [], records, cv.Pass?);
  }

  /** With fewer than five runs the block samples stand in for the run-level ones. */
  function OverheadValues(records: nat, runP95Values: seq<real>, allBlockValues: seq<real>): seq<real> {
    if records < 5 then allBlockValues else runP95Values
  }

  method BuildOverheadResult(name: Scenario, records: seq<RunRecord>, runP95Values: seq<real>,
                             allRTTValues: seq<real>, allBlockValues: seq<real>, m: Manifest, rng: Source)
    returns (res: Result)
    requires Seeded(rng)
    ensures res.scenario == name && res.runs == records
    ensures res.e2eValues == allRTTValues && res.blockValues == allBlockValues
    ensures Summarizes(res.blockSummary, allBlockValues, rng)
    ensures res.values == OverheadValues(|records|, runP95Values, allBlockValues)
    ensures |records| < 5 ==> res.values == allBlockValues
    ensures |records| >= 5 ==> res.values == runP95Values
    ensures Built(res, m.cvThreshold, rng)
  {
    hide Summarizes, CvPass, EvaluateCV;
    var sum := SummarizeValues(runP95Values, rng);
    var blockSum := SummarizeValues(allBlockValues, rng);
    var values := runP95Values;
    if |records| < 5 {
      sum := blockSum;
      values := allBlockValues;
    }
    var cv := EvaluateCV(sum, m.cvThreshold);
    VerdictOnSummary(sum, values, rng, m.cvThreshold);
    res := Result(name, sum, NO_SUMMARY, blockSum, values, allRTTValues, allBlockValues, records, cv.Pass?);
  }

  // ----- Verdicts

  function PassFail(b: bool): string {
    if b then "pass" else "fail"
  }

  /** Half the cold median. */
  predicate H1(s0: Result, sDw: Result) {
    sDw.summary.center.p50 <= s0.summary.center.p50 / 2.0
  }

  /** Twice the median of the manual warm-up. */
  predicate H2(sRef: Result, sDw: Result) {
    sDw.summary.center.p50 <= sRef.summary.center.p50 * 2.0
  }

  predicate H2CI(sRef: Result, sDw: Result) {
    sDw.summary.ci.p50CiHigh <= sRef.summary.ci.p50CiHigh * 2.0
  }

  predicate H3(sDw: Result) {
    forall i :: 0 <= i < |sDw.runs| ==> sDw.runs[i].readyOK
  }

  method EvaluateHypotheses(s0: Result, sRef: Result, sDw: Result) returns (notes: map<string, string>)
    ensures notes == map["H1" := PassFail(H1(s0, sDw)), "H2" := PassFail(H2(sRef, sDw)),
                         "H2_CI" := PassFail(H2CI(sRef, sDw)), "H3" := PassFail(H3(sDw))]
  {
    notes := map[];
    notes := notes["H1" := if sDw.summary.center.p50 <= s0.summary.center.p50 / 2.0 then "pass" else "fail"];
    notes := notes["H2" := if sDw.summary.center.p50 <= sRef.summary.center.p50 * 2.0 then "pass" else "fail"];
    var refCIBound := sRef.summary.ci.p50CiHigh * 2.0;
    notes := notes["H2_CI" := if sDw.summary.ci.p50CiHigh <= refCIBound then "pass" else "fail"];
    var h3 := "pass";
    for i := 0 to |sDw.runs|
      invariant h3 == "pass"
      invariant forall j :: 0 <= j < i ==> sDw.runs[j].readyOK
    {
      if !sDw.runs[i].readyOK {
        h3 := "fail";
        break;
      }
    }
    notes := notes["H3" := h3];
  }

  /** The median of what was summarized; the P95 only of a result that has no runs. */
  function OverheadObserved(r: Result): real {
    if |r.runs| > 0 then r.summary.center.p50 else r.summary.center.p95
  }

  predicate OverheadPasses(off: Result, on: Result) {
    OverheadObserved(on) <= OverheadObserved(off) * 1.05
  }

  /** In ratios: H1 asks for a speed-up of at least two over the cold start, H2 and its interval form for a slow-down
      of at most two against the manual warm-up. */
  lemma HypothesesAreRatios(s0: Result, sRef: Result, sDw: Result, cold: real, manual: real, dynamic: real)
    requires cold == s0.summary.center.p50 && manual == sRef.summary.center.p50 && dynamic == sDw.summary.center.p50
    ensures dynamic > 0.0 ==> (H1(s0, sDw) <==> cold / dynamic >= 2.0)
    ensures manual > 0.0 ==> (H2(sRef, sDw) <==> dynamic / manual <= 2.0)
    ensures var bound := sRef.summary.ci.p50CiHigh;
            bound > 0.0 ==> (H2CI(sRef, sDw) <==> sDw.summary.ci.p50CiHigh / bound <= 2.0)
  {
    if dynamic > 0.0 {
      RatioAtMost(dynamic, cold, 2.0);
    }
    if manual > 0.0 {
      RatioAtMost(manual, dynamic, 2.0);
    }
    if sRef.summary.ci.p50CiHigh > 0.0 {
      RatioAtMost(sRef.summary.ci.p50CiHigh, sDw.summary.ci.p50CiHigh, 2.0);
    }
  }

  lemma RatioAtMost(y: real, x: real, k: real)
    requires y > 0.0
    ensures x / y <= k <==> x <= y * k
    ensures x / y >= k <==> x >= y * k
  {
    var q := x / y;
    QuotientTimes(x, y, q);
    if q < k {
      ProductGrowsStrictly(y, q, k, x, y * k);
    } else if k < q {
      ProductGrowsStrictly(y, k, q, y * k, x);
    }
  }

  /** The overhead passes when what is observed with mirroring exceeds what is observed without by at most five percent;
      for sides without runs that is their P95. */
  lemma OverheadIsRelative(off: Result, on: Result)
    requires OverheadObserved(off) > 0.0
    ensures OverheadPasses(off, on) <==>
            (OverheadObserved(on) - OverheadObserved(off)) / OverheadObserved(off) * 100.0 <= 5.0
    ensures off.runs == [] ==> OverheadObserved(off) == off.summary.center.p95
  {
    RatioAtMost(OverheadObserved(off), OverheadObserved(on) - OverheadObserved(off), 0.05);
  }

  /** Each scenario has a threshold of its own, and the overhead experiment the common one. */
  lemma ThresholdsAreSeparate(m: Manifest, x: real, name: Scenario)
    ensures m.(cvThresholdS0 := x).CVThresholdForScenario(name)
         == if name.S0Control? then x else m.CVThresholdForScenario(name)
    ensures m.(cvThresholdSRef := x).CVThresholdForScenario(name)
         == if name.SRef? then x else m.CVThresholdForScenario(name)
    ensures m.(cvThresholdSDw := x).CVThresholdForScenario(name)
         == if name.SDw? then x else m.CVThresholdForScenario(name)
    ensures m.(cvThreshold := x).CVThresholdForScenario(name)
         == if name.Overhead? then x else m.CVThresholdForScenario(name)
  {
  }

  // ----- The verdicts have no unit

  /** The same measurement in a unit c times smaller. */
  ghost predicate Rescaled(c: real, r: Result, r': Result) {
    && (forall i :: i in r.summary.outliers <==> i in r'.summary.outliers)
    && r'.summary.center == ConvertCenter(Times(c), Times(Square(c)), r.summary.center)
    && r'.summary.ci == ConvertIntervals(Times(c), r.summary.ci)
    && r'.summary.n == r.summary.n && r'.summary.nFiltered == r.summary.nFiltered
    && |r'.runs| == |r.runs|
    && forall i :: 0 <= i < |r.runs| ==> r'.runs[i].readyOK == r.runs[i].readyOK
  }

  lemma SummaryIgnoresList(all: seq<real>, filtered: seq<real>, o: seq<nat>, sum: Summary, rng: Source)
    requires SummaryFrom(sum, all, filtered, rng)
    ensures SummaryOf(all, filtered, o, rng(|filtered|)) == sum.(outliers := o)
  {
  }

  lemma SameLists(values: seq<real>, scaled: seq<real>, o: seq<nat>, o': seq<nat>)
    requires Lists(o, values) && Lists(o', scaled) && OutlierSet(values) == OutlierSet(scaled)
    ensures forall i :: i in o <==> i in o'
  {
  }

  lemma SummaryMoves(u: real -> real, k: real -> real, values: seq<real>, scaled: seq<real>,
                     sum: Summary, sum': Summary, rng: Source)
    requires Conversion(u, k) && values != [] && scaled == Map(u, values)
    requires SummaryFrom(sum, values, Kept(values), rng) && SummaryFrom(sum', scaled, Kept(scaled), rng)
    ensures sum' == Convert(u, k, sum).(outliers := sum'.outliers)
  {
    KeptIsNonEmpty(values);
    PipelineConverts(u, k, values, 0.0);
    SummaryConverts(u, k, values, Kept(values), sum.outliers, rng(|Kept(values)|));
    SummaryIgnoresList(scaled, Kept(scaled), sum.outliers, sum', rng);
  }

  lemma SummaryRescales(c: real, values: seq<real>, scaled: seq<real>, sum: Summary, sum': Summary, rng: Source)
    requires c > 0.0 && values != [] && scaled == Map(Times(c), values)
    requires Summarizes(sum, values, rng) && Summarizes(sum', scaled, rng)
    ensures forall i :: i in sum.outliers <==> i in sum'.outliers
    ensures sum' == Convert(Times(c), Times(Square(c)), sum).(outliers := sum'.outliers)
  {
    TimesIsConversion(c);
    PipelineConverts(Times(c), Times(Square(c)), values, 0.0);
    SameLists(values, scaled, sum.outliers, sum'.outliers);
    SummaryMoves(Times(c), Times(Square(c)), values, scaled, sum, sum', rng);
  }

  /** A result built from samples multiplied by c > 0, with the same draws, is the same result in another
      unit, with the same CV verdict. */
  lemma ResultRescales(c: real, r: Result, r': Result, rng: Source, threshold: real)
    requires c > 0.0 && r.values != [] && r'.values == Map(Times(c), r.values)
    requires Built(r, threshold, rng) && Built(r', threshold, rng)
    requires |r'.runs| == |r.runs| && forall i :: 0 <= i < |r.runs| ==> r'.runs[i].readyOK == r.runs[i].readyOK
    ensures Rescaled(c, r, r') && r'.cvPass == r.cvPass
  {
    hide Summarizes, CvPass, Conversion, Times, ConvertCenter, ConvertIntervals;
    SummaryRescales(c, r.values, r'.values, r.summary, r'.summary, rng);
    TimesIsConversion(c);
    PipelineConverts(Times(c), Times(Square(c)), r.values, threshold);
  }

  lemma ComparisonScales(c: real, x: real, y: real, k: real, cx: real, cy: real)
    requires c > 0.0 && cx == c * x && cy == c * y
    ensures x <= y * k <==> cx <= cy * k
  {
    Reassociate(c, k, y, k * y, c * k);
    Reassociate(k, c, y, cy, c * k);
    TimesKeepsOrder(c, x, y * k, cx, cy * k);
  }

  lemma ComparisonConverts(c: real, x: real, y: real, k: real, cx: real, cy: real)
    requires c > 0.0 && cx == Times(c)(x) && cy == Times(c)(y)
    ensures x <= y * k <==> cx <= cy * k
  {
    ComparisonScales(c, x, y, k, cx, cy);
  }

  /** Measuring everything in another unit changes no verdict. */
  lemma VerdictsHaveNoUnit(c: real, s0: Result, sRef: Result, sDw: Result, s0': Result, sRef': Result, sDw': Result)
    requires c > 0.0 && Rescaled(c, s0, s0') && Rescaled(c, sRef, sRef') && Rescaled(c, sDw, sDw')
    ensures H1(s0', sDw') <==> H1(s0, sDw)
    ensures H2(sRef', sDw') <==> H2(sRef, sDw)
    ensures H2CI(sRef', sDw') <==> H2CI(sRef, sDw)
    ensures H3(sDw') <==> H3(sDw)
  {
    hide Times;
    var m, m' := sDw.summary.center.p50, sDw'.summary.center.p50;
    ComparisonConverts(c, m, s0.summary.center.p50, 0.5, m', s0'.summary.center.p50);
    ComparisonConverts(c, m, sRef.summary.center.p50, 2.0, m', sRef'.summary.center.p50);
    ComparisonConverts(c, sDw.summary.ci.p50CiHigh, sRef.summary.ci.p50CiHigh, 2.0,
                       sDw'.summary.ci.p50CiHigh, sRef'.summary.ci.p50CiHigh);
  }

  lemma ObservedScales(c: real, r: Result, r': Result)
    requires Rescaled(c, r, r')
    ensures OverheadObserved(r') == Times(c)(OverheadObserved(r))
  {
  }

  lemma OverheadHasNoUnit(c: real, off: Result, on: Result, off': Result, on': Result)
    requires c > 0.0 && Rescaled(c, off, off') && Rescaled(c, on, on')
    ensures OverheadPasses(off', on') <==> OverheadPasses(off, on)
  {
    ObservedScales(c, off, off');
    ObservedScales(c, on, on');
    hide OverheadObserved, Rescaled, Times;
    ComparisonConverts(c, OverheadObserved(on), OverheadObserved(off), 1.05,
                       OverheadObserved(on'), OverheadObserved(off'));
  }

  /** The published interval of a built result holds within the data, and its median is not above its P95. */
  lemma ResultIsOrdered(r: Result, rng: Source, a: real, b: real)
    requires Seeded(rng) && r.values != [] && Summarizes(r.summary, r.values, rng) && AllIn(r.values, a, b)
    ensures CenterIn(r.summary.center, a, b) && IntervalsIn(r.summary.ci, a, b)
  {
    KeptIsNonEmpty(r.values);
    KeptWithin(r.values, a, b);
    SummaryIsOrdered(r.values, Kept(r.values), r.summary.outliers, rng(|Kept(r.values)|), a, b);
  }

  lemma KeptWithin(values: seq<real>, a: real, b: real)
    requires AllIn(values, a, b)
    ensures AllIn(Kept(values), a, b)
  {
    SortedAllIn(values, a, b);
    if |values| >= 5 {
      var i, j := FilterSurvival(values);
    }
  }
}
