/** The summary of a sample, the CV verdict, and the hypothesis verdicts drawn from summaries.
    Standard deviations appear squared: StdErr and CV are kept as their squares. */
module Summary {
  import opened Reals
  import opened Sorting
  import opened Quantile
  import opened IqrFilter
  import opened Bootstrap

  const ITERATIONS := 2000
  const LEVEL := 0.95
  const MIN_FILTERED := 5

  datatype Center = Center(mean: real, p50: real, p95: real, stdErrSquared: real, cvSquared: real)

  datatype Intervals = Intervals(ciLow: real, ciHigh: real, p50CiLow: real, p50CiHigh: real)

  datatype Summary = Summary(center: Center, ci: Intervals, n: nat, nFiltered: nat, outliers: seq<nat>)

  function Deviation(m: real): real -> real {
    (x: real) => Square(x - m)
  }

  function SquaredDeviations(s: seq<real>, m: real): real {
    Sum(Map(Deviation(m), s))
  }

  function Variance(s: seq<real>): real {
    if s == [] then 0.0 else SquaredDeviations(s, Mean(s)) / |s| as real
  }

  /** The square of the coefficient of variation in percent; zero when the mean is not positive. */
  function CvSquared(variance: real, mean: real): real {
    if mean > 0.0 then variance / Square(mean) * 10000.0 else 0.0
  }

  function CenterOf(s: seq<real>): Center
    requires s != []
  {
    Center(Mean(s), Percentile(s, 0.5), Percentile(s, 0.95),
           Variance(s) / |s| as real, CvSquared(Variance(s), Mean(s)))
  }

  /** The two bootstrap intervals, for the statistics given. */
  function IntervalsOf(s: seq<real>, mean: Stat, median: Stat, rng: nat -> nat): Intervals
    requires s != [] && Draws(rng, |s|)
  {
    var m := Interval(s, ITERATIONS, LEVEL, mean, rng);
    var d := Interval(s, ITERATIONS, LEVEL, median, rng);
    Intervals(m.0, m.1, d.0, d.1)
  }

  const EMPTY_CENTER := Center(0.0, 0.0, 0.0, 0.0, 0.0)
  const EMPTY_INTERVALS := Intervals(0.0, 0.0, 0.0, 0.0)

  /** The summary of a filtered sample, reported with the size of the whole one. */
  function SummaryOf(all: seq<real>, filtered: seq<real>, outliers: seq<nat>, rng: nat -> nat): (sum: Summary)
    requires filtered != [] ==> Draws(rng, |filtered|)
    ensures sum.outliers == outliers && sum.n == |all| && sum.nFiltered == |filtered|
  {
    if filtered == [] then Summary(EMPTY_CENTER, EMPTY_INTERVALS, |all|, 0, outliers)
    else Summary(CenterOf(Sort(filtered)), IntervalsOf(Sort(filtered), MeanStat(), PercentileStat(0.5), rng),
                 |all|, |filtered|, outliers)
  }

  lemma SummaryCenter(all: seq<real>, filtered: seq<real>, outliers: seq<nat>, rng: nat -> nat, sum: Summary)
    requires filtered != [] && Draws(rng, |filtered|) && sum == SummaryOf(all, filtered, outliers, rng)
    ensures sum.center == CenterOf(Sort(filtered))
  {
    hide CenterOf, IntervalsOf;
  }

  method SummarizeFilteredWithSeed(all: seq<real>, filtered: seq<real>, outlierRuns: seq<nat>, rng: nat -> nat)
    returns (sum: Summary)
    requires filtered != [] ==> Draws(rng, |filtered|)
    ensures sum == SummaryOf(all, filtered, outlierRuns, rng)
  {
    var n := |filtered|;
    if n == 0 {
      return Summary(EMPTY_CENTER, EMPTY_INTERVALS, |all|, 0, outlierRuns);
    }
    sum := SummarizeSorted(all, filtered, outlierRuns, MeanStat(), PercentileStat(0.5), rng);
  }

  method SummarizeSorted(all: seq<real>, filtered: seq<real>, outlierRuns: seq<nat>,
                         mean: Stat, median: Stat, rng: nat -> nat)
    returns (sum: Summary)
    requires filtered != [] && Draws(rng, |filtered|)
    ensures sum == Summary(CenterOf(Sort(filtered)), IntervalsOf(Sort(filtered), mean, median, rng),
                           |all|, |filtered|, outlierRuns)
  {
    var cp := Sort(filtered);
    var center := ComputeCenter(cp);
    var ci := ComputeIntervals(cp, mean, median, rng);
    sum := Summary(center, ci, |all|, |cp|, outlierRuns);
  }

  method ComputeCenter(cp: seq<real>) returns (center: Center)
    requires cp != []
    ensures center == CenterOf(cp)
  {
    var mean, variance := Moments(cp);
    center := Center(mean, Percentile(cp, 0.5), Percentile(cp, 0.95),
                     variance / |cp| as real, CvSquared(variance, mean));
  }

  method ComputeIntervals(cp: seq<real>, mean: Stat, median: Stat, rng: nat -> nat) returns (ci: Intervals)
    requires cp != [] && Draws(rng, |cp|)
    ensures ci == IntervalsOf(cp, mean, median, rng)
  {
    var ciLow, ciHigh := BootstrapCI(cp, ITERATIONS, LEVEL, mean, rng);
    var p50Low, p50High := BootstrapCI(cp, ITERATIONS, LEVEL, median, rng);
    ci := Intervals(ciLow, ciHigh, p50Low, p50High);
  }

  /** The two accumulating loops. */
  method Moments(cp: seq<real>) returns (mean: real, variance: real)
    requires cp != []
    ensures mean == Mean(cp) && variance == Variance(cp)
  {
    var n := |cp| as real;
    var sum := 0.0;
    for i := 0 to |cp|
      invariant sum == Sum(cp[..i])
    {
      assert cp[..i + 1][..i] == cp[..i];
      sum := sum + cp[i];
    }
    assert cp[..|cp|] == cp;
    mean := sum / n;
    variance := 0.0;
    for i := 0 to |cp|
      invariant variance == SquaredDeviations(cp[..i], mean)
    {
      assert Map(Deviation(mean), cp[..i + 1])[..i] == Map(Deviation(mean), cp[..i]);
      var d := cp[i] - mean;
      variance := variance + Square(d);
    }
    variance := variance / n;
  }

  // ----- The CV verdict

  datatype CVVerdict = Pass | TooFew | TooSpread

  predicate CvAtMost(cvSquared: real, threshold: real) {
    threshold >= 0.0 && cvSquared <= Square(threshold)
  }

  lemma SquareOfQuotient(x: real, y: real, q: real)
    requires y > 0.0 && q == x / y
    ensures Square(y) > 0.0 && Square(x) / Square(y) == Square(q)
  {
    QuotientTimes(x, y, q);
    SquareOfProduct(q, y, x);
    QuotientIs(Square(x), Square(y), Square(q));
  }

  /** The two figures kept here are the squares of the ones the program reports: with `std` the root of the
      variance and `root` the root of the sample size, std / root is the standard error and std / mean * 100
      the coefficient of variation. */
  lemma SquaresOfReported(s: seq<real>, std: real, root: real)
    requires s != [] && Square(std) == Variance(s) && root > 0.0 && Square(root) == |s| as real
    ensures CenterOf(s).stdErrSquared == Square(std / root)
    ensures CenterOf(s).mean > 0.0 ==> CenterOf(s).cvSquared == Square(std / CenterOf(s).mean * 100.0)
  {
    hide Percentile, Mean, Variance;
    SquareOfQuotient(std, root, std / root);
    var mean := CenterOf(s).mean;
    if mean > 0.0 {
      var q := std / mean;
      SquareOfQuotient(std, mean, q);
      SquareOfProduct(q, 100.0, q * 100.0);
    }
  }

  /** Comparing squares decides the comparison the program makes: for the non-negative root `std` of the
      variance, (std / mean) * 100 is at most the threshold exactly when CvAtMost says so. */
  lemma SquaresDecide(std: real, variance: real, mean: real, threshold: real)
    requires std >= 0.0 && Square(std) == variance && mean > 0.0
    ensures (std / mean) * 100.0 <= threshold <==> CvAtMost(CvSquared(variance, mean), threshold)
  {
    var q := std / mean;
    QuotientTimes(std, mean, q);
    if q < 0.0 {
      PositiveProduct(mean, -q, -std);
    }
    SquareOfProduct(q, mean, std);
    SquareOfProduct(q, 100.0, q * 100.0);
    QuotientIs(variance, Square(mean), Square(q));
    OrderOfSquares(q * 100.0, threshold);
  }

  function EvaluateCV(sum: Summary, threshold: real): CVVerdict {
    if sum.nFiltered < MIN_FILTERED then TooFew
    else if CvAtMost(sum.center.cvSquared, threshold) then Pass
    else TooSpread
  }

  /** The verdict of buildResult, as a function of the samples alone: no random draw enters it. */
  predicate CvPass(values: seq<real>, threshold: real) {
    |Kept(values)| >= MIN_FILTERED &&
    CvAtMost(CenterOf(Sort(Kept(values))).cvSquared, threshold)
  }

  /** Whatever the draws and the reported positions, the verdict on a summary of the kept samples is CvPass. */
  lemma VerdictIgnoresDraws(values: seq<real>, m: Summary, threshold: real)
    requires m.nFiltered == |Kept(values)| && (Kept(values) != [] ==> m.center == CenterOf(Sort(Kept(values))))
    ensures EvaluateCV(m, threshold).Pass? <==> CvPass(values, threshold)
  {
  }

  // ----- Order within a summary

  ghost predicate CenterIn(m: Center, a: real, b: real) {
    a <= m.mean <= b && a <= m.p50 <= m.p95 <= b
  }

  ghost predicate IntervalsIn(m: Intervals, a: real, b: real) {
    a <= m.ciLow <= m.ciHigh <= b && a <= m.p50CiLow <= m.p50CiHigh <= b
  }

  lemma CenterIsOrdered(s: seq<real>, a: real, b: real)
    requires s != [] && Sorted(s) && AllIn(s, a, b)
    ensures CenterIn(CenterOf(s), a, b)
  {
    PercentileMonotone(s, 0.5, 0.95);
    PercentileBounded(s, 0.5);
    PercentileBounded(s, 0.95);
    MeanIsInternal();
    assert MeanStat()(s) == Mean(s);
  }

  lemma IntervalIsOrdered(s: seq<real>, stat: Stat, rng: nat -> nat, a: real, b: real)
    requires s != [] && Draws(rng, |s|) && AllIn(s, a, b) && Internal(stat)
    ensures var (low, high) := Interval(s, ITERATIONS, LEVEL, stat, rng); a <= low <= high <= b
  {
    IntervalWithinData(s, ITERATIONS, LEVEL, stat, rng, a, b);
    IntervalCovers(Resampled(s, ITERATIONS, stat, rng), LEVEL);
  }

  lemma IntervalsAreOrdered(s: seq<real>, mean: Stat, median: Stat, rng: nat -> nat, a: real, b: real)
    requires s != [] && Draws(rng, |s|) && AllIn(s, a, b) && Internal(mean) && Internal(median)
    ensures IntervalsIn(IntervalsOf(s, mean, median, rng), a, b)
  {
    IntervalIsOrdered(s, mean, rng, a, b);
    IntervalIsOrdered(s, median, rng, a, b);
  }

  /** In every summary of a non-empty sample: P50 is at most P95, both intervals are in order, and the
      mean, the percentiles and all four bounds lie within the data. */
  lemma SummaryIsOrdered(all: seq<real>, filtered: seq<real>, outliers: seq<nat>, rng: nat -> nat, a: real, b: real)
    requires filtered != [] && Draws(rng, |filtered|) && AllIn(filtered, a, b)
    ensures var m := SummaryOf(all, filtered, outliers, rng);
            CenterIn(m.center, a, b) && IntervalsIn(m.ci, a, b)
  {
    var s := Sort(filtered);
    SortedAllIn(filtered, a, b);
    CenterIsOrdered(s, a, b);
    MeanIsInternal();
    PercentileIsInternal(0.5);
    IntervalsAreOrdered(s, MeanStat(), PercentileStat(0.5), rng, a, b);
  }

  // ----- What the spread and the intervals are

  function Squared(): real -> real {
    (x: real) => Square(x)
  }

  lemma SquareOfDifference(x: real, m: real, mx: real)
    requires mx == m * x
    ensures Square(x - m) == Square(x) - 2.0 * mx + Square(m)
  {
  }

  /** The sum of the squared distances from `m` of `n` numbers, by their sum and the sum of their squares. */
  function Expanded(squares: real, sum: real, n: real, m: real): real {
    squares - 2.0 * (m * sum) + n * Square(m)
  }

  lemma ExpandedNone(m: real)
    ensures Expanded(0.0, 0.0, 0.0, m) == 0.0
  {
    var q := Square(m);
    assert m * 0.0 == 0.0 && 0.0 * q == 0.0;
  }

  lemma ExpandedMore(squares: real, sum: real, n: real, m: real, x: real)
    ensures Expanded(squares + Square(x), sum + x, n + 1.0, m) == Expanded(squares, sum, n, m) + Square(x - m)
  {
    var q := Square(m);
    var msum, mx, nq := m * sum, m * x, n * q;
    SquareOfDifference(x, m, mx);
    assert m * (sum + x) == msum + mx;
    assert (n + 1.0) * q == nq + q;
  }

  lemma SumOfMapped(f: real -> real, s: seq<real>)
    requires s != []
    ensures Sum(Map(f, s)) == Sum(Map(f, s[..|s| - 1])) + f(s[|s| - 1])
  {
    assert Map(f, s)[..|s| - 1] == Map(f, s[..|s| - 1]);
  }

  lemma LastTerms(s: seq<real>, m: real)
    requires s != []
    ensures var t, x := s[..|s| - 1], s[|s| - 1];
            && SquaredDeviations(s, m) == SquaredDeviations(t, m) + Square(x - m)
            && Sum(Map(Squared(), s)) == Sum(Map(Squared(), t)) + Square(x)
            && Sum(s) == Sum(t) + x
  {
    hide Square;
    SumOfMapped(Deviation(m), s);
    SumOfMapped(Squared(), s);
  }

  lemma {:induction false} DeviationsExpand(s: seq<real>, m: real)
    ensures SquaredDeviations(s, m) == Expanded(Sum(Map(Squared(), s)), Sum(s), |s| as real, m)
  {
    hide Expanded, Square;
    if s == [] {
      ExpandedNone(m);
    } else {
      var t, x := s[..|s| - 1], s[|s| - 1];
      DeviationsExpand(t, m);
      LastTerms(s, m);
      hide SquaredDeviations, Sum, Map, Squared;
      ExpandedMore(Sum(Map(Squared(), t)), Sum(t), |t| as real, m, x);
      assert |s| as real == |t| as real + 1.0;
    }
  }

  lemma Centred(n: real, m: real, sum: real, msum: real, mm: real, nmm: real)
    requires sum == m * n && msum == m * sum && mm == m * m && nmm == n * mm
    ensures msum == nmm
  {
    assert m * (m * n) == n * (m * m);
  }

  lemma QuotientOfDifference(x: real, y: real, n: real)
    requires n > 0.0
    ensures (x - y * n) / n == x / n - y
  {
    var q := x / n;
    QuotientTimes(x, n, q);
    QuotientIs(x - y * n, n, q - y);
  }

  lemma CentredDeviations(s: seq<real>, m: real, q: real)
    requires s != [] && m == Mean(s) && q == Square(m)
    ensures SquaredDeviations(s, m) == Sum(Map(Squared(), s)) - q * |s| as real
  {
    hide SquaredDeviations, Mean, Sum;
    var n, sum := |s| as real, Sum(s);
    DeviationsExpand(s, m);
    MeanTimes(s);
    Centred(n, m, sum, m * sum, q, n * q);
  }

  /** The variance is the mean of the squares less the square of the mean. */
  lemma VarianceIsMeanOfSquares(s: seq<real>)
    requires s != []
    ensures Variance(s) == Mean(Map(Squared(), s)) - Square(Mean(s))
  {
    hide Square, SquaredDeviations, Sum;
    CentredDeviations(s, Mean(s), Square(Mean(s)));
    QuotientOfDifference(Sum(Map(Squared(), s)), Square(Mean(s)), |s| as real);
  }

  function ResampledMeans(s: seq<real>, rng: nat -> nat): seq<real>
    requires Draws(rng, |s|)
  {
    seq(2000, i requires 0 <= i < 2000 => Mean(Batch(s, rng, i)))
  }

  function ResampledMedians(s: seq<real>, rng: nat -> nat): seq<real>
    requires Draws(rng, |s|)
  {
    seq(2000, i requires 0 <= i < 2000 => Percentile(Sort(Batch(s, rng, i)), 0.5))
  }

  /** Two bounds taken from 2000 samples, with at least 1900 of them between. */
  ghost predicate CoversMost(samples: seq<real>, low: real, high: real) {
    |samples| == 2000 && low in samples && high in samples && |Select(samples, Fence(low, high))| >= 1900
  }

  lemma StatisticIsCovered(s: seq<real>, stat: Stat, rng: nat -> nat)
    requires s != [] && Draws(rng, |s|)
    ensures var (low, high) := Interval(s, ITERATIONS, LEVEL, stat, rng);
            CoversMost(Resampled(s, 2000, stat, rng), low, high)
  {
    hide Select, IntervalOf;
    IntervalCovers(Resampled(s, 2000, stat, rng), 0.95);
  }

  lemma ResampledAt(s: seq<real>, stat: Stat, rng: nat -> nat, i: nat)
    requires Draws(rng, |s|) && i < 2000
    ensures Resampled(s, 2000, stat, rng)[i] == stat(Batch(s, rng, i))
  {
  }

  lemma MedianAt(s: seq<real>, rng: nat -> nat, i: nat)
    requires Draws(rng, |s|) && i < 2000
    ensures ResampledMedians(s, rng)[i] == Percentile(Sort(Batch(s, rng, i)), 0.5)
  {
    hide Percentile, Sort, Batch;
  }

  lemma NamedAt(s: seq<real>, rng: nat -> nat, i: nat)
    requires Draws(rng, |s|) && i < 2000
    ensures ResampledMeans(s, rng)[i] == MeanStat()(Batch(s, rng, i))
    ensures ResampledMedians(s, rng)[i] == PercentileStat(0.5)(Batch(s, rng, i))
  {
    hide Mean, Batch, Percentile, Sort, PercentileStat, ResampledMedians;
    MedianAt(s, rng, i);
    StatOfSample(0.5, Batch(s, rng, i));
  }

  lemma ResampledAsNamed(s: seq<real>, rng: nat -> nat)
    requires Draws(rng, |s|)
    ensures Resampled(s, 2000, MeanStat(), rng) == ResampledMeans(s, rng)
    ensures Resampled(s, 2000, PercentileStat(0.5), rng) == ResampledMedians(s, rng)
  {
    hide MeanStat, PercentileStat;
    Lengths(s, rng);
    hide ResampledMeans, ResampledMedians, Resampled, Batch;
    forall i | 0 <= i < 2000
      ensures Resampled(s, 2000, MeanStat(), rng)[i] == ResampledMeans(s, rng)[i]
      ensures Resampled(s, 2000, PercentileStat(0.5), rng)[i] == ResampledMedians(s, rng)[i]
    {
      ResampledAt(s, MeanStat(), rng, i);
      ResampledAt(s, PercentileStat(0.5), rng, i);
      NamedAt(s, rng, i);
    }
  }

  lemma Lengths(s: seq<real>, rng: nat -> nat)
    requires Draws(rng, |s|)
    ensures |ResampledMeans(s, rng)| == |ResampledMedians(s, rng)| == 2000
    ensures forall stat: Stat :: |Resampled(s, 2000, stat, rng)| == 2000
  {
    hide Mean, Batch, Percentile;
  }

  /** Of the 2000 resampled means at least 1900 lie in the mean's interval, and of the 2000 resampled medians at least
      1900 in the median's; the bounds are such means and medians themselves. */
  lemma SummaryCovers(all: seq<real>, filtered: seq<real>, outliers: seq<nat>, rng: nat -> nat)
    requires filtered != [] && Draws(rng, |filtered|)
    ensures var s, ci := Sort(filtered), SummaryOf(all, filtered, outliers, rng).ci;
            CoversMost(ResampledMeans(s, rng), ci.ciLow, ci.ciHigh) &&
            CoversMost(ResampledMedians(s, rng), ci.p50CiLow, ci.p50CiHigh)
  {
    hide CoversMost, CenterOf, Interval, Resampled, ResampledMeans, ResampledMedians;
    var s := Sort(filtered);
    StatisticIsCovered(s, MeanStat(), rng);
    StatisticIsCovered(s, PercentileStat(0.5), rng);
    ResampledAsNamed(s, rng);
  }

  lemma RatioOverPercent(std: real, variance: real, mean: real, threshold: real)
    requires std >= 0.0 && Square(std) == variance
    ensures mean > 0.0 ==> (CvAtMost(CvSquared(variance, mean), threshold) <==> (std / mean) * 100.0 <= threshold)
    ensures mean <= 0.0 ==> (CvAtMost(CvSquared(variance, mean), threshold) <==> 0.0 <= threshold)
  {
    if mean > 0.0 {
      SquaresDecide(std, variance, mean, threshold);
    } else {
      assert threshold >= 0.0 ==> Square(0.0) <= Square(threshold);
      OrderOfSquares(0.0, threshold);
    }
  }

  /** What the verdict asks, in the program's own terms: at least five samples after filtering, and a coefficient of
      variation in percent, zero for a mean that is not positive, of at most the threshold. */
  lemma CvPassIff(values: seq<real>, std: real, threshold: real)
    requires values != [] && std >= 0.0 && Square(std) == Variance(Sort(Kept(values)))
    ensures var mean := Mean(Sort(Kept(values)));
            CvPass(values, threshold) <==>
              |Kept(values)| >= 5 && (if mean > 0.0 then (std / mean) * 100.0 else 0.0) <= threshold
  {
    hide Mean, Variance, Kept, Percentile, CvAtMost, CvSquared;
    RatioOverPercent(std, Variance(Sort(Kept(values))), Mean(Sort(Kept(values))), threshold);
  }

  // ----- Scaling the samples

  function Scale(c: real, s: seq<real>): seq<real> {
    Map(Times(c), s)
  }

  lemma {:induction false} SumScales(c: real, s: seq<real>)
    ensures Sum(Scale(c, s)) == c * Sum(s)
  {
    if s != [] {
      var t, cs := s[..|s| - 1], Scale(c, s);
      SumScales(c, t);
      assert cs[..|s| - 1] == Scale(c, t);
      Combine(c, Sum(t), Sum(Scale(c, t)), s[|s| - 1], cs[|s| - 1], Sum(s), Sum(cs));
    }
  }

  lemma MeanScales(c: real, s: seq<real>)
    ensures Mean(Scale(c, s)) == c * Mean(s)
  {
    SumScales(c, s);
    if s != [] {
      QuotientScales(c, Sum(s), Sum(Scale(c, s)), |s| as real);
    }
  }

  lemma ScaledDeviation(c: real, x: real, m: real, cx: real, cm: real)
    requires cx == c * x && cm == c * m
    ensures Square(cx - cm) == Square(c) * Square(x - m)
  {
    assert c * (x - m) == cx - cm;
    SquareOfProduct(c, x - m, cx - cm);
  }

  lemma DeviationsMap(c: real, s: seq<real>, m: real, m': real)
    requires m' == c * m
    ensures Map(Deviation(m'), Scale(c, s)) == Scale(Square(c), Map(Deviation(m), s))
  {
    var t, d := Scale(c, s), Map(Deviation(m), s);
    forall i | 0 <= i < |s|
      ensures Map(Deviation(m'), t)[i] == Scale(Square(c), d)[i]
    {
      ScaledDeviation(c, s[i], m, t[i], m');
    }
  }

  lemma DeviationsScale(c: real, s: seq<real>, m: real, m': real)
    requires m' == c * m
    ensures SquaredDeviations(Scale(c, s), m') == Square(c) * SquaredDeviations(s, m)
  {
    DeviationsMap(c, s, m, m');
    SumScales(Square(c), Map(Deviation(m), s));
  }

  lemma VarianceScales(c: real, s: seq<real>)
    ensures Variance(Scale(c, s)) == Square(c) * Variance(s)
  {
    if s != [] {
      var t := Scale(c, s);
      MeanScales(c, s);
      DeviationsScale(c, s, Mean(s), Mean(t));
      QuotientScales(Square(c), SquaredDeviations(s, Mean(s)), SquaredDeviations(t, Mean(t)), |s| as real);
    }
  }

  /** The coefficient of variation has no unit. */
  lemma CvIsScaleFree(c: real, variance: real, mean: real, variance': real, mean': real)
    requires c > 0.0 && variance' == Square(c) * variance && mean' == c * mean
    ensures CvSquared(variance', mean') == CvSquared(variance, mean)
  {
    if mean > 0.0 {
      PositiveProduct(c, mean, mean');
      SquareOfProduct(c, mean, mean');
      SameRatio(Square(c), variance, Square(mean), variance', Square(mean'));
    } else {
      ProductGrows(c, mean, 0.0, mean', 0.0);
    }
  }

  // ----- Summaries in another unit

  /** `u` converts values and `k` squared values. */
  ghost predicate Conversion(u: real -> real, k: real -> real) {
    && ChangeOfUnit(u)
    && forall s :: s != [] ==> MomentsConvert(u, k, s)
  }

  ghost predicate MomentsConvert(u: real -> real, k: real -> real, s: seq<real>)
    requires s != []
  {
    && Mean(Map(u, s)) == u(Mean(s))
    && Variance(Map(u, s)) / |s| as real == k(Variance(s) / |s| as real)
    && CvSquared(Variance(Map(u, s)), Mean(Map(u, s))) == CvSquared(Variance(s), Mean(s))
  }

  lemma ScaledMoments(c: real, s: seq<real>)
    requires c > 0.0 && s != []
    ensures MomentsConvert(Times(c), Times(Square(c)), s)
  {
    MeanScales(c, s);
    VarianceScales(c, s);
    QuotientScales(Square(c), Variance(s), Variance(Scale(c, s)), |s| as real);
    CvIsScaleFree(c, Variance(s), Mean(s), Variance(Scale(c, s)), Mean(Scale(c, s)));
  }

  /** Multiplication by c > 0 is a conversion, with c squared for the squares. */
  lemma TimesIsConversion(c: real)
    requires c > 0.0
    ensures Conversion(Times(c), Times(Square(c)))
  {
    TimesIsChangeOfUnit(c);
    forall s: seq<real> | s != []
      ensures MomentsConvert(Times(c), Times(Square(c)), s)
    {
      ScaledMoments(c, s);
    }
  }

  function ConvertCenter(u: real -> real, k: real -> real, m: Center): Center {
    Center(u(m.mean), u(m.p50), u(m.p95), k(m.stdErrSquared), m.cvSquared)
  }

  function ConvertIntervals(u: real -> real, m: Intervals): Intervals {
    Intervals(u(m.ciLow), u(m.ciHigh), u(m.p50CiLow), u(m.p50CiHigh))
  }

  function Convert(u: real -> real, k: real -> real, m: Summary): Summary {
    m.(center := ConvertCenter(u, k, m.center), ci := ConvertIntervals(u, m.ci))
  }

  lemma CenterConverts(u: real -> real, k: real -> real, s: seq<real>)
    requires Conversion(u, k) && s != []
    ensures CenterOf(Map(u, s)) == ConvertCenter(u, k, CenterOf(s))
  {
    assert MomentsConvert(u, k, s);
    PercentileMaps(u, s, 0.5);
    PercentileMaps(u, s, 0.95);
  }

  lemma MeanIsEquivariant(u: real -> real, k: real -> real)
    requires Conversion(u, k)
    ensures Equivariant(MeanStat(), u)
  {
    forall s: seq<real> | s != []
      ensures EquivariantAt(MeanStat(), u, s)
    {
      assert MomentsConvert(u, k, s);
    }
  }

  lemma PercentileOfSampleMaps(u: real -> real, p: real, s: seq<real>)
    requires ChangeOfUnit(u) && 0.0 <= p <= 1.0 && s != []
    ensures Percentile(Sort(Map(u, s)), p) == u(Percentile(Sort(s), p))
  {
    SortMaps(u, s);
    PercentileMaps(u, Sort(s), p);
  }

  lemma StatOfSample(p: real, s: seq<real>)
    requires 0.0 <= p <= 1.0
    ensures PercentileStat(p)(s) == Percentile(Sort(s), p)
  {
  }

  lemma StatMaps(u: real -> real, p: real, s: seq<real>)
    requires ChangeOfUnit(u) && 0.0 <= p <= 1.0 && s != []
    ensures EquivariantAt(PercentileStat(p), u, s)
  {
    StatOfSample(p, s);
    StatOfSample(p, Map(u, s));
    PercentileOfSampleMaps(u, p, s);
  }

  lemma EverySampleMaps(u: real -> real, p: real, stat: Stat)
    requires ChangeOfUnit(u) && 0.0 <= p <= 1.0 && stat == PercentileStat(p)
    ensures forall s :: s != [] ==> EquivariantAt(stat, u, s)
  {
    hide EquivariantAt, PercentileStat, ChangeOfUnit;
    forall s: seq<real> | s != []
      ensures EquivariantAt(stat, u, s)
    {
      StatMaps(u, p, s);
    }
  }

  lemma PercentileIsEquivariant(u: real -> real, p: real)
    requires ChangeOfUnit(u) && 0.0 <= p <= 1.0
    ensures Equivariant(PercentileStat(p), u)
  {
    EverySampleMaps(u, p, PercentileStat(p));
  }

  lemma IntervalsConvert(u: real -> real, s: seq<real>, mean: Stat, median: Stat, rng: nat -> nat)
    requires ChangeOfUnit(u) && s != [] && Draws(rng, |s|) && Equivariant(mean, u) && Equivariant(median, u)
    ensures IntervalsOf(Map(u, s), mean, median, rng) == ConvertIntervals(u, IntervalsOf(s, mean, median, rng))
  {
    IntervalMaps(s, ITERATIONS, LEVEL, mean, rng, u);
    IntervalMaps(s, ITERATIONS, LEVEL, median, rng, u);
  }

  lemma SummaryConverts(u: real -> real, k: real -> real, all: seq<real>, filtered: seq<real>,
                        outliers: seq<nat>, rng: nat -> nat)
    requires Conversion(u, k) && filtered != [] && Draws(rng, |filtered|)
    ensures SummaryOf(Map(u, all), Map(u, filtered), outliers, rng)
         == Convert(u, k, SummaryOf(all, filtered, outliers, rng))
  {
    SortMaps(u, filtered);
    CenterConverts(u, k, Sort(filtered));
    MeanIsEquivariant(u, k);
    PercentileIsEquivariant(u, 0.5);
    IntervalsConvert(u, Sort(filtered), MeanStat(), PercentileStat(0.5), rng);
  }

  lemma PipelineConverts(u: real -> real, k: real -> real, values: seq<real>, threshold: real)
    requires Conversion(u, k)
    ensures Kept(Map(u, values)) == Map(u, Kept(values))
    ensures OutlierSet(Map(u, values)) == OutlierSet(values)
    ensures CvPass(Map(u, values), threshold) <==> CvPass(values, threshold)
  {
    FilterMaps(u, values);
    if Kept(values) != [] {
      SortMaps(u, Kept(values));
      CenterConverts(u, k, Sort(Kept(values)));
    }
  }

  ghost predicate Converted(u: real -> real, k: real -> real, values: seq<real>, scaled: seq<real>,
                            outliers: seq<nat>, rng: nat -> nat, threshold: real)
    requires Draws(rng, |Kept(values)|) && |Kept(scaled)| == |Kept(values)|
  {
    && Kept(scaled) == Map(u, Kept(values))
    && OutlierSet(scaled) == OutlierSet(values)
    && SummaryOf(scaled, Kept(scaled), outliers, rng) == Convert(u, k, SummaryOf(values, Kept(values), outliers, rng))
    && (CvPass(scaled, threshold) <==> CvPass(values, threshold))
  }

  lemma PipelineSummaryConverts(u: real -> real, k: real -> real, values: seq<real>,
                                outliers: seq<nat>, rng: nat -> nat, threshold: real)
    requires Conversion(u, k) && values != [] && Draws(rng, |Kept(values)|)
    ensures |Kept(Map(u, values))| == |Kept(values)|
    ensures Converted(u, k, values, Map(u, values), outliers, rng, threshold)
  {
    hide Conversion, Kept, CvPass, SummaryOf, Convert;
    PipelineConverts(u, k, values, threshold);
    KeptIsNonEmpty(values);
    SummaryConverts(u, k, values, Kept(values), outliers, rng);
  }

  /** Multiplying all samples by c > 0, with the same draws: the same samples are outliers, the mean, the
      percentiles and every interval bound are multiplied by c, the squared standard error by c squared,
      and CV, its verdict and the counts stay. */
  lemma PipelineScales(c: real, values: seq<real>, outliers: seq<nat>, rng: nat -> nat, threshold: real)
    requires c > 0.0 && values != [] && Draws(rng, |Kept(values)|)
    ensures |Kept(Map(Times(c), values))| == |Kept(values)|
    ensures Converted(Times(c), Times(Square(c)), values, Map(Times(c), values), outliers, rng, threshold)
  {
    TimesIsConversion(c);
    PipelineSummaryConverts(Times(c), Times(Square(c)), values, outliers, rng, threshold);
  }

  lemma KeptIsNonEmpty(values: seq<real>)
    requires values != []
    ensures Kept(values) != []
  {
    if |values| >= 5 {
      var a, b := FilterSurvival(values);
    }
  }
}
