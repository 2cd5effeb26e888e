/** The percentile bootstrap of benchmark/internal/stats. The random generator is an arbitrary stream of
    indexes into the data. */
module Bootstrap {
  import opened Reals
  import opened Sorting
  import opened Quantile
  import opened IqrFilter

  type Stat = seq<real> -> real

  function Sum(s: seq<real>): real {
    if s == [] then 0.0 else Sum(s[..|s| - 1]) + s[|s| - 1]
  }

  function Mean(s: seq<real>): real {
    if s == [] then 0.0 else Sum(s) / |s| as real
  }

  function MeanStat(): Stat {
    (s: seq<real>) => Mean(s)
  }

  function PercentileStat(p: real): Stat
    requires 0.0 <= p <= 1.0
  {
    (s: seq<real>) => Percentile(Sort(s), p)
  }

  /** A stream of draws from 0 to n - 1. */
  ghost predicate Draws(rng: nat -> nat, n: nat) {
    forall k :: rng(k) < n
  }

  function Batch(data: seq<real>, rng: nat -> nat, i: nat): seq<real>
    requires Draws(rng, |data|)
  {
    seq(|data|, j requires 0 <= j < |data| => data[rng(i * |data| + j)])
  }

  function Resampled(data: seq<real>, iterations: nat, stat: Stat, rng: nat -> nat): seq<real>
    requires Draws(rng, |data|)
  {
    seq(iterations, i requires 0 <= i < iterations => stat(Batch(data, rng, i)))
  }

  // ----- The stream is used once, from its start

  /** The first k batches, end to end. */
  function Laid(data: seq<real>, rng: nat -> nat, k: nat): seq<real>
    requires Draws(rng, |data|)
  {
    if k == 0 then [] else Laid(data, rng, k - 1) + Batch(data, rng, k - 1)
  }

  lemma OneMoreBatch(k: nat, n: nat)
    requires k > 0
    ensures k * n == (k - 1) * n + n
  {
  }

  lemma JoinedAt(before: seq<real>, last: seq<real>, f: nat -> real)
    requires forall j :: 0 <= j < |before| ==> before[j] == f(j)
    requires forall j :: 0 <= j < |last| ==> last[j] == f(|before| + j)
    ensures forall j :: 0 <= j < |before + last| ==> (before + last)[j] == f(j)
  {
  }

  lemma BatchStarts(data: seq<real>, rng: nat -> nat, i: nat, from: nat, f: nat -> real)
    requires Draws(rng, |data|) && from == i * |data| && forall j :: f(j) == data[rng(j)]
    ensures |Batch(data, rng, i)| == |data|
    ensures forall j :: 0 <= j < |data| ==> Batch(data, rng, i)[j] == f(from + j)
  {
  }

  /** Laid end to end the batches are the data at the successive draws, each draw used once. */
  lemma {:induction false} BatchesAreTheStream(data: seq<real>, rng: nat -> nat, k: nat, f: nat -> real)
    requires Draws(rng, |data|) && forall j :: f(j) == data[rng(j)]
    ensures |Laid(data, rng, k)| == k * |data|
    ensures forall j :: 0 <= j < |Laid(data, rng, k)| ==> Laid(data, rng, k)[j] == f(j)
  {
    hide Batch;
    if k > 0 {
      BatchesAreTheStream(data, rng, k - 1, f);
      BatchStarts(data, rng, k - 1, (k - 1) * |data|, f);
      OneMoreBatch(k, |data|);
      JoinedAt(Laid(data, rng, k - 1), Batch(data, rng, k - 1), f);
    }
  }

  predicate IsChoice(choice: seq<nat>, n: nat) {
    |choice| == n && forall j :: 0 <= j < n ==> choice[j] < n
  }

  function Chosen(data: seq<real>, choice: seq<nat>): seq<real>
    requires IsChoice(choice, |data|)
  {
    seq(|data|, j requires 0 <= j < |data| => data[choice[j]])
  }

  predicate AreChoices(family: seq<seq<nat>>, n: nat) {
    forall i :: 0 <= i < |family| ==> IsChoice(family[i], n)
  }

  function Flat(family: seq<seq<nat>>): seq<nat> {
    if family == [] then [] else Flat(family[..|family| - 1]) + family[|family| - 1]
  }

  lemma {:induction false} FlatAt(family: seq<seq<nat>>, n: nat, i: nat, j: nat)
    requires AreChoices(family, n) && i < |family| && j < n
    ensures |Flat(family)| == |family| * n
    ensures 0 <= i * n + j < |Flat(family)| && Flat(family)[i * n + j] == family[i][j]
  {
    var most := family[..|family| - 1];
    assert IsChoice(family[|family| - 1], n);
    OneMoreBatch(|family|, n);
    if most == [] {
      assert Flat(most) == [];
    } else if i < |most| {
      FlatAt(most, n, i, j);
    } else {
      FlatAt(most, n, 0, j);
    }
  }

  lemma {:induction false} FlatIsChoice(family: seq<seq<nat>>, n: nat)
    requires AreChoices(family, n)
    ensures forall k :: 0 <= k < |Flat(family)| ==> Flat(family)[k] < n
  {
    if family != [] {
      FlatIsChoice(family[..|family| - 1], n);
      assert IsChoice(family[|family| - 1], n);
    }
  }

  ghost predicate DrawnBy(data: seq<real>, family: seq<seq<nat>>, rng: nat -> nat)
    requires AreChoices(family, |data|)
  {
    Draws(rng, |data|) && forall i :: 0 <= i < |family| ==> Batch(data, rng, i) == Chosen(data, family[i])
  }

  /** Resampling is free: every family of choices with repetition is drawn by some stream. */
  lemma ResamplingIsFree(data: seq<real>, family: seq<seq<nat>>)
    requires data != [] && AreChoices(family, |data|)
    ensures exists rng :: DrawnBy(data, family, rng)
  {
    var flat := Flat(family);
    FlatIsChoice(family, |data|);
    var rng: nat -> nat := (k: nat) => if k < |flat| then flat[k] else 0;
    assert Draws(rng, |data|);
    forall i | 0 <= i < |family|
      ensures Batch(data, rng, i) == Chosen(data, family[i])
    {
      forall j | 0 <= j < |data|
        ensures Batch(data, rng, i)[j] == Chosen(data, family[i])[j]
      {
        FlatAt(family, |data|, i, j);
      }
    }
    assert DrawnBy(data, family, rng);
  }

  // ----- What the mean is

  lemma {:induction false} SumJoins(a: seq<real>, b: seq<real>)
    ensures Sum(a + b) == Sum(a) + Sum(b)
  {
    if b == [] {
      assert a + b == a;
    } else {
      assert (a + b)[..|a + b| - 1] == a + b[..|b| - 1];
      SumJoins(a, b[..|b| - 1]);
    }
  }

  lemma MeanTimes(s: seq<real>)
    requires s != []
    ensures Mean(s) * |s| as real == Sum(s)
  {
    QuotientTimes(Sum(s), |s| as real, Mean(s));
  }

  /** The mean of one sample is the sample, and the mean of two samples together is that of their means, weighted by
      their sizes: nothing else is a mean. */
  lemma MeanIsWeighted(x: real, a: seq<real>, b: seq<real>)
    requires a != [] && b != []
    ensures Mean([x]) == x
    ensures Mean(a + b) * |a + b| as real == Mean(a) * |a| as real + Mean(b) * |b| as real
  {
    assert [x][..0] == [];
    assert Sum([x]) == x;
    SumJoins(a, b);
    MeanTimes(a);
    MeanTimes(b);
    MeanTimes(a + b);
  }

  // ----- The order statistics taken

  function LowIndex(iterations: nat, level: real): int {
    (iterations as real * ((1.0 - level) / 2.0)).Floor
  }

  function HighIndex(iterations: nat, level: real): int {
    Ceil(iterations as real * (1.0 - (1.0 - level) / 2.0)) - 1
  }

  lemma Complement(n: real, alpha: real, x: real)
    requires x == n * alpha
    ensures n * (1.0 - alpha) == n - x
  {
  }

  /** The two indexes are mirror images, whatever the level. */
  lemma IndexesMirror(iterations: nat, level: real)
    ensures HighIndex(iterations, level) == iterations - 1 - LowIndex(iterations, level)
  {
    var alpha := (1.0 - level) / 2.0;
    var x := iterations as real * alpha;
    Complement(iterations as real, alpha, x);
  }

  lemma TwoTails(n: real, level: real, alpha: real, x: real, y: real)
    requires alpha == (1.0 - level) / 2.0 && x == n * alpha && y == level * n
    ensures 2.0 * x == n - y
  {
    assert n * (2.0 * alpha) == n - n * level;
  }

  /** For a level in (0, 1] both indexes are in range by themselves, in order, and level * iterations of them lie
      between, rounded up to leave out equally many at both ends. */
  lemma IndexesInRange(iterations: nat, level: real)
    requires iterations >= 1 && 0.0 < level <= 1.0
    ensures 0 <= LowIndex(iterations, level) <= HighIndex(iterations, level) < iterations
    ensures level * iterations as real <=
              (HighIndex(iterations, level) - LowIndex(iterations, level) + 1) as real
           < level * iterations as real + 2.0
    ensures LowIndex(iterations, level) == iterations - 1 - HighIndex(iterations, level)
  {
    IndexesMirror(iterations, level);
    var n := iterations as real;
    var alpha := (1.0 - level) / 2.0;
    var x, y := n * alpha, level * n;
    TwoTails(n, level, alpha, x, y);
    PositiveProduct(level, n, y);
    ProductGrows(n, level, 1.0, y, n);
  }

  lemma NoTimes(level: real, n: real, y: real)
    requires level == 0.0 && y == level * n
    ensures y == 0.0
  {
  }

  lemma HalfFloor(n: nat, x: real)
    requires 2.0 * x == n as real
    ensures x.Floor <= n - 1 - x.Floor <==> n % 2 == 1
  {
    assert 2 * x.Floor <= n < 2 * x.Floor + 2;
  }

  /** At the edge of that range: with level 0 the bounds are in order exactly for an odd number of iterations. */
  lemma IndexesOrderedIff(iterations: nat, level: real)
    requires iterations >= 1 && 0.0 <= level <= 1.0
    ensures LowIndex(iterations, level) <= HighIndex(iterations, level) <==> level > 0.0 || iterations % 2 == 1
  {
    IndexesMirror(iterations, level);
    if level > 0.0 {
      IndexesInRange(iterations, level);
    } else {
      var n := iterations as real;
      var alpha := (1.0 - level) / 2.0;
      var x, y := n * alpha, level * n;
      TwoTails(n, level, alpha, x, y);
      NoTimes(level, n, y);
      HalfFloor(iterations, x);
    }
  }

  function Clamped(iterations: nat, level: real): (r: (nat, nat))
    requires iterations >= 1 && level > -1.0
    ensures r.0 < iterations && r.1 < iterations
  {
    IndexesMirror(iterations, level);
    IndexesExistIff(iterations, level);
    var lo := if LowIndex(iterations, level) < 0 then 0 else LowIndex(iterations, level);
    var hi := if HighIndex(iterations, level) >= iterations then iterations - 1 else HighIndex(iterations, level);
    (lo, hi)
  }

  /** The clamps leave both indexes in range exactly for levels above -1; below, the program would stop with an
      index out of range. */
  lemma IndexesExistIff(iterations: nat, level: real)
    requires iterations >= 1
    ensures LowIndex(iterations, level) < iterations <==> level > -1.0
    ensures HighIndex(iterations, level) >= 0 <==> level > -1.0
  {
    IndexesMirror(iterations, level);
    var n := iterations as real;
    var alpha := (1.0 - level) / 2.0;
    if level > -1.0 {
      ProductGrowsStrictly(n, alpha, 1.0, n * alpha, n);
    } else {
      ProductGrows(n, 1.0, alpha, n, n * alpha);
    }
  }

  /** The interval as a function of the resampled statistics. */
  function IntervalOf(samples: seq<real>, level: real): (real, real)
    requires samples != [] && level > -1.0
  {
    var (lo, hi) := Clamped(|samples|, level);
    (Sort(samples)[lo], Sort(samples)[hi])
  }

  /** The interval bootstrapCI returns. */
  function Interval(data: seq<real>, iterations: nat, level: real, stat: Stat, rng: nat -> nat): (real, real)
    requires data != [] ==> iterations >= 1 && level > -1.0 && Draws(rng, |data|)
  {
    if data == [] then (0.0, 0.0) else IntervalOf(Resampled(data, iterations, stat, rng), level)
  }

  method DrawBatch(data: seq<real>, rng: nat -> nat, i: nat) returns (batch: array<real>)
    requires Draws(rng, |data|)
    ensures fresh(batch) && batch[..] == Batch(data, rng, i)
  {
    var n := |data|;
    batch := new real[n];
    for j := 0 to n
      invariant forall k :: 0 <= k < j ==> batch[k] == data[rng(i * n + k)]
    {
      batch[j] := data[rng(i * n + j)];
    }
  }

  method Resample(data: seq<real>, iterations: nat, stat: Stat, rng: nat -> nat) returns (samples: array<real>)
    requires Draws(rng, |data|)
    ensures fresh(samples) && samples[..] == Resampled(data, iterations, stat, rng)
  {
    samples := new real[iterations];
    for i := 0 to iterations
      invariant forall k :: 0 <= k < i ==> samples[k] == stat(Batch(data, rng, k))
    {
      var batch := DrawBatch(data, rng, i);
      samples[i] := stat(batch[..]);
    }
  }

  method ChooseIndexes(iterations: nat, level: real) returns (lowIdx: int, highIdx: int)
    requires iterations >= 1 && level > -1.0
    ensures 0 <= lowIdx && 0 <= highIdx && (lowIdx, highIdx) == Clamped(iterations, level)
  {
    lowIdx := (iterations as real * ((1.0 - level) / 2.0)).Floor;
    highIdx := Ceil(iterations as real * (1.0 - (1.0 - level) / 2.0)) - 1;
    assert lowIdx == LowIndex(iterations, level) && highIdx == HighIndex(iterations, level);
    assert 0 <= highIdx by {
      IndexesMirror(iterations, level);
      IndexesExistIff(iterations, level);
    }
    if lowIdx < 0 {
      lowIdx := 0;
    }
    if highIdx >= iterations {
      highIdx := iterations - 1;
    }
  }

  method BootstrapCI(data: seq<real>, iterations: nat, level: real, stat: Stat, rng: nat -> nat)
    returns (low: real, high: real)
    requires data != [] ==> iterations >= 1 && level > -1.0 && Draws(rng, |data|)
    ensures (low, high) == Interval(data, iterations, level, stat, rng)
  {
    if |data| == 0 {
      return 0.0, 0.0;
    }
    var samples := Resample(data, iterations, stat, rng);
    ghost var all := samples[..];
    var sorted := Sort(samples[..]);
    var lowIdx, highIdx := ChooseIndexes(iterations, level);
    low, high := sorted[lowIdx], sorted[highIdx];
    assert (low, high) == IntervalOf(all, level);
  }

  // ----- The interval is well formed

  lemma SortedHeldBetween(s: seq<real>, lo: nat, hi: nat)
    requires Sorted(s) && lo <= hi < |s|
    ensures hi - lo + 1 <= |Select(s, Fence(s[lo], s[hi]))|
  {
    var f := Fence(s[lo], s[hi]);
    var a, b := SelectIsSlice(s, f);
    assert f.Has(s[lo]) && f.Has(s[hi]);
  }

  /** Between two order statistics lie at least as many samples as there are ranks. */
  lemma HeldBetween(samples: seq<real>, lo: nat, hi: nat)
    requires lo <= hi < |samples|
    ensures var f := Fence(Sort(samples)[lo], Sort(samples)[hi]);
            f.low <= f.high && hi - lo + 1 <= |Select(samples, f)|
  {
    var s := Sort(samples);
    var f := Fence(s[lo], s[hi]);
    SortedHeldBetween(s, lo, hi);
    SelectPermutes(samples, s, f);
    PermutationMembers(Select(samples, f), Select(s, f));
  }

  /** For every stream of draws, every statistic and every level in (0, 1] the interval is in order and holds
      at least level * iterations of the resampled statistics. */
  lemma IntervalCovers(samples: seq<real>, level: real)
    requires samples != [] && 0.0 < level <= 1.0
    ensures var (low, high) := IntervalOf(samples, level);
            && low <= high && low in samples && high in samples
            && level * |samples| as real <= |Select(samples, Fence(low, high))| as real
  {
    var n := |samples|;
    IndexesInRange(n, level);
    HeldBetween(samples, LowIndex(n, level), HighIndex(n, level));
    PermutationMembers(samples, Sort(samples));
  }

  ghost predicate AllIn(s: seq<real>, a: real, b: real) {
    forall i :: 0 <= i < |s| ==> a <= s[i] <= b
  }

  /** A statistic that never leaves the range of its sample. */
  ghost predicate Internal(stat: Stat) {
    forall s, a, b :: s != [] && AllIn(s, a, b) ==> a <= stat(s) <= b
  }

  lemma OneMore(a: real, k: real, ak: real, n: real)
    requires ak == a * k && n == k + 1.0
    ensures a * n == ak + a
  {
    assert a * (k + 1.0) == a * k + a;
  }

  lemma {:induction false} SumWithin(s: seq<real>, a: real, b: real)
    requires AllIn(s, a, b)
    ensures a * |s| as real <= Sum(s) <= b * |s| as real
  {
    if s != [] {
      var k := (|s| - 1) as real;
      SumWithin(s[..|s| - 1], a, b);
      OneMore(a, k, a * k, |s| as real);
      OneMore(b, k, b * k, |s| as real);
    }
  }

  lemma MeanIsInternal()
    ensures Internal(MeanStat())
  {
    forall s: seq<real>, a, b | s != [] && AllIn(s, a, b)
      ensures a <= MeanStat()(s) <= b
    {
      SumWithin(s, a, b);
      var n := |s| as real;
      QuotientBounds(Sum(s), n, a, b, a * n, b * n);
    }
  }

  lemma SortedAllIn(s: seq<real>, a: real, b: real)
    requires AllIn(s, a, b)
    ensures AllIn(Sort(s), a, b)
  {
    PermutationMembers(s, Sort(s));
    forall i | 0 <= i < |s|
      ensures a <= Sort(s)[i] <= b
    {
      assert Sort(s)[i] in s;
    }
  }

  lemma PercentileStaysWithin(p: real, s: seq<real>, a: real, b: real)
    requires 0.0 <= p <= 1.0 && s != [] && AllIn(s, a, b)
    ensures a <= PercentileStat(p)(s) <= b
  {
    hide Percentile;
    SortedAllIn(s, a, b);
    PercentileBounded(Sort(s), p);
  }

  lemma PercentileIsInternal(p: real)
    requires 0.0 <= p <= 1.0
    ensures Internal(PercentileStat(p))
  {
    forall s: seq<real>, a, b | s != [] && AllIn(s, a, b)
      ensures a <= PercentileStat(p)(s) <= b
    {
      PercentileStaysWithin(p, s, a, b);
    }
  }

  /** Both bounds lie within the data, for the mean and for every percentile. */
  lemma IntervalWithinData(data: seq<real>, iterations: nat, level: real, stat: Stat, rng: nat -> nat, a: real, b: real)
    requires data != [] && iterations >= 1 && level > -1.0 && Draws(rng, |data|)
    requires AllIn(data, a, b) && Internal(stat)
    ensures var (low, high) := Interval(data, iterations, level, stat, rng);
            a <= low <= b && a <= high <= b
  {
    var samples := Resampled(data, iterations, stat, rng);
    forall i | 0 <= i < iterations
      ensures a <= samples[i] <= b
    {
      assert AllIn(Batch(data, rng, i), a, b);
    }
    SortedAllIn(samples, a, b);
  }

  // ----- Change of unit

  ghost predicate EquivariantAt(stat: Stat, u: real -> real, s: seq<real>) {
    stat(Map(u, s)) == u(stat(s))
  }

  ghost predicate Equivariant(stat: Stat, u: real -> real) {
    forall s :: s != [] ==> EquivariantAt(stat, u, s)
  }

  lemma BatchMaps(data: seq<real>, rng: nat -> nat, i: nat, u: real -> real)
    requires Draws(rng, |data|)
    ensures Batch(Map(u, data), rng, i) == Map(u, Batch(data, rng, i))
  {
  }

  /** With the same draws, the interval of converted data is the converted interval. */
  lemma IntervalMaps(data: seq<real>, iterations: nat, level: real, stat: Stat, rng: nat -> nat, u: real -> real)
    requires data != [] && iterations >= 1 && level > -1.0 && Draws(rng, |data|)
    requires ChangeOfUnit(u) && Equivariant(stat, u)
    ensures var (low, high) := Interval(data, iterations, level, stat, rng);
            Interval(Map(u, data), iterations, level, stat, rng) == (u(low), u(high))
  {
    var samples := Resampled(data, iterations, stat, rng);
    forall i | 0 <= i < iterations
      ensures stat(Batch(Map(u, data), rng, i)) == u(samples[i])
    {
      BatchMaps(data, rng, i, u);
      assert Batch(data, rng, i) != [];
      assert EquivariantAt(stat, u, Batch(data, rng, i));
    }
    assert Resampled(Map(u, data), iterations, stat, rng) == Map(u, samples);
    SortMaps(u, samples);
  }
}
