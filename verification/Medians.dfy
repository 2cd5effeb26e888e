/** The three medians and two percentiles of the code base, and how they relate: the block medians of
    benchmark/internal/loadgen/blocks.go, medianInt64 of the report, the truncated percentile of warmkit
    and the interpolated one of benchmark/internal/stats. */
module Medians {
  import opened Reals
  import opened Sorting
  import opened Quantile
  import opened ShadowMetrics

  // ----- The interpolated median

  lemma MiddleRank(n: nat, r: real)
    requires n >= 1 && r == Rank(n, 0.5)
    ensures 2.0 * r == (n - 1) as real
    ensures r.Floor == (n - 1) / 2 && Ceil(r) == n / 2
  {
  }

  lemma MixHalf(a: real, b: real)
    ensures Mix(a, b, 0.5) == (a + b) / 2.0
  {
  }

  /** The middle one of an odd sample, the mean of the middle two of an even one. */
  lemma MedianIsMiddle(s: seq<real>)
    requires s != []
    ensures |s| % 2 == 1 ==> Percentile(s, 0.5) == s[|s| / 2]
    ensures |s| % 2 == 0 ==> Percentile(s, 0.5) == (s[|s| / 2 - 1] + s[|s| / 2]) / 2.0
  {
    if |s| >= 2 {
      var r := Rank(|s|, 0.5);
      MiddleRank(|s|, r);
      RankInRange(|s|, 0.5);
      if |s| % 2 == 0 {
        assert r - r.Floor as real == 0.5;
        MixHalf(s[|s| / 2 - 1], s[|s| / 2]);
      }
    }
  }

  // ----- Block medians

  function Blocks(n: nat, size: nat): nat
    requires size >= 1
  {
    (n + size - 1) / size
  }

  function Block<T>(s: seq<T>, size: nat, b: nat): (r: seq<T>)
    requires size >= 1 && b * size <= |s|
  {
    s[b * size..if (b + 1) * size < |s| then (b + 1) * size else |s|]
  }

  function Concat<T>(s: seq<T>, size: nat, b: nat): seq<T>
    requires size >= 1 && b <= Blocks(|s|, size)
  {
    if b == 0 then [] else BlockExists(|s|, size, b - 1); Concat(s, size, b - 1) + Block(s, size, b - 1)
  }

  lemma BlockExists(n: nat, size: nat, b: nat)
    requires size >= 1
    ensures b < Blocks(n, size) <==> b * size < n
  {
    var q := Blocks(n, size);
    assert q * size <= n + size - 1 < q * size + size;
    if b < q {
      assert (b + 1) * size <= q * size;
    } else {
      assert q * size <= b * size;
    }
  }

  lemma BlockAppends<T>(s: seq<T>, size: nat, b: nat, from: nat)
    requires size >= 1 && from == b * size < |s|
    ensures s[..from] + Block(s, size, b) == if from + size <= |s| then s[..from + size] else s
  {
    assert (b + 1) * size == from + size;
  }

  lemma NextBlock(b: nat, size: nat)
    requires b > 0
    ensures b * size == (b - 1) * size + size
  {
  }

  /** The blocks cover the samples, in order, each once. */
  lemma {:induction false} BlocksCover<T>(s: seq<T>, size: nat, b: nat)
    requires size >= 1 && b <= Blocks(|s|, size)
    ensures Concat(s, size, b) == (if b * size <= |s| then s[..b * size] else s)
    ensures b == Blocks(|s|, size) ==> Concat(s, size, b) == s
  {
    hide Blocks, Block;
    BlockExists(|s|, size, b);
    if b > 0 {
      BlockExists(|s|, size, b - 1);
      NextBlock(b, size);
      BlocksCover(s, size, b - 1);
      BlockAppends(s, size, b - 1, (b - 1) * size);
    }
  }

  function AsReal(x: int): real { x as real }

  /** The middle of one block, as the loop body computes it. */
  method MiddleOf(block: seq<int>) returns (m: real)
    requires block != []
    ensures m == Percentile(Sort(ToReals(block)), 0.5)
  {
    var cp := SortBy(AsReal, block);
    assert forall i, j :: 0 <= i < j < |cp| ==> AsReal(cp[i]) <= AsReal(cp[j]);
    SortedInts(block, cp);
    MedianIsMiddle(ToReals(cp));
    var mid := |cp| / 2;
    if |cp| % 2 == 0 {
      m := (cp[mid - 1] + cp[mid]) as real / 2.0;
    } else {
      m := cp[mid] as real;
    }
  }

  function BlockSize(blockSize: int): nat {
    if blockSize <= 0 then 1 else blockSize
  }

  /** The interpolated median of block b. */
  ghost function BlockMedian(rtts: seq<int>, size: nat, b: nat): real
    requires size >= 1
  {
    if b * size <= |rtts| then Percentile(Sort(ToReals(Block(rtts, size, b))), 0.5) else 0.0
  }

  lemma BlockBounds(rtts: seq<int>, size: nat, b: nat, i: nat, end: nat)
    requires size >= 1 && i == b * size < |rtts|
    requires end == if i + size > |rtts| then |rtts| else i + size
    ensures b < Blocks(|rtts|, size) && i + size == (b + 1) * size
    ensures Block(rtts, size, b) == rtts[i..end] != []
  {
    BlockExists(|rtts|, size, b);
  }

  lemma BlockCount(n: nat, size: nat, k: nat)
    requires size >= 1 && n <= k * size && k <= Blocks(n, size)
    ensures k == Blocks(n, size)
  {
    BlockExists(n, size, k);
  }

  /** Every block but the last is full. */
  lemma BlockLengths<T>(s: seq<T>, size: nat, b: nat)
    requires size >= 1 && b < Blocks(|s|, size)
    ensures b * size < |s|
    ensures b + 1 < Blocks(|s|, size) ==> |Block(s, size, b)| == size
    ensures 1 <= |Block(s, size, b)| <= size
  {
    BlockExists(|s|, size, b);
    BlockExists(|s|, size, b + 1);
    NextBlock(b + 1, size);
  }

  /** One median a block, for every block size, and as many as there are blocks. */
  method BlockMedians(rtts: seq<int>, blockSize: int) returns (out: seq<real>)
    ensures |out| == Blocks(|rtts|, BlockSize(blockSize))
    ensures forall b :: 0 <= b < |out| ==> out[b] == BlockMedian(rtts, BlockSize(blockSize), b)
    ensures blockSize >= 1 ==> |out| == (|rtts| + blockSize - 1) / blockSize
    ensures blockSize <= 0 ==> |out| == |rtts|
  {
    var size := blockSize;
    if size <= 0 {
      size := 1;
    }
    out := [];
    var i := 0;
    while i < |rtts|
      invariant 0 <= i == |out| * size
      invariant |out| <= Blocks(|rtts|, size)
      invariant forall b :: 0 <= b < |out| ==> out[b] == BlockMedian(rtts, size, b)
      decreases |rtts| - i
    {
      var end := i + size;
      if end > |rtts| {
        end := |rtts|;
      }
      BlockBounds(rtts, size, |out|, i, end);
      var m := MiddleOf(rtts[i..end]);
      out := out + [m];
      i := i + size;
    }
    BlockCount(|rtts|, size, |out|);
  }

  // ----- medianInt64

  /** The upper median: the order statistic at n / 2, by an exchange sort on a copy. */
  method MedianInt64(values: seq<int>) returns (r: int)
    ensures values == [] ==> r == 0
    ensures values != [] ==> r in values && r as real == Sort(ToReals(values))[|values| / 2]
  {
    if |values| == 0 {
      return 0;
    }
    var cp := new int[|values|](i requires 0 <= i < |values| => values[i]);
    assert cp[..] == values;
    ExchangeSort(cp);
    r := cp[|values| / 2];
    assert cp[..][|values| / 2] == r;
    assert ToReals(cp[..])[|values| / 2] == r as real;
    PermutationMembers(cp[..], values);
  }

  /** The upper median is never below the interpolated one, and equals it exactly for an odd sample or
      one whose middle two agree. */
  lemma UpperMedianAgreesIff(s: seq<real>)
    requires Sorted(s) && s != []
    ensures Percentile(s, 0.5) <= s[|s| / 2]
    ensures Percentile(s, 0.5) == s[|s| / 2] <==> |s| % 2 == 1 || s[|s| / 2 - 1] == s[|s| / 2]
  {
    MedianIsMiddle(s);
  }

  // ----- The two percentiles

  /** The truncated percentile is at most the interpolated one, which is at most one order statistic above
      it; they agree exactly when the rank is whole or the two order statistics around it are equal. */
  lemma TruncatedPercentileAgreesIff(s: seq<real>, p: real)
    requires Sorted(s) && s != [] && 0.0 <= p <= 1.0
    ensures var lo, hi := Rank(|s|, p).Floor, Ceil(Rank(|s|, p));
            && 0 <= lo <= hi < |s| && hi <= lo + 1
            && TruncatedPercentile(s, p) == s[lo] <= Percentile(s, p) <= s[hi]
            && (TruncatedPercentile(s, p) == Percentile(s, p) <==> lo == hi || s[lo] == s[hi])
  {
    RankInRange(|s|, p);
    var r := Rank(|s|, p);
    var lo, hi := r.Floor, Ceil(r);
    if |s| >= 2 {
      AtBetween(s, r);
      if lo != hi {
        MixAtEnds(s[lo], s[hi]);
        LevelMix(s[lo], s[hi], 0.0, r - lo as real);
      }
    }
  }
}
