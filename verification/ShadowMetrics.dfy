/** The sliding window of shadow latencies of warmkit/fsm.go and the percentile read from it. */
module ShadowMetrics {
  import opened Reals
  import opened Sorting
  import opened Quantile

  /** The last k elements, or all when there are fewer. */
  function Last<T>(h: seq<T>, k: nat): (r: seq<T>)
    ensures |r| == (if |h| < k then |h| else k)
  {
    if |h| <= k then h else h[|h| - k..]
  }

  /** A window keeps up one element at a time: what it dropped is never needed again. */
  lemma WindowSlides<T>(h: seq<T>, k: nat, x: T)
    ensures Last(Last(h, k) + [x], k) == Last(h + [x], k)
  {
    if |h| <= k {
      assert Last(h, k) == h;
    } else if k > 0 {
      assert Last(h, k) + [x] == (h + [x])[|h| - k..];
    }
  }

  /** Conversion of a float to an integer: towards zero. */
  function Truncate(x: real): int {
    if x >= 0.0 then x.Floor else -(-x).Floor
  }

  /** The order statistic at the truncated rank. */
  function TruncatedPercentile(s: seq<real>, p: real): real
    requires s != [] && 0.0 <= p <= 1.0
  {
    RankInRange(|s|, p);
    s[Rank(|s|, p).Floor]
  }

  /** The index as the program computes it, before a negative one is replaced by zero. */
  function Position(n: nat, p: real): int {
    Truncate((n - 1) as real * p)
  }

  lemma TruncatedPosition(n: nat, p: real)
    requires n >= 1 && p <= 1.0
    ensures Position(n, p) < n
    ensures if 0.0 <= p then Position(n, p) == Rank(n, p).Floor >= 0 else Position(n, p) <= 0
  {
    if p >= 0.0 {
      RankInRange(n, p);
    } else {
      ProductGrows((n - 1) as real, p, 0.0, (n - 1) as real * p, 0.0);
    }
  }

  /** The order statistic that a call of percentileDuration is to return. */
  ghost function OrderStatistic(s: seq<real>, p: real): real
    requires p <= 1.0
  {
    if s == [] then 0.0 else if p < 0.0 then s[0] else TruncatedPercentile(s, p)
  }

  lemma OrderStatisticAt(s: seq<int>, p: real, idx: int)
    requires s != [] && p <= 1.0 && idx == if Position(|s|, p) < 0 then 0 else Position(|s|, p)
    ensures 0 <= idx < |s| && s[idx] as real == OrderStatistic(ToReals(s), p)
  {
    TruncatedPosition(|s|, p);
  }

  /** Sorts its argument in place and reads one order statistic. */
  method PercentileDuration(sorted: array<int>, p: real) returns (r: int)
    requires p <= 1.0
    modifies sorted
    ensures ToReals(sorted[..]) == Sort(ToReals(old(sorted[..])))
    ensures multiset(sorted[..]) == multiset(old(sorted[..]))
    ensures r as real == OrderStatistic(Sort(ToReals(old(sorted[..]))), p)
  {
    ExchangeSort(sorted);
    if sorted.Length == 0 {
      return 0;
    }
    var idx := Position(sorted.Length, p);
    if idx < 0 {
      idx := 0;
    }
    OrderStatisticAt(sorted[..], p, idx);
    r := sorted[idx];
  }

  class ShadowMetrics {
    var count: int
    var latencies: seq<int>
    const maxKeep: nat
    ghost var history: seq<int>

    /** The counter counts every latency ever recorded, the window holds the last maxKeep of them. */
    ghost predicate Valid()
      reads this
    {
      count == |history| && latencies == Last(history, maxKeep)
    }

    constructor (maxKeep: nat)
      ensures Valid() && history == [] && this.maxKeep == maxKeep
    {
      this.maxKeep := maxKeep;
      count, latencies, history := 0, [], [];
    }

    method Record(d: int)
      requires Valid()
      modifies this
      ensures Valid() && history == old(history) + [d]
    {
      WindowSlides(history, maxKeep, d);
      history := history + [d];
      count := count + 1;
      latencies := latencies + [d];
      if |latencies| > maxKeep {
        latencies := latencies[|latencies| - maxKeep..];
      }
    }

    method Count() returns (n: int)
      requires Valid()
      ensures n == |history|
    {
      n := count;
    }

    /** A pure reading: the order statistic at floor(0.95 * (len - 1)) of the last maxKeep latencies. */
    method P95Ns() returns (r: int)
      requires Valid()
      ensures var window := Sort(ToReals(Last(history, maxKeep)));
              if window == [] then r == 0 else r as real == TruncatedPercentile(window, 0.95)
    {
      if |latencies| == 0 {
        return 0;
      }
      var cp := new int[|latencies|](i requires 0 <= i < |latencies| reads this => latencies[i]);
      assert cp[..] == latencies;
      r := PercentileDuration(cp, 0.95);
    }
  }

  lemma LastOfSuffix<T>(a: seq<T>, b: seq<T>, k: nat)
    requires |b| >= k
    ensures Last(a + b, k) == Last(b, k)
  {
    if |b| == k {
      assert Last(b, k) == b == (a + b)[|a|..];
    } else {
      assert (a + b)[|a + b| - k..] == b[|b| - k..];
    }
  }

  function Recorded(window: seq<int>, maxKeep: nat, ds: seq<int>): seq<int> {
    if ds == [] then window else Last(Recorded(window, maxKeep, ds[..|ds| - 1]) + [ds[|ds| - 1]], maxKeep)
  }

  /** Over any history of calls: after maxKeep further latencies nothing that came before is left, so the
      reading no longer depends on it. */
  lemma {:induction false} WindowForgets(window: seq<int>, maxKeep: nat, ds: seq<int>)
    requires |window| <= maxKeep
    ensures Recorded(window, maxKeep, ds) == Last(window + ds, maxKeep)
    ensures |ds| >= maxKeep ==> Recorded(window, maxKeep, ds) == Last(ds, maxKeep)
  {
    if ds == [] {
      assert window + ds == window;
    } else {
      var t, x := ds[..|ds| - 1], ds[|ds| - 1];
      WindowForgets(window, maxKeep, t);
      WindowSlides(window + t, maxKeep, x);
      assert window + ds == window + t + [x];
    }
    if |ds| >= maxKeep {
      LastOfSuffix(window, ds, maxKeep);
    }
  }
}
