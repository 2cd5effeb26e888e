/** The interpolated quantile of benchmark/internal/stats: definition 7 of Hyndman and Fan (1996). */
module Quantile {
  import opened Reals
  import opened Sorting

  function Ceil(x: real): (r: int)
    ensures r as real - 1.0 < x <= r as real
  {
    -(-x).Floor
  }

  function Rank(n: nat, p: real): real
    requires n >= 1
  {
    p * (n - 1) as real
  }

  lemma RankGrows(n: nat, p: real, q: real)
    requires n >= 1 && p <= q
    ensures Rank(n, p) <= Rank(n, q)
  {
    ProductGrows((n - 1) as real, p, q, Rank(n, p), Rank(n, q));
  }

  lemma RankInRange(n: nat, p: real)
    requires n >= 1 && 0.0 <= p <= 1.0
    ensures 0.0 <= Rank(n, p) <= (n - 1) as real
    ensures 0 <= Rank(n, p).Floor <= Ceil(Rank(n, p)) <= n - 1
  {
    RankGrows(n, 0.0, p);
    RankGrows(n, p, 1.0);
    assert Rank(n, 0.0) == 0.0 && Rank(n, 1.0) == (n - 1) as real;
  }

  /** The value at a fractional rank. */
  function At(s: seq<real>, r: real): real
    requires 0.0 <= r <= |s| as real - 1.0
  {
    var lo, hi := r.Floor, Ceil(r);
    if lo == hi then s[lo] else Mix(s[lo], s[hi], r - lo as real)
  }

  /** A quantile outside [0, 1] is asked of an array that has no such index; below two elements none is asked. */
  function Percentile(s: seq<real>, p: real): real
    requires |s| >= 2 ==> 0.0 <= p <= 1.0
  {
    if |s| == 0 then 0.0
    else if |s| == 1 then s[0]
    else RankInRange(|s|, p); At(s, Rank(|s|, p))
  }

  // ----- What the definition amounts to

  /** Between two whole ranks the value is the interpolation of the order statistics there. */
  lemma AtIsMix(s: seq<real>, r: real, k: nat, f: real)
    requires k + 1 < |s| && 0.0 <= f <= 1.0 && r == k as real + f
    ensures At(s, r) == Mix(s[k], s[k + 1], f)
  {
    MixAtEnds(s[k], s[k + 1]);
    if f == 1.0 {
      assert r.Floor == k + 1 == Ceil(r);
    } else if f == 0.0 {
      assert r.Floor == k == Ceil(r);
    } else {
      assert r.Floor == k && Ceil(r) == k + 1;
      assert r - k as real == f;
    }
  }

  ghost predicate AffineAt(g: real -> real, k: nat, f: real) {
    g(k as real + f) == Mix(g(k as real), g((k + 1) as real), f)
  }

  /** The quantile is the only function of the rank that takes the data at the whole ranks and is affine between. */
  lemma QuantileIsTheInterpolant(s: seq<real>, g: real -> real, p: real)
    requires |s| >= 2 && 0.0 <= p <= 1.0
    requires forall k: nat :: k < |s| ==> g(k as real) == s[k]
    requires forall k: nat, f: real :: k + 1 < |s| && 0.0 <= f <= 1.0 ==> AffineAt(g, k, f)
    ensures Percentile(s, p) == g(Rank(|s|, p))
  {
    RankInRange(|s|, p);
    var r := Rank(|s|, p);
    var k := if r.Floor == |s| - 1 then |s| - 2 else r.Floor;
    var f := r - k as real;
    AtIsMix(s, r, k, f);
    assert r == k as real + f;
    assert AffineAt(g, k, f);
    assert g(k as real) == s[k] && g((k + 1) as real) == s[k + 1];
  }

  // ----- Bounds and monotonicity

  /** The value lies between the two order statistics around the rank. */
  lemma AtBetween(s: seq<real>, r: real)
    requires Sorted(s) && 0.0 <= r <= |s| as real - 1.0
    ensures s[r.Floor] <= At(s, r) <= s[Ceil(r)]
  {
    var lo := r.Floor;
    if Ceil(r) != lo {
      MixBounds(s[lo], s[Ceil(r)], r - lo as real);
    }
  }

  lemma AtGrows(s: seq<real>, r: real, t: real)
    requires Sorted(s) && 0.0 <= r <= t <= |s| as real - 1.0
    ensures At(s, r) <= At(s, t)
  {
    var lo := r.Floor;
    if lo < t.Floor {
      AtBetween(s, r);
      AtBetween(s, t);
      assert Ceil(r) <= t.Floor;
    } else if lo + 1 < |s| {
      AtIsMix(s, r, lo, r - lo as real);
      AtIsMix(s, t, lo, t - lo as real);
      MixGrows(s[lo], s[lo + 1], r - lo as real, t - lo as real);
    }
  }

  /** Higher quantiles are not smaller, across the segments as well as within them. */
  lemma PercentileMonotone(s: seq<real>, p: real, q: real)
    requires Sorted(s) && 0.0 <= p <= q <= 1.0
    ensures Percentile(s, p) <= Percentile(s, q)
  {
    if |s| >= 2 {
      RankInRange(|s|, p);
      RankInRange(|s|, q);
      RankGrows(|s|, p, q);
      AtGrows(s, Rank(|s|, p), Rank(|s|, q));
    }
  }

  lemma LevelAt(s: seq<real>, r: real, t: real)
    requires Sorted(s) && 0.0 <= r < t <= |s| as real - 1.0
    ensures At(s, r) == At(s, t) ==> s[r.Floor] == s[Ceil(t)]
  {
    var lo, m := r.Floor, t.Floor;
    AtIsMix(s, r, lo, r - lo as real);
    if lo == m {
      AtIsMix(s, t, lo, t - lo as real);
      LevelMix(s[lo], s[lo + 1], r - lo as real, t - lo as real);
    } else {
      AtGrows(s, r, (lo + 1) as real);
      AtGrows(s, (lo + 1) as real, t);
      AtGrows(s, m as real, t);
      MixAtEnds(s[lo], s[lo + 1]);
      LevelMix(s[lo], s[lo + 1], r - lo as real, 1.0);
      if Ceil(t) != m {
        MixAtEnds(s[m], s[m + 1]);
        LevelMix(s[m], s[m + 1], 0.0, t - m as real);
      }
    }
  }

  /** Two quantiles agree exactly when all order statistics from the one below the lower rank to the one above
      the higher rank do. */
  lemma PercentilesAgreeIff(s: seq<real>, p: real, q: real)
    requires Sorted(s) && |s| >= 2 && 0.0 <= p < q <= 1.0
    ensures 0 <= Rank(|s|, p).Floor <= Ceil(Rank(|s|, q)) < |s|
    ensures Percentile(s, p) == Percentile(s, q) <==> s[Rank(|s|, p).Floor] == s[Ceil(Rank(|s|, q))]
  {
    var r, t := Rank(|s|, p), Rank(|s|, q);
    RankInRange(|s|, p);
    RankInRange(|s|, q);
    ProductGrowsStrictly((|s| - 1) as real, p, q, r, t);
    AtBetween(s, r);
    AtBetween(s, t);
    AtGrows(s, r, t);
    LevelAt(s, r, t);
  }

  lemma AtGrowsInData(s: seq<real>, t: seq<real>, r: real)
    requires |s| == |t| && 0.0 <= r <= |s| as real - 1.0
    requires forall i :: 0 <= i < |s| ==> s[i] <= t[i]
    ensures At(s, r) <= At(t, r)
  {
    var lo, hi := r.Floor, Ceil(r);
    if lo != hi {
      MixGrowsInData(s[lo], s[hi], t[lo], t[hi], r - lo as real);
    }
  }

  /** Raising samples, point by point, does not lower any quantile. */
  lemma PercentileGrowsInData(s: seq<real>, t: seq<real>, p: real)
    requires |s| == |t| && 0.0 <= p <= 1.0
    requires forall i :: 0 <= i < |s| ==> s[i] <= t[i]
    ensures Percentile(s, p) <= Percentile(t, p)
  {
    if |s| >= 2 {
      RankInRange(|s|, p);
      AtGrowsInData(s, t, Rank(|s|, p));
    }
  }

  /** Every quantile lies within the data. */
  lemma PercentileBounded(s: seq<real>, p: real)
    requires Sorted(s) && s != [] && 0.0 <= p <= 1.0
    ensures s[0] <= Percentile(s, p) <= s[|s| - 1]
  {
    if |s| >= 2 {
      RankInRange(|s|, p);
      AtBetween(s, Rank(|s|, p));
    }
  }

  /** Order statistics at or above the rank are not below the quantile, and the other way round. */
  lemma PercentileSplits(s: seq<real>, p: real, i: nat)
    requires Sorted(s) && i < |s| && 0.0 <= p <= 1.0
    ensures Rank(|s|, p) <= i as real ==> Percentile(s, p) <= s[i]
    ensures i as real <= Rank(|s|, p) ==> s[i] <= Percentile(s, p)
  {
    if |s| >= 2 {
      RankInRange(|s|, p);
      AtBetween(s, Rank(|s|, p));
    }
  }

  // ----- Change of unit

  ghost predicate Mixes(u: real -> real, a: real, b: real, f: real) {
    u(Mix(a, b, f)) == Mix(u(a), u(b), f)
  }

  /** A change of unit keeps the order and all proportions. */
  ghost predicate ChangeOfUnit(u: real -> real) {
    && (forall x, y :: x <= y <==> u(x) <= u(y))
    && (forall a, b, f :: Mixes(u, a, b, f))
  }

  function Times(c: real): real -> real {
    (x: real) => c * x
  }

  lemma TimesKeepsOrder(c: real, x: real, y: real, cx: real, cy: real)
    requires c > 0.0 && cx == c * x && cy == c * y
    ensures x <= y <==> cx <= cy
  {
    if x <= y {
      ProductGrows(c, x, y, cx, cy);
    } else {
      ProductGrowsStrictly(c, y, x, cy, cx);
    }
  }

  lemma TimesMixes(c: real, a: real, b: real, f: real, ca: real, cb: real)
    requires ca == c * a && cb == c * b
    ensures c * Mix(a, b, f) == Mix(ca, cb, f)
  {
    var g := 1.0 - f;
    var ag, bf := a * g, b * f;
    Combine(c, ag, ca * g, bf, cb * f, Mix(a, b, f), Mix(ca, cb, f));
  }

  lemma TimesIsChangeOfUnit(c: real)
    requires c > 0.0
    ensures ChangeOfUnit(Times(c))
  {
    var u := Times(c);
    forall x: real, y: real
      ensures x <= y <==> u(x) <= u(y)
    {
      TimesKeepsOrder(c, x, y, u(x), u(y));
    }
    forall a, b, f
      ensures Mixes(u, a, b, f)
    {
      TimesMixes(c, a, b, f, u(a), u(b));
    }
  }

  lemma AtMaps(u: real -> real, s: seq<real>, r: real)
    requires ChangeOfUnit(u) && 0.0 <= r <= |s| as real - 1.0
    ensures At(Map(u, s), r) == u(At(s, r))
  {
    var lo, hi := r.Floor, Ceil(r);
    if lo != hi {
      assert Mixes(u, s[lo], s[hi], r - lo as real);
    }
  }

  lemma PercentileMaps(u: real -> real, s: seq<real>, p: real)
    requires ChangeOfUnit(u) && s != [] && 0.0 <= p <= 1.0
    ensures Percentile(Map(u, s), p) == u(Percentile(s, p))
  {
    if |s| >= 2 {
      RankInRange(|s|, p);
      AtMaps(u, s, Rank(|s|, p));
    }
  }

  lemma SortMaps(u: real -> real, s: seq<real>)
    requires ChangeOfUnit(u)
    ensures Sort(Map(u, s)) == Map(u, Sort(s))
  {
    SortCommutes(u, s);
  }
}
