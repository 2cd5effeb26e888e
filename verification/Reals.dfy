/** The few facts about products, quotients and squares of reals that the statistics need. */
module Reals {

  lemma NonNegativeProduct(x: real, y: real, r: real)
    requires 0.0 <= x && 0.0 <= y && r == x * y
    ensures 0.0 <= r
  {
  }

  lemma PositiveProduct(x: real, y: real, r: real)
    requires 0.0 < x && 0.0 < y && r == x * y
    ensures 0.0 < r
  {
  }

  lemma Distribute(k: real, x: real, y: real, d: real, r: real)
    requires d == y - x && r == k * d
    ensures k * y == k * x + r
  {
  }

  lemma ProductGrows(k: real, x: real, y: real, kx: real, ky: real)
    requires 0.0 <= k && x <= y && kx == k * x && ky == k * y
    ensures kx <= ky
  {
    NonNegativeProduct(k, y - x, k * (y - x));
    Distribute(k, x, y, y - x, k * (y - x));
  }

  lemma ProductGrowsStrictly(k: real, x: real, y: real, kx: real, ky: real)
    requires 0.0 < k && x < y && kx == k * x && ky == k * y
    ensures kx < ky
  {
    PositiveProduct(k, y - x, k * (y - x));
    Distribute(k, x, y, y - x, k * (y - x));
  }

  // ----- Interpolation

  /** Linear interpolation, as the program writes it. */
  function Mix(a: real, b: real, f: real): real {
    a * (1.0 - f) + b * f
  }

  lemma MixAtEnds(a: real, b: real)
    ensures Mix(a, b, 0.0) == a && Mix(a, b, 1.0) == b
  {
  }

  lemma MixIsAffine(a: real, b: real, f: real, r: real)
    requires r == (b - a) * f
    ensures Mix(a, b, f) == a + r
  {
    assert r == b * f - a * f;
    assert a * (1.0 - f) == a - a * f;
  }

  lemma MixGrows(a: real, b: real, f: real, g: real)
    requires a <= b && f <= g
    ensures Mix(a, b, f) <= Mix(a, b, g)
  {
    var d := b - a;
    var df, dg := d * f, d * g;
    MixIsAffine(a, b, f, df);
    MixIsAffine(a, b, g, dg);
    ProductGrows(d, f, g, df, dg);
  }

  lemma MixBounds(a: real, b: real, f: real)
    requires a <= b && 0.0 <= f <= 1.0
    ensures a <= Mix(a, b, f) <= b
  {
    MixAtEnds(a, b);
    MixGrows(a, b, 0.0, f);
    MixGrows(a, b, f, 1.0);
  }

  lemma MixGrowsInData(a: real, b: real, a': real, b': real, f: real)
    requires a <= a' && b <= b' && 0.0 <= f <= 1.0
    ensures Mix(a, b, f) <= Mix(a', b', f)
  {
    var g := 1.0 - f;
    var ga, ga', fb, fb' := a * g, a' * g, b * f, b' * f;
    ProductGrows(g, a, a', ga, ga');
    ProductGrows(f, b, b', fb, fb');
  }

  /** Where two points of a line agree, it is level. */
  lemma LevelMix(a: real, b: real, f: real, g: real)
    requires f < g
    ensures Mix(a, b, f) == Mix(a, b, g) <==> a == b
  {
    var d := b - a;
    var df, dg := d * f, d * g;
    MixIsAffine(a, b, f, df);
    MixIsAffine(a, b, g, dg);
    if d > 0.0 {
      ProductGrowsStrictly(d, f, g, df, dg);
    } else if d < 0.0 {
      var e := -d;
      ProductGrowsStrictly(e, f, g, e * f, e * g);
    }
  }

  // ----- Quotients and squares

  lemma QuotientTimes(x: real, y: real, q: real)
    requires y != 0.0 && q == x / y
    ensures q * y == x
  {
  }

  lemma QuotientIs(x: real, y: real, q: real)
    requires y != 0.0 && x == q * y
    ensures x / y == q
  {
  }

  lemma Reassociate(k: real, q: real, y: real, qy: real, kq: real)
    requires qy == q * y && kq == k * q
    ensures k * qy == kq * y
  {
    assert k * (q * y) == (k * q) * y;
  }

  lemma QuotientScales(k: real, x: real, x': real, n: real)
    requires n > 0.0 && x' == k * x
    ensures x' / n == k * (x / n)
  {
    var q := x / n;
    var kq := k * q;
    QuotientTimes(x, n, q);
    Reassociate(k, q, n, x, kq);
    QuotientIs(x', n, kq);
  }

  lemma SameRatio(k: real, x: real, y: real, x': real, y': real)
    requires k > 0.0 && y > 0.0 && x' == k * x && y' == k * y
    ensures y' > 0.0 && x' / y' == x / y
  {
    var q := x / y;
    PositiveProduct(k, y, y');
    QuotientTimes(x, y, q);
    var kq := k * q;
    Reassociate(k, q, y, x, kq);
    Reassociate(q, k, y, y', kq);
    QuotientIs(x', y', q);
  }

  lemma QuotientBounds(x: real, n: real, a: real, b: real, an: real, bn: real)
    requires n > 0.0 && an == a * n && bn == b * n && an <= x <= bn
    ensures a <= x / n <= b
  {
    var q := x / n;
    QuotientTimes(x, n, q);
    if q < a {
      ProductGrowsStrictly(n, q, a, x, an);
    } else if b < q {
      ProductGrowsStrictly(n, b, q, bn, x);
    }
  }

  function Square(x: real): (r: real)
    ensures x > 0.0 ==> r > 0.0
  {
    var r := x * x;
    if x > 0.0 then PositiveProduct(x, x, r); r else r
  }

  lemma SquareOfProduct(x: real, y: real, z: real)
    requires z == x * y
    ensures Square(z) == Square(x) * Square(y)
  {
    assert (x * y) * (x * y) == (x * x) * (y * y);
  }

  lemma SquareGrows(x: real, y: real)
    requires 0.0 <= x < y
    ensures Square(x) < Square(y)
  {
    var xx, xy, yy := x * x, x * y, y * y;
    ProductGrows(x, x, y, xx, xy);
    ProductGrowsStrictly(y, x, y, xy, yy);
  }

  lemma OrderOfSquares(x: real, y: real)
    requires x >= 0.0
    ensures x <= y <==> y >= 0.0 && Square(x) <= Square(y)
  {
    if x < y {
      SquareGrows(x, y);
    } else if 0.0 <= y < x {
      SquareGrows(y, x);
    }
  }

  lemma Combine(k: real, x: real, x': real, y: real, y': real, sum: real, sum': real)
    requires x' == k * x && y' == k * y && sum == x + y && sum' == x' + y'
    ensures sum' == k * sum
  {
  }
}
