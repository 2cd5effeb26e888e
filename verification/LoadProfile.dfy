/** The three-phase load shape of benchmark/internal/loadgen/profile.go, and the continuous curve that the
    figures draw for it. */
module LoadProfile {
  import opened Reals

  datatype LoadPhase = RampUp | Steady | RampDown

  /** math.Round: to the nearest integer, halves away from zero. */
  function Round(x: real): int {
    if x >= 0.0 then (x + 0.5).Floor else -((-x + 0.5).Floor)
  }

  /** The rate after `t` of the `d` seconds of a linear ramp. */
  function Share(max: int, t: real, d: int): real
    requires d > 0
  {
    max as real * t / d as real
  }

  datatype Profile = Profile(maxRPS: int, rampUpSec: int, steadySec: int, rampDownSec: int) {

    function TotalSec(): int {
      rampUpSec + steadySec + rampDownSec
    }

    predicate InSteady(t: real) {
      rampUpSec as real <= t && t < (rampUpSec + steadySec) as real
    }

    function Phase(t: real): LoadPhase {
      if t < rampUpSec as real then RampUp
      else if t < (rampUpSec + steadySec) as real then Steady
      else RampDown
    }

    function TargetRPS(t: real): int {
      if t < 0.0 then 0
      else if t >= TotalSec() as real then 0
      else if rampUpSec > 0 && t < rampUpSec as real then
        var rps := Round(Share(maxRPS, t, rampUpSec));
        if rps < 1 && t > 0.0 then 1 else rps
      else
        var steadyEnd := (rampUpSec + steadySec) as real;
        if t < steadyEnd then maxRPS
        else if rampDownSec <= 0 then 0
        else
          var remaining := steadyEnd + rampDownSec as real - t;
          var rps := Round(Share(maxRPS, remaining, rampDownSec));
          if rps < 0 then 0 else rps
    }

    /** The curve of fig07_load_profile.py. */
    function Curve(t: real): real {
      if t < 0.0 || t >= TotalSec() as real then 0.0
      else if rampUpSec > 0 && t < rampUpSec as real then Share(maxRPS, t, rampUpSec)
      else if t < (rampUpSec + steadySec) as real then maxRPS as real
      else if rampDownSec <= 0 then 0.0
      else Share(maxRPS, TotalSec() as real - t, rampDownSec)
    }

    predicate Sound() {
      maxRPS >= 1 && rampUpSec >= 0 && steadySec >= 0 && rampDownSec >= 0
    }
  }

  /** To the nearest integer, and between two of them to the one further from zero. */
  lemma RoundIsNearest(x: real, n: int)
    ensures -0.5 <= Round(x) as real - x <= 0.5
    ensures Round(x) as real - x == 0.5 ==> x >= 0.0
    ensures Round(x) as real - x == -0.5 ==> x <= 0.0
    ensures n as real <= x ==> n <= Round(x)
    ensures x <= n as real ==> Round(x) <= n
  {
  }

  lemma RoundGrows(x: real, y: real)
    requires x <= y
    ensures Round(x) <= Round(y)
  {
  }

  lemma SharesGrow(max: int, t: real, u: real, d: int)
    requires max >= 1 && d > 0 && 0.0 <= t <= u <= d as real
    ensures 0.0 <= Share(max, t, d) <= Share(max, u, d) <= max as real
  {
    var m, n := max as real, d as real;
    var zero, mt, mu, md := m * 0.0, m * t, m * u, m * n;
    ProductGrows(m, 0.0, t, zero, mt);
    ProductGrows(m, t, u, mt, mu);
    ProductGrows(m, u, n, mu, md);
    QuotientBounds(mu, n, 0.0, m, 0.0 * n, md);
    QuotientBounds(mt, n, 0.0, mu / n, 0.0 * n, mu);
  }

  /** A share of the maximum rate: between none and all of it, and none only at the start. */
  lemma ShareBounds(max: int, t: real, d: int)
    requires max >= 1 && d > 0 && 0.0 <= t <= d as real
    ensures 0.0 <= Share(max, t, d) <= max as real
    ensures Share(max, t, d) == 0.0 <==> t == 0.0
  {
    SharesGrow(max, t, t, d);
    var x := max as real * t;
    if t > 0.0 {
      PositiveProduct(max as real, t, x);
      QuotientTimes(x, d as real, x / d as real);
    }
  }

  /** The one place where the rate is not the rounded curve: early in the ramp-up it is raised to one. */
  predicate Raised(p: Profile, t: real) {
    0.0 < t < p.rampUpSec as real && t < p.TotalSec() as real && p.Curve(t) < 0.5
  }

  /** The curve stays within the profile's rates. */
  lemma CurveBounds(p: Profile, t: real)
    requires p.Sound()
    ensures 0.0 <= p.Curve(t) <= p.maxRPS as real
    ensures 0.0 < t < p.rampUpSec as real ==> p.Curve(t) > 0.0
  {
    if 0.0 <= t < p.rampUpSec as real {
      ShareBounds(p.maxRPS, t, p.rampUpSec);
    } else if (p.rampUpSec + p.steadySec) as real <= t < p.TotalSec() as real {
      ShareBounds(p.maxRPS, p.TotalSec() as real - t, p.rampDownSec);
    }
  }

  lemma RateIsRoundedCurve(p: Profile, t: real)
    requires p.Sound()
    ensures p.TargetRPS(t) == if Raised(p, t) then 1 else Round(p.Curve(t))
  {
    CurveBounds(p, t);
    RoundIsNearest(p.Curve(t), 0);
    if t == 0.0 && p.rampUpSec > 0 {
      ShareBounds(p.maxRPS, t, p.rampUpSec);
    } else if (p.rampUpSec + p.steadySec) as real <= t < p.TotalSec() as real {
      assert p.TotalSec() as real - t == (p.rampUpSec + p.steadySec) as real + p.rampDownSec as real - t;
    }
  }

  lemma ShareIsLinear(max: int, t: real, d: int)
    requires d > 0
    ensures Share(max, t, d) * d as real == max as real * t
  {
    QuotientTimes(max as real * t, d as real, Share(max, t, d));
  }

  /** On the ramps the curve is the straight line between nothing and MaxRPS over the ramp's seconds, in between it is
      MaxRPS, and outside the profile nothing. */
  lemma CurveIsTrapezoid(p: Profile, t: real)
    requires p.Sound()
    ensures 0.0 <= t < p.rampUpSec as real ==> p.Curve(t) * p.rampUpSec as real == p.maxRPS as real * t
    ensures p.rampUpSec as real <= t < (p.rampUpSec + p.steadySec) as real ==> p.Curve(t) == p.maxRPS as real
    ensures var end := (p.rampUpSec + p.steadySec + p.rampDownSec) as real;
            && ((p.rampUpSec + p.steadySec) as real <= t < end ==>
                  p.Curve(t) * p.rampDownSec as real == p.maxRPS as real * (end - t))
            && (t < 0.0 || end <= t ==> p.Curve(t) == 0.0)
  {
    if 0.0 <= t < p.rampUpSec as real {
      ShareIsLinear(p.maxRPS, t, p.rampUpSec);
    } else if (p.rampUpSec + p.steadySec) as real <= t < p.TotalSec() as real {
      ShareIsLinear(p.maxRPS, p.TotalSec() as real - t, p.rampDownSec);
    }
  }

  /** Within 1/2 of a line that is given d times over. */
  predicate Near(rate: real, d: real, line: real) {
    -d / 2.0 <= rate * d - line <= d / 2.0
  }

  lemma HalfAway(rate: real, curve: real, d: real, line: real)
    requires d >= 0.0 && -0.5 <= rate - curve <= 0.5 && curve * d == line
    ensures Near(rate, d, line)
  {
    var gap := rate - curve;
    var low, mid, high := d * -0.5, d * gap, d * 0.5;
    ProductGrows(d, -0.5, gap, low, mid);
    ProductGrows(d, gap, 0.5, mid, high);
    assert rate * d == curve * d + mid;
  }

  lemma NearTheCurve(p: Profile, t: real, d: real, line: real)
    requires p.Sound() && !Raised(p, t) && d >= 0.0 && p.Curve(t) * d == line
    ensures Near(p.TargetRPS(t) as real, d, line)
  {
    hide Near, Share, Round;
    RateFollowsCurve(p, t);
    HalfAway(p.TargetRPS(t) as real, p.Curve(t), d, line);
  }

  /** So on a ramp of d seconds the rate times d is within d / 2 of MaxRPS times the seconds since its low end, wherever
      the rate is not raised to one. */
  lemma RateFollowsRamps(p: Profile, t: real)
    requires p.Sound() && !Raised(p, t)
    ensures 0.0 <= t < p.rampUpSec as real ==>
      Near(p.TargetRPS(t) as real, p.rampUpSec as real, p.maxRPS as real * t)
    ensures (p.rampUpSec + p.steadySec) as real <= t < p.TotalSec() as real ==>
      Near(p.TargetRPS(t) as real, p.rampDownSec as real, p.maxRPS as real * (p.TotalSec() as real - t))
  {
    hide Near, Share, Round, Raised;
    CurveIsTrapezoid(p, t);
    if 0.0 <= t < p.rampUpSec as real {
      NearTheCurve(p, t, p.rampUpSec as real, p.maxRPS as real * t);
    }
    if (p.rampUpSec + p.steadySec) as real <= t < p.TotalSec() as real {
      NearTheCurve(p, t, p.rampDownSec as real, p.maxRPS as real * (p.TotalSec() as real - t));
    }
  }

  /** At every time the rate is within [0, MaxRPS] and differs from the curve by at most 1/2, except where it
      is raised to one: there the gap is above 1/2 and below 1. */
  lemma RateFollowsCurve(p: Profile, t: real)
    requires p.Sound()
    ensures 0 <= p.TargetRPS(t) <= p.maxRPS
    ensures -1.0 < p.TargetRPS(t) as real - p.Curve(t) < 1.0
    ensures -0.5 <= p.TargetRPS(t) as real - p.Curve(t) <= 0.5 <==> !Raised(p, t)
  {
    RateIsRoundedCurve(p, t);
    CurveBounds(p, t);
    RoundIsNearest(p.Curve(t), 0);
    RoundIsNearest(p.Curve(t), p.maxRPS);
  }

  lemma CurveRises(p: Profile, t: real, u: real)
    requires p.Sound() && t <= u < (p.rampUpSec + p.steadySec) as real
    ensures p.Curve(t) <= p.Curve(u)
  {
    CurveBounds(p, t);
    CurveBounds(p, u);
    if 0.0 <= t && u < p.rampUpSec as real {
      SharesGrow(p.maxRPS, t, u, p.rampUpSec);
    }
  }

  lemma CurveFalls(p: Profile, t: real, u: real)
    requires p.Sound() && p.rampUpSec as real <= t <= u
    ensures p.Curve(u) <= p.Curve(t)
  {
    CurveBounds(p, t);
    CurveBounds(p, u);
    if (p.rampUpSec + p.steadySec) as real <= t && u < p.TotalSec() as real {
      SharesGrow(p.maxRPS, p.TotalSec() as real - u, p.TotalSec() as real - t, p.rampDownSec);
    }
  }

  /** The rate has one hump: it never falls before the end of steady and never rises after its start. */
  lemma RateIsUnimodal(p: Profile, t: real, u: real)
    requires p.Sound() && t <= u
    ensures u < (p.rampUpSec + p.steadySec) as real ==> p.TargetRPS(t) <= p.TargetRPS(u)
    ensures p.rampUpSec as real <= t ==> p.TargetRPS(u) <= p.TargetRPS(t)
  {
    RateIsRoundedCurve(p, t);
    RateIsRoundedCurve(p, u);
    CurveBounds(p, u);
    if u < (p.rampUpSec + p.steadySec) as real {
      CurveRises(p, t, u);
      RoundGrows(p.Curve(t), p.Curve(u));
      if Raised(p, t) {
        RoundIsNearest(p.Curve(u), 1);
      }
    }
    if p.rampUpSec as real <= t {
      CurveFalls(p, t, u);
      RoundGrows(p.Curve(u), p.Curve(t));
    }
  }

  /** Steady is where the generator runs at the maximum rate; the phase names the same window. */
  lemma SteadyIsMaximal(p: Profile, t: real)
    requires p.Sound()
    ensures p.InSteady(t) ==> p.TargetRPS(t) == p.maxRPS
    ensures p.InSteady(t) <==> p.Phase(t) == Steady
    ensures p.InSteady(t) <==> p.rampUpSec as real <= t && t - p.rampUpSec as real < p.steadySec as real
    ensures p.Phase(t) == RampUp <==> t < p.rampUpSec as real
  {
  }

  /** The generator idles at the first instant of a ramp-up, in the last half request of a ramp-down, and
      outside the profile; at no other time. */
  lemma IdleIff(p: Profile, t: real)
    requires p.Sound()
    ensures p.TargetRPS(t) == 0 <==>
      t < 0.0 || t >= p.TotalSec() as real || (t == 0.0 && p.rampUpSec > 0) ||
      (t >= (p.rampUpSec + p.steadySec) as real && p.Curve(t) < 0.5)
  {
    RateIsRoundedCurve(p, t);
    CurveBounds(p, t);
    if t == 0.0 && p.rampUpSec > 0 {
      ShareBounds(p.maxRPS, t, p.rampUpSec);
    }
  }
}
