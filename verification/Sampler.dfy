/** The closed-loop latency sampler of benchmark/internal/loadgen/loadgen.go: one request at a time, paced by
    the load profile, over a clock that only goes forward. Times are nanoseconds since the start. */
module Sampler {
  import opened LoadProfile

  const SECOND: int := 1_000_000_000
  const IDLE: int := 50_000_000

  /** What the loop reads during one iteration: the elapsed time, whether the context is done, the time the
      request is sent, whether it fails, the time its response is read, and the time before the pause. */
  datatype Tick = Tick(at: nat, cancelled: bool, sent: nat, failed: bool, done: nat, checked: nat)

  function Seconds(ns: int): real {
    ns as real / 1_000_000_000.0
  }

  function Rate(lp: Profile, a: Tick): int {
    lp.TargetRPS(Seconds(a.at))
  }

  function Interval(rps: int): int
    requires rps > 0
  {
    SECOND / rps
  }

  /** The earliest time at which the iteration after `a` can begin. */
  function Wake(lp: Profile, a: Tick): int {
    if Rate(lp, a) <= 0 then a.at + IDLE
    else
      var sleep := Interval(Rate(lp, a)) - (a.checked - a.sent);
      if sleep > 0 then a.checked + sleep else a.checked
  }

  ghost predicate Follows(lp: Profile, a: Tick, b: Tick) {
    a.at <= a.sent <= a.done <= a.checked && Wake(lp, a) <= b.at && a.at < b.at
  }

  /** Clocks go forward, also when the pause is none, and pauses are not cut short; responses may take any time. */
  ghost predicate Clocked(lp: Profile, clock: nat -> Tick) {
    forall i: nat :: Follows(lp, clock(i), clock(i + 1))
  }

  predicate Acceptable(lp: Profile) {
    lp.rampUpSec >= 0 && lp.steadySec >= 0 && lp.rampDownSec >= 0
  }

  predicate Usable(lp: Profile) {
    lp.maxRPS > 0 && lp.TotalSec() > 0
  }

  datatype RTTResult = RTTResult(steady: seq<int>, all: seq<int>)

  datatype Ending = Invalid | Completed | Cancelled | Failed

  predicate Stops(lp: Profile, a: Tick) {
    Seconds(a.at) >= lp.TotalSec() as real || a.cancelled || (Rate(lp, a) > 0 && a.failed)
  }

  function EndingAt(lp: Profile, a: Tick): Ending {
    if Seconds(a.at) >= lp.TotalSec() as real then Completed
    else if a.cancelled then Cancelled
    else Failed
  }

  predicate Sampled(lp: Profile, a: Tick, steadyOnly: bool) {
    Rate(lp, a) > 0 && (steadyOnly ==> lp.InSteady(Seconds(a.at)))
  }

  /** The latencies of the first k iterations, or only of those in the steady window. */
  function Samples(lp: Profile, clock: nat -> Tick, k: nat, steadyOnly: bool): seq<int> {
    if k == 0 then []
    else
      var a := clock(k - 1);
      Samples(lp, clock, k - 1, steadyOnly) + (if Sampled(lp, a, steadyOnly) then [a.done - a.sent] else [])
  }

  lemma QuotientIff(n: int, d: int, total: int, nd: int)
    requires d > 0 && nd == n * d
    ensures n <= total / d <==> nd <= total
  {
    var q := total / d;
    assert q * d <= total < q * d + d;
    if n <= q {
      assert n * d <= q * d;
    } else {
      assert (q + 1) * d <= n * d;
    }
  }

  lemma IntervalShrinks(r: int, m: int)
    requires 0 < r <= m
    ensures Interval(m) <= Interval(r)
    ensures m <= SECOND ==> Interval(m) >= 1
  {
    var q := Interval(m);
    QuotientIff(q, m, SECOND, q * m);
    QuotientIff(1, m, SECOND, 1 * m);
    QuotientIff(0, m, SECOND, 0 * m);
    assert q * r <= q * m;
    QuotientIff(q, r, SECOND, q * r);
  }

  /** Every request takes up the interval of the maximum rate. */
  lemma ClockAdvances(lp: Profile, a: Tick, b: Tick)
    requires Acceptable(lp) && Usable(lp) && Follows(lp, a, b)
    ensures Rate(lp, a) > 0 ==> a.at + Interval(lp.maxRPS) <= b.at
  {
    RateFollowsCurve(lp, Seconds(a.at));
    if Rate(lp, a) > 0 {
      IntervalShrinks(Rate(lp, a), lp.maxRPS);
    }
  }

  /** The pause after an iteration: 50 ms when the profile asks for no requests, and otherwise, counted from the
      sending, the share of a second that the target rate allows, short of it by less than a nanosecond. */
  lemma PausesAreKept(lp: Profile, a: Tick, b: Tick)
    requires Follows(lp, a, b)
    ensures Rate(lp, a) <= 0 ==> b.at >= a.at + 50_000_000
    ensures Rate(lp, a) > 0 ==> b.at >= a.checked && (b.at - a.sent + 1) * Rate(lp, a) > 1_000_000_000
  {
    var r, n := Rate(lp, a), b.at - a.sent + 1;
    hide Rate;
    if r > 0 {
      QuotientIff(n, r, SECOND, n * r);
    }
  }

  /** The loop stops at the first iteration that must stop it, with the samples of those before. */
  method CollectRTTPhased(lp: Profile, clock: nat -> Tick) returns (out: RTTResult, end: Ending, ghost k: nat)
    requires Clocked(lp, clock)
    ensures end == Invalid <==> !Usable(lp)
    ensures end == Invalid ==> out == RTTResult([], [])
    ensures end != Invalid ==> Stops(lp, clock(k)) && end == EndingAt(lp, clock(k))
    ensures end != Invalid ==> forall i: nat :: i < k ==> !Stops(lp, clock(i))
    ensures end != Invalid ==> out == RTTResult(Samples(lp, clock, k, true), Samples(lp, clock, k, false))
  {
    out, k := RTTResult([], []), 0;
    if lp.maxRPS <= 0 || lp.TotalSec() <= 0 {
      return out, Invalid, k;
    }
    var i: nat := 0;
    while true
      invariant k == i && forall j: nat :: j < i ==> !Stops(lp, clock(j))
      invariant out == RTTResult(Samples(lp, clock, i, true), Samples(lp, clock, i, false))
      decreases lp.TotalSec() * SECOND - clock(i).at
    {
      var a := clock(i);
      var elapsed := Seconds(a.at);
      if elapsed >= lp.TotalSec() as real {
        return out, Completed, k;
      }
      if a.cancelled {
        return out, Cancelled, k;
      }
      var rps := lp.TargetRPS(elapsed);
      if rps > 0 {
        if a.failed {
          return out, Failed, k;
        }
        var rtt := a.done - a.sent;
        out := out.(all := out.all + [rtt]);
        if lp.InSteady(elapsed) {
          out := out.(steady := out.steady + [rtt]);
        }
      }
      assert Follows(lp, a, clock(i + 1));
      i, k := i + 1, k + 1;
    }
  }

  /** The samples are the response times of the requests sent: nothing else is among them and none is missing, and the
      steady ones are those of the steady window. */
  lemma {:induction false} SamplesAreLatencies(lp: Profile, clock: nat -> Tick, k: nat, steadyOnly: bool, x: int)
    ensures x in Samples(lp, clock, k, steadyOnly) <==>
            exists i: nat :: i < k && Rate(lp, clock(i)) > 0 && x == clock(i).done - clock(i).sent &&
                             (steadyOnly ==> lp.Phase(Seconds(clock(i).at)) == Steady)
    decreases k
  {
    if k > 0 {
      SamplesAreLatencies(lp, clock, k - 1, steadyOnly, x);
      var a := clock(k - 1);
      if Sampled(lp, a, steadyOnly) {
        assert Samples(lp, clock, k, steadyOnly) == Samples(lp, clock, k - 1, steadyOnly) + [a.done - a.sent];
      }
    }
  }

  // ----- The steady samples

  lemma {:induction false} TimeGrows(lp: Profile, clock: nat -> Tick, i: nat, j: nat)
    requires Clocked(lp, clock) && Acceptable(lp) && Usable(lp) && i <= j
    ensures clock(i).at <= clock(j).at
    decreases j - i
  {
    if i < j {
      TimeGrows(lp, clock, i, j - 1);
      assert Follows(lp, clock(j - 1), clock(j - 1 + 1));
      ClockAdvances(lp, clock(j - 1), clock(j));
    }
  }

  lemma {:induction false} NoneBeforeSteady(lp: Profile, clock: nat -> Tick, k: nat)
    requires Clocked(lp, clock) && Acceptable(lp) && Usable(lp)
    requires k > 0 ==> Seconds(clock(k - 1).at) < lp.rampUpSec as real
    ensures Samples(lp, clock, k, true) == []
  {
    if k > 1 {
      TimeGrows(lp, clock, k - 2, k - 1);
      NoneBeforeSteady(lp, clock, k - 1);
    }
  }

  lemma SliceGrows<T>(all: seq<T>, part: seq<T>, a: nat, b: nat, x: T, taken: bool)
    requires a <= b <= |all| && part == all[a..b] && (taken ==> b == |all|)
    ensures part + (if taken then [x] else []) == (all + [x])[a..if taken then b + 1 else b]
  {
    if taken {
      assert (all + [x])[a..b + 1] == all[a..b] + [x];
    } else {
      assert (all + [x])[a..b] == all[a..b];
    }
  }

  /** Over any clock and any response times the steady samples are one contiguous segment of all samples. */
  lemma {:induction false} SteadyIsSlice(lp: Profile, clock: nat -> Tick, k: nat) returns (a: nat, b: nat)
    requires Clocked(lp, clock) && Acceptable(lp) && Usable(lp)
    ensures a <= b <= |Samples(lp, clock, k, false)|
    ensures Samples(lp, clock, k, true) == Samples(lp, clock, k, false)[a..b]
    ensures k > 0 && lp.InSteady(Seconds(clock(k - 1).at)) ==> b == |Samples(lp, clock, k, false)|
  {
    if k == 0 {
      return 0, 0;
    }
    var last := clock(k - 1);
    var all, part := Samples(lp, clock, k - 1, false), Samples(lp, clock, k - 1, true);
    a, b := SteadyIsSlice(lp, clock, k - 1);
    if lp.InSteady(Seconds(last.at)) && b < |all| {
      SteadyJustBegan(lp, clock, k - 1);
      a, b := |all|, |all|;
    }
    SteadyIsMaximal(lp, Seconds(last.at));
    SliceGrows(all, part, a, b, last.done - last.sent, Sampled(lp, last, true));
    if Sampled(lp, last, true) {
      b := b + 1;
    }
  }

  lemma SteadyJustBegan(lp: Profile, clock: nat -> Tick, k: nat)
    requires Clocked(lp, clock) && Acceptable(lp) && Usable(lp)
    requires lp.InSteady(Seconds(clock(k).at)) && (k > 0 ==> !lp.InSteady(Seconds(clock(k - 1).at)))
    ensures Samples(lp, clock, k, true) == []
  {
    if k > 0 {
      TimeGrows(lp, clock, k - 1, k);
    }
    NoneBeforeSteady(lp, clock, k);
  }

  /** Each of them was taken while the target rate was the maximum. */
  lemma SteadyIsAtMaximumRate(lp: Profile, a: Tick)
    requires Acceptable(lp) && Usable(lp) && Sampled(lp, a, true)
    ensures Rate(lp, a) == lp.maxRPS
  {
    SteadyIsMaximal(lp, Seconds(a.at));
  }

  /** The samples taken so far have used up their intervals of the steady window. */
  lemma {:induction false} SteadyTakesTime(lp: Profile, clock: nat -> Tick, k: nat)
    requires Clocked(lp, clock) && Acceptable(lp) && Usable(lp)
    ensures var n := |Samples(lp, clock, k, true)|;
            n > 0 ==> lp.rampUpSec * SECOND + n * Interval(lp.maxRPS) <= clock(k).at
  {
    if k > 0 {
      SteadyTakesTime(lp, clock, k - 1);
      assert Follows(lp, clock(k - 1), clock(k - 1 + 1));
      ClockAdvances(lp, clock(k - 1), clock(k));
      Successor(|Samples(lp, clock, k - 1, true)|, Interval(lp.maxRPS));
    }
  }

  lemma Successor(n: int, x: int)
    ensures (n + 1) * x == n * x + x
  {
  }

  lemma {:induction false} SteadyFits(lp: Profile, clock: nat -> Tick, k: nat)
    requires Clocked(lp, clock) && Acceptable(lp) && Usable(lp)
    ensures var n := |Samples(lp, clock, k, true)|;
            n > 0 ==> (n - 1) * Interval(lp.maxRPS) < lp.steadySec * SECOND
  {
    hide Follows, Interval, Rate;
    if k > 0 {
      SteadyFits(lp, clock, k - 1);
      SteadyTakesTime(lp, clock, k - 1);
    }
  }

  /** The most samples that the steady window has room for. */
  function Room(lp: Profile): int
    requires 0 < lp.maxRPS <= SECOND
  {
    IntervalShrinks(lp.maxRPS, lp.maxRPS);
    (lp.steadySec * SECOND + Interval(lp.maxRPS) - 1) / Interval(lp.maxRPS)
  }

  lemma RoomIff(n: int, x: int, total: int)
    requires x > 0
    ensures n <= (total + x - 1) / x <==> (n - 1) * x < total
  {
    var q := (total + x - 1) / x;
    assert q * x <= total + x - 1 < q * x + x;
    if n <= q {
      assert n * x <= q * x;
    } else {
      assert (q + 1) * x <= n * x;
    }
    assert (n - 1) * x == n * x - x;
  }

  lemma SteadyCount(lp: Profile, clock: nat -> Tick, k: nat)
    requires Clocked(lp, clock) && Acceptable(lp) && Usable(lp) && lp.maxRPS <= SECOND
    ensures |Samples(lp, clock, k, true)| <= Room(lp)
  {
    SteadyFits(lp, clock, k);
    IntervalShrinks(lp.maxRPS, lp.maxRPS);
    RoomIff(|Samples(lp, clock, k, true)|, Interval(lp.maxRPS), lp.steadySec * SECOND);
    RoomIff(0, Interval(lp.maxRPS), lp.steadySec * SECOND);
  }

  // ----- The bound is sharp

  /** Instant responses. After one tick at the start of a ramp-up, `n` ticks at exactly the interval `x` from the start
      of steady on, and pauses of a second afterwards. */
  function Beat(lp: Profile, x: nat, n: nat, i: nat): nat
    requires lp.rampUpSec >= 0
  {
    var from, j := lp.rampUpSec * SECOND, i - FirstSteady(lp);
    if j < 0 then 0 else if j <= n then from + j * x else from + n * x + (j - n) * SECOND
  }

  function FirstSteady(lp: Profile): nat {
    if lp.rampUpSec > 0 then 1 else 0
  }

  function TickAt(at: nat): Tick {
    Tick(at, false, at, false, at, at)
  }

  function Metronome(lp: Profile, x: nat, n: nat): nat -> Tick
    requires lp.rampUpSec >= 0
  {
    (i: nat) => TickAt(Beat(lp, x, n, i))
  }

  ghost predicate Fills(lp: Profile, x: nat, n: nat) {
    && Acceptable(lp) && Usable(lp) && lp.maxRPS <= SECOND
    && x == Interval(lp.maxRPS) >= 1 && n == Room(lp)
  }

  lemma SecondsCompare(at: int, sec: int)
    ensures Seconds(at) < sec as real <==> at < sec * SECOND
  {
  }

  lemma BeatInSteady(lp: Profile, x: nat, n: nat, i: nat)
    requires Fills(lp, x, n)
    ensures var at := Beat(lp, x, n, i);
            && (lp.InSteady(Seconds(at)) <==> FirstSteady(lp) <= i < FirstSteady(lp) + n)
            && (i >= FirstSteady(lp) + n ==> at >= (lp.rampUpSec + lp.steadySec) * SECOND)
            && (i < FirstSteady(lp) ==> at == 0 && lp.rampUpSec > 0)
  {
    var j := i - FirstSteady(lp);
    SecondsCompare(Beat(lp, x, n, i), lp.rampUpSec);
    SecondsCompare(Beat(lp, x, n, i), lp.rampUpSec + lp.steadySec);
    hide Seconds;
    if 0 <= j {
      RoomIff(j + 1, x, lp.steadySec * SECOND);
      RoomIff(n + 1, x, lp.steadySec * SECOND);
    }
  }

  lemma BeatGoesOn(lp: Profile, x: nat, n: nat, i: nat)
    requires Fills(lp, x, n)
    ensures var at, next := Beat(lp, x, n, i), Beat(lp, x, n, i + 1);
            if i < FirstSteady(lp) then next == lp.rampUpSec * SECOND
            else if i < FirstSteady(lp) + n then next == at + x
            else next == at + SECOND
  {
    var j := i - FirstSteady(lp);
    if 0 <= j {
      Successor(j, x);
      Successor(j - n, SECOND);
    }
  }

  /** A tick with an instant response after which the clock goes on by a second, or by the interval of its rate. */
  lemma TickFollows(lp: Profile, at: nat, next: nat)
    requires Acceptable(lp) && Usable(lp) && lp.maxRPS <= SECOND && at < next
    requires next >= at + SECOND ||
             (Rate(lp, TickAt(at)) == lp.maxRPS && next == at + Interval(lp.maxRPS)) ||
             (at == 0 && lp.rampUpSec > 0 && next == lp.rampUpSec * SECOND)
    ensures Follows(lp, TickAt(at), TickAt(next))
  {
    var r := Rate(lp, TickAt(at));
    if r > 0 {
      RateFollowsCurve(lp, Seconds(at));
      IntervalShrinks(1, r);
    }
  }

  lemma MetronomeFollows(lp: Profile, x: nat, n: nat, i: nat)
    requires Fills(lp, x, n)
    ensures Follows(lp, Metronome(lp, x, n)(i), Metronome(lp, x, n)(i + 1))
  {
    BeatInSteady(lp, x, n, i);
    BeatGoesOn(lp, x, n, i);
    var at := Beat(lp, x, n, i);
    SteadyIsMaximal(lp, Seconds(at));
    hide Beat, Follows;
    TickFollows(lp, at, Beat(lp, x, n, i + 1));
  }

  lemma MetronomeIsClocked(lp: Profile, x: nat, n: nat)
    requires Fills(lp, x, n)
    ensures Clocked(lp, Metronome(lp, x, n))
  {
    forall i: nat
      ensures Follows(lp, Metronome(lp, x, n)(i), Metronome(lp, x, n)(i + 1))
    {
      MetronomeFollows(lp, x, n, i);
    }
  }

  lemma {:induction false} MetronomeFills(lp: Profile, x: nat, n: nat, k: nat)
    requires Fills(lp, x, n)
    ensures var d, m := FirstSteady(lp), |Samples(lp, Metronome(lp, x, n), k, true)|;
            m == if k <= d then 0 else if k <= d + n then k - d else n
  {
    if k > 0 {
      MetronomeFills(lp, x, n, k - 1);
      BeatInSteady(lp, x, n, k - 1);
      SteadyIsMaximal(lp, Seconds(Beat(lp, x, n, k - 1)));
      hide Beat;
    }
  }

  lemma MetronomeRunsLong(lp: Profile, x: nat, n: nat, k: nat)
    requires Fills(lp, x, n) && Stops(lp, Metronome(lp, x, n)(k))
    ensures k >= FirstSteady(lp) + n && EndingAt(lp, Metronome(lp, x, n)(k)) == Completed
  {
    BeatInSteady(lp, x, n, k);
  }

  /** The bound is reached on every profile that can be used, ramps and all: against such a service the sampler returns
      exactly as many steady samples as the window has room for. */
  method FillSteady(lp: Profile) returns (out: RTTResult)
    requires Acceptable(lp) && Usable(lp) && lp.maxRPS <= SECOND
    ensures |out.steady| == Room(lp)
  {
    IntervalShrinks(lp.maxRPS, lp.maxRPS);
    RoomIff(0, Interval(lp.maxRPS), lp.steadySec * SECOND);
    var x, n := Interval(lp.maxRPS), Room(lp);
    MetronomeIsClocked(lp, x, n);
    var end;
    ghost var k;
    out, end, k := CollectRTTPhased(lp, Metronome(lp, x, n));
    MetronomeRunsLong(lp, x, n, k);
    MetronomeFills(lp, x, n, k);
  }

  /** Rounding the interval down lets the generator exceed its rate: the window has room for exactly
      SteadySec * MaxRPS samples when MaxRPS divides a second, and for more when it does not. */
  lemma RoomIsExactIff(lp: Profile)
    requires 0 < lp.maxRPS <= SECOND && lp.steadySec > 0
    ensures lp.steadySec * lp.maxRPS <= Room(lp)
    ensures Room(lp) == lp.steadySec * lp.maxRPS <==> SECOND % lp.maxRPS == 0
  {
    var m, s := lp.maxRPS, lp.steadySec;
    var x := Interval(m);
    IntervalShrinks(m, m);
    var n, left := s * m, SECOND - m * x;
    assert left == SECOND % m;
    assert n * x == s * (m * x);
    assert s * SECOND == s * (m * x) + s * left;
    assert left > 0 ==> s * left > 0;
    assert left == 0 ==> s * left == 0;
    assert (n - 1) * x == n * x - x;
    RoomIff(n, x, s * SECOND);
    RoomIff(n + 1, x, s * SECOND);
  }
}
