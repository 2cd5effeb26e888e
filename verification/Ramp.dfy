/** The coordinator's session table and the ramp of one session, run by itself: every readiness answer and
    every pause is arbitrary. Interleavings with other threads are the subject of module Promotion. */
module Ramp {
  import opened Records
  import opened Sorting

  datatype Reply = NotFound | WriteFailed | Answer(s: Session)

  type Sessions = map<Id, Session>

  function MirrorAt(id: Id, target: Id, active: Id): real -> MirrorConfig {
    (ratio: real) => RampConfig(id, target, active, ratio)
  }

  function Ones(n: nat): seq<real> {
    seq(n, _ => 1.0)
  }

  /** The ratios of a ramp that takes k steps and then writes the full ratio n times. */
  function Ratios(steps: seq<real>, k: nat, n: nat): seq<real>
    requires k <= |steps|
  {
    [0.0] + steps[..k] + Ones(n)
  }

  /** Time spent in the first n pauses. */
  function Elapsed(pause: nat -> nat, n: nat): nat {
    if n == 0 then 0 else Elapsed(pause, n - 1) + pause(n - 1)
  }

  /** How far a ramp gets: `k` steps, then `n` writes of the full ratio. Readiness is read after every step
      and before every decision to go on holding, and the reads are numbered in that order. */
  ghost predicate RampOf(steps: seq<real>, holdMax: int, ready: nat -> bool, pause: nat -> nat, k: nat, n: nat) {
    StepsTaken(steps, ready, k) && HoldWritten(holdMax, ready, pause, k, n)
  }

  /** Steps go on until the target is seen ready or they run out. */
  ghost predicate StepsTaken(steps: seq<real>, ready: nat -> bool, k: nat) {
    && k <= |steps|
    && (forall i: nat :: i + 1 < k ==> !ready(i))
    && (k < |steps| ==> k >= 1 && ready(k - 1))
  }

  ghost predicate Waits(holdMax: int, ready: nat -> bool, pause: nat -> nat, k: nat, read: nat) {
    forall i: nat :: k <= i < read ==> !ready(i) && Elapsed(pause, i) < holdMax
  }

  /** Holding goes on while the target is not seen ready before the deadline. */
  ghost predicate HoldWritten(holdMax: int, ready: nat -> bool, pause: nat -> nat, k: nat, n: nat) {
    && n >= 1 && Waits(holdMax, ready, pause, k, k + n - 1)
    && (ready(k + n - 1) || Elapsed(pause, k + n - 1) >= holdMax)
  }

  class Coordinator {
    const steps: seq<real>
    const interval: int
    const holdMax: int
    var sessions: Sessions
    /** The mirror configs handed to ZooKeeper so far, whether or not the write got through. */
    var written: seq<MirrorConfig>
    var clock: int

    constructor (steps: seq<real>, interval: int, holdMax: int)
      ensures this.steps == steps && this.interval == interval && this.holdMax == holdMax
      ensures sessions == map[] && written == []
    {
      this.steps, this.interval, this.holdMax := steps, interval, holdMax;
      sessions, written, clock := map[], [], 0;
    }

    method CreateSession(id: Id, target: Id, active: Id, readyAfter: int) returns (s: Session)
      modifies this`sessions
      ensures s == Session(id, target, active, readyAfter, Running)
      ensures sessions == old(sessions)[id := s]
    {
      s := Session(id, target, active, readyAfter, Running);
      sessions := sessions[id := s];
    }

    /** One ramp, for every interval, also one that is zero or negative: `pause` is the time that passes with each
        sleep, which is at least the interval and not nothing. The session is marked as holding only after a
        ready answer or past the deadline. */
    method RunRamp(id: Id, target: Id, active: Id, ready: nat -> bool, pause: nat -> nat)
      returns (ghost k: nat, ghost n: nat)
      requires forall i :: pause(i) >= interval && pause(i) > 0
      modifies this
      ensures RampOf(steps, holdMax, ready, pause, k, n)
      ensures written == old(written) + Map(MirrorAt(id, target, active), Ratios(steps, k, n))
      ensures clock == old(clock) + Elapsed(pause, k + n - 1)
      ensures (exists i: nat :: i < k + n && ready(i)) || clock >= old(clock) + holdMax
      ensures sessions == Held(old(sessions), id)
      ensures forall i: nat :: i < k + n - 1 && ready(i) ==> i + 1 == k
      ensures n >= 2 ==> Elapsed(pause, k + n - 2) < holdMax
      ensures forall i :: |old(written)| <= i < |written| ==>
        written[i] == MirrorConfig(true, Ratios(steps, k, n)[i - |old(written)|], target, active, id)
      ensures forall k :: k in sessions <==> k in old(sessions)
      ensures forall k :: k in sessions ==>
        sessions[k] == if k == id then old(sessions)[k].(status := Holding) else old(sessions)[k]
    {
      var at := MirrorAt(id, target, active);
      var start := clock;
      var holdDeadline := clock + holdMax;
      var read := ClimbSteps(at, ready, pause);
      k := read;
      var m := HoldUntil(at, holdDeadline, start, read, ready, pause);
      n := m;
      RatiosJoin(at, steps, k, n);
      HoldingHasAReason(holdMax, ready, pause, k, n);
      if id in sessions {
        sessions := sessions[id := sessions[id].(status := Holding)];
      }
    }

    /** The first write and the steps; returns how many steps were taken. */
    method ClimbSteps(at: real -> MirrorConfig, ready: nat -> bool, pause: nat -> nat) returns (i: nat)
      modifies this`written, this`clock
      ensures StepsTaken(steps, ready, i)
      ensures written == old(written) + Map(at, Ratios(steps, i, 0))
      ensures clock == old(clock) + Elapsed(pause, i)
    {
      RatiosStart(at, steps);
      written := written + [at(0.0)];
      i := 0;
      while i < |steps|
        invariant i <= |steps| && forall j: nat :: j < i ==> !ready(j)
        invariant written == old(written) + Map(at, Ratios(steps, i, 0))
        invariant clock == old(clock) + Elapsed(pause, i)
      {
        RatiosStep(at, steps, i);
        written := written + [at(steps[i])];
        clock := clock + pause(i);
        i := i + 1;
        if ready(i - 1) {
          break;
        }
      }
    }

    /** The hold and the last write; returns how often the full ratio was written. */
    method HoldUntil(at: real -> MirrorConfig, holdDeadline: int, ghost start: int, k: nat,
                     ready: nat -> bool, pause: nat -> nat) returns (n: nat)
      requires forall i :: pause(i) >= interval && pause(i) > 0
      requires k <= |steps| && clock == start + Elapsed(pause, k) && holdDeadline == start + holdMax
      modifies this`written, this`clock
      ensures HoldWritten(holdMax, ready, pause, k, n)
      ensures written == old(written) + Map(at, Ones(n))
      ensures clock == start + Elapsed(pause, k + n - 1)
    {
      hide Map, Ones, Elapsed, HoldWritten;
      n := 0;
      var read := k;
      OnesStart(at, written);
      while !ready(read) && clock < holdDeadline
        invariant read == k + n && Waits(holdMax, ready, pause, k, read)
        invariant clock == start + Elapsed(pause, read)
        invariant written == old(written) + Map(at, Ones(n))
        decreases holdDeadline - clock
      {
        OnesStep(at, n, old(written));
        written := written + [at(1.0)];
        ElapsedNext(pause, read);
        clock := clock + pause(read);
        n, read := n + 1, read + 1;
      }
      OnesStep(at, n, old(written));
      HoldEnds(holdMax, ready, pause, k, n, read);
      written := written + [at(1.0)];
      n := n + 1;
    }

    /** Completing twice changes nothing the second time, even when the first write failed. */
    method CompleteSession(id: Id, writeOK: bool) returns (r: Reply)
      modifies this`sessions, this`written
      ensures id !in old(sessions) ==> r == NotFound
      ensures id !in old(sessions) || old(sessions)[id].status == Completed ==>
        sessions == old(sessions) && written == old(written)
      ensures id in old(sessions) && old(sessions)[id].status == Completed ==> r == Answer(old(sessions)[id])
      ensures id in old(sessions) && old(sessions)[id].status != Completed ==>
        && sessions == old(sessions)[id := Released(old(sessions)[id])]
        && written == old(written) + [PromoteConfig(id, old(sessions)[id].target)]
        && r == (if writeOK then Answer(sessions[id]) else WriteFailed)
        && sessions[id].active == sessions[id].target == old(sessions)[id].target && sessions[id].status == Completed
    {
      if id !in sessions {
        return NotFound;
      }
      var s := sessions[id];
      if s.status == Completed {
        return Answer(s);
      }
      var target := s.target;
      s := s.(active := target, status := Completed);
      sessions := sessions[id := s];
      written := written + [MirrorConfig(false, 0.0, target, target, id)];
      if !writeOK {
        return WriteFailed;
      }
      r := Answer(s);
    }

    method GetSession(id: Id) returns (r: Reply)
      ensures r == if id in sessions then Answer(sessions[id]) else NotFound
    {
      if id !in sessions {
        return NotFound;
      }
      r := Answer(sessions[id]);
    }

    method DeleteSession(id: Id)
      modifies this`sessions
      ensures sessions == old(sessions) - {id}
    {
      sessions := sessions - {id};
    }

    method SetMirrorConfig(cfg: MirrorConfig, writeOK: bool) returns (r: bool)
      modifies this`written
      ensures written == old(written) + [cfg] && r == writeOK
    {
      written := written + [cfg];
      r := writeOK;
    }
  }

  lemma RatiosStart(at: real -> MirrorConfig, steps: seq<real>)
    ensures Map(at, Ratios(steps, 0, 0)) == [at(0.0)]
  {
    assert Ratios(steps, 0, 0) == [0.0];
  }

  lemma RatiosStep(at: real -> MirrorConfig, steps: seq<real>, k: nat)
    requires k < |steps|
    ensures Map(at, Ratios(steps, k + 1, 0)) == Map(at, Ratios(steps, k, 0)) + [at(steps[k])]
  {
    assert Ratios(steps, k + 1, 0) == Ratios(steps, k, 0) + [steps[k]];
  }

  lemma ElapsedNext(pause: nat -> nat, n: nat)
    ensures Elapsed(pause, n + 1) == Elapsed(pause, n) + pause(n)
  {
  }

  lemma HoldEnds(holdMax: int, ready: nat -> bool, pause: nat -> nat, k: nat, n: nat, read: nat)
    requires read == k + n && Waits(holdMax, ready, pause, k, read)
    requires ready(read) || Elapsed(pause, read) >= holdMax
    ensures HoldWritten(holdMax, ready, pause, k, n + 1)
  {
  }

  lemma OnesStart(at: real -> MirrorConfig, before: seq<MirrorConfig>)
    ensures before + Map(at, Ones(0)) == before
  {
  }

  lemma OnesStep(at: real -> MirrorConfig, n: nat, before: seq<MirrorConfig>)
    ensures before + Map(at, Ones(n)) + [at(1.0)] == before + Map(at, Ones(n + 1))
  {
    assert Ones(n + 1) == Ones(n) + [1.0];
  }

  lemma RatiosJoin(at: real -> MirrorConfig, steps: seq<real>, k: nat, n: nat)
    requires k <= |steps|
    ensures Map(at, Ratios(steps, k, n)) == Map(at, Ratios(steps, k, 0)) + Map(at, Ones(n))
  {
    assert Ratios(steps, k, n) == Ratios(steps, k, 0) + Ones(n);
  }

  // ----- What a ramp is

  /** The answers and pauses determine how far the ramp gets. */
  lemma RampIsDetermined(steps: seq<real>, holdMax: int, ready: nat -> bool, pause: nat -> nat,
                         k: nat, n: nat, k': nat, n': nat)
    requires RampOf(steps, holdMax, ready, pause, k, n) && RampOf(steps, holdMax, ready, pause, k', n')
    ensures k == k' && n == n'
  {
  }

  lemma HoldingHasAReason(holdMax: int, ready: nat -> bool, pause: nat -> nat, k: nat, n: nat)
    requires HoldWritten(holdMax, ready, pause, k, n)
    ensures (exists i: nat :: i < k + n && ready(i)) || Elapsed(pause, k + n - 1) >= holdMax
  {
    if ready(k + n - 1) {
      assert k + n - 1 < k + n;
    }
  }

  lemma MoreTimes(n: nat, total: nat, x: nat)
    requires n <= total
    ensures n * x <= total * x
  {
  }

  lemma OneMoreTime(n: nat, x: nat)
    ensures (n + 1) * x == n * x + x
  {
  }

  lemma {:induction false} ElapsedBound(pause: nat -> nat, longest: nat, n: nat)
    requires forall i :: pause(i) <= longest
    ensures Elapsed(pause, n) <= n * longest
  {
    if n > 0 {
      ElapsedBound(pause, longest, n - 1);
      OneMoreTime(n - 1, longest);
    }
  }

  function Max(a: int, b: int): int {
    if a < b then b else a
  }

  /** Every ramp ends: with pauses of at most `longest` it takes at most the longer of all steps and of the
      hold time and one pause. With exact pauses `longest` is the interval. */
  lemma RampEndsInTime(steps: seq<real>, holdMax: int, ready: nat -> bool, pause: nat -> nat,
                       longest: nat, k: nat, n: nat)
    requires RampOf(steps, holdMax, ready, pause, k, n) && forall i :: pause(i) <= longest
    ensures Elapsed(pause, k + n - 1) <= Max(|steps| * longest, holdMax + longest)
  {
    if n == 1 {
      ElapsedBound(pause, longest, k);
      MoreTimes(k, |steps|, longest);
    } else {
      assert Elapsed(pause, k + n - 2) < holdMax;
    }
  }

  ghost predicate Ascending(s: seq<real>) {
    (forall i :: 0 <= i < |s| ==> 0.0 <= s[i] <= 1.0) && Sorted(s)
  }

  /** The mirrored share starts at nothing, ends at everything, and does not fall on the way when the
      configured steps do not. */
  lemma RatiosAscend(steps: seq<real>, k: nat, n: nat)
    requires k <= |steps| && n >= 1
    ensures Ratios(steps, k, n)[0] == 0.0 && Ratios(steps, k, n)[k + n] == 1.0
    ensures |Ratios(steps, k, n)| == k + n + 1
    ensures forall i :: 0 <= i < k ==> Ratios(steps, k, n)[i + 1] == steps[i]
    ensures forall i :: k < i <= k + n ==> Ratios(steps, k, n)[i] == 1.0
    ensures Ascending(steps) ==> Ascending(Ratios(steps, k, n))
  {
    var r := Ratios(steps, k, n);
    assert forall i :: 1 <= i <= k ==> r[i] == steps[i - 1];
    assert forall i :: k < i < |r| ==> r[i] == 1.0;
    assert Ascending(steps) ==> forall i, j :: 1 <= i < j <= k ==> r[i] <= r[j];
  }
}
