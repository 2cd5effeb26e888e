/** The two readings of runRamp agree: the goroutine that module Promotion interleaves with everybody else,
    left to itself, makes exactly the writes and reads of the method in module Ramp. */
module RampThread {
  import opened Records
  import opened Sorting
  import opened Ramp
  import P = Promotion

  /** The goroutine, the number of readiness reads it has made, and what it has written. */
  datatype Progress = Progress(ramp: P.Ramp, read: nat, out: seq<MirrorConfig>)

  /** What the outside world gives one ramp. */
  datatype World = World(c: P.Config, id: Id, ready: nat -> bool, pause: nat -> nat, holdMax: int)

  /** One step of the goroutine. Every readiness read but the first hold check follows a pause of its own, so
      the read with index i comes after i pauses; the clock is looked at right after a read. */
  function Next(w: World, g: Progress): Progress {
    var write := P.RampWrite(w.c, w.id, g.ramp);
    var early := g.read > 0 && Elapsed(w.pause, g.read - 1) < w.holdMax;
    Progress(P.RampNext(w.c, g.ramp, w.ready(g.read), early),
             if g.ramp.pc.CheckStep? || g.ramp.pc.HoldCheck? then g.read + 1 else g.read,
             if write.Some? then g.out + [write.value] else g.out)
  }

  function Iterate(w: World, g: Progress, j: nat): Progress
    decreases j
  {
    if j == 0 then g else Iterate(w, Next(w, g), j - 1)
  }

  ghost predicate Seen(ready: nat -> bool, read: nat) {
    exists i: nat :: i < read && ready(i)
  }

  lemma SeenGrows(ready: nat -> bool, read: nat)
    ensures Seen(ready, read + 1) <==> Seen(ready, read) || ready(read)
  {
    assert ready(read) ==> read < read + 1;
  }

  /** The goroutine at `pc` after k steps and n full writes, everything read and written as it should be. */
  ghost predicate At(w: World, g: Progress, pc: P.RampPc, k: nat, n: nat, read: nat)
    requires k <= |w.c.steps|
  {
    && g.ramp.pc == pc && g.read == read && (g.ramp.saw <==> Seen(w.ready, read))
    && g.out == Map(MirrorAt(w.id, g.ramp.target, g.ramp.active), Ratios(w.c.steps, k, n))
  }

  ghost predicate SamePair(g: Progress, h: Progress) {
    h.ramp.target == g.ramp.target && h.ramp.active == g.ramp.active
  }

  lemma HoldWrite(w: World, g: Progress, k: nat, n: nat, read: nat)
    requires k <= |w.c.steps| && (At(w, g, P.WriteHold, k, n, read) || At(w, g, P.WriteLast, k, n, read))
    ensures var h := Next(w, g);
            SamePair(g, h) && At(w, h, if g.ramp.pc.WriteHold? then P.HoldCheck else P.MarkHolding, k, n + 1, read)
  {
    var at := MirrorAt(w.id, g.ramp.target, g.ramp.active);
    RatiosJoin(at, w.c.steps, k, n);
    RatiosJoin(at, w.c.steps, k, n + 1);
    OnesStep(at, n, Map(at, Ratios(w.c.steps, k, 0)));
  }

  lemma HoldRead(w: World, g: Progress, k: nat, n: nat, read: nat)
    requires k <= |w.c.steps| && At(w, g, P.HoldCheck, k, n, read)
    ensures var h := Next(w, g);
            SamePair(g, h) && At(w, h, if w.ready(read) then P.WriteLast else P.HoldClock, k, n, read + 1)
  {
    SeenGrows(w.ready, read);
  }

  lemma HoldTime(w: World, g: Progress, k: nat, n: nat, read: nat)
    requires k <= |w.c.steps| && At(w, g, P.HoldClock, k, n, read + 1)
    ensures var h := Next(w, g);
            && SamePair(g, h)
            && At(w, h, if Elapsed(w.pause, read) < w.holdMax then P.WriteHold else P.WriteLast, k, n, read + 1)
  {
  }

  lemma MoreSteps(w: World, g: Progress, j: nat)
    ensures Iterate(w, g, j + 1) == Iterate(w, Next(w, g), j)
  {
  }

  /** From the first hold check to the end. */
  lemma {:induction false} HoldLeads(w: World, g: Progress, k: nat, m: nat, n: nat) returns (j: nat)
    requires k <= |w.c.steps| && m < n && HoldWritten(w.holdMax, w.ready, w.pause, k, n)
    requires At(w, g, P.HoldCheck, k, m, k + m)
    ensures var h := Iterate(w, g, j); SamePair(g, h) && At(w, h, P.Finished, k, n, k + n)
    decreases n - m
  {
    hide At, Next, HoldWritten;
    var read := k + m;
    HoldDecision(w, k, m, n);
    HoldRead(w, g, k, m, read);
    var h := Next(w, g);
    j := 0;
    if !w.ready(read) {
      HoldTime(w, h, k, m, read);
      MoreSteps(w, h, 0);
      h, j := Next(w, h), 1;
    }
    HoldWrite(w, h, k, m, read + 1);
    var v := Next(w, h);
    var i: nat;
    if m + 1 < n {
      i := HoldLeads(w, v, k, m + 1, n);
    } else {
      LastStep(w, v, k, n);
      i := 1;
    }
    if j == 1 {
      Chain(w, Next(w, g), i);
    }
    j := 2 + j + i;
    MoreSteps(w, g, j - 1);
    MoreSteps(w, Next(w, g), j - 2);
  }

  lemma Chain(w: World, g: Progress, i: nat)
    ensures Iterate(w, g, i + 2) == Iterate(w, Next(w, Next(w, g)), i)
  {
    hide Next;
    MoreSteps(w, g, i + 1);
    MoreSteps(w, Next(w, g), i);
  }

  lemma LastStep(w: World, g: Progress, k: nat, n: nat)
    requires k <= |w.c.steps| && At(w, g, P.MarkHolding, k, n, k + n)
    ensures var h := Iterate(w, g, 1); SamePair(g, h) && At(w, h, P.Finished, k, n, k + n)
  {
    MoreSteps(w, g, 0);
  }

  /** Of the n full writes, all but the last are made while the target is not ready before the deadline. */
  lemma HoldDecision(w: World, k: nat, m: nat, n: nat)
    requires m < n && HoldWritten(w.holdMax, w.ready, w.pause, k, n)
    ensures m + 1 < n <==> !w.ready(k + m) && Elapsed(w.pause, k + m) < w.holdMax
  {
  }

  lemma StepWrite(w: World, g: Progress, i: nat)
    requires i < |w.c.steps| && At(w, g, P.WriteStep(i), i, 0, i)
    ensures var h := Next(w, g); SamePair(g, h) && At(w, h, P.CheckStep(i), i + 1, 0, i)
  {
    RatiosStep(MirrorAt(w.id, g.ramp.target, g.ramp.active), w.c.steps, i);
  }

  lemma StepRead(w: World, g: Progress, i: nat)
    requires i < |w.c.steps| && At(w, g, P.CheckStep(i), i + 1, 0, i)
    ensures var h := Next(w, g);
            && SamePair(g, h)
            && At(w, h, if !w.ready(i) && i + 1 < |w.c.steps| then P.WriteStep(i + 1) else P.HoldCheck, i + 1, 0, i + 1)
  {
    SeenGrows(w.ready, i);
  }

  /** Step i is the last one taken exactly when the target is ready after it or there is no further one. */
  lemma StepDecision(w: World, i: nat, k: nat)
    requires i < k && StepsTaken(w.c.steps, w.ready, k)
    ensures i + 1 < k <==> !w.ready(i) && i + 1 < |w.c.steps|
  {
  }

  lemma {:induction false} StepsLead(w: World, g: Progress, i: nat, k: nat) returns (j: nat)
    requires i < k && StepsTaken(w.c.steps, w.ready, k) && At(w, g, P.WriteStep(i), i, 0, i)
    ensures var h := Iterate(w, g, j); SamePair(g, h) && At(w, h, P.HoldCheck, k, 0, k)
    decreases k - i
  {
    hide At, Next;
    StepDecision(w, i, k);
    StepWrite(w, g, i);
    StepRead(w, Next(w, g), i);
    var h := Next(w, Next(w, g));
    j := 0;
    if i + 1 < k {
      j := StepsLead(w, h, i + 1, k);
    }
    Chain(w, g, j);
    j := j + 2;
  }

  lemma {:induction false} IterateMore(w: World, g: Progress, a: nat, b: nat)
    ensures Iterate(w, g, a + b) == Iterate(w, Iterate(w, g, a), b)
    decreases a
  {
    hide Next;
    if a > 0 {
      IterateMore(w, Next(w, g), a - 1, b);
    }
  }

  lemma Begin(w: World, g: Progress)
    requires g.ramp.pc.WriteZero? && !g.ramp.saw && g.read == 0 && g.out == []
    ensures var h := Next(w, g);
            && SamePair(g, h)
            && At(w, h, if |w.c.steps| > 0 then P.WriteStep(0) else P.HoldCheck, 0, 0, 0)
  {
    RatiosStart(MirrorAt(w.id, g.ramp.target, g.ramp.active), w.c.steps);
  }

  /** For all answers and pauses: the goroutine ends having written exactly the trace that RunRamp promises,
      after as many reads, and it remembers a ready read exactly when there was one. */
  lemma GoroutineFollowsRamp(w: World, target: Id, active: Id, k: nat, n: nat)
    requires RampOf(w.c.steps, w.holdMax, w.ready, w.pause, k, n)
    ensures exists j :: var h := Iterate(w, Progress(P.Ramp(target, active, P.WriteZero, false), 0, []), j);
              && h.ramp == P.Ramp(target, active, P.Finished, Seen(w.ready, k + n)) && h.read == k + n
              && h.out == Map(MirrorAt(w.id, target, active), Ratios(w.c.steps, k, n))
  {
    var g := Progress(P.Ramp(target, active, P.WriteZero, false), 0, []);
    Begin(w, g);
    var h := Next(w, g);
    var a := 0;
    if k > 0 {
      a := StepsLead(w, h, 0, k);
    }
    var b := HoldLeads(w, Iterate(w, h, a), k, 0, n);
    IterateMore(w, h, a, b);
    MoreSteps(w, g, a + b);
    assert Iterate(w, g, a + b + 1) == Iterate(w, Iterate(w, h, a), b);
  }
}
