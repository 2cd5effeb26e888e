/** The stored mirror configuration and the two goroutines that follow it through one-shot watches:
    warmkit's WatchMirror, which reads and arms in one call, and the proxy's watchMirror, which
    reads first and arms afterwards. A configuration is known by its version: version v is the
    v-th one ever stored, version 0 means that the node does not exist. */
module Mirror {
  import opened Records

  datatype LoopPc = Getting | Sending(version: nat) | Waiting

  /** WatchMirror: its watch, everything it has sent into its channel of capacity one, and how much
      of that has been received. */
  datatype Loop = Loop(pc: LoopPc, armed: bool, sent: seq<nat>, taken: nat)

  datatype ProxyPc = Reading | Assigning(version: nat) | Arming | Sleeping

  /** The proxy's loop and cache. `late` is history: whether a write came since the last read that succeeded,
      or since the start when none has. */
  datatype ProxyLoop = ProxyLoop(pc: ProxyPc, armed: bool, cache: nat, late: bool)

  datatype Mirror = Mirror(hist: seq<MirrorConfig>, loop: Loop, proxy: ProxyLoop)

  datatype Step =
    | Write(cfg: MirrorConfig)
    | Get(up: bool)
    | Send
    | Take
    | Wake
    | ProxyRead(up: bool)
    | ProxyAssign
    | ProxyArm(up: bool)
    | ProxyWake
    | SessionEvent

  const INITIAL: Mirror := Mirror([], Loop(Getting, false, [], 0), ProxyLoop(Reading, false, 0, false))

  function Waiters(l: Loop): nat {
    if l.taken <= |l.sent| then |l.sent| - l.taken else 0
  }

  /** A write stores the next version and fires every watch that is set. */
  function Stored(m: Mirror, cfg: MirrorConfig): Mirror {
    Mirror(m.hist + [cfg],
           m.loop.(armed := false),
           m.proxy.(armed := false, late := true))
  }

  function Do(m: Mirror, step: Step): Mirror {
    var l, p, latest := m.loop, m.proxy, |m.hist|;
    match step
    case Write(cfg) => Stored(m, cfg)
    case Get(up) =>
      if l.pc.Getting? && up && latest > 0 then m.(loop := l.(pc := Sending(latest), armed := true)) else m
    case Send =>
      if l.pc.Sending? && Waiters(l) == 0
      then m.(loop := l.(pc := Waiting, sent := l.sent + [l.pc.version])) else m
    case Take =>
      if Waiters(l) > 0 then m.(loop := l.(taken := l.taken + 1)) else m
    case Wake =>
      if l.pc.Waiting? && !l.armed then m.(loop := l.(pc := Getting)) else m
    case ProxyRead(up) =>
      if !p.pc.Reading? then m
      else if up && latest > 0 then m.(proxy := p.(pc := Assigning(latest), late := false))
      else m.(proxy := p.(pc := Arming))
    case ProxyAssign =>
      if p.pc.Assigning? then m.(proxy := p.(pc := Arming, cache := p.pc.version)) else m
    case ProxyArm(up) =>
      if !p.pc.Arming? then m
      else if up && latest > 0 then m.(proxy := p.(pc := Sleeping, armed := true))
      else m.(proxy := p.(pc := Reading))
    case ProxyWake =>
      if p.pc.Sleeping? && !p.armed then m.(proxy := p.(pc := Reading)) else m
    case SessionEvent => m.(loop := l.(armed := false), proxy := p.(armed := false))
  }

  function Exec(m: Mirror, steps: seq<Step>): Mirror
    decreases |steps|
  {
    if steps == [] then m else Exec(Do(m, steps[0]), steps[1..])
  }

  // ----- The invariant

  /** Versions in the order sent, none above `latest`. */
  ghost predicate Ascending(sent: seq<nat>, latest: nat) {
    && (forall i :: 0 <= i < |sent| ==> 1 <= sent[i] <= latest)
    && (forall i, j :: 0 <= i < j < |sent| ==> sent[i] <= sent[j])
  }

  lemma AscendsOn(sent: seq<nat>, v: nat, latest: nat)
    requires Ascending(sent, v) && v <= latest
    ensures Ascending(sent, latest)
    ensures v >= 1 ==> Ascending(sent + [v], latest)
  {
  }

  ghost predicate LoopOk(m: Mirror) {
    var l, latest := m.loop, |m.hist|;
    && l.taken <= |l.sent| <= l.taken + 1
    && Ascending(l.sent, latest)
    && match l.pc
       case Getting => true
       case Sending(v) => 1 <= v <= latest && (l.armed ==> v == latest) && Ascending(l.sent, v)
       case Waiting => |l.sent| > 0 && (l.armed ==> l.sent[|l.sent| - 1] == latest)
  }

  ghost predicate ProxyOk(m: Mirror) {
    var p, latest := m.proxy, |m.hist|;
    && p.cache <= latest
    && match p.pc
       case Assigning(v) => 1 <= v <= latest && (v == latest <==> !p.late)
       case _ => p.cache == latest <==> !p.late
  }

  ghost predicate Inv(m: Mirror) {
    LoopOk(m) && ProxyOk(m)
  }

  lemma OnlyWritesStore(m: Mirror, step: Step)
    requires !step.Write?
    ensures Do(m, step).hist == m.hist
  {
  }

  lemma StepKeepsLoopOk(m: Mirror, step: Step)
    requires LoopOk(m)
    ensures LoopOk(Do(m, step)) && m.loop.sent <= Do(m, step).loop.sent
  {
    AscendsOn(m.loop.sent, |m.hist|, |m.hist| + 1);
    if m.loop.pc.Sending? {
      AscendsOn(m.loop.sent, m.loop.pc.version, |m.hist|);
    }
    hide Ascending;
  }

  lemma StepKeepsProxyOk(m: Mirror, step: Step)
    requires ProxyOk(m)
    ensures ProxyOk(Do(m, step))
  {
  }

  lemma StepKeepsInv(m: Mirror, step: Step)
    requires Inv(m)
    ensures Inv(Do(m, step))
    ensures m.hist <= Do(m, step).hist
    ensures !step.Write? ==> Do(m, step).hist == m.hist
    ensures m.loop.sent <= Do(m, step).loop.sent
  {
    StepKeepsLoopOk(m, step);
    StepKeepsProxyOk(m, step);
    hide LoopOk, ProxyOk;
  }

  lemma {:induction false} RunsKeepInv(m: Mirror, steps: seq<Step>)
    requires Inv(m)
    ensures Inv(Exec(m, steps))
    decreases |steps|
  {
    if steps != [] {
      StepKeepsInv(m, steps[0]);
      RunsKeepInv(Do(m, steps[0]), steps[1..]);
    }
  }

  /** Against every interleaving of writers: the versions that WatchMirror delivers never decrease and
      were stored, and whenever it waits on a watch that has not fired, the last one is the stored one. */
  lemma NoLostFinalUpdate(steps: seq<Step>)
    ensures var m := Exec(INITIAL, steps);
            && (forall i, j :: 0 <= i < j < |m.loop.sent| ==> m.loop.sent[i] <= m.loop.sent[j])
            && (forall i :: 0 <= i < |m.loop.sent| ==> 1 <= m.loop.sent[i] <= |m.hist|)
            && m.loop.taken <= |m.loop.sent| <= m.loop.taken + 1
            && (m.loop.pc.Waiting? && m.loop.armed ==>
                  |m.loop.sent| > 0 && m.loop.sent[|m.loop.sent| - 1] == |m.hist|)
  {
    RunsKeepInv(INITIAL, steps);
  }

  /** With a registry that answers and no further write, a few steps of the loop and its receiver
      bring it to rest with the stored configuration received. */
  function Drained(m: Mirror): Mirror {
    Do(Do(Do(m, Take), Send), Take)
  }

  function Refetched(m: Mirror): Mirror {
    Do(Do(Do(Do(m, Wake), Get(true)), Send), Take)
  }

  lemma DrainEmpties(m: Mirror)
    requires Inv(m)
    ensures var t := Drained(m);
            Inv(t) && t.hist == m.hist && t.loop.taken == |t.loop.sent| && !t.loop.pc.Sending?
  {
    var m1 := Do(m, Take);
    var m2 := Do(m1, Send);
    StepKeepsInv(m, Take);
    StepKeepsInv(m1, Send);
    StepKeepsInv(m2, Take);
  }

  lemma RefetchDelivers(m: Mirror)
    requires Inv(m) && |m.hist| > 0 && m.loop.taken == |m.loop.sent| && !m.loop.pc.Sending?
    ensures var t := Refetched(m);
            && t.hist == m.hist
            && t.loop.pc.Waiting? && t.loop.armed
            && t.loop.taken == |t.loop.sent| > 0 && t.loop.sent[t.loop.taken - 1] == |m.hist|
  {
    if m.loop.pc.Waiting? && m.loop.armed {
      assert Refetched(m) == m;
    } else {
      var m1 := Do(m, Wake);
      var m2 := Do(m1, Get(true));
      assert m2.loop == Loop(Sending(|m.hist|), true, m.loop.sent, m.loop.taken);
      var m3 := Do(m2, Send);
      assert m3.loop == Loop(Waiting, true, m.loop.sent + [|m.hist|], m.loop.taken);
    }
  }

  lemma WatchCatchesUp(m: Mirror)
    requires Inv(m) && |m.hist| > 0
    ensures var t := Exec(m, [Take, Send, Take, Wake, Get(true), Send, Take]);
            && t.hist == m.hist
            && t.loop.pc.Waiting? && t.loop.armed
            && t.loop.taken == |t.loop.sent| > 0 && t.loop.sent[t.loop.taken - 1] == |m.hist|
  {
    DrainEmpties(m);
    RefetchDelivers(Drained(m));
    var s := [Take, Send, Take, Wake, Get(true), Send, Take];
    var m1, m2, m3 := Do(m, Take), Do(Do(m, Take), Send), Drained(m);
    assert s[1..][1..] == s[2..] && s[2..][1..] == s[3..] && s[3..][1..] == s[4..];
    assert s[4..][1..] == s[5..] && s[5..][1..] == s[6..] && s[6..][1..] == [];
    var m4, m5, m6 := Do(m3, Wake), Do(Do(m3, Wake), Get(true)), Do(Do(Do(m3, Wake), Get(true)), Send);
    calc {
      Exec(m, s); Exec(m1, s[1..]); Exec(m2, s[2..]); Exec(m3, s[3..]);
      Exec(m4, s[4..]); Exec(m5, s[5..]); Exec(m6, s[6..]); Refetched(m3);
    }
  }

  // ----- The proxy's loop does lose updates, and exactly when

  /** Whether a write has come since the last read that succeeded: writes, and nothing else, make it so, and
      only a successful read ends it. */
  predicate LateAfter(steps: seq<Step>, late: bool, m: Mirror)
    decreases |steps|
  {
    if steps == [] then late
    else
      var readNow := steps[0] == ProxyRead(true) && m.proxy.pc.Reading? && |m.hist| > 0;
      LateAfter(steps[1..], steps[0].Write? || (late && !readNow), Do(m, steps[0]))
  }

  lemma {:induction false} LateIsHistory(m: Mirror, steps: seq<Step>)
    ensures Exec(m, steps).proxy.late <==> LateAfter(steps, m.proxy.late, m)
    decreases |steps|
  {
    if steps != [] {
      LateIsHistory(Do(m, steps[0]), steps[1..]);
    }
  }

  /** Whenever the proxy is not between a read and its assignment, its cache is the stored configuration if and
      only if no write has come since its last successful read. While it sleeps on a watch that has not fired
      such a write can only have come before the watch was set: between the read and the watch of one round,
      or in a round whose read failed, which sets the watch all the same. */
  lemma ProxyFreshIff(steps: seq<Step>)
    ensures var m := Exec(INITIAL, steps);
            !m.proxy.pc.Assigning? ==> (m.proxy.cache == |m.hist| <==> !LateAfter(steps, false, INITIAL))
  {
    RunsKeepInv(INITIAL, steps);
    LateIsHistory(INITIAL, steps);
  }

  predicate QuietStep(step: Step) {
    !step.Write? && !step.SessionEvent?
  }

  /** Asleep on an unfired watch, the proxy keeps its cache, fresh or stale, until a new write or an event of
      the ZooKeeper session. */
  lemma {:induction false} SleepingProxyKeepsCache(m: Mirror, steps: seq<Step>)
    requires m.proxy.pc.Sleeping? && m.proxy.armed
    requires forall i :: 0 <= i < |steps| ==> QuietStep(steps[i])
    ensures Exec(m, steps).proxy == m.proxy && Exec(m, steps).hist == m.hist
    decreases |steps|
  {
    if steps != [] {
      assert QuietStep(steps[0]);
      SleepingProxyKeepsCache(Do(m, steps[0]), steps[1..]);
    }
  }

  /** What wakes the proxy: after a write, or after an event of the session, a proxy that was asleep takes one round to
      the newest configuration. */
  lemma SleepEndsWithAWrite(m: Mirror, cfg: MirrorConfig)
    requires m.proxy.pc.Sleeping?
    ensures var t := Exec(m, [Write(cfg), ProxyWake, ProxyRead(true), ProxyAssign]);
            t.hist == m.hist + [cfg] && t.proxy.cache == |t.hist|
    ensures var t := Exec(m, [SessionEvent, ProxyWake, ProxyRead(true), ProxyAssign]);
            t.hist == m.hist && (|m.hist| > 0 ==> t.proxy.cache == |t.hist|)
  {
    OneRound(m, Write(cfg));
    OneRound(m, SessionEvent);
    RoundReads(Do(m, Write(cfg)));
    RoundReads(Do(m, SessionEvent));
  }

  lemma RoundReads(m: Mirror)
    requires m.proxy.pc.Sleeping? && !m.proxy.armed
    ensures var t := Do(Do(Do(m, ProxyWake), ProxyRead(true)), ProxyAssign);
            t.hist == m.hist && (|m.hist| > 0 ==> t.proxy.cache == |t.hist|)
  {
  }

  lemma OneRound(m: Mirror, first: Step)
    ensures Exec(m, [first, ProxyWake, ProxyRead(true), ProxyAssign])
         == Do(Do(Do(Do(m, first), ProxyWake), ProxyRead(true)), ProxyAssign)
  {
    hide Do;
    ExecFirst(m, first, [ProxyWake, ProxyRead(true), ProxyAssign]);
    ExecFirst(Do(m, first), ProxyWake, [ProxyRead(true), ProxyAssign]);
    ExecFirst(Do(Do(m, first), ProxyWake), ProxyRead(true), [ProxyAssign]);
    ExecFirst(Do(Do(Do(m, first), ProxyWake), ProxyRead(true)), ProxyAssign, []);
    var r1, r2 := [ProxyRead(true), ProxyAssign], [ProxyAssign];
    assert [first, ProxyWake] + r1 == [first] + ([ProxyWake] + r1);
    assert r1 == [ProxyRead(true)] + r2 && r2 == [ProxyAssign] + [];
  }

  lemma ExecFirst(m: Mirror, a: Step, rest: seq<Step>)
    ensures Exec(m, [a] + rest) == Exec(Do(m, a), rest)
  {
    assert ([a] + rest)[1..] == rest;
  }

  /** The proxy with its cache at version `cache` of `hist`; the other loop has not started. */
  function Watching(hist: seq<MirrorConfig>, pc: ProxyPc, armed: bool, cache: nat, late: bool): Mirror {
    INITIAL.(hist := hist, proxy := ProxyLoop(pc, armed, cache, late))
  }

  lemma LateWriteRun(a: MirrorConfig, b: MirrorConfig)
    ensures Exec(INITIAL, [Write(a), ProxyRead(true), ProxyAssign, Write(b), ProxyArm(true)])
         == Watching([a, b], Sleeping, true, 1, true)
  {
    var m1, m2 := Watching([a], Reading, false, 0, true), Watching([a], Assigning(1), false, 0, false);
    var m3, m4 := Watching([a], Arming, false, 1, false), Watching([a, b], Arming, false, 1, true);
    var m5 := Watching([a, b], Sleeping, true, 1, true);
    assert Do(INITIAL, Write(a)) == m1 && Do(m1, ProxyRead(true)) == m2 && Do(m2, ProxyAssign) == m3;
    assert Do(m3, Write(b)) == m4 && Do(m4, ProxyArm(true)) == m5;
    hide Do;
    ExecFirst(INITIAL, Write(a), [ProxyRead(true), ProxyAssign, Write(b), ProxyArm(true)]);
    ExecFirst(m1, ProxyRead(true), [ProxyAssign, Write(b), ProxyArm(true)]);
    ExecFirst(m2, ProxyAssign, [Write(b), ProxyArm(true)]);
    ExecFirst(m3, Write(b), [ProxyArm(true)]);
    ExecFirst(m4, ProxyArm(true), []);
    var r2, r3 := [ProxyAssign, Write(b), ProxyArm(true)], [Write(b), ProxyArm(true)];
    assert [Write(a), ProxyRead(true)] + r2 == [Write(a)] + ([ProxyRead(true)] + r2);
    assert r2 == [ProxyAssign] + r3 && r3 == [Write(b)] + [ProxyArm(true)] && [ProxyArm(true)] == [ProxyArm(true)] + [];
  }

  lemma FailedReadRun(a: MirrorConfig)
    ensures Exec(INITIAL, [Write(a), ProxyRead(false), ProxyArm(true)]) == Watching([a], Sleeping, true, 0, true)
  {
    var m1, m2 := Watching([a], Reading, false, 0, true), Watching([a], Arming, false, 0, true);
    var m3 := Watching([a], Sleeping, true, 0, true);
    assert Do(INITIAL, Write(a)) == m1 && Do(m1, ProxyRead(false)) == m2 && Do(m2, ProxyArm(true)) == m3;
    hide Do;
    ExecFirst(INITIAL, Write(a), [ProxyRead(false), ProxyArm(true)]);
    ExecFirst(m1, ProxyRead(false), [ProxyArm(true)]);
    ExecFirst(m2, ProxyArm(true), []);
    assert [ProxyRead(false), ProxyArm(true)] == [ProxyRead(false)] + [ProxyArm(true)];
    assert [Write(a), ProxyRead(false), ProxyArm(true)] == [Write(a)] + [ProxyRead(false), ProxyArm(true)];
    assert [ProxyArm(true)] == [ProxyArm(true)] + [];
  }

  /** Both ways it happens. The second of two configurations is missed for good when it is written between the
      read and the watch; and the very first one is, when the read before the watch failed. */
  lemma ProxyCanMissAnUpdate(a: MirrorConfig, b: MirrorConfig, later: seq<Step>)
    requires forall i :: 0 <= i < |later| ==> QuietStep(later[i])
    ensures var m := Exec(Exec(INITIAL, [Write(a), ProxyRead(true), ProxyAssign, Write(b), ProxyArm(true)]), later);
            m.hist == [a, b] && m.proxy.cache == 1
    ensures var m := Exec(Exec(INITIAL, [Write(a), ProxyRead(false), ProxyArm(true)]), later);
            m.hist == [a] && m.proxy.cache == 0
  {
    LateWriteRun(a, b);
    SleepingProxyKeepsCache(Watching([a, b], Sleeping, true, 1, true), later);
    FailedReadRun(a);
    SleepingProxyKeepsCache(Watching([a], Sleeping, true, 0, true), later);
  }
}
