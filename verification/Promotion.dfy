/** The whole warm-up system as interleaved steps: the engine of one instance, the stored mirror
    configuration with its two followers, the coordinator's sessions with one ramp goroutine each,
    the complete handlers, and the proxy's requests. */
module Promotion {
  import opened Lifecycle
  import opened Records
  import E = Engine
  import M = Mirror

  datatype Config = Config(me: Id, readyAfter: int, steps: seq<real>)

  /** Where a ramp goroutine stands. A Check step follows the sleep after the write of the same index. */
  datatype RampPc =
    | WriteZero
    | WriteStep(i: nat)
    | CheckStep(i: nat)
    | HoldCheck
    | HoldClock
    | WriteHold
    | WriteLast
    | MarkHolding
    | Finished

  /** `saw` is history: some instanceReady read of this ramp returned true. */
  datatype Ramp = Ramp(target: Id, active: Id, pc: RampPc, saw: bool)

  /** A complete handler that has marked its session and has yet to write the configuration. */
  datatype Completing = Completing(session: Id, target: Id)

  /** A proxied request works from the snapshot taken on arrival. */
  datatype Request = Request(version: nat, inst: map<Id, string>)

  datatype Sys = Sys(
    eng: E.Engine,
    m: M.Mirror,
    sessions: map<Id, Session>,
    ramps: map<Id, Ramp>,
    completing: map<nat, Completing>,
    inst: map<Id, string>,
    requests: map<nat, Request>)

  datatype Step =
    | Eng(e: E.Step)
    | Follow(f: M.Step)
    | Receive
    | Create(id: Id, target: Id, active: Id, readyAfter: int)
    | RampStep(id: Id, up: bool, otherReady: bool, beforeDeadline: bool)
    | CompleteLock(tid: nat, id: Id)
    | CompleteWrite(tid: nat, up: bool)
    | Delete(id: Id)
    | SetMirror(cfg: MirrorConfig)
    | Refresh(inst: map<Id, string>)
    | Arrive(rid: nat)
    | Forward(rid: nat)

  function EngineConfig(c: Config): E.Config {
    E.Config(c.me, c.readyAfter)
  }

  function Begin(addr: string, startedAt: int, version: nat): Sys {
    Sys(E.Started(addr, startedAt, version), M.INITIAL, map[], map[], map[], map[], map[])
  }

  /** The configuration of a version; version 0 is the zero value a component starts with. */
  function ConfigAt(m: M.Mirror, version: nat): MirrorConfig {
    if 1 <= version <= |m.hist| then m.hist[version - 1] else MirrorConfig(false, 0.0, "", "", "")
  }

  function ConfigOf(id: Id, r: Ramp, ratio: real): MirrorConfig {
    RampConfig(id, r.target, r.active, ratio)
  }

  /** The coordinator reads this instance's published state; other instances answer at will. */
  predicate InstanceReady(c: Config, s: Sys, target: Id, up: bool, otherReady: bool) {
    up && if target == c.me then s.eng.sh.node.rec.state in {Ready, Active} else otherReady
  }

  function WriteIf(m: M.Mirror, up: bool, cfg: MirrorConfig): M.Mirror {
    if up then M.Do(m, M.Write(cfg)) else m
  }

  /** The configuration a ramp writes at its current step, if it writes there. */
  function RampWrite(c: Config, id: Id, r: Ramp): Option<MirrorConfig> {
    match r.pc
    case WriteZero => Some(ConfigOf(id, r, 0.0))
    case WriteStep(i) => Some(ConfigOf(id, r, if i < |c.steps| then c.steps[i] else 1.0))
    case WriteHold => Some(ConfigOf(id, r, 1.0))
    case WriteLast => Some(ConfigOf(id, r, 1.0))
    case _ => None
  }

  /** Where the ramp goes next, given what it reads there. */
  function RampNext(c: Config, r: Ramp, ready: bool, beforeDeadline: bool): Ramp {
    match r.pc
    case WriteZero => r.(pc := if |c.steps| > 0 then WriteStep(0) else HoldCheck)
    case WriteStep(i) => r.(pc := CheckStep(i))
    case CheckStep(i) =>
      r.(pc := if !ready && i + 1 < |c.steps| then WriteStep(i + 1) else HoldCheck, saw := r.saw || ready)
    case HoldCheck => r.(pc := if ready then WriteLast else HoldClock, saw := r.saw || ready)
    case HoldClock => r.(pc := if beforeDeadline then WriteHold else WriteLast)
    case WriteHold => r.(pc := HoldCheck)
    case WriteLast => r.(pc := MarkHolding)
    case MarkHolding => r.(pc := Finished)
    case Finished => r
  }

  function RampMove(c: Config, s: Sys, id: Id, up: bool, otherReady: bool, beforeDeadline: bool): Sys
    requires id in s.ramps
  {
    var r := s.ramps[id];
    var w := RampWrite(c, id, r);
    s.(m := if w.Some? then WriteIf(s.m, up, w.value) else s.m,
       sessions := if r.pc.MarkHolding? then Held(s.sessions, id) else s.sessions,
       ramps := s.ramps[id := RampNext(c, r, InstanceReady(c, s, r.target, up, otherReady), beforeDeadline)])
  }

  function Do(c: Config, s: Sys, step: Step): Sys {
    match step
    case Eng(e) => if e.Deliver? then s else s.(eng := E.Do(EngineConfig(c), s.eng, e))
    case Follow(f) => if f.Write? || f.Take? then s else s.(m := M.Do(s.m, f))
    case Receive =>
      if s.eng.watch.Idle? && s.m.loop.taken < |s.m.loop.sent|
      then s.(eng := E.Do(EngineConfig(c), s.eng, E.Deliver(ConfigAt(s.m, s.m.loop.sent[s.m.loop.taken]))),
              m := M.Do(s.m, M.Take))
      else s
    case Create(id, target, active, readyAfter) =>
      if id in s.sessions || id in s.ramps then s
      else s.(sessions := s.sessions[id := Session(id, target, active, readyAfter, Running)],
              ramps := s.ramps[id := Ramp(target, active, WriteZero, false)])
    case RampStep(id, up, otherReady, beforeDeadline) =>
      if id in s.ramps then RampMove(c, s, id, up, otherReady, beforeDeadline) else s
    case CompleteLock(tid, id) =>
      if tid in s.completing || id !in s.sessions || s.sessions[id].status == Completed then s
      else var t := s.sessions[id].target;
           s.(sessions := s.sessions[id := Released(s.sessions[id])],
              completing := s.completing[tid := Completing(id, t)])
    case CompleteWrite(tid, up) =>
      if tid !in s.completing then s
      else var k := s.completing[tid];
           s.(m := WriteIf(s.m, up, PromoteConfig(k.session, k.target)), completing := s.completing - {tid})
    case Delete(id) => s.(sessions := s.sessions - {id})
    case SetMirror(cfg) => s.(m := M.Do(s.m, M.Write(cfg)))
    case Refresh(inst) => s.(inst := inst)
    case Arrive(rid) =>
      if rid in s.requests then s
      else s.(requests := s.requests[rid := Request(s.m.proxy.cache, s.inst)])
    case Forward(rid) => s.(requests := s.requests - {rid})
  }

  function Exec(c: Config, s: Sys, steps: seq<Step>): Sys
    decreases |steps|
  {
    if steps == [] then s else Exec(c, Do(c, s, steps[0]), steps[1..])
  }

  lemma ExecCons(c: Config, s: Sys, a: Step, rest: seq<Step>)
    ensures Exec(c, s, [a] + rest) == Exec(c, Do(c, s, a), rest)
  {
    assert ([a] + rest)[1..] == rest;
  }

  lemma ExecOne(c: Config, s: Sys, step: Step)
    ensures Exec(c, s, [step]) == Do(c, s, step)
  {
    assert [step][1..] == [];
  }

  lemma {:induction false} ExecSplits(c: Config, s: Sys, a: seq<Step>, b: seq<Step>)
    ensures Exec(c, s, a + b) == Exec(c, Exec(c, s, a), b)
    decreases |a|
  {
    if a == [] {
      assert a + b == b;
    } else {
      assert (a + b)[1..] == a[1..] + b;
      ExecSplits(c, Do(c, s, a[0]), a[1..], b);
    }
  }

  // ----- The proxy's decision for one request

  /** Where the client's request goes; None is the 503 answer. */
  function Route(cfg: MirrorConfig, inst: map<Id, string>): Option<string> {
    if cfg.active in inst && inst[cfg.active] != "" then Some(inst[cfg.active]) else None
  }

  /** The address a copy goes to, given the random draw in [0, 1). */
  function MirrorTo(cfg: MirrorConfig, inst: map<Id, string>, isGet: bool, draw: real): Option<string> {
    if Route(cfg, inst).Some? && isGet && cfg.enabled && cfg.ratio > 0.0 && draw < cfg.ratio
       && cfg.target in inst && inst[cfg.target] != ""
    then Some(inst[cfg.target]) else None
  }

  /** Whatever else is registered, a client's request goes to the address of the active instance, and nowhere when
      that has none: the target's entry, the ratio and the session do not matter. */
  lemma ClientsGoToTheActive(cfg: MirrorConfig, inst: map<Id, string>, addr: string)
    ensures addr != "" ==> Route(cfg, inst[cfg.active := addr]) == Some(addr)
    ensures Route(cfg, inst[cfg.active := ""]) == Route(cfg, inst - {cfg.active}) == None
    ensures forall cfg': MirrorConfig :: cfg'.active == cfg.active ==> Route(cfg', inst) == Route(cfg, inst)
  {
  }

  /** A copy of a routed GET goes where a client would go if the target were active, for exactly the draws below the
      ratio; for a draw in [0, 1) that is never at ratio 0 and always at ratio 1. */
  lemma CopiesGoToTheTarget(cfg: MirrorConfig, inst: map<Id, string>, isGet: bool, draw: real)
    requires 0.0 <= draw < 1.0
    ensures MirrorTo(cfg, inst, isGet, draw)
         == if isGet && cfg.enabled && draw < cfg.ratio && Route(cfg, inst).Some?
            then Route(cfg.(active := cfg.target), inst) else None
  {
  }

  /** While a session ramps, clients go to its old active instance and copies to its target; once it is completed,
      clients go to the target and no copies are made. */
  lemma RoutingOfSessionConfigs(id: Id, r: Ramp, inst: map<Id, string>, ratio: real, isGet: bool, draw: real)
    requires 0.0 <= draw < 1.0 && r.active in inst && inst[r.active] != "" && r.target in inst && inst[r.target] != ""
    ensures Route(ConfigOf(id, r, ratio), inst) == Some(inst[r.active])
    ensures MirrorTo(ConfigOf(id, r, ratio), inst, isGet, draw)
         == if isGet && draw < ratio then Some(inst[r.target]) else None
    ensures Route(PromoteConfig(id, r.target), inst) == Some(inst[r.target])
    ensures MirrorTo(PromoteConfig(id, r.target), inst, isGet, draw) == None
  {
  }

  /** Where a request in flight is sent. */
  function SentTo(s: Sys, rid: nat): Option<string>
    requires rid in s.requests
  {
    Route(ConfigAt(s.m, s.requests[rid].version), s.requests[rid].inst)
  }

  /** A client's request goes to this instance's address, which in its snapshot nobody else has. */
  ghost predicate ForwardsToMe(c: Config, s: Sys, rid: nat) {
    && rid in s.requests && c.me in s.requests[rid].inst
    && SentTo(s, rid) == Some(s.requests[rid].inst[c.me])
    && forall id :: id in s.requests[rid].inst && s.requests[rid].inst[id] == s.requests[rid].inst[c.me] ==> id == c.me
  }

  /** So the configuration it works from names this instance active. */
  lemma ForwardedUnderMyConfig(c: Config, s: Sys, rid: nat)
    requires ForwardsToMe(c, s, rid)
    ensures ConfigAt(s.m, s.requests[rid].version).active == c.me
  {
  }

  /** A version stands for one configuration for ever: the one written as that version. */
  lemma VersionsAreStable(m: M.Mirror, cfg: MirrorConfig, v: nat)
    ensures v <= |m.hist| ==> ConfigAt(M.Do(m, M.Write(cfg)), v) == ConfigAt(m, v)
    ensures ConfigAt(M.Do(m, M.Write(cfg)), |m.hist| + 1) == cfg
  {
  }

  /** A request is routed by what the proxy holds when it arrives, fresh or not. */
  lemma ArrivalTakesTheCache(c: Config, s: Sys, rid: nat)
    requires rid !in s.requests
    ensures var t := Do(c, s, Arrive(rid));
            rid in t.requests && SentTo(t, rid) == Route(ConfigAt(s.m, s.m.proxy.cache), s.inst)
  {
  }

  lemma SnapshotStep(c: Config, s: Sys, rid: nat, step: Step)
    requires rid in s.requests && s.requests[rid].version <= |s.m.hist| && step != Forward(rid)
    ensures var t := Do(c, s, step);
            && rid in t.requests && t.requests[rid] == s.requests[rid]
            && |s.m.hist| <= |t.m.hist| && SentTo(t, rid) == SentTo(s, rid)
  {
    hide E.Do;
  }

  /** What happens after a request has arrived does not change where it goes. */
  lemma {:induction false} RequestKeepsItsSnapshot(c: Config, s: Sys, rid: nat, steps: seq<Step>)
    requires rid in s.requests && s.requests[rid].version <= |s.m.hist| && Forward(rid) !in steps
    ensures var t := Exec(c, s, steps); rid in t.requests && SentTo(t, rid) == SentTo(s, rid)
    decreases |steps|
  {
    hide Do, SentTo;
    if steps != [] {
      SnapshotStep(c, s, rid, steps[0]);
      RequestKeepsItsSnapshot(c, Do(c, s, steps[0]), rid, steps[1..]);
    }
  }

  // ----- The discipline of a benchmark session

  /** Reset-free; complete is called on a holding session, and on a session for this instance only if
      its ramp has read it ready; nobody else names this instance active. */
  ghost predicate Allowed(c: Config, s: Sys, step: Step) {
    match step
    case Eng(e) => !e.ResetCall?
    case Create(_, _, active, _) => active != c.me
    case SetMirror(cfg) => cfg.active != c.me
    case CompleteLock(_, id) =>
      id in s.sessions && s.sessions[id].status != Completed ==>
        && s.sessions[id].status == Holding
        && (s.sessions[id].target == c.me ==> id in s.ramps && s.ramps[id].saw)
    case _ => true
  }

  ghost predicate Disciplined(c: Config, s: Sys, steps: seq<Step>)
    decreases |steps|
  {
    steps == [] || (Allowed(c, s, steps[0]) && Disciplined(c, Do(c, s, steps[0]), steps[1..]))
  }

  // ----- The invariant

  /** What one positive readiness read proves for the rest of the run. */
  ghost predicate Warm(c: Config, sh: E.Shared) {
    sh.count >= c.readyAfter && PastWarming(sh.fsm)
  }

  ghost predicate Settled(sh: E.Shared) {
    sh.fsm == Active || sh.fsm == Failed
  }

  ghost predicate HandledMe(c: Config, m: M.Mirror) {
    0 < m.loop.taken <= |m.loop.sent| && ConfigAt(m, m.loop.sent[m.loop.taken - 1]).active == c.me
  }

  /** The watch goroutine works on the last configuration received, and leaves the instance settled
      once it is through with one that names the instance active. */
  ghost predicate WatchFollows(c: Config, sh: E.Shared, pc: E.WatchPc, m: M.Mirror) {
    match pc
    case WarmGate(cfg) => HandledMe(c, m) <==> cfg.active == c.me
    case WToWarming(cfg) => HandledMe(c, m) <==> cfg.active == c.me
    case WPublishWarming(cfg, _) => HandledMe(c, m) <==> cfg.active == c.me
    case ActiveGate(cfg) => HandledMe(c, m) <==> cfg.active == c.me
    case WToActive(_) => true
    case WPublishActive(_, _) => true
    case Stopped => sh.fsm == Failed
    case _ => HandledMe(c, m) ==> Settled(sh)
  }

  ghost predicate EngineOk(c: Config, e: E.Engine, m: M.Mirror) {
    && e.reset.NoReset?
    && E.Inv(EngineConfig(c), e)
    && WatchFollows(c, e.sh, e.watch, m)
  }

  ghost predicate RampOk(c: Config, sh: E.Shared, r: Ramp) {
    r.active != c.me && (r.saw && r.target == c.me ==> Warm(c, sh))
  }

  /** Whoever may write a configuration that names this instance active has proof that it is warm. */
  ghost predicate WritersOk(c: Config, sh: E.Shared, ramps: map<Id, Ramp>, completing: map<nat, Completing>) {
    && (forall id :: id in ramps ==> RampOk(c, sh, ramps[id]))
    && (forall tid :: tid in completing && completing[tid].target == c.me ==> Warm(c, sh))
  }

  /** A session past running has no ramp left; one being completed stays marked so. */
  ghost predicate SessionsOk(sessions: map<Id, Session>, ramps: map<Id, Ramp>, completing: map<nat, Completing>) {
    && (forall id :: id in sessions ==>
          && id in ramps && ramps[id].target == sessions[id].target
          && (sessions[id].status != Running ==> ramps[id].pc.Finished?))
    && (forall tid :: tid in completing ==>
          var k := completing[tid];
          k.session in ramps
          && (k.session in sessions ==>
                sessions[k.session].status == Completed && sessions[k.session].target == k.target))
  }

  ghost predicate StoreOk(c: Config, sh: E.Shared, m: M.Mirror, requests: map<nat, Request>) {
    && M.Inv(m)
    && (forall i :: 0 <= i < |m.hist| && m.hist[i].active == c.me ==> Warm(c, sh))
    && (forall rid :: rid in requests ==> requests[rid].version <= |m.hist|)
  }

  ghost predicate Inv(c: Config, s: Sys) {
    && EngineOk(c, s.eng, s.m)
    && StoreOk(c, s.eng.sh, s.m, s.requests)
    && WritersOk(c, s.eng.sh, s.ramps, s.completing)
    && SessionsOk(s.sessions, s.ramps, s.completing)
  }

  lemma WatchStepFollows(c: Config, s: Sys, up: bool)
    requires EngineOk(c, s.eng, s.m) && (HandledMe(c, s.m) ==> Warm(c, s.eng.sh))
    ensures var (sh, pc) := E.MoveWatch(EngineConfig(c), s.eng.sh, s.eng.watch, up);
            WatchFollows(c, sh, pc, s.m)
  {
  }

  lemma HandledIsWarm(c: Config, s: Sys)
    requires Inv(c, s) && HandledMe(c, s.m)
    ensures Warm(c, s.eng.sh)
  {
  }

  lemma EngineStepKeepsInv(c: Config, s: Sys, e: E.Step)
    requires Inv(c, s) && !e.ResetCall? && !e.Deliver?
    ensures Inv(c, Do(c, s, Eng(e)))
  {
    hide E.Inv, M.Inv;
    E.StepKeepsInv(EngineConfig(c), s.eng, e);
    match e
    case Watch(up) =>
      if HandledMe(c, s.m) { HandledIsWarm(c, s); }
      WatchStepFollows(c, s, up);
    case _ =>
  }

  lemma ReceiveKeepsInv(c: Config, s: Sys)
    requires Inv(c, s)
    ensures Inv(c, Do(c, s, Receive))
  {
    var t := Do(c, s, Receive);
    M.StepKeepsInv(s.m, M.Take);
    if t != s {
      E.StepKeepsInv(EngineConfig(c), s.eng, E.Deliver(ConfigAt(s.m, s.m.loop.sent[s.m.loop.taken])));
    }
  }

  lemma FollowKeepsInv(c: Config, s: Sys, f: M.Step)
    requires Inv(c, s)
    ensures Inv(c, Do(c, s, Follow(f)))
  {
    hide E.Inv, E.Do;
    M.StepKeepsInv(s.m, f);
    if !f.Write? && !f.Take? {
      assert HandledMe(c, M.Do(s.m, f)) <==> HandledMe(c, s.m);
    }
  }

  /** A write that names this instance active only when it is warm keeps everything. */
  lemma WriteKeepsInv(c: Config, e: E.Engine, m: M.Mirror, requests: map<nat, Request>, cfg: MirrorConfig)
    requires EngineOk(c, e, m) && StoreOk(c, e.sh, m, requests)
    requires cfg.active == c.me ==> Warm(c, e.sh)
    ensures EngineOk(c, e, M.Do(m, M.Write(cfg))) && StoreOk(c, e.sh, M.Do(m, M.Write(cfg)), requests)
  {
    M.StepKeepsInv(m, M.Write(cfg));
    assert HandledMe(c, M.Do(m, M.Write(cfg))) <==> HandledMe(c, m);
  }

  /** A positive readiness read of this instance is proof that it is warm. */
  lemma ReadyReadIsProof(c: Config, s: Sys, target: Id, up: bool, otherReady: bool)
    requires EngineOk(c, s.eng, s.m) && target == c.me && InstanceReady(c, s, target, up, otherReady)
    ensures Warm(c, s.eng.sh)
  {
  }

  /** And the other way round: a read that gets through sees an instance ready whose record says Ready or Active. */
  lemma ReadyIsSeen(c: Config, s: Sys, up: bool, otherReady: bool)
    ensures InstanceReady(c, s, c.me, up, otherReady) <==>
            up && (s.eng.sh.node.rec.state == Ready || s.eng.sh.node.rec.state == Active)
  {
  }

  lemma RampNextOk(c: Config, sh: E.Shared, r: Ramp, ready: bool, beforeDeadline: bool)
    requires RampOk(c, sh, r) && (ready && r.target == c.me ==> Warm(c, sh))
    ensures var n := RampNext(c, r, ready, beforeDeadline);
            RampOk(c, sh, n) && n.target == r.target && n.active == r.active
  {
  }

  lemma RampStoreOk(c: Config, s: Sys, id: Id, up: bool, r: Ramp)
    requires EngineOk(c, s.eng, s.m) && StoreOk(c, s.eng.sh, s.m, s.requests) && RampOk(c, s.eng.sh, r)
    ensures var w := RampWrite(c, id, r);
            var m := if w.Some? then WriteIf(s.m, up, w.value) else s.m;
            EngineOk(c, s.eng, m) && StoreOk(c, s.eng.sh, m, s.requests)
  {
    var w := RampWrite(c, id, r);
    if w.Some? {
      WriteKeepsInv(c, s.eng, s.m, s.requests, w.value);
    }
  }

  lemma SessionsKept(c: Config, s: Sys, id: Id, ready: bool, beforeDeadline: bool)
    requires SessionsOk(s.sessions, s.ramps, s.completing) && id in s.ramps
    ensures var r := s.ramps[id];
            var sessions := if r.pc.MarkHolding? then Held(s.sessions, id) else s.sessions;
            SessionsOk(sessions, s.ramps[id := RampNext(c, r, ready, beforeDeadline)], s.completing)
  {
  }

  lemma RampStepKeepsInv(c: Config, s: Sys, id: Id, up: bool, otherReady: bool, beforeDeadline: bool)
    requires Inv(c, s) && id in s.ramps
    ensures Inv(c, RampMove(c, s, id, up, otherReady, beforeDeadline))
  {
    var r := s.ramps[id];
    var ready := InstanceReady(c, s, r.target, up, otherReady);
    assert RampOk(c, s.eng.sh, r);
    if ready && r.target == c.me {
      ReadyReadIsProof(c, s, r.target, up, otherReady);
    }
    RampNextOk(c, s.eng.sh, r, ready, beforeDeadline);
    RampStoreOk(c, s, id, up, r);
    var n := RampNext(c, r, ready, beforeDeadline);
    assert WritersOk(c, s.eng.sh, s.ramps[id := n], s.completing);
    SessionsKept(c, s, id, ready, beforeDeadline);
  }

  lemma CompleteKeepsInv(c: Config, s: Sys, step: Step)
    requires Inv(c, s) && Allowed(c, s, step) && (step.CompleteLock? || step.CompleteWrite?)
    ensures Inv(c, Do(c, s, step))
  {
    match step
    case CompleteLock(tid, id) =>
    case CompleteWrite(tid, up) =>
      if tid in s.completing && up {
        WriteKeepsInv(c, s.eng, s.m, s.requests, PromoteConfig(s.completing[tid].session, s.completing[tid].target));
      }
  }

  lemma ProxyKeepsInv(c: Config, s: Sys, step: Step)
    requires Inv(c, s) && (step.Refresh? || step.Arrive? || step.Forward? || step.Delete? || step.Create?)
    requires Allowed(c, s, step)
    ensures Inv(c, Do(c, s, step))
  {
    hide E.Inv, WatchFollows, E.Do, M.Do;
  }

  lemma StepKeepsInv(c: Config, s: Sys, step: Step)
    requires Inv(c, s) && Allowed(c, s, step)
    ensures Inv(c, Do(c, s, step))
  {
    match step
    case Eng(e) => if !e.Deliver? { EngineStepKeepsInv(c, s, e); }
    case Follow(f) => FollowKeepsInv(c, s, f);
    case Receive => ReceiveKeepsInv(c, s);
    case RampStep(id, up, otherReady, beforeDeadline) =>
      if id in s.ramps { RampStepKeepsInv(c, s, id, up, otherReady, beforeDeadline); }
    case SetMirror(cfg) => WriteKeepsInv(c, s.eng, s.m, s.requests, cfg);
    case CompleteLock(_, _) => CompleteKeepsInv(c, s, step);
    case CompleteWrite(_, _) => CompleteKeepsInv(c, s, step);
    case _ => ProxyKeepsInv(c, s, step);
  }

  lemma {:induction false} RunsKeepInv(c: Config, s: Sys, steps: seq<Step>)
    requires Inv(c, s) && Disciplined(c, s, steps)
    ensures Inv(c, Exec(c, s, steps))
    decreases |steps|
  {
    if steps != [] {
      StepKeepsInv(c, s, steps[0]);
      RunsKeepInv(c, Do(c, s, steps[0]), steps[1..]);
    }
  }

  /** End to end: in every disciplined run, whenever the proxy sends a client's request to this instance's address,
      the instance has served at least `readyAfter` shadow requests. */
  lemma PromotionSafety(c: Config, addr: string, startedAt: int, version: nat, steps: seq<Step>, rid: nat)
    requires c.me != "" && Disciplined(c, Begin(addr, startedAt, version), steps)
    ensures var s := Exec(c, Begin(addr, startedAt, version), steps);
            ForwardsToMe(c, s, rid) ==> s.eng.sh.count >= c.readyAfter && s.eng.sh.fsm in {Ready, Active, Failed}
  {
    RunsKeepInv(c, Begin(addr, startedAt, version), steps);
    var s := Exec(c, Begin(addr, startedAt, version), steps);
    if ForwardsToMe(c, s, rid) {
      ForwardedUnderMyConfig(c, s, rid);
    }
  }

  // ----- Completion sticks and converges

  /** The steps of everyone who writes no configuration: engine, followers, proxy, clients, ramps that
      have ended, and repeated completes of the same session. */
  predicate NonWriting(step: Step, id: Id) {
    match step
    case Create(_, _, _, _) => false
    case SetMirror(_) => false
    case Delete(_) => false
    case CompleteLock(_, other) => other == id
    case Eng(e) => !e.ResetCall?
    case _ => true
  }

  predicate AllNonWriting(steps: seq<Step>, id: Id) {
    forall i :: 0 <= i < |steps| ==> NonWriting(steps[i], id)
  }

  ghost predicate Promoted(s: Sys, id: Id) {
    && id in s.sessions && s.sessions[id].status == Completed
    && |s.m.hist| > 0 && s.m.hist[|s.m.hist| - 1] == PromoteConfig(id, s.sessions[id].target)
  }

  ghost predicate NoWriterLeft(s: Sys) {
    s.completing == map[] && forall k :: k in s.ramps ==> s.ramps[k].pc.Finished?
  }

  lemma StickingStep(c: Config, s: Sys, id: Id, step: Step)
    requires Promoted(s, id) && NoWriterLeft(s) && NonWriting(step, id)
    ensures var t := Do(c, s, step);
            Promoted(t, id) && NoWriterLeft(t) && t.m.hist == s.m.hist && t.sessions == s.sessions
  {
    hide E.Do, M.Do;
    M.OnlyWritesStore(s.m, M.Take);
    if step.Follow? && !step.f.Write? {
      M.OnlyWritesStore(s.m, step.f);
    }
    assert Do(c, s, step).ramps == s.ramps;
  }

  /** With no writer left, a completed session stays completed and its configuration stays stored. */
  lemma {:induction false} CompletionSticks(c: Config, s: Sys, id: Id, steps: seq<Step>)
    requires Promoted(s, id) && NoWriterLeft(s) && AllNonWriting(steps, id)
    ensures var t := Exec(c, s, steps);
            Promoted(t, id) && NoWriterLeft(t) && t.m.hist == s.m.hist && t.sessions == s.sessions
    decreases |steps|
  {
    hide Do, Promoted, NoWriterLeft, NonWriting;
    if steps != [] {
      assert NonWriting(steps[0], id);
      StickingStep(c, s, id, steps[0]);
      CompletionSticks(c, Do(c, s, steps[0]), id, steps[1..]);
    }
  }

  lemma {:induction false} NonWritingIsDisciplined(c: Config, s: Sys, id: Id, steps: seq<Step>)
    requires Promoted(s, id) && NoWriterLeft(s) && AllNonWriting(steps, id)
    ensures Disciplined(c, s, steps)
    decreases |steps|
  {
    if steps != [] {
      assert NonWriting(steps[0], id);
      var one := [steps[0]];
      assert one[1..] == [];
      CompletionSticks(c, s, id, one);
      assert Exec(c, s, one) == Do(c, s, steps[0]);
      NonWritingIsDisciplined(c, Do(c, s, steps[0]), id, steps[1..]);
    }
  }

  /** WatchMirror waits on a watch that has not fired, and all it has sent has been received. */
  predicate LoopDrained(l: M.Loop) {
    l.pc.Waiting? && l.armed && l.taken == |l.sent|
  }

  /** The watch has nothing left to do: everything sent has been received and handled, and the loop waits on a
      watch that has not fired; or the goroutine has returned. */
  predicate Drained(s: Sys) {
    s.eng.watch.Stopped? || (s.eng.watch.Idle? && LoopDrained(s.m.loop))
  }

  /** The state in which the last writer, the complete handler `tid` of session `id`, is about to write. */
  ghost predicate AboutToPromote(c: Config, s: Sys, tid: nat, id: Id) {
    && s.completing == map[tid := Completing(id, c.me)]
    && id in s.sessions
    && forall k :: k in s.ramps ==> s.ramps[k].pc.Finished?
  }

  lemma PromoteRests(c: Config, s: Sys, tid: nat, id: Id)
    requires Inv(c, s) && AboutToPromote(c, s, tid, id)
    ensures var t := Do(c, s, CompleteWrite(tid, true));
            Inv(c, t) && Promoted(t, id) && NoWriterLeft(t) && t.sessions[id].target == c.me
  {
    assert s.completing[tid] == Completing(id, c.me);
    StepKeepsInv(c, s, CompleteWrite(tid, true));
  }

  lemma DrainedIsSettled(c: Config, u: Sys, id: Id)
    requires Inv(c, u) && Promoted(u, id) && u.sessions[id].target == c.me
    ensures Drained(u) ==> Settled(u.eng.sh)
  {
    if Drained(u) && !u.eng.watch.Stopped? {
      assert u.m.loop.sent[|u.m.loop.sent| - 1] == |u.m.hist|;
      assert HandledMe(c, u.m);
    }
  }

  lemma BeginsWell(c: Config, addr: string, startedAt: int, version: nat)
    requires c.me != ""
    ensures Inv(c, Begin(addr, startedAt, version))
  {
  }

  /** On the discipline of a benchmark session the promotion is final, and once the watch is drained
      the instance is Active, or Failed by its timeout. */
  lemma CompletionConverges(c: Config, addr: string, startedAt: int, version: nat,
                            before: seq<Step>, tid: nat, id: Id, after: seq<Step>)
    requires c.me != "" && Disciplined(c, Begin(addr, startedAt, version), before)
    requires AboutToPromote(c, Exec(c, Begin(addr, startedAt, version), before), tid, id)
    requires AllNonWriting(after, id)
    ensures var t := Do(c, Exec(c, Begin(addr, startedAt, version), before), CompleteWrite(tid, true));
            var u := Exec(c, t, after);
            && id in u.sessions && u.sessions[id].status == Completed
            && |u.m.hist| > 0 && u.m.hist[|u.m.hist| - 1] == MirrorConfig(false, 0.0, c.me, c.me, id)
            && (Drained(u) ==> u.eng.sh.fsm in {Active, Failed})
  {
    hide Do, Inv, Exec, Disciplined, NoWriterLeft, AllNonWriting, Drained, Begin;
    var s := Exec(c, Begin(addr, startedAt, version), before);
    BeginsWell(c, addr, startedAt, version);
    RunsKeepInv(c, Begin(addr, startedAt, version), before);
    PromoteRests(c, s, tid, id);
    var t := Do(c, s, CompleteWrite(tid, true));
    CompletionSticks(c, t, id, after);
    NonWritingIsDisciplined(c, t, id, after);
    RunsKeepInv(c, t, after);
    DrainedIsSettled(c, Exec(c, t, after), id);
  }

  // ----- Draining is always possible

  /** The steps that carry a configuration from the store to the instance. */
  predicate DrainStep(step: Step) {
    match step
    case Eng(e) => e.Watch?
    case Receive => true
    case Follow(f) => f.Get? || f.Send? || f.Wake?
    case _ => false
  }

  predicate AllDrain(steps: seq<Step>) {
    forall i :: 0 <= i < |steps| ==> DrainStep(steps[i])
  }

  ghost predicate CanReach(c: Config, s: Sys, t: Sys) {
    exists steps :: AllDrain(steps) && Exec(c, s, steps) == t
  }

  lemma ReachMore(c: Config, s: Sys, t: Sys, step: Step)
    requires CanReach(c, s, t) && DrainStep(step)
    ensures CanReach(c, s, Do(c, t, step))
  {
    hide Do, DrainStep;
    var steps :| AllDrain(steps) && Exec(c, s, steps) == t;
    ExecSplits(c, s, steps, [step]);
    ExecOne(c, t, step);
    assert AllDrain(steps + [step]);
  }

  /** The watch goroutine brought to the end of what it is handling. */
  lemma {:induction false} WatchToRest(c: Config, s: Sys, t: Sys) returns (u: Sys)
    requires CanReach(c, s, t)
    ensures CanReach(c, s, u) && u.m == t.m && (u.eng.watch.Idle? || u.eng.watch.Stopped?)
    decreases E.WatchLeft(t.eng.watch)
  {
    if t.eng.watch.Idle? || t.eng.watch.Stopped? {
      u := t;
    } else {
      ReachMore(c, s, t, Eng(E.Watch(true)));
      u := WatchToRest(c, s, Do(c, t, Eng(E.Watch(true))));
    }
  }

  lemma ReceiveAndRest(c: Config, s: Sys, t: Sys) returns (u: Sys)
    requires CanReach(c, s, t) && (t.eng.watch.Idle? || t.eng.watch.Stopped?)
    ensures CanReach(c, s, u) && (u.eng.watch.Idle? || u.eng.watch.Stopped?)
    ensures u.eng.watch.Stopped? || u.m == M.Do(t.m, M.Take)
  {
    if t.eng.watch.Stopped? {
      u := t;
    } else {
      ReachMore(c, s, t, Receive);
      assert Do(c, t, Receive).m == M.Do(t.m, M.Take);
      u := WatchToRest(c, s, Do(c, t, Receive));
    }
  }

  lemma FollowOn(c: Config, s: Sys, t: Sys, f: M.Step) returns (u: Sys)
    requires CanReach(c, s, t) && DrainStep(Follow(f))
    ensures CanReach(c, s, u) && u.m == M.Do(t.m, f) && u.eng == t.eng
  {
    ReachMore(c, s, t, Follow(f));
    u := Do(c, t, Follow(f));
  }

  /** From every state with a stored configuration some continuation of the watch alone drains it. */
  lemma DrainingIsPossible(c: Config, s: Sys)
    requires M.Inv(s.m) && |s.m.hist| > 0
    ensures exists steps :: AllDrain(steps) && Drained(Exec(c, s, steps))
  {
    assert AllDrain([]) && Exec(c, s, []) == s;
    var u := WatchToRest(c, s, s);
    u := ReceiveAndRest(c, s, u);
    if !u.eng.watch.Stopped? {
      u := FollowOn(c, s, u, M.Send);
      u := ReceiveAndRest(c, s, u);
      if !u.eng.watch.Stopped? {
        assert u.m == M.Drained(s.m);
        M.DrainEmpties(s.m);
        M.RefetchDelivers(u.m);
        var d := u.m;
        u := FollowOn(c, s, u, M.Wake);
        u := FollowOn(c, s, u, M.Get(true));
        u := FollowOn(c, s, u, M.Send);
        u := ReceiveAndRest(c, s, u);
        assert u.eng.watch.Stopped? || u.m == M.Refetched(d);
      }
    }
    assert Drained(u);
  }

  lemma DrainIsNonWriting(steps: seq<Step>, id: Id)
    requires AllDrain(steps)
    ensures AllNonWriting(steps, id) && AllCalm(steps, id)
  {
    forall i | 0 <= i < |steps|
      ensures NonWriting(steps[i], id) && Calm(steps[i], id)
    {
      assert DrainStep(steps[i]);
    }
  }

  // ----- When completion does not stick

  /** Nobody is about to write another configuration or to mark this session again: its own ramp has ended,
      every other one has made its last write, and whoever is completing writes what is stored already. */
  ghost predicate NobodyOverwrites(s: Sys, id: Id) {
    && id in s.sessions
    && (forall k :: k in s.ramps ==> s.ramps[k].pc.Finished? || (k != id && s.ramps[k].pc.MarkHolding?))
    && (forall tid :: tid in s.completing ==> s.completing[tid] == Completing(id, s.sessions[id].target))
  }

  lemma LastingStep(c: Config, s: Sys, id: Id, step: Step)
    requires Promoted(s, id) && NobodyOverwrites(s, id) && NonWriting(step, id)
    ensures Promoted(Do(c, s, step), id) && NobodyOverwrites(Do(c, s, step), id)
  {
    hide E.Do;
  }

  lemma {:induction false} CompletionLasts(c: Config, s: Sys, id: Id, steps: seq<Step>)
    requires Promoted(s, id) && NobodyOverwrites(s, id) && AllNonWriting(steps, id)
    ensures Promoted(Exec(c, s, steps), id)
    decreases |steps|
  {
    hide Do, Promoted, NobodyOverwrites, NonWriting;
    if steps != [] {
      assert NonWriting(steps[0], id);
      LastingStep(c, s, id, steps[0]);
      CompletionLasts(c, Do(c, s, steps[0]), id, steps[1..]);
    }
  }

  ghost predicate CanBeUndone(c: Config, s: Sys, id: Id) {
    exists steps :: AllNonWriting(steps, id) && !Promoted(Exec(c, s, steps), id)
  }

  lemma Unstick(c: Config, s: Sys, id: Id, step: Step)
    requires NonWriting(step, id) && !Promoted(Do(c, s, step), id)
    ensures CanBeUndone(c, s, id)
  {
    hide Do, Promoted, NonWriting;
    ExecOne(c, s, step);
    assert AllNonWriting([step], id);
  }

  lemma UnstickLater(c: Config, s: Sys, id: Id, step: Step)
    requires NonWriting(step, id) && CanBeUndone(c, Do(c, s, step), id)
    ensures CanBeUndone(c, s, id)
  {
    hide Do, Promoted, NonWriting;
    var rest :| AllNonWriting(rest, id) && !Promoted(Exec(c, Do(c, s, step), rest), id);
    ExecCons(c, s, step, rest);
    assert AllNonWriting([step] + rest, id);
  }

  /** A ramp that has not ended writes again, or marks its own session holding, whatever is done meanwhile. */
  lemma {:induction false} RunningRampOverwrites(c: Config, s: Sys, id: Id, k: Id)
    requires Promoted(s, id) && k in s.ramps && !s.ramps[k].pc.Finished? && (k != id ==> !s.ramps[k].pc.MarkHolding?)
    ensures CanBeUndone(c, s, id)
    decreases match s.ramps[k].pc
              case CheckStep(_) => 3
              case HoldCheck => 2
              case HoldClock => 1
              case _ => 0
  {
    var pc := s.ramps[k].pc;
    var step := RampStep(k, !pc.CheckStep? && !pc.HoldCheck?, false, true);
    var t := Do(c, s, step);
    if pc.CheckStep? || pc.HoldCheck? || pc.HoldClock? {
      assert t.m == s.m && t.sessions == s.sessions;
      RunningRampOverwrites(c, t, id, k);
      UnstickLater(c, s, id, step);
    } else {
      if !pc.MarkHolding? {
        assert t.m.hist[|t.m.hist| - 1].enabled;
      }
      Unstick(c, s, id, step);
    }
  }

  lemma OtherCompletionOverwrites(c: Config, s: Sys, id: Id, tid: nat)
    requires Promoted(s, id) && tid in s.completing && s.completing[tid] != Completing(id, s.sessions[id].target)
    ensures CanBeUndone(c, s, id)
  {
    var t := Do(c, s, CompleteWrite(tid, true));
    var k := s.completing[tid];
    assert t.m.hist[|t.m.hist| - 1] == PromoteConfig(k.session, k.target);
    Unstick(c, s, id, CompleteWrite(tid, true));
  }

  /** From any state whatever: a completed session and its configuration last in every continuation without a
      new writer if and only if nobody in flight is about to overwrite them. */
  lemma CompletionSticksIff(c: Config, s: Sys, id: Id)
    requires Promoted(s, id)
    ensures (forall steps | AllNonWriting(steps, id) :: Promoted(Exec(c, s, steps), id)) <==> NobodyOverwrites(s, id)
  {
    if NobodyOverwrites(s, id) {
      forall steps | AllNonWriting(steps, id)
        ensures Promoted(Exec(c, s, steps), id)
      {
        CompletionLasts(c, s, id, steps);
      }
    } else if tid :| tid in s.completing && s.completing[tid] != Completing(id, s.sessions[id].target) {
      OtherCompletionOverwrites(c, s, id, tid);
    } else {
      var k :| k in s.ramps && !s.ramps[k].pc.Finished? && (k != id ==> !s.ramps[k].pc.MarkHolding?);
      RunningRampOverwrites(c, s, id, k);
    }
  }

  /** It happens: complete is called right after the session's ramp has made its first write. */
  lemma CompletionCanBeUndone(addr: string, startedAt: int, version: nat)
    ensures var c := Config("warmup-1", 1, [1.0]);
            var run := [Create("s", "warmup-1", "active-1", 1), GIVE_UP, CompleteLock(0, "s"), CompleteWrite(0, true)];
            var s := Exec(c, Begin(addr, startedAt, version), run);
            Promoted(s, "s") && CanBeUndone(c, s, "s")
  {
    var c := Config("warmup-1", 1, [1.0]);
    var s0 := Begin(addr, startedAt, version);
    var create := Create("s", "warmup-1", "active-1", 1);
    var s1 := Do(c, s0, create);
    var s2 := Do(c, s1, GIVE_UP);
    var s3 := Do(c, s2, CompleteLock(0, "s"));
    var s4 := Do(c, s3, CompleteWrite(0, true));
    assert s2.ramps["s"].pc == WriteStep(0);
    assert s3.completing[0] == Completing("s", "warmup-1");
    assert Promoted(s4, "s");
    RunningRampOverwrites(c, s4, "s", "s");
    RunOfFour(c, s0, create, GIVE_UP, CompleteLock(0, "s"), CompleteWrite(0, true));
  }

  lemma RunOfFour(c: Config, s: Sys, s1: Step, s2: Step, s3: Step, s4: Step)
    ensures Exec(c, s, [s1, s2, s3, s4]) == Do(c, Do(c, Do(c, Do(c, s, s1), s2), s3), s4)
  {
    hide Do, Exec;
    var t1 := Do(c, s, s1);
    var t2 := Do(c, t1, s2);
    ExecCons(c, s, s1, [s2, s3, s4]);
    ExecCons(c, t1, s2, [s3, s4]);
    ExecCons(c, t2, s3, [s4]);
    ExecOne(c, Do(c, t2, s3), s4);
    assert [s1, s2, s3, s4] == [s1] + [s2, s3, s4] && [s2, s3, s4] == [s2] + [s3, s4] && [s3, s4] == [s3] + [s4];
  }

  // ----- A deleted session

  lemma DeletedStep(c: Config, s: Sys, id: Id, step: Step)
    requires id !in s.sessions && id in s.ramps
    ensures id !in Do(c, s, step).sessions && id in Do(c, s, step).ramps
  {
    hide E.Do, M.Do;
  }

  /** A session that was deleted does not come back: neither its ramp, which goes on writing, nor a late complete
      enters it again. */
  lemma DeletedStaysDeleted(c: Config, s: Sys, id: Id, steps: seq<Step>)
    requires id in s.ramps
    ensures id !in Exec(c, Do(c, s, Delete(id)), steps).sessions
  {
    DeletedRuns(c, Do(c, s, Delete(id)), id, steps);
  }

  lemma {:induction false} DeletedRuns(c: Config, s: Sys, id: Id, steps: seq<Step>)
    requires id !in s.sessions && id in s.ramps
    ensures id !in Exec(c, s, steps).sessions
    decreases |steps|
  {
    hide Do;
    if steps != [] {
      DeletedStep(c, s, id, steps[0]);
      DeletedRuns(c, Do(c, s, steps[0]), id, steps[1..]);
    }
  }

  // ----- When a promotion is safe

  predicate AllResetFree(steps: seq<Step>) {
    forall i :: 0 <= i < |steps| ==> !(steps[i].Eng? && steps[i].e.ResetCall?)
  }

  lemma CountStep(c: Config, s: Sys, step: Step)
    requires !(step.Eng? && step.e.ResetCall?)
    ensures s.eng.sh.count <= Do(c, s, step).eng.sh.count
  {
    if step.Eng? && !step.e.Deliver? {
      E.CountStep(EngineConfig(c), s.eng, step.e);
    }
  }

  lemma {:induction false} CountGrows(c: Config, s: Sys, steps: seq<Step>)
    requires AllResetFree(steps)
    ensures s.eng.sh.count <= Exec(c, s, steps).eng.sh.count
    decreases |steps|
  {
    if steps != [] {
      CountStep(c, s, steps[0]);
      CountGrows(c, Do(c, s, steps[0]), steps[1..]);
    }
  }

  /** The proxy finishes its round and takes the newest configuration into its cache. */
  lemma ProxyReads(c: Config, s: Sys) returns (steps: seq<Step>)
    requires |s.m.hist| > 0 && !s.m.proxy.armed
    ensures AllResetFree(steps) && AllProxy(steps)
    ensures var t := Exec(c, s, steps);
            t == s.(m := t.m) && t.m.hist == s.m.hist && t.m.proxy.cache == |s.m.hist|
  {
    hide Exec, E.Do;
    var s1 := Do(c, s, Follow(M.ProxyAssign));
    var s2 := Do(c, s1, Follow(M.ProxyArm(false)));
    var s3 := Do(c, s2, Follow(M.ProxyWake));
    assert s3.m.proxy.pc.Reading? && s3.m.hist == s.m.hist;
    var s4 := Do(c, s3, Follow(M.ProxyRead(true)));
    var s5 := Do(c, s4, Follow(M.ProxyAssign));
    var r5: seq<Step> := [Follow(M.ProxyAssign)];
    var r4 := [Follow(M.ProxyRead(true))] + r5;
    var r3 := [Follow(M.ProxyWake)] + r4;
    var r2 := [Follow(M.ProxyArm(false))] + r3;
    steps := [Follow(M.ProxyAssign)] + r2;
    ExecCons(c, s, Follow(M.ProxyAssign), r2);
    ExecCons(c, s1, Follow(M.ProxyArm(false)), r3);
    ExecCons(c, s2, Follow(M.ProxyWake), r4);
    ExecCons(c, s3, Follow(M.ProxyRead(true)), r5);
    ExecOne(c, s4, Follow(M.ProxyAssign));
    assert s5.m.proxy.cache == |s.m.hist|;
  }

  /** Steps of the proxy and its clients. */
  predicate AllProxy(steps: seq<Step>) {
    forall i :: 0 <= i < |steps| ==>
      steps[i].Refresh? || steps[i].Arrive? ||
      (steps[i].Follow? && !steps[i].f.Write? && !steps[i].f.Take? && !steps[i].f.SessionEvent?)
  }

  /** The proxy takes the newest configuration into its cache and a client's request arrives. */
  lemma ProxyTakesOver(c: Config, s: Sys) returns (steps: seq<Step>, rid: nat)
    requires |s.m.hist| > 0 && s.m.hist[|s.m.hist| - 1].active == c.me && !s.m.proxy.armed
    ensures AllResetFree(steps) && AllProxy(steps)
    ensures var t := Exec(c, s, steps);
            ForwardsToMe(c, t, rid) && t.eng == s.eng && t.sessions == s.sessions
  {
    hide Exec, E.Do, M.Do;
    var first := ProxyReads(c, s);
    var s5 := Exec(c, s, first);
    rid := E.FreshId(s.requests.Keys);
    var refresh := Refresh(map[c.me := "addr"]);
    var s6 := Do(c, s5, refresh);
    var rest: seq<Step> := [refresh] + [Arrive(rid)];
    ExecCons(c, s5, refresh, [Arrive(rid)]);
    ExecOne(c, s6, Arrive(rid));
    steps := first + rest;
    ExecSplits(c, s, first, rest);
  }

  /** Completing a session for this instance, from any state whatever, is safe for every reset-free
      continuation exactly when the threshold had been reached by then: nothing downstream checks it. */
  lemma PromotionIsSafeIff(c: Config, s: Sys, tid: nat)
    requires tid in s.completing && s.completing[tid].target == c.me
    ensures var t := Do(c, s, CompleteWrite(tid, true));
            (forall steps, rid | AllResetFree(steps) ::
               ForwardsToMe(c, Exec(c, t, steps), rid) ==> Exec(c, t, steps).eng.sh.count >= c.readyAfter)
            <==> s.eng.sh.count >= c.readyAfter
  {
    var t := Do(c, s, CompleteWrite(tid, true));
    if s.eng.sh.count >= c.readyAfter {
      forall steps, rid | AllResetFree(steps) && ForwardsToMe(c, Exec(c, t, steps), rid)
        ensures Exec(c, t, steps).eng.sh.count >= c.readyAfter
      {
        CountGrows(c, t, steps);
      }
    } else {
      var steps, rid := ProxyTakesOver(c, t);
    }
  }

  /** A ramp whose instance is never seen ready, with the hold deadline already past. */
  const GIVE_UP: Step := RampStep("s", true, false, false)

  const COLD_RUN: seq<Step> :=
    [Create("s", "warmup-1", "active-1", 1), GIVE_UP, GIVE_UP, GIVE_UP, GIVE_UP, GIVE_UP, GIVE_UP, GIVE_UP]

  /** What the cold ramp leaves untouched on its way. */
  ghost predicate ColdAt(s: Sys, pc: RampPc, eng: E.Engine) {
    && s.eng == eng
    && s.ramps == map["s" := Ramp("warmup-1", "active-1", pc, false)]
    && s.sessions == map["s" := Session("s", "warmup-1", "active-1", 1, if pc.Finished? then Holding else Running)]
    && s.completing == map[]
  }

  lemma ColdStep(c: Config, s: Sys, pc: RampPc, eng: E.Engine)
    requires c == Config("warmup-1", 1, [1.0]) && ColdAt(s, pc, eng) && eng.sh.node.rec.state == Registered
    ensures ColdAt(Do(c, s, GIVE_UP), RampNext(c, s.ramps["s"], false, false).pc, eng)
  {
  }

  lemma ColdRunHolds(addr: string, startedAt: int, version: nat)
    ensures var b := Begin(addr, startedAt, version);
            ColdAt(Exec(Config("warmup-1", 1, [1.0]), b, COLD_RUN), Finished, b.eng)
  {
    var c := Config("warmup-1", 1, [1.0]);
    var b := Begin(addr, startedAt, version);
    var s := Do(c, b, Create("s", "warmup-1", "active-1", 1));
    var pcs := [WriteZero, WriteStep(0), CheckStep(0), HoldCheck, HoldClock, WriteLast, MarkHolding, Finished];
    assert ColdAt(s, pcs[0], b.eng);
    var s0 := s;
    ColdPath(c, s0, 0, pcs, b.eng);
    ExecCons(c, b, Create("s", "warmup-1", "active-1", 1), GiveUps(7));
    assert COLD_RUN == [Create("s", "warmup-1", "active-1", 1)] + GiveUps(7);
  }

  function GiveUps(n: nat): seq<Step> {
    if n == 0 then [] else [GIVE_UP] + GiveUps(n - 1)
  }

  lemma {:induction false} ColdPath(c: Config, s: Sys, i: nat, pcs: seq<RampPc>, eng: E.Engine)
    requires c == Config("warmup-1", 1, [1.0]) && i <= 7 && eng.sh.node.rec.state == Registered
    requires pcs == [WriteZero, WriteStep(0), CheckStep(0), HoldCheck, HoldClock, WriteLast, MarkHolding, Finished]
    requires ColdAt(s, pcs[i], eng)
    ensures ColdAt(Exec(c, s, GiveUps(7 - i)), Finished, eng)
    decreases 7 - i
  {
    if i < 7 {
      ColdStep(c, s, pcs[i], eng);
      assert RampNext(c, s.ramps["s"], false, false).pc == pcs[i + 1];
      ColdPath(c, Do(c, s, GIVE_UP), i + 1, pcs, eng);
      ExecCons(c, s, GIVE_UP, GiveUps(6 - i));
    }
  }

  /** Such a completion happens: past the hold deadline the coordinator marks as holding, and lets complete
      promote, an instance that has not served a single shadow request; some client is then sent to it. */
  lemma HoldDeadlinePromotesCold(addr: string, startedAt: int, version: nat)
    ensures var c := Config("warmup-1", 1, [1.0]);
            var s := Exec(c, Begin(addr, startedAt, version), COLD_RUN);
            && "s" in s.sessions && s.sessions["s"].status == Holding
            && var t := Do(c, Do(c, s, CompleteLock(0, "s")), CompleteWrite(0, true));
               exists steps, rid :: AllResetFree(steps)
                 && ForwardsToMe(c, Exec(c, t, steps), rid) && Exec(c, t, steps).eng.sh.count == 0
  {
    var c := Config("warmup-1", 1, [1.0]);
    var s := Exec(c, Begin(addr, startedAt, version), COLD_RUN);
    ColdRunHolds(addr, startedAt, version);
    var l := Do(c, s, CompleteLock(0, "s"));
    assert l.completing[0] == Completing("s", "warmup-1") && l.eng == s.eng;
    var t := Do(c, l, CompleteWrite(0, true));
    assert |t.m.hist| > 0 && t.m.hist[|t.m.hist| - 1] == PromoteConfig("s", "warmup-1");
    var steps, rid := ProxyTakesOver(c, t);
  }

  // ----- A completion before readiness

  predicate Calm(step: Step, id: Id) {
    NonWriting(step, id) && !(step.Follow? && step.f.SessionEvent?)
  }

  predicate AllCalm(steps: seq<Step>, id: Id) {
    forall i :: 0 <= i < |steps| ==> Calm(steps[i], id)
  }

  /** The watch goroutine has not taken the way of its timer beyond the last return. */
  predicate Going(pc: E.WatchPc) {
    !pc.TimeoutActive? && !pc.ToFailed? && !pc.PublishFailed? && !pc.Stopped?
  }

  /** It has yet to test, or to carry out, whether the configuration it handles makes this instance active. */
  predicate Holds(c: Config, pc: E.WatchPc) {
    match pc
    case WarmGate(cfg) => cfg.active == c.me
    case WToWarming(cfg) => cfg.active == c.me
    case WPublishWarming(cfg, _) => cfg.active == c.me
    case ActiveGate(cfg) => cfg.active == c.me
    case WToActive(_) => true
    case _ => false
  }

  ghost predicate Missed(c: Config, s: Sys, id: Id) {
    && Promoted(s, id) && NoWriterLeft(s) && s.eng.sh.fsm != Active
    && LoopDrained(s.m.loop) && !Holds(c, s.eng.watch)
  }

  lemma DrainedLoopRests(m: M.Mirror, f: M.Step)
    requires LoopDrained(m.loop) && !f.Write? && !f.SessionEvent?
    ensures M.Do(m, f).loop == m.loop
  {
  }

  lemma HoldsNoMore(c: Config, s: Sys, e: E.Step)
    requires !Holds(c, s.eng.watch) && !e.Deliver? && !e.ResetCall?
    ensures !Holds(c, E.Do(EngineConfig(c), s.eng, e).watch)
  {
  }

  lemma MissedStep(c: Config, s: Sys, id: Id, step: Step)
    requires Missed(c, s, id) && Calm(step, id)
    ensures Missed(c, Do(c, s, step), id)
  {
    hide M.Do, E.Do, Holds, Promoted;
    StickingStep(c, s, id, step);
    match step
    case Eng(e) =>
      if !e.Deliver? {
        HoldsNoMore(c, s, e);
        OnlyHeldActivates(c, s, e);
      }
    case Follow(f) => if !f.Write? { DrainedLoopRests(s.m, f); }
    case _ =>
  }

  lemma OnlyHeldActivates(c: Config, s: Sys, e: E.Step)
    requires s.eng.sh.fsm != Active && !Holds(c, s.eng.watch)
    ensures E.Do(EngineConfig(c), s.eng, e).sh.fsm != Active
  {
    E.OnlyWatchActivates(EngineConfig(c), s.eng, e);
  }

  lemma {:induction false} MissedRuns(c: Config, s: Sys, id: Id, steps: seq<Step>)
    requires Missed(c, s, id) && AllCalm(steps, id)
    ensures Missed(c, Exec(c, s, steps), id)
    decreases |steps|
  {
    hide Do, Missed, Calm;
    if steps != [] {
      assert Calm(steps[0], id);
      MissedStep(c, s, id, steps[0]);
      MissedRuns(c, Do(c, s, steps[0]), id, steps[1..]);
    }
  }

  /** Once nothing is left to deliver and the watch does not hold the promotion any more, an instance that has not
      become Active never does but for a new write or an event of the ZooKeeper session: the configuration is not
      looked at again. */
  lemma EarlyCompletionNeverActivates(c: Config, s: Sys, id: Id, steps: seq<Step>)
    requires Promoted(s, id) && NoWriterLeft(s) && s.eng.sh.fsm != Active
    requires LoopDrained(s.m.loop) && !Holds(c, s.eng.watch)
    requires AllCalm(steps, id)
    ensures Exec(c, s, steps).eng.sh.fsm != Active
  {
    MissedRuns(c, s, id, steps);
  }

  lemma EndingStep(c: Config, s: Sys, id: Id, step: Step)
    requires !Going(s.eng.watch) && s.eng.sh.fsm != Active && Calm(step, id)
    ensures !Going(Do(c, s, step).eng.watch) && Do(c, s, step).eng.sh.fsm != Active
  {
    hide M.Do;
  }

  /** Nor does one whose watch is about to return. */
  lemma {:induction false} EndingRuns(c: Config, s: Sys, id: Id, steps: seq<Step>)
    requires !Going(s.eng.watch) && s.eng.sh.fsm != Active && AllCalm(steps, id)
    ensures Exec(c, s, steps).eng.sh.fsm != Active
    decreases |steps|
  {
    hide Do, Calm;
    if steps != [] {
      assert Calm(steps[0], id);
      EndingStep(c, s, id, steps[0]);
      EndingRuns(c, Do(c, s, steps[0]), id, steps[1..]);
    }
  }

  // ----- Shadow requests alone make the instance Ready

  predicate ServeStep(step: Step) {
    step.Eng? && (step.e.Arrive? || step.e.Handler?)
  }

  predicate AllServe(steps: seq<Step>) {
    forall i :: 0 <= i < |steps| ==> ServeStep(steps[i])
  }

  function Lifted(steps: seq<E.Step>): seq<Step> {
    if steps == [] then [] else [Eng(steps[0])] + Lifted(steps[1..])
  }

  /** The engine's own steps, inside the whole system. */
  lemma {:induction false} LiftedRun(c: Config, s: Sys, steps: seq<E.Step>, k: nat)
    requires E.OwnSteps(steps, k)
    ensures Exec(c, s, Lifted(steps)) == s.(eng := E.Exec(EngineConfig(c), s.eng, steps)) && AllServe(Lifted(steps))
    decreases |steps|
  {
    hide E.Do;
    if steps != [] {
      var t := Do(c, s, Eng(steps[0]));
      LiftedRun(c, t, steps[1..], k);
      ExecCons(c, s, Eng(steps[0]), Lifted(steps[1..]));
    }
  }

  /** One more shadow request from arrival to answer; everything but the engine's handlers, counter, lifecycle
      and record stands still. */
  ghost predicate OneMoreServed(c: Config, s: Sys, t: Sys) {
    && t == s.(eng := t.eng) && t.eng.watch == s.eng.watch
    && t.eng.sh.count == s.eng.sh.count + 1
    && t.eng.sh.fsm == E.Counted(EngineConfig(c), s.eng.sh.count + 1, E.Warmed(s.eng.sh.fsm))
    && (s.eng.sh.node.rec.state == s.eng.sh.fsm ==> t.eng.sh.node.rec.state == t.eng.sh.fsm)
  }

  lemma ServeOne(c: Config, s: Sys) returns (steps: seq<Step>, t: Sys)
    ensures AllServe(steps) && Exec(c, s, steps) == t && OneMoreServed(c, s, t)
  {
    hide Exec, E.Exec, E.ServeAlone, Lifted;
    var ec := EngineConfig(c);
    var k := E.FreshId(s.eng.handlers.Keys);
    var a := Do(c, s, Eng(E.Arrive(k)));
    assert a.eng == s.eng.(handlers := s.eng.handlers[k := E.CheckRegistered]);
    E.AloneInTheSystem(ec, a.eng, k);
    var own :| E.OwnSteps(own, k)
      && E.Exec(ec, a.eng, own) == a.eng.(sh := E.ServeAlone(ec, a.eng.sh, a.eng.handlers[k]),
                                          handlers := a.eng.handlers[k := E.Served]);
    LiftedRun(c, a, own, k);
    E.ShadowRequestAlone(ec, s.eng.sh);
    t := a.(eng := E.Exec(ec, a.eng, own));
    steps := [Eng(E.Arrive(k))] + Lifted(own);
    ExecCons(c, s, Eng(E.Arrive(k)), Lifted(own));
  }

  lemma {:induction false} ServeUntilReady(c: Config, s: Sys) returns (steps: seq<Step>, t: Sys)
    requires s.eng.sh.fsm in {Registered, Warming, Ready}
    ensures AllServe(steps) && Exec(c, s, steps) == t
    ensures t == s.(eng := t.eng) && t.eng.watch == s.eng.watch && t.eng.sh.fsm == Ready
    ensures s.eng.sh.node.rec.state == s.eng.sh.fsm ==> t.eng.sh.node.rec.state == Ready
    decreases if s.eng.sh.fsm == Ready then 0 else 1,
              if c.readyAfter > s.eng.sh.count then c.readyAfter - s.eng.sh.count else 0
  {
    hide Do;
    if s.eng.sh.fsm == Ready {
      return [], s;
    }
    var first, u := ServeOne(c, s);
    steps, t := first, u;
    if u.eng.sh.fsm != Ready {
      var rest, v := ServeUntilReady(c, u);
      ExecSplits(c, s, first, rest);
      steps, t := first + rest, v;
    }
  }

  // ----- And the watch then makes it Active, if it has anything left to deliver

  /** The instance is Ready or already Active, and the watch, since `base` configurations had been received,
      follows the last one: it has made the instance Active if that names it, or is about to. */
  ghost predicate Poised(c: Config, u: Sys, base: nat) {
    && M.Inv(u.m) && u.eng.sh.fsm in {Ready, Active} && base <= u.m.loop.taken
    && (u.m.loop.taken == base ==> u.eng.watch.Idle? && !LoopDrained(u.m.loop))
    && match u.eng.watch
       case Idle => u.m.loop.taken > base && HandledMe(c, u.m) ==> u.eng.sh.fsm == Active
       case WarmGate(cfg) => HandledMe(c, u.m) <==> cfg.active == c.me
       case WToWarming(cfg) => HandledMe(c, u.m) <==> cfg.active == c.me
       case WPublishWarming(cfg, _) => HandledMe(c, u.m) <==> cfg.active == c.me
       case ActiveGate(cfg) => HandledMe(c, u.m) <==> cfg.active == c.me
       case WToActive(_) => true
       case TimeoutReady => false
       case TimeoutActive => false
       case ToFailed => false
       case PublishFailed(_) => false
       case Stopped => false
       case _ => HandledMe(c, u.m) ==> u.eng.sh.fsm == Active
  }

  lemma PoisedWatch(c: Config, u: Sys, base: nat, up: bool)
    requires Poised(c, u, base)
    ensures Poised(c, Do(c, u, Eng(E.Watch(up))), base)
  {
    hide M.Inv;
  }

  lemma PoisedReceive(c: Config, u: Sys, base: nat)
    requires Poised(c, u, base)
    ensures Poised(c, Do(c, u, Receive), base)
  {
    M.StepKeepsInv(u.m, M.Take);
  }

  lemma PoisedFollow(c: Config, u: Sys, base: nat, f: M.Step)
    requires Poised(c, u, base) && DrainStep(Follow(f))
    ensures Poised(c, Do(c, u, Follow(f)), base)
  {
    hide E.Do;
    M.StepKeepsInv(u.m, f);
  }

  lemma {:induction false} PoisedRuns(c: Config, u: Sys, base: nat, steps: seq<Step>)
    requires Poised(c, u, base) && AllDrain(steps)
    ensures Poised(c, Exec(c, u, steps), base)
    decreases |steps|
  {
    hide Do, Poised;
    if steps != [] {
      assert DrainStep(steps[0]);
      match steps[0] {
        case Eng(e) => PoisedWatch(c, u, base, e.up);
        case Receive => PoisedReceive(c, u, base);
        case Follow(f) => PoisedFollow(c, u, base, f);
      }
      PoisedRuns(c, Do(c, u, steps[0]), base, steps[1..]);
    }
  }

  lemma PoisedEndsActive(c: Config, u: Sys, base: nat, id: Id)
    requires Poised(c, u, base) && Drained(u) && Promoted(u, id) && u.sessions[id].target == c.me
    ensures u.eng.sh.fsm == Active
  {
    assert u.m.loop.sent[|u.m.loop.sent| - 1] == |u.m.hist|;
    assert HandledMe(c, u.m);
  }

  lemma DrainActivates(c: Config, s: Sys, id: Id) returns (steps: seq<Step>)
    requires Promoted(s, id) && s.sessions[id].target == c.me && NoWriterLeft(s) && M.Inv(s.m)
    requires s.eng.watch.Idle? && s.eng.sh.fsm == Ready && !LoopDrained(s.m.loop)
    ensures AllDrain(steps) && Exec(c, s, steps).eng.sh.fsm == Active
  {
    hide Exec, M.Inv;
    DrainingIsPossible(c, s);
    steps :| AllDrain(steps) && Drained(Exec(c, s, steps));
    PoisedRuns(c, s, s.m.loop.taken, steps);
    DrainIsNonWriting(steps, id);
    CompletionSticks(c, s, id, steps);
    PoisedEndsActive(c, Exec(c, s, steps), s.m.loop.taken, id);
  }

  lemma ServeIsCalm(steps: seq<Step>, id: Id)
    requires AllServe(steps)
    ensures AllCalm(steps, id)
  {
    forall i | 0 <= i < |steps|
      ensures Calm(steps[i], id)
    {
      assert ServeStep(steps[i]);
    }
  }

  /** The state a promotion leaves: this session completed for this instance, no writer left, and the instance
      still on its way, with the watch anywhere. */
  ghost predicate Pending(c: Config, s: Sys, id: Id) {
    && Promoted(s, id) && s.sessions[id].target == c.me && NoWriterLeft(s) && M.Inv(s.m)
    && s.eng.sh.fsm in {Registered, Warming, Ready}
  }

  ghost predicate CanActivate(c: Config, s: Sys, id: Id) {
    exists steps :: AllCalm(steps, id) && Exec(c, s, steps).eng.sh.fsm == Active
  }

  lemma ActivatesNow(c: Config, s: Sys, id: Id)
    requires s.eng.sh.fsm == Active
    ensures CanActivate(c, s, id)
  {
    assert AllCalm([], id) && Exec(c, s, []) == s;
  }

  lemma ActivatesLater(c: Config, s: Sys, id: Id, a: seq<Step>)
    requires AllCalm(a, id) && CanActivate(c, Exec(c, s, a), id)
    ensures CanActivate(c, s, id)
  {
    hide Calm;
    var b :| AllCalm(b, id) && Exec(c, Exec(c, s, a), b).eng.sh.fsm == Active;
    ExecSplits(c, s, a, b);
    assert AllCalm(a + b, id);
  }

  lemma WatchActivatesLater(c: Config, s: Sys, id: Id)
    requires CanActivate(c, Do(c, s, Eng(E.Watch(true))), id)
    ensures CanActivate(c, s, id)
  {
    hide Do;
    ExecOne(c, s, Eng(E.Watch(true)));
    ActivatesLater(c, s, id, [Eng(E.Watch(true))]);
  }

  /** A Ready instance whose watch holds the promotion is made Active by it. */
  lemma {:induction false} HoldingActivates(c: Config, s: Sys, id: Id)
    requires s.eng.sh.fsm in {Ready, Active} && Holds(c, s.eng.watch)
    ensures CanActivate(c, s, id)
    decreases E.WatchLeft(s.eng.watch)
  {
    hide CanActivate;
    var t := Do(c, s, Eng(E.Watch(true)));
    if t.eng.sh.fsm == Active {
      ActivatesNow(c, t, id);
    } else {
      HoldingActivates(c, t, id);
    }
    WatchActivatesLater(c, s, id);
  }

  /** A Ready instance with something left to deliver is made Active by it, whatever the watch does now. */
  lemma {:induction false} UndrainedActivates(c: Config, s: Sys, id: Id)
    requires Pending(c, s, id) && s.eng.sh.fsm == Ready && Going(s.eng.watch) && !LoopDrained(s.m.loop)
    ensures CanActivate(c, s, id)
    decreases E.WatchLeft(s.eng.watch)
  {
    hide CanActivate, M.Inv;
    if s.eng.watch.Idle? {
      var steps := DrainActivates(c, s, id);
      DrainIsNonWriting(steps, id);
      ActivatesNow(c, Exec(c, s, steps), id);
      ActivatesLater(c, s, id, steps);
    } else {
      var t := Do(c, s, Eng(E.Watch(true)));
      StickingStep(c, s, id, Eng(E.Watch(true)));
      if t.eng.sh.fsm == Active {
        ActivatesNow(c, t, id);
      } else {
        UndrainedActivates(c, t, id);
      }
      WatchActivatesLater(c, s, id);
    }
  }

  lemma PendingActivates(c: Config, s: Sys, id: Id)
    requires Pending(c, s, id) && Going(s.eng.watch) && (!LoopDrained(s.m.loop) || Holds(c, s.eng.watch))
    ensures CanActivate(c, s, id)
  {
    hide Exec, M.Inv, Calm, CanActivate;
    var a, t := ServeUntilReady(c, s);
    ServeIsCalm(a, id);
    if Holds(c, s.eng.watch) {
      HoldingActivates(c, t, id);
    } else {
      UndrainedActivates(c, t, id);
    }
    ActivatesLater(c, s, id, a);
  }

  /** After a promotion that came before the instance was Active, wherever the watch stands: without a writer and
      without an event of the ZooKeeper session, some continuation makes the instance Active if and only if the
      watch is not on its way to return, and has the promotion still to test or something left to be delivered. */
  lemma EarlyCompletionActivatesIff(c: Config, s: Sys, id: Id)
    requires Pending(c, s, id)
    ensures CanActivate(c, s, id) <==>
            Going(s.eng.watch) && (!LoopDrained(s.m.loop) || Holds(c, s.eng.watch))
  {
    if !Going(s.eng.watch) {
      forall steps | AllCalm(steps, id)
        ensures Exec(c, s, steps).eng.sh.fsm != Active
      {
        EndingRuns(c, s, id, steps);
      }
    } else if LoopDrained(s.m.loop) && !Holds(c, s.eng.watch) {
      forall steps | AllCalm(steps, id)
        ensures Exec(c, s, steps).eng.sh.fsm != Active
      {
        EarlyCompletionNeverActivates(c, s, id, steps);
      }
    } else {
      PendingActivates(c, s, id);
    }
  }

  /** An event of the ZooKeeper session fires the watch, and with it the configuration is delivered once more: then
      the instance can become Active unless its watch is on its way to return. */
  lemma SessionEventRedelivers(c: Config, s: Sys, id: Id)
    requires Pending(c, s, id)
    ensures CanActivate(c, Do(c, s, Follow(M.SessionEvent)), id) <==> Going(s.eng.watch)
  {
    hide E.Do, CanActivate;
    M.StepKeepsInv(s.m, M.SessionEvent);
    StickingStep(c, s, id, Follow(M.SessionEvent));
    EarlyCompletionActivatesIff(c, Do(c, s, Follow(M.SessionEvent)), id);
  }

  // ----- A run that ends there

  lemma MirrorStep(c: Config, s: Sys, step: Step)
    requires M.Inv(s.m)
    ensures M.Inv(Do(c, s, step).m)
  {
    hide M.Inv, M.Do, E.Do;
    match step
    case Follow(f) => M.StepKeepsInv(s.m, f);
    case Receive => M.StepKeepsInv(s.m, M.Take);
    case RampStep(id, _, _, _) =>
      if id in s.ramps && RampWrite(c, id, s.ramps[id]).Some? {
        M.StepKeepsInv(s.m, M.Write(RampWrite(c, id, s.ramps[id]).value));
      }
    case CompleteWrite(tid, _) =>
      if tid in s.completing {
        M.StepKeepsInv(s.m, M.Write(PromoteConfig(s.completing[tid].session, s.completing[tid].target)));
      }
    case SetMirror(cfg) => M.StepKeepsInv(s.m, M.Write(cfg));
    case _ =>
  }

  lemma {:induction false} MirrorRuns(c: Config, s: Sys, steps: seq<Step>)
    requires M.Inv(s.m)
    ensures M.Inv(Exec(c, s, steps).m)
    decreases |steps|
  {
    hide Do, M.Inv;
    if steps != [] {
      MirrorStep(c, s, steps[0]);
      MirrorRuns(c, Do(c, s, steps[0]), steps[1..]);
    }
  }

  /** An instance that has served nothing, with the watch anywhere but at its timer. */
  ghost predicate Unserved(c: Config, u: Sys) {
    && u.eng.sh.count == 0 < c.readyAfter && u.eng.sh.fsm in {Registered, Warming}
    && match u.eng.watch
       case Idle => true
       case WarmGate(_) => true
       case WToWarming(_) => true
       case WPublishWarming(_, _) => true
       case ActiveGate(_) => true
       case CountGate(_) => true
       case WCountLoaded(_, held) => held.None?
       case TimerGate(_) => true
       case _ => false
  }

  lemma UnservedStep(c: Config, u: Sys, step: Step)
    requires Unserved(c, u) && DrainStep(step)
    ensures Unserved(c, Do(c, u, step))
  {
    hide M.Do;
  }

  lemma {:induction false} UnservedRuns(c: Config, u: Sys, steps: seq<Step>)
    requires Unserved(c, u) && AllDrain(steps)
    ensures Unserved(c, Exec(c, u, steps))
    decreases |steps|
  {
    hide Do, Unserved, DrainStep;
    if steps != [] {
      assert DrainStep(steps[0]);
      UnservedStep(c, u, steps[0]);
      UnservedRuns(c, Do(c, u, steps[0]), steps[1..]);
    }
  }

  /** Every promotion of an instance that has served nothing ends there: some continuation of the watch alone
      drains it, and then nothing but a new write or a session event makes the instance Active. */
  lemma UnservedIsMissed(c: Config, s: Sys, id: Id)
    requires Promoted(s, id) && s.sessions[id].target == c.me && NoWriterLeft(s) && M.Inv(s.m) && Unserved(c, s)
    ensures exists steps :: AllDrain(steps) &&
              var u := Exec(c, s, steps); Pending(c, u, id) && Drained(u) && !CanActivate(c, u, id)
  {
    hide Exec, M.Inv, CanActivate;
    DrainingIsPossible(c, s);
    var steps :| AllDrain(steps) && Drained(Exec(c, s, steps));
    UnservedRuns(c, s, steps);
    MirrorRuns(c, s, steps);
    DrainIsNonWriting(steps, id);
    CompletionSticks(c, s, id, steps);
    EarlyCompletionActivatesIff(c, Exec(c, s, steps), id);
  }

  lemma ColdCompletion(c: Config, s: Sys, eng: E.Engine)
    requires c == Config("warmup-1", 1, [1.0]) && ColdAt(s, Finished, eng) && M.Inv(s.m)
    ensures var t := Do(c, Do(c, s, CompleteLock(0, "s")), CompleteWrite(0, true));
            && Promoted(t, "s") && t.sessions["s"].target == c.me && NoWriterLeft(t) && M.Inv(t.m)
            && (eng.sh.count == 0 && eng.sh.fsm == Registered && eng.watch.Idle? ==> Unserved(c, t))
  {
    var l := Do(c, s, CompleteLock(0, "s"));
    assert l.completing == map[0 := Completing("s", "warmup-1")] && l.eng == s.eng && l.m == s.m;
    MirrorStep(c, l, CompleteWrite(0, true));
  }

  /** It happens: the run of HoldDeadlinePromotesCold, once the watch has drained. */
  lemma EarlyCompletionHappens(addr: string, startedAt: int, version: nat)
    ensures var c := Config("warmup-1", 1, [1.0]);
            exists steps :: var u := Exec(c, Begin(addr, startedAt, version), steps);
              Pending(c, u, "s") && Drained(u) && !CanActivate(c, u, "s")
  {
    hide Do, Exec, ColdAt, CanActivate, Pending, Drained, Promoted, NoWriterLeft, Unserved, AllDrain;
    var c := Config("warmup-1", 1, [1.0]);
    var b := Begin(addr, startedAt, version);
    ColdRunHolds(addr, startedAt, version);
    MirrorRuns(c, b, COLD_RUN);
    var s := Exec(c, b, COLD_RUN);
    ColdCompletion(c, s, b.eng);
    var t := Do(c, Do(c, s, CompleteLock(0, "s")), CompleteWrite(0, true));
    UnservedIsMissed(c, t, "s");
    var rest :| AllDrain(rest) && Pending(c, Exec(c, t, rest), "s") && Drained(Exec(c, t, rest))
      && !CanActivate(c, Exec(c, t, rest), "s");
    var finish := [CompleteLock(0, "s")] + ([CompleteWrite(0, true)] + rest);
    ExecCons(c, s, CompleteLock(0, "s"), [CompleteWrite(0, true)] + rest);
    ExecCons(c, Do(c, s, CompleteLock(0, "s")), CompleteWrite(0, true), rest);
    ExecSplits(c, b, COLD_RUN, finish);
  }

  // ----- A promotion does happen

  lemma {:induction false} DisciplineJoins(c: Config, s: Sys, a: seq<Step>, b: seq<Step>)
    requires Disciplined(c, s, a) && Disciplined(c, Exec(c, s, a), b)
    ensures Disciplined(c, s, a + b)
    decreases |a|
  {
    hide Do, Allowed;
    if a == [] {
      assert a + b == b;
    } else {
      assert (a + b)[1..] == a[1..] + b;
      DisciplineJoins(c, Do(c, s, a[0]), a[1..], b);
    }
  }

  lemma OneIsDisciplined(c: Config, s: Sys, step: Step)
    requires Allowed(c, s, step)
    ensures Disciplined(c, s, [step])
  {
    hide Allowed, Do;
    assert [step][1..] == [];
  }

  /** Steps that the discipline always allows. */
  predicate Harmless(step: Step) {
    match step
    case Eng(e) => !e.ResetCall?
    case Create(_, _, _, _) => false
    case SetMirror(_) => false
    case CompleteLock(_, _) => false
    case _ => true
  }

  lemma {:induction false} HarmlessIsDisciplined(c: Config, s: Sys, steps: seq<Step>)
    requires forall i :: 0 <= i < |steps| ==> Harmless(steps[i])
    ensures Disciplined(c, s, steps)
    decreases |steps|
  {
    hide Do;
    if steps != [] {
      assert Harmless(steps[0]);
      HarmlessIsDisciplined(c, Do(c, s, steps[0]), steps[1..]);
    }
  }

  function RampLeft(pc: RampPc): nat {
    match pc
    case WriteZero => 8
    case WriteStep(_) => 7
    case CheckStep(_) => 6
    case WriteHold => 5
    case HoldCheck => 4
    case HoldClock => 3
    case WriteLast => 2
    case MarkHolding => 1
    case Finished => 0
  }

  /** One session for this instance with its ramp at `pc`, a Ready instance whose record says so, a watch that
      waits, and both followers as they start. */
  ghost predicate Ramping(c: Config, s: Sys, id: Id, active: Id, pc: RampPc, saw: bool) {
    && s.eng.sh.fsm == Ready && s.eng.sh.node.rec.state == Ready && s.eng.watch.Idle?
    && s.ramps == map[id := Ramp(c.me, active, pc, saw)]
    && id in s.sessions && s.sessions[id].target == c.me
    && s.sessions[id].status == (if pc.Finished? then Holding else Running)
    && s.completing == map[] && s.m.loop == M.INITIAL.loop && !s.m.proxy.armed && M.Inv(s.m)
  }

  lemma RampingStep(c: Config, s: Sys, id: Id, active: Id, pc: RampPc, saw: bool)
    requires Ramping(c, s, id, active, pc, saw) && !pc.Finished?
    ensures var t := Do(c, s, RampStep(id, true, true, false));
            var next := RampNext(c, s.ramps[id], true, false);
            Ramping(c, t, id, active, next.pc, next.saw) && (pc.WriteLast? ==> |t.m.hist| > 0)
            && |s.m.hist| <= |t.m.hist|
  {
    hide M.Inv, E.Do;
    MirrorStep(c, s, RampStep(id, true, true, false));
  }

  /** Seen ready at every look, the ramp comes to its end. */
  lemma {:induction false} RampEnds(c: Config, s: Sys, id: Id, active: Id, pc: RampPc, saw: bool)
    returns (steps: seq<Step>)
    requires Ramping(c, s, id, active, pc, saw) && (RampLeft(pc) >= 4 || saw)
    ensures (forall i :: 0 <= i < |steps| ==> steps[i].RampStep?)
    ensures Ramping(c, Exec(c, s, steps), id, active, Finished, true)
    decreases RampLeft(pc)
  {
    hide Do, Ramping;
    if pc.Finished? {
      return [];
    }
    RampingRamp(c, s, id, active, pc, saw);
    RampingStep(c, s, id, active, pc, saw);
    var step := RampStep(id, true, true, false);
    var next := RampNext(c, s.ramps[id], true, false);
    var rest := RampEnds(c, Do(c, s, step), id, active, next.pc, next.saw);
    ExecCons(c, s, step, rest);
    steps := [step] + rest;
  }

  lemma RampingRamp(c: Config, s: Sys, id: Id, active: Id, pc: RampPc, saw: bool)
    requires Ramping(c, s, id, active, pc, saw)
    ensures id in s.ramps && s.ramps[id] == Ramp(c.me, active, pc, saw)
  {
  }

  lemma RampingBegins(c: Config, addr: string, startedAt: int, version: nat, id: Id, active: Id)
    returns (steps: seq<Step>)
    requires active != c.me
    ensures Disciplined(c, Begin(addr, startedAt, version), steps)
    ensures Ramping(c, Exec(c, Begin(addr, startedAt, version), steps), id, active, WriteZero, false)
  {
    var b := Begin(addr, startedAt, version);
    var create := Create(id, c.me, active, c.readyAfter);
    var s := Do(c, b, create);
    OneIsDisciplined(c, b, create);
    ExecOne(c, b, create);
    hide Do, Exec, Disciplined;
    var serve, t := ServeUntilReady(c, s);
    ServeIsHarmless(serve);
    HarmlessIsDisciplined(c, s, serve);
    ExecSplits(c, b, [create], serve);
    DisciplineJoins(c, b, [create], serve);
    steps := [create] + serve;
  }

  lemma ServeIsHarmless(steps: seq<Step>)
    requires AllServe(steps)
    ensures forall i :: 0 <= i < |steps| ==> Harmless(steps[i])
  {
    forall i | 0 <= i < |steps|
      ensures Harmless(steps[i])
    {
      assert ServeStep(steps[i]);
    }
  }

  /** For every threshold, every list of steps and every pair of instances, some disciplined run from the start leads
      to the point where complete is about to promote a Ready instance: the hypothesis of CompletionConverges. */
  lemma PromotionIsReached(c: Config, addr: string, startedAt: int, version: nat, id: Id, active: Id)
    returns (steps: seq<Step>)
    requires active != c.me
    ensures Disciplined(c, Begin(addr, startedAt, version), steps)
    ensures var s := Exec(c, Begin(addr, startedAt, version), steps);
            && AboutToPromote(c, s, 0, id) && s.sessions[id].status == Completed
            && s.sessions[id].target == s.sessions[id].active == c.me
            && s.eng.sh.fsm == Ready && s.eng.watch.Idle?
            && s.m.loop == M.INITIAL.loop && !s.m.proxy.armed && M.Inv(s.m)
  {
    hide Exec, Disciplined, M.Inv;
    var b := Begin(addr, startedAt, version);
    var first := RampingBegins(c, addr, startedAt, version, id, active);
    var s := Exec(c, b, first);
    var climb := RampEnds(c, s, id, active, WriteZero, false);
    HarmlessIsDisciplined(c, s, climb);
    ExecSplits(c, b, first, climb);
    DisciplineJoins(c, b, first, climb);
    var t := Exec(c, b, first + climb);
    OneIsDisciplined(c, t, CompleteLock(0, id));
    ExecOne(c, t, CompleteLock(0, id));
    ExecSplits(c, b, first + climb, [CompleteLock(0, id)]);
    DisciplineJoins(c, b, first + climb, [CompleteLock(0, id)]);
    steps := first + climb + [CompleteLock(0, id)];
  }

  lemma {:induction false} DrainKeepsProxy(c: Config, s: Sys, steps: seq<Step>)
    requires AllDrain(steps)
    ensures Exec(c, s, steps).m.proxy == s.m.proxy
    decreases |steps|
  {
    if steps != [] {
      assert DrainStep(steps[0]);
      DrainStepKeepsProxy(c, s, steps[0]);
      hide Do, DrainStep;
      DrainKeepsProxy(c, Do(c, s, steps[0]), steps[1..]);
    }
  }

  lemma DrainStepKeepsProxy(c: Config, s: Sys, step: Step)
    requires DrainStep(step)
    ensures Do(c, s, step).m.proxy == s.m.proxy
  {
    hide E.Do;
  }

  lemma DrainIsHarmless(steps: seq<Step>)
    requires AllDrain(steps)
    ensures forall i :: 0 <= i < |steps| ==> Harmless(steps[i])
  {
    forall i | 0 <= i < |steps|
      ensures Harmless(steps[i])
    {
      assert DrainStep(steps[i]);
    }
  }

  ghost predicate PromotedAndServing(c: Config, t: Sys, id: Id, rid: nat) {
    && id in t.sessions && t.sessions[id].status == Completed && t.sessions[id].active == c.me
    && t.eng.sh.fsm == Active && ForwardsToMe(c, t, rid)
  }

  lemma PromotionFinishes(c: Config, s: Sys, id: Id) returns (steps: seq<Step>, rid: nat)
    requires AboutToPromote(c, s, 0, id) && s.sessions[id].status == Completed
    requires s.sessions[id].target == s.sessions[id].active == c.me
    requires s.eng.sh.fsm == Ready && s.eng.watch.Idle?
    requires s.m.loop == M.INITIAL.loop && !s.m.proxy.armed && M.Inv(s.m)
    ensures (forall i :: 0 <= i < |steps| ==> Harmless(steps[i])) && PromotedAndServing(c, Exec(c, s, steps), id, rid)
  {
    var write := CompleteWrite(0, true);
    var t := Do(c, s, write);
    assert s.completing[0] == Completing(id, c.me);
    MirrorStep(c, s, write);
    hide Do, Exec, M.Inv, NoWriterLeft, ForwardsToMe, DrainStep;
    var drain := DrainActivates(c, t, id);
    var u := Exec(c, t, drain);
    DrainIsNonWriting(drain, id);
    CompletionSticks(c, t, id, drain);
    DrainKeepsProxy(c, t, drain);
    var last;
    last, rid := ProxyTakesOver(c, u);
    ExecSplits(c, t, drain, last);
    ExecCons(c, s, write, drain + last);
    DrainIsHarmless(drain);
    steps := [write] + (drain + last);
  }

  /** So the theorems about promotion are about something: for every threshold, every list of steps and every pair of
      instances there is a disciplined run from the start that completes the session, makes the instance Active and
      sends it a client's request. */
  lemma PromotionHappens(c: Config, addr: string, startedAt: int, version: nat, id: Id, active: Id)
    requires active != c.me
    ensures exists steps, rid ::
              && Disciplined(c, Begin(addr, startedAt, version), steps)
              && PromotedAndServing(c, Exec(c, Begin(addr, startedAt, version), steps), id, rid)
  {
    hide Exec, Disciplined, M.Inv, PromotedAndServing, Harmless;
    var b := Begin(addr, startedAt, version);
    var before := PromotionIsReached(c, addr, startedAt, version, id, active);
    var s := Exec(c, b, before);
    var after, rid := PromotionFinishes(c, s, id);
    HarmlessIsDisciplined(c, s, after);
    ExecSplits(c, b, before, after);
    DisciplineJoins(c, b, before, after);
  }
}
