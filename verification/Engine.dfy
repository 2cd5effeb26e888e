/** The warm-up engine as a system of interleaved steps. Every lock-protected call is one step:
    any number of shadow-request handlers, the mirror-watch goroutine with its timer, and the
    benchmark reset. A schedule is any sequence of steps; a step that is not enabled does nothing. */
module Engine {
  import opened Lifecycle
  import opened Records

  datatype Config = Config(me: Id, readyAfter: int)

  /** Where a handler of a shadow GET stands. Recording and CountLoaded follow the load of the counter for the
      call named; `held` says which replaced counter was loaded, None meaning the current one. */
  datatype HandlerPc =
    | CheckRegistered
    | ToWarming
    | PublishWarming(u: Update)
    | Serving
    | Recording(held: Option<nat>)
    | CheckCount
    | CountLoaded(held: Option<nat>)
    | CheckWarming
    | ToReady
    | PublishReady(u: Update)
    | Served

  /** Where the mirror-watch goroutine stands; `cfg` is the configuration it is handling. */
  datatype WatchPc =
    | Idle
    | WarmGate(cfg: MirrorConfig)
    | WToWarming(cfg: MirrorConfig)
    | WPublishWarming(cfg: MirrorConfig, u: Update)
    | ActiveGate(cfg: MirrorConfig)
    | WToActive(cfg: MirrorConfig)
    | WPublishActive(cfg: MirrorConfig, u: Update)
    | CountGate(cfg: MirrorConfig)
    | WCountLoaded(cfg: MirrorConfig, held: Option<nat>)
    | WarmingGate(cfg: MirrorConfig)
    | WToReady(cfg: MirrorConfig)
    | WPublishReady(cfg: MirrorConfig, u: Update)
    | TimerGate(cfg: MirrorConfig)
    | TimeoutReady
    | TimeoutActive
    | ToFailed
    | PublishFailed(u: Update)
    | Stopped

  datatype ResetPc = NoReset | Forcing | ResetPublishing(u: Update)

  /** The warm-up timer: a tick that has been sent stays in its channel even after Stop. */
  datatype Timer = Counting | Ticked | Off

  /** What all threads of the instance read and write: the lifecycle cell, the current shadow counter, the
      published record, and the counters that resets have replaced. */
  datatype Shared = Shared(fsm: State, count: nat, node: Znode, past: seq<nat>)

  datatype Engine = Engine(
    sh: Shared,
    handlers: map<nat, HandlerPc>,
    watch: WatchPc,
    timer: Timer,
    reset: ResetPc)

  datatype Step =
    | Arrive(id: nat)
    | Handler(id: nat, up: bool)
    | Deliver(cfg: MirrorConfig)
    | TimerExpires
    | TimerTick
    | Watch(up: bool)
    | ResetCall
    | ResetStep(up: bool)

  /** The engine of a warm-up instance when Start has registered it and launched the watch. */
  function Started(addr: string, startedAt: int, version: nat): Engine {
    Engine(Shared(Registered, 0, Znode(InstanceRecord(addr, Registered, "warmup", startedAt), version), []),
           map[], Idle, Counting, NoReset)
  }

  function Attempt(sh: Shared, next: State): Shared {
    sh.(fsm := After(sh.fsm, next))
  }

  function Publish(sh: Shared, u: Update, st: State, up: bool): Shared {
    sh.(node := Stored(sh.node, u, st, up))
  }

  /** The value of a loaded counter. */
  function Seen(sh: Shared, held: Option<nat>): nat {
    match held
    case None => sh.count
    case Some(g) => if g < |sh.past| then sh.past[g] else 0
  }

  /** One request recorded in a loaded counter. */
  function Recorded(sh: Shared, held: Option<nat>): Shared {
    match held
    case None => sh.(count := sh.count + 1)
    case Some(g) => if g < |sh.past| then sh.(past := sh.past[g := sh.past[g] + 1]) else sh
  }

  /** The next step of a shadow-request handler. */
  function MoveHandler(c: Config, sh: Shared, pc: HandlerPc, up: bool): (Shared, HandlerPc) {
    match pc
    case CheckRegistered => (sh, if sh.fsm == Registered then ToWarming else Serving)
    case ToWarming => (Attempt(sh, Warming), PublishWarming(ReadRecord))
    case PublishWarming(u) =>
      var rest := Rest(sh.node, u, up);
      (Publish(sh, u, Warming, up), if rest.Some? then PublishWarming(rest.value) else Serving)
    case Serving => (sh, Recording(None))
    case Recording(held) => (Recorded(sh, held), CheckCount)
    case CheckCount => (sh, CountLoaded(None))
    case CountLoaded(held) => (sh, if Seen(sh, held) >= c.readyAfter then CheckWarming else Served)
    case CheckWarming => (sh, if sh.fsm == Warming then ToReady else Served)
    case ToReady => (Attempt(sh, Ready), PublishReady(ReadRecord))
    case PublishReady(u) =>
      var rest := Rest(sh.node, u, up);
      (Publish(sh, u, Ready, up), if rest.Some? then PublishReady(rest.value) else Served)
    case Served => (sh, Served)
  }

  /** The next step of the watch goroutine inside handleMirrorConfig or the timeout branch. */
  function MoveWatch(c: Config, sh: Shared, pc: WatchPc, up: bool): (Shared, WatchPc) {
    match pc
    case Idle => (sh, Idle)
    case WarmGate(cfg) =>
      (sh, if cfg.target == c.me && cfg.enabled && cfg.ratio > 0.0 && sh.fsm == Registered
           then WToWarming(cfg) else ActiveGate(cfg))
    case WToWarming(cfg) => (Attempt(sh, Warming), WPublishWarming(cfg, ReadRecord))
    case WPublishWarming(cfg, u) =>
      var rest := Rest(sh.node, u, up);
      (Publish(sh, u, Warming, up), if rest.Some? then WPublishWarming(cfg, rest.value) else ActiveGate(cfg))
    case ActiveGate(cfg) =>
      (sh, if cfg.active == c.me && sh.fsm == Ready then WToActive(cfg) else CountGate(cfg))
    case WToActive(cfg) => (Attempt(sh, Active), WPublishActive(cfg, ReadRecord))
    case WPublishActive(cfg, u) =>
      var rest := Rest(sh.node, u, up);
      (Publish(sh, u, Active, up), if rest.Some? then WPublishActive(cfg, rest.value) else CountGate(cfg))
    case CountGate(cfg) => (sh, WCountLoaded(cfg, None))
    case WCountLoaded(cfg, held) =>
      (sh, if Seen(sh, held) >= c.readyAfter then WarmingGate(cfg) else TimerGate(cfg))
    case WarmingGate(cfg) => (sh, if sh.fsm == Warming then WToReady(cfg) else TimerGate(cfg))
    case WToReady(cfg) => (Attempt(sh, Ready), WPublishReady(cfg, ReadRecord))
    case WPublishReady(cfg, u) =>
      var rest := Rest(sh.node, u, up);
      (Publish(sh, u, Ready, up), if rest.Some? then WPublishReady(cfg, rest.value) else TimerGate(cfg))
    case TimerGate(cfg) => (sh, Idle)
    case TimeoutReady => (sh, if sh.fsm != Ready then TimeoutActive else Idle)
    case TimeoutActive => (sh, if sh.fsm != Active then ToFailed else Idle)
    case ToFailed => (Attempt(sh, Failed), PublishFailed(ReadRecord))
    case PublishFailed(u) =>
      var rest := Rest(sh.node, u, up);
      (Publish(sh, u, Failed, up), if rest.Some? then PublishFailed(rest.value) else Stopped)
    case Stopped => (sh, Stopped)
  }

  function StepHandler(c: Config, s: Engine, id: nat, up: bool): Engine
    requires id in s.handlers
  {
    var (sh, pc) := MoveHandler(c, s.sh, s.handlers[id], up);
    s.(sh := sh, handlers := s.handlers[id := pc])
  }

  function StepWatch(c: Config, s: Engine, up: bool): Engine {
    var (sh, pc) := MoveWatch(c, s.sh, s.watch, up);
    s.(sh := sh, watch := pc,
       timer := if s.watch.TimerGate? && s.sh.fsm == Ready && s.timer == Counting then Off else s.timer)
  }

  function StepReset(s: Engine, up: bool): Engine {
    match s.reset
    case NoReset => s
    case Forcing => s.(sh := s.sh.(fsm := Registered), reset := ResetPublishing(ReadRecord))
    case ResetPublishing(u) =>
      var rest := Rest(s.sh.node, u, up);
      s.(sh := Publish(s.sh, u, Registered, up),
         reset := if rest.Some? then ResetPublishing(rest.value) else NoReset)
  }

  /** A reset puts counter number `g` out of use: whoever has loaded it goes on with it. */
  function Outdated(pc: HandlerPc, g: nat): HandlerPc {
    match pc
    case Recording(None) => Recording(Some(g))
    case CountLoaded(None) => CountLoaded(Some(g))
    case _ => pc
  }

  function WatchOutdated(pc: WatchPc, g: nat): WatchPc {
    match pc
    case WCountLoaded(cfg, None) => WCountLoaded(cfg, Some(g))
    case _ => pc
  }

  function ReplaceCounter(s: Engine): Engine {
    var g := |s.sh.past|;
    s.(sh := s.sh.(count := 0, past := s.sh.past + [s.sh.count]),
       handlers := map id | id in s.handlers :: Outdated(s.handlers[id], g),
       watch := WatchOutdated(s.watch, g),
       reset := Forcing)
  }

  /** One step of one thread; the other threads stand still. */
  function Do(c: Config, s: Engine, step: Step): Engine {
    match step
    case Arrive(id) => if id in s.handlers then s else s.(handlers := s.handlers[id := CheckRegistered])
    case Handler(id, up) => if id in s.handlers then StepHandler(c, s, id, up) else s
    case Deliver(cfg) => if s.watch.Idle? then s.(watch := WarmGate(cfg)) else s
    case TimerExpires => if s.timer == Counting then s.(timer := Ticked) else s
    case TimerTick =>
      if s.watch.Idle? && s.timer == Ticked then s.(watch := TimeoutReady, timer := Off) else s
    case Watch(up) => StepWatch(c, s, up)
    case ResetCall => if s.reset.NoReset? then ReplaceCounter(s) else s
    case ResetStep(up) => StepReset(s, up)
  }

  function Exec(c: Config, s: Engine, steps: seq<Step>): Engine
    decreases |steps|
  {
    if steps == [] then s else Exec(c, Do(c, s, steps[0]), steps[1..])
  }

  lemma {:induction false} ExecSplits(c: Config, s: Engine, a: seq<Step>, b: seq<Step>)
    ensures Exec(c, s, a + b) == Exec(c, Exec(c, s, a), b)
    decreases |a|
  {
    if a == [] {
      assert a + b == b;
    } else {
      assert (a + b)[1..] == a[1..] + b;
      ExecSplits(c, Do(c, s, a[0]), a[1..], b);
    }
  }

  // ----- The inductive invariant

  /** A write still to come either lost its version or carries the record it will replace. */
  ghost predicate UpdateOk(n: Znode, u: Update) {
    u.WriteRecord? ==> u.version <= n.version && (u.version == n.version ==> u.seen == n.rec)
  }

  ghost predicate HandlerOk(c: Config, sh: Shared, pc: HandlerPc) {
    match pc
    case PublishWarming(u) => AtLeastWarming(sh.fsm) && UpdateOk(sh.node, u)
    case Recording(held) => held.None?
    case CountLoaded(held) => held.None?
    case CheckWarming => sh.count >= c.readyAfter
    case ToReady => sh.count >= c.readyAfter && AtLeastWarming(sh.fsm)
    case PublishReady(u) => sh.count >= c.readyAfter && PastWarming(sh.fsm) && UpdateOk(sh.node, u)
    case _ => true
  }

  ghost predicate WatchOk(c: Config, sh: Shared, pc: WatchPc) {
    && (sh.fsm == Failed ==> pc.PublishFailed? || pc.Stopped?)
    && match pc
       case WPublishWarming(_, u) => AtLeastWarming(sh.fsm) && UpdateOk(sh.node, u)
       case WToActive(_) => sh.fsm == Ready
       case WPublishActive(_, u) => sh.fsm == Active && UpdateOk(sh.node, u)
       case WCountLoaded(_, held) => held.None?
       case WarmingGate(_) => sh.count >= c.readyAfter
       case WToReady(_) => sh.count >= c.readyAfter && AtLeastWarming(sh.fsm)
       case WPublishReady(_, u) => sh.count >= c.readyAfter && PastWarming(sh.fsm) && UpdateOk(sh.node, u)
       case ToFailed => sh.fsm != Active
       case PublishFailed(u) => sh.fsm == Failed && UpdateOk(sh.node, u)
       case _ => true
  }

  /** Readiness is never ahead of the shadow count. */
  ghost predicate FsmSafe(c: Config, sh: Shared) {
    sh.fsm == Ready || sh.fsm == Active ==> sh.count >= c.readyAfter
  }

  /** The published state is never ahead of the lifecycle. */
  ghost predicate PublishedSafe(c: Config, sh: Shared) {
    && (sh.node.rec.state == Warming ==> AtLeastWarming(sh.fsm))
    && (sh.node.rec.state == Ready || sh.node.rec.state == Active ==>
          sh.count >= c.readyAfter && PastWarming(sh.fsm))
    && (sh.node.rec.state == Active ==> sh.fsm == Active)
    && (sh.node.rec.state == Failed ==> sh.fsm == Failed)
  }

  ghost predicate SharedOk(c: Config, sh: Shared) {
    sh.fsm != Starting && FsmSafe(c, sh) && PublishedSafe(c, sh)
  }

  ghost predicate Core(c: Config, s: Engine) {
    && SharedOk(c, s.sh)
    && WatchOk(c, s.sh, s.watch)
    && forall id :: id in s.handlers ==> HandlerOk(c, s.sh, s.handlers[id])
  }

  ghost predicate Quiet(s: Engine) {
    && (s.watch.Idle? || s.watch.Stopped?)
    && forall id :: id in s.handlers ==> s.handlers[id].Served?
  }

  /** Holds at every step, inside a reset as well as outside. */
  ghost predicate Inv(c: Config, s: Engine) {
    match s.reset
    case NoReset => Core(c, s)
    case Forcing => Quiet(s)
    case ResetPublishing(u) =>
      Quiet(s) && s.sh.fsm == Registered
      && (u.WriteRecord? ==> u.version == s.sh.node.version && u.seen == s.sh.node.rec)
  }

  /** The benchmark's discipline: a reset starts only when no handler is in flight and the watch is
      idle, nothing else runs until it returns, and it returns without error. */
  ghost predicate Allowed(s: Engine, step: Step) {
    match step
    case ResetCall => s.reset.NoReset? ==> Quiet(s)
    case ResetStep(up) => s.reset.NoReset? || up
    case _ => s.reset.NoReset?
  }

  ghost predicate Disciplined(c: Config, s: Engine, steps: seq<Step>)
    decreases |steps|
  {
    steps == [] || (Allowed(s, steps[0]) && Disciplined(c, Do(c, s, steps[0]), steps[1..]))
  }

  predicate ResetFree(steps: seq<Step>) {
    forall i :: 0 <= i < |steps| ==> !steps[i].ResetCall?
  }

  // ----- One step keeps it

  /** How a step may change what the other threads rely on. */
  ghost predicate Grows(a: Shared, b: Shared) {
    && a.count <= b.count
    && (AtLeastWarming(a.fsm) ==> AtLeastWarming(b.fsm))
    && (PastWarming(a.fsm) ==> PastWarming(b.fsm))
    && (b.node == a.node || b.node.version == a.node.version + 1)
  }

  lemma HandlerMove(c: Config, sh: Shared, pc: HandlerPc, up: bool, watch: WatchPc)
    requires SharedOk(c, sh) && HandlerOk(c, sh, pc) && WatchOk(c, sh, watch)
    ensures var (sh', pc') := MoveHandler(c, sh, pc, up);
            SharedOk(c, sh') && HandlerOk(c, sh', pc') && WatchOk(c, sh', watch) && Grows(sh, sh')
  {
  }

  lemma WatchMove(c: Config, sh: Shared, pc: WatchPc, up: bool)
    requires SharedOk(c, sh) && WatchOk(c, sh, pc)
    ensures var (sh', pc') := MoveWatch(c, sh, pc, up);
            SharedOk(c, sh') && WatchOk(c, sh', pc') && Grows(sh, sh')
  {
  }

  lemma StepKeepsInv(c: Config, s: Engine, step: Step)
    requires Inv(c, s) && Allowed(s, step)
    ensures Inv(c, Do(c, s, step))
    ensures s.reset.NoReset? && !step.ResetCall? ==> Grows(s.sh, Do(c, s, step).sh)
  {
    if s.reset.NoReset? {
      match step
      case Handler(id, up) => if id in s.handlers { HandlerMove(c, s.sh, s.handlers[id], up, s.watch); }
      case Watch(up) => WatchMove(c, s.sh, s.watch, up);
      case _ =>
    }
  }

  // ----- Whole runs

  /** Every run under the reset discipline keeps the invariant. */
  lemma {:induction false} RunsKeepInv(c: Config, s: Engine, steps: seq<Step>)
    requires Inv(c, s) && Disciplined(c, s, steps)
    ensures Inv(c, Exec(c, s, steps))
    decreases |steps|
  {
    if steps != [] {
      StepKeepsInv(c, s, steps[0]);
      RunsKeepInv(c, Do(c, s, steps[0]), steps[1..]);
    }
  }

  lemma {:induction false} ResetFreeIsDisciplined(c: Config, s: Engine, steps: seq<Step>)
    requires s.reset.NoReset? && ResetFree(steps)
    ensures Disciplined(c, s, steps) && Exec(c, s, steps).reset.NoReset?
    decreases |steps|
  {
    if steps != [] {
      ResetFreeIsDisciplined(c, Do(c, s, steps[0]), steps[1..]);
    }
  }

  /** In every reset-free interleaving of handlers, watch and timer: readiness implies the shadow
      count, and what is published is never ahead of the lifecycle or of the count. */
  lemma EngineSafety(c: Config, addr: string, startedAt: int, version: nat, steps: seq<Step>)
    requires ResetFree(steps)
    ensures var sh := Exec(c, Started(addr, startedAt, version), steps).sh;
            && (sh.fsm in {Ready, Active} ==> sh.count >= c.readyAfter)
            && (sh.node.rec.state in {Ready, Active} ==>
                  sh.count >= c.readyAfter && sh.fsm in {Ready, Active, Failed})
            && (sh.node.rec.state == Active ==> sh.fsm == Active)
            && (sh.node.rec.state == Failed ==> sh.fsm == Failed)
  {
    var s := Started(addr, startedAt, version);
    ResetFreeIsDisciplined(c, s, steps);
    RunsKeepInv(c, s, steps);
  }

  /** With resets under the discipline the same holds whenever no reset is in progress. */
  lemma EngineSafetyWithResets(c: Config, addr: string, startedAt: int, version: nat, steps: seq<Step>)
    requires Disciplined(c, Started(addr, startedAt, version), steps)
    requires Exec(c, Started(addr, startedAt, version), steps).reset.NoReset?
    ensures var sh := Exec(c, Started(addr, startedAt, version), steps).sh;
            && sh.fsm != Starting
            && (sh.fsm in {Ready, Active} ==> sh.count >= c.readyAfter)
            && (sh.node.rec.state in {Ready, Active} ==>
                  sh.count >= c.readyAfter && sh.fsm in {Ready, Active, Failed})
            && (sh.node.rec.state == Active ==> sh.fsm == Active)
            && (sh.node.rec.state == Failed ==> sh.fsm == Failed)
  {
    RunsKeepInv(c, Started(addr, startedAt, version), steps);
  }

  /** Each versioned write changes only the state field of the record it replaces. */
  lemma PublishChangesOnlyState(c: Config, s: Engine, step: Step)
    requires Inv(c, s) && Allowed(s, step)
    ensures var n, n' := s.sh.node, Do(c, s, step).sh.node;
            n' == n || (n'.version == n.version + 1 && n'.rec == n.rec.(state := n'.rec.state))
  {
    match step
    case Handler(id, up) => if id in s.handlers && s.reset.NoReset? { assert HandlerOk(c, s.sh, s.handlers[id]); }
    case _ =>
  }

  /** Identity fields published at registration survive every disciplined run. */
  lemma {:induction false} RunsKeepIdentity(c: Config, s: Engine, steps: seq<Step>)
    requires Inv(c, s) && Disciplined(c, s, steps)
    ensures var r, r' := s.sh.node.rec, Exec(c, s, steps).sh.node.rec; r' == r.(state := r'.state)
    ensures s.sh.node.version <= Exec(c, s, steps).sh.node.version
    decreases |steps|
  {
    if steps != [] {
      StepKeepsInv(c, s, steps[0]);
      PublishChangesOnlyState(c, s, steps[0]);
      RunsKeepIdentity(c, Do(c, s, steps[0]), steps[1..]);
    }
  }

  /** Reset-free runs never lose ground: what was reached stays reached. */
  lemma {:induction false} RunsGrow(c: Config, s: Engine, steps: seq<Step>)
    requires Inv(c, s) && s.reset.NoReset? && ResetFree(steps)
    ensures var t := Exec(c, s, steps);
            && Inv(c, t) && t.reset.NoReset?
            && s.sh.count <= t.sh.count
            && (AtLeastWarming(s.sh.fsm) ==> AtLeastWarming(t.sh.fsm))
            && (PastWarming(s.sh.fsm) ==> PastWarming(t.sh.fsm))
    decreases |steps|
  {
    if steps != [] {
      StepKeepsInv(c, s, steps[0]);
      RunsGrow(c, Do(c, s, steps[0]), steps[1..]);
    }
  }

  lemma CountStep(c: Config, s: Engine, step: Step)
    requires !step.ResetCall?
    ensures s.sh.count <= Do(c, s, step).sh.count
  {
  }

  lemma OnlyWatchActivates(c: Config, s: Engine, step: Step)
    requires s.sh.fsm != Active && !s.watch.WToActive?
    ensures Do(c, s, step).sh.fsm != Active
  {
  }

  // ----- A request or a configuration handled alone

  function HandlerLeft(pc: HandlerPc): nat {
    match pc
    case CheckRegistered => 13
    case ToWarming => 12
    case PublishWarming(u) => if u.ReadRecord? then 11 else 10
    case Serving => 9
    case Recording(_) => 8
    case CheckCount => 7
    case CountLoaded(_) => 6
    case CheckWarming => 5
    case ToReady => 4
    case PublishReady(u) => if u.ReadRecord? then 3 else 2
    case Served => 0
  }

  /** A handler run to its end with no interference and a registry that answers. */
  function ServeAlone(c: Config, sh: Shared, pc: HandlerPc): Shared
    decreases HandlerLeft(pc)
  {
    if pc == Served then sh
    else var (sh', pc') := MoveHandler(c, sh, pc, true); ServeAlone(c, sh', pc')
  }

  function Warmed(f: State): State {
    if f == Registered then Warming else f
  }

  function Counted(c: Config, count: int, f: State): State {
    if f == Warming && count >= c.readyAfter then Ready else f
  }

  /** One uninterrupted shadow request: it counts itself, starts the warm-up, and ends it exactly when
      the count with itself included reaches the threshold; every state it enters gets published. */
  lemma ShadowRequestAlone(c: Config, sh: Shared)
    ensures var t := ServeAlone(c, sh, CheckRegistered);
            && t.count == sh.count + 1
            && t.fsm == Counted(c, sh.count + 1, Warmed(sh.fsm))
            && t.node.rec == sh.node.rec.(state := if t.fsm == sh.fsm then sh.node.rec.state else t.fsm)
  {
    var sh0 := sh;
    if sh.fsm == Registered {
      var sh1 := Attempt(sh, Warming);
      assert ServeAlone(c, sh, CheckRegistered) == ServeAlone(c, sh, ToWarming);
      assert ServeAlone(c, sh, ToWarming) == ServeAlone(c, sh1, PublishWarming(ReadRecord));
      assert ServeAlone(c, sh1, PublishWarming(ReadRecord))
          == ServeAlone(c, sh1, PublishWarming(WriteRecord(sh1.node.rec, sh1.node.version)));
      sh0 := Publish(sh1, WriteRecord(sh1.node.rec, sh1.node.version), Warming, true);
    }
    assert ServeAlone(c, sh, CheckRegistered) == ServeAlone(c, sh0, Serving);
    ServeTail(c, sh0);
  }

  lemma ServeTail(c: Config, sh: Shared)
    ensures var t := ServeAlone(c, sh, Serving);
            && t.count == sh.count + 1
            && t.fsm == Counted(c, sh.count + 1, sh.fsm)
            && t.node.rec == sh.node.rec.(state := if t.fsm == sh.fsm then sh.node.rec.state else t.fsm)
  {
    var sh1 := sh.(count := sh.count + 1);
    assert ServeAlone(c, sh, Serving) == ServeAlone(c, sh, Recording(None));
    assert ServeAlone(c, sh, Recording(None)) == ServeAlone(c, sh1, CheckCount);
    assert ServeAlone(c, sh1, CheckCount) == ServeAlone(c, sh1, CountLoaded(None));
    if sh1.count >= c.readyAfter {
      assert ServeAlone(c, sh1, CountLoaded(None)) == ServeAlone(c, sh1, CheckWarming);
      if sh1.fsm == Warming {
        var sh2 := Attempt(sh1, Ready);
        assert ServeAlone(c, sh1, CheckWarming) == ServeAlone(c, sh1, ToReady);
        assert ServeAlone(c, sh1, ToReady) == ServeAlone(c, sh2, PublishReady(ReadRecord));
        assert ServeAlone(c, sh2, PublishReady(ReadRecord))
            == ServeAlone(c, sh2, PublishReady(WriteRecord(sh2.node.rec, sh2.node.version)));
      }
    }
  }

  /** Shadow requests served one after the other. */
  function ServeMany(c: Config, sh: Shared, n: nat): Shared {
    if n == 0 then sh else ServeAlone(c, ServeMany(c, sh, n - 1), CheckRegistered)
  }

  /** From a fresh start, readiness comes with request number `readyAfter` and not before, and the
      registry shows the same state as the instance after every request. */
  lemma {:induction false} WarmupTakesReadyAfterRequests(c: Config, addr: string, startedAt: int, version: nat, n: nat)
    ensures var t := ServeMany(c, Started(addr, startedAt, version).sh, n);
            && t.count == n
            && t.fsm == (if n == 0 then Registered else if n < c.readyAfter then Warming else Ready)
            && t.node.rec.state == t.fsm
  {
    hide ServeAlone;
    if n > 0 {
      WarmupTakesReadyAfterRequests(c, addr, startedAt, version, n - 1);
      ShadowRequestAlone(c, ServeMany(c, Started(addr, startedAt, version).sh, n - 1));
    }
  }

  /** Steps of one handler, with a registry that answers. */
  predicate OwnSteps(steps: seq<Step>, id: nat) {
    forall i :: 0 <= i < |steps| ==> steps[i] == Handler(id, true)
  }

  /** A handler alone in the step system computes ServeAlone. */
  lemma {:induction false} AloneInTheSystem(c: Config, s: Engine, id: nat)
    requires id in s.handlers
    ensures exists steps ::
              && OwnSteps(steps, id)
              && Exec(c, s, steps)
                   == s.(sh := ServeAlone(c, s.sh, s.handlers[id]), handlers := s.handlers[id := Served])
    decreases HandlerLeft(s.handlers[id])
  {
    if s.handlers[id] == Served {
      assert s.handlers[id := Served] == s.handlers;
      assert Exec(c, s, []) == s;
    } else {
      var t := Do(c, s, Handler(id, true));
      AloneInTheSystem(c, t, id);
      var rest :| OwnSteps(rest, id)
        && Exec(c, t, rest) == t.(sh := ServeAlone(c, t.sh, t.handlers[id]), handlers := t.handlers[id := Served]);
      var steps := [Handler(id, true)] + rest;
      assert steps[1..] == rest;
      assert t.handlers[id := Served] == s.handlers[id := Served];
      assert OwnSteps(steps, id) && Exec(c, s, steps) == Exec(c, t, rest);
    }
  }

  function WatchLeft(pc: WatchPc): nat {
    match pc
    case Idle => 0
    case WarmGate(_) => 21
    case WToWarming(_) => 20
    case WPublishWarming(_, u) => if u.ReadRecord? then 19 else 18
    case ActiveGate(_) => 17
    case WToActive(_) => 16
    case WPublishActive(_, u) => if u.ReadRecord? then 15 else 14
    case CountGate(_) => 13
    case WCountLoaded(_, _) => 12
    case WarmingGate(_) => 11
    case WToReady(_) => 10
    case WPublishReady(_, u) => if u.ReadRecord? then 9 else 8
    case TimerGate(_) => 7
    case TimeoutReady => 6
    case TimeoutActive => 5
    case ToFailed => 4
    case PublishFailed(u) => if u.ReadRecord? then 3 else 2
    case Stopped => 0
  }

  /** The watch goroutine run until it waits again or has stopped, with no interference. */
  function WatchAlone(c: Config, sh: Shared, pc: WatchPc): Shared
    decreases WatchLeft(pc)
  {
    if pc.Idle? || pc.Stopped? then sh
    else var (sh', pc') := MoveWatch(c, sh, pc, true); WatchAlone(c, sh', pc')
  }

  /** The lifecycle state after one configuration: the three tests in the code's order, so a
      configuration that names the instance active is spent before the count can make it Ready. */
  function Configured(c: Config, cfg: MirrorConfig, count: int, f: State): State {
    var f1 := if cfg.target == c.me && cfg.enabled && cfg.ratio > 0.0 then Warmed(f) else f;
    var f2 := if cfg.active == c.me && f1 == Ready then Active else f1;
    Counted(c, count, f2)
  }

  /** The record after a publication that meets no interference. */
  function PublishedAlone(sh: Shared, st: State): Shared {
    sh.(node := Znode(sh.node.rec.(state := st), sh.node.version + 1))
  }

  lemma WatchPublishesWarming(c: Config, sh: Shared, cfg: MirrorConfig)
    ensures WatchAlone(c, sh, WPublishWarming(cfg, ReadRecord))
         == WatchAlone(c, PublishedAlone(sh, Warming), ActiveGate(cfg))
  {
    var w := WriteRecord(sh.node.rec, sh.node.version);
    assert WatchAlone(c, sh, WPublishWarming(cfg, ReadRecord)) == WatchAlone(c, sh, WPublishWarming(cfg, w));
  }

  lemma WatchPublishesActive(c: Config, sh: Shared, cfg: MirrorConfig)
    ensures WatchAlone(c, sh, WPublishActive(cfg, ReadRecord))
         == WatchAlone(c, PublishedAlone(sh, Active), CountGate(cfg))
  {
    var w := WriteRecord(sh.node.rec, sh.node.version);
    assert WatchAlone(c, sh, WPublishActive(cfg, ReadRecord)) == WatchAlone(c, sh, WPublishActive(cfg, w));
  }

  lemma WatchPublishesReady(c: Config, sh: Shared, cfg: MirrorConfig)
    ensures WatchAlone(c, sh, WPublishReady(cfg, ReadRecord))
         == WatchAlone(c, PublishedAlone(sh, Ready), TimerGate(cfg))
  {
    var w := WriteRecord(sh.node.rec, sh.node.version);
    assert WatchAlone(c, sh, WPublishReady(cfg, ReadRecord)) == WatchAlone(c, sh, WPublishReady(cfg, w));
  }

  lemma WatchPublishesFailed(c: Config, sh: Shared)
    ensures WatchAlone(c, sh, PublishFailed(ReadRecord)) == PublishedAlone(sh, Failed)
  {
    var w := WriteRecord(sh.node.rec, sh.node.version);
    assert WatchAlone(c, sh, PublishFailed(ReadRecord)) == WatchAlone(c, sh, PublishFailed(w));
  }

  lemma WatchTail(c: Config, sh: Shared, cfg: MirrorConfig)
    ensures var t := WatchAlone(c, sh, CountGate(cfg));
            && t.count == sh.count
            && t.fsm == Counted(c, sh.count, sh.fsm)
            && t.node.rec == sh.node.rec.(state := if t.fsm == sh.fsm then sh.node.rec.state else t.fsm)
  {
    assert WatchAlone(c, sh, TimerGate(cfg)) == WatchAlone(c, sh, Idle);
    assert WatchAlone(c, sh, CountGate(cfg)) == WatchAlone(c, sh, WCountLoaded(cfg, None));
    if sh.count >= c.readyAfter {
      assert WatchAlone(c, sh, WCountLoaded(cfg, None)) == WatchAlone(c, sh, WarmingGate(cfg));
      if sh.fsm == Warming {
        var sh1 := Attempt(sh, Ready);
        assert WatchAlone(c, sh, WarmingGate(cfg)) == WatchAlone(c, sh, WToReady(cfg));
        assert WatchAlone(c, sh, WToReady(cfg)) == WatchAlone(c, sh1, WPublishReady(cfg, ReadRecord));
        WatchPublishesReady(c, sh1, cfg);
        var sh2 := PublishedAlone(sh1, Ready);
        assert WatchAlone(c, sh2, TimerGate(cfg)) == WatchAlone(c, sh2, Idle);
      }
    }
  }

  lemma WatchMiddle(c: Config, sh: Shared, cfg: MirrorConfig)
    ensures var t := WatchAlone(c, sh, ActiveGate(cfg));
            && t.count == sh.count
            && t.fsm == Counted(c, sh.count, if cfg.active == c.me && sh.fsm == Ready then Active else sh.fsm)
            && t.node.rec == sh.node.rec.(state := if t.fsm == sh.fsm then sh.node.rec.state else t.fsm)
  {
    if cfg.active == c.me && sh.fsm == Ready {
      var sh1 := Attempt(sh, Active);
      assert WatchAlone(c, sh, ActiveGate(cfg)) == WatchAlone(c, sh, WToActive(cfg));
      assert WatchAlone(c, sh, WToActive(cfg)) == WatchAlone(c, sh1, WPublishActive(cfg, ReadRecord));
      WatchPublishesActive(c, sh1, cfg);
      WatchTail(c, PublishedAlone(sh1, Active), cfg);
    } else {
      assert WatchAlone(c, sh, ActiveGate(cfg)) == WatchAlone(c, sh, CountGate(cfg));
      WatchTail(c, sh, cfg);
    }
  }

  /** One configuration handled without interference, from any state. */
  lemma ConfigurationAlone(c: Config, sh: Shared, cfg: MirrorConfig)
    ensures var t := WatchAlone(c, sh, WarmGate(cfg));
            && t.count == sh.count
            && t.fsm == Configured(c, cfg, sh.count, sh.fsm)
            && t.node.rec == sh.node.rec.(state := if t.fsm == sh.fsm then sh.node.rec.state else t.fsm)
  {
    if cfg.target == c.me && cfg.enabled && cfg.ratio > 0.0 && sh.fsm == Registered {
      var sh1 := Attempt(sh, Warming);
      assert WatchAlone(c, sh, WarmGate(cfg)) == WatchAlone(c, sh, WToWarming(cfg));
      assert WatchAlone(c, sh, WToWarming(cfg)) == WatchAlone(c, sh1, WPublishWarming(cfg, ReadRecord));
      WatchPublishesWarming(c, sh1, cfg);
      WatchMiddle(c, PublishedAlone(sh1, Warming), cfg);
    } else {
      assert WatchAlone(c, sh, WarmGate(cfg)) == WatchAlone(c, sh, ActiveGate(cfg));
      WatchMiddle(c, sh, cfg);
    }
  }

  /** The timer's tick handled without interference fails every instance that is neither Ready nor Active. */
  lemma TimeoutAlone(c: Config, sh: Shared)
    ensures var t := WatchAlone(c, sh, TimeoutReady);
            && t.count == sh.count
            && (sh.fsm in {Ready, Active} ==> t == sh)
            && (sh.fsm !in {Ready, Active} ==> t.fsm == Failed && t.node.rec == sh.node.rec.(state := Failed))
  {
    if sh.fsm != Ready {
      assert WatchAlone(c, sh, TimeoutReady) == WatchAlone(c, sh, TimeoutActive);
      if sh.fsm != Active {
        assert WatchAlone(c, sh, TimeoutActive) == WatchAlone(c, sh, ToFailed);
        assert WatchAlone(c, sh, ToFailed) == WatchAlone(c, Attempt(sh, Failed), PublishFailed(ReadRecord));
        WatchPublishesFailed(c, Attempt(sh, Failed));
      }
    }
  }

  // ----- Readiness is not forgotten

  predicate PastFirstTest(pc: HandlerPc) {
    !pc.CheckRegistered? && !pc.ToWarming?
  }

  predicate LoadsCurrent(pc: HandlerPc) {
    (pc.Recording? ==> pc.held.None?) && (pc.CountLoaded? ==> pc.held.None?)
  }

  predicate WillDeclare(pc: HandlerPc) {
    pc.CheckCount? || pc == CountLoaded(None) || pc.CheckWarming? || pc.ToReady?
  }

  /** Served requests have warmed the instance, and a threshold that has been reached without the instance being
      ready is in the hands of some handler that has yet to look at the count or to act on it. */
  ghost predicate NotForgotten(c: Config, s: Engine) {
    && s.reset.NoReset? && s.sh.fsm != Starting
    && (s.sh.count >= 1 ==> AtLeastWarming(s.sh.fsm))
    && (forall id :: id in s.handlers && PastFirstTest(s.handlers[id]) ==> AtLeastWarming(s.sh.fsm))
    && (forall id :: id in s.handlers ==> LoadsCurrent(s.handlers[id]))
    && (s.sh.count >= c.readyAfter && !PastWarming(s.sh.fsm) ==>
          exists id :: id in s.handlers && WillDeclare(s.handlers[id]))
  }

  lemma HandlerRemembers(c: Config, s: Engine, id: nat, up: bool)
    requires c.readyAfter >= 1 && NotForgotten(c, s) && id in s.handlers
    ensures NotForgotten(c, StepHandler(c, s, id, up))
  {
    var t := StepHandler(c, s, id, up);
    assert forall k :: k in t.handlers && k != id ==> t.handlers[k] == s.handlers[k];
    if t.sh.count >= c.readyAfter && !PastWarming(t.sh.fsm) {
      if s.handlers[id].Recording? {
        assert WillDeclare(t.handlers[id]);
      } else {
        var k :| k in s.handlers && WillDeclare(s.handlers[k]);
        assert WillDeclare(t.handlers[k]);
      }
    }
  }

  lemma StepRemembers(c: Config, s: Engine, step: Step)
    requires c.readyAfter >= 1 && NotForgotten(c, s) && !step.ResetCall?
    ensures NotForgotten(c, Do(c, s, step))
  {
    if step.Handler? && step.id in s.handlers {
      HandlerRemembers(c, s, step.id, step.up);
    } else {
      var t := Do(c, s, step);
      assert forall k :: k in s.handlers ==> k in t.handlers && t.handlers[k] == s.handlers[k];
    }
  }

  lemma {:induction false} RunsRemember(c: Config, s: Engine, steps: seq<Step>)
    requires c.readyAfter >= 1 && NotForgotten(c, s) && ResetFree(steps)
    ensures NotForgotten(c, Exec(c, s, steps))
    decreases |steps|
  {
    if steps != [] {
      StepRemembers(c, s, steps[0]);
      RunsRemember(c, Do(c, s, steps[0]), steps[1..]);
    }
  }

  /** The other half of EngineSafety. In every reset-free interleaving, once all requests have been served and
      the threshold has been reached, the instance has become ready: no schedule of the tests loses it. */
  lemma ReadinessIsReached(c: Config, addr: string, startedAt: int, version: nat, steps: seq<Step>)
    requires c.readyAfter >= 1 && ResetFree(steps)
    ensures var t := Exec(c, Started(addr, startedAt, version), steps);
            (t.sh.count >= c.readyAfter && (forall id :: id in t.handlers ==> t.handlers[id].Served?)) ==>
              PastWarming(t.sh.fsm)
  {
    RunsRemember(c, Started(addr, startedAt, version), steps);
  }

  // ----- The timer

  predicate TimingOut(pc: WatchPc) {
    pc.TimeoutReady? || pc.TimeoutActive? || pc.ToFailed? || pc.PublishFailed? || pc.Stopped?
  }

  /** The timer is out of use only for an instance past Warming, or while its tick is being acted on. */
  ghost predicate TimerOk(s: Engine) {
    s.timer == Off ==> PastWarming(s.sh.fsm) || TimingOut(s.watch)
  }

  lemma TimerStep(c: Config, s: Engine, step: Step)
    requires Inv(c, s) && s.reset.NoReset? && !step.ResetCall? && TimerOk(s)
    ensures TimerOk(Do(c, s, step))
  {
    StepKeepsInv(c, s, step);
  }

  lemma {:induction false} TimerRuns(c: Config, s: Engine, steps: seq<Step>)
    requires Inv(c, s) && s.reset.NoReset? && ResetFree(steps) && TimerOk(s)
    ensures var t := Exec(c, s, steps); Inv(c, t) && t.reset.NoReset? && TimerOk(t)
    decreases |steps|
  {
    hide TimerOk, PastWarming;
    if steps != [] {
      TimerStep(c, s, steps[0]);
      StepKeepsInv(c, s, steps[0]);
      NoResetBegins(c, s, steps[0]);
      TimerRuns(c, Do(c, s, steps[0]), steps[1..]);
    }
  }

  lemma NoResetBegins(c: Config, s: Engine, step: Step)
    requires s.reset.NoReset? && !step.ResetCall?
    ensures Do(c, s, step).reset.NoReset?
  {
  }

  /** In every reset-free run the timer is stopped, or its tick used up, only when the instance is past Warming or
      the timeout is being acted on: a configuration that finds the instance short of Ready leaves it running. */
  lemma TimerRunsUntilReady(c: Config, addr: string, startedAt: int, version: nat, steps: seq<Step>)
    requires ResetFree(steps)
    ensures TimerOk(Exec(c, Started(addr, startedAt, version), steps))
  {
    TimerRuns(c, Started(addr, startedAt, version), steps);
  }

  /** A configuration handled in Ready stops a timer that has not ticked. */
  lemma ReadyStopsTheTimer(c: Config, s: Engine, up: bool)
    requires s.watch.TimerGate? && s.sh.fsm == Ready
    ensures Do(c, s, Watch(up)).timer != Counting
  {
  }

  /** Once out of use it never ticks again. */
  lemma {:induction false} StoppedTimerIsSilent(c: Config, s: Engine, steps: seq<Step>)
    requires s.timer == Off
    ensures Exec(c, s, steps).timer == Off
    decreases |steps|
  {
    if steps != [] {
      StoppedTimerIsSilent(c, Do(c, s, steps[0]), steps[1..]);
    }
  }

  // ----- No warm-up lasts for ever

  /** Steps of the watch goroutine and its timer. */
  predicate WatchStep(step: Step) {
    step.Watch? || step.TimerExpires? || step.TimerTick?
  }

  ghost predicate CanEnd(c: Config, s: Engine, end: set<State>) {
    exists steps :: (forall i :: 0 <= i < |steps| ==> WatchStep(steps[i])) && Exec(c, s, steps).sh.fsm in end
  }

  lemma EndsNow(c: Config, s: Engine, end: set<State>)
    requires s.sh.fsm in end
    ensures CanEnd(c, s, end)
  {
    assert Exec(c, s, []) == s;
  }

  lemma EndsLater(c: Config, s: Engine, end: set<State>, step: Step)
    requires WatchStep(step) && CanEnd(c, Do(c, s, step), end)
    ensures CanEnd(c, s, end)
  {
    hide Do, WatchStep;
    var rest :| (forall i :: 0 <= i < |rest| ==> WatchStep(rest[i])) && Exec(c, Do(c, s, step), rest).sh.fsm in end;
    ExecCons(c, s, step, rest);
    assert forall i :: 0 <= i < |[step] + rest| ==> WatchStep(([step] + rest)[i]);
  }

  /** How far the watch, left to itself, is from the end of a timeout. */
  function TimeLeft(s: Engine): nat {
    if s.watch.Idle? then (if s.timer == Counting then 9 else 8)
    else if TimingOut(s.watch) then WatchLeft(s.watch)
    else 10 + WatchLeft(s.watch)
  }

  /** The next step of the watch left to itself. */
  function OwnStep(s: Engine): Step {
    if !s.watch.Idle? then Watch(true) else if s.timer == Counting then TimerExpires else TimerTick
  }

  /** Warming up, with the watch still there. */
  ghost predicate InWarmup(c: Config, s: Engine) {
    && Inv(c, s) && s.reset.NoReset? && TimerOk(s)
    && s.sh.fsm in {Registered, Warming} && !s.watch.Stopped?
  }

  lemma OwnStepGoesOn(c: Config, s: Engine)
    requires InWarmup(c, s)
    ensures var t := Do(c, s, OwnStep(s));
            && ((InWarmup(c, t) && TimeLeft(t) < TimeLeft(s)) || t.sh.fsm in {Ready, Active, Failed})
            && (s.sh.count < c.readyAfter ==> t.sh.count == s.sh.count && t.sh.fsm !in {Ready, Active})
  {
    StepKeepsInv(c, s, OwnStep(s));
    TimerStep(c, s, OwnStep(s));
  }

  lemma {:induction false} WatchEndsWarmup(c: Config, s: Engine)
    requires InWarmup(c, s)
    ensures CanEnd(c, s, if s.sh.count < c.readyAfter then {Failed} else {Ready, Active, Failed})
    decreases TimeLeft(s)
  {
    hide Do, InWarmup, CanEnd;
    var end := if s.sh.count < c.readyAfter then {Failed} else {Ready, Active, Failed};
    var t := Do(c, s, OwnStep(s));
    OwnStepGoesOn(c, s);
    if t.sh.fsm in {Ready, Active, Failed} {
      EndsNow(c, t, end);
    } else {
      SameThreshold(c, s);
      WatchEndsWarmup(c, t);
    }
    EndsLater(c, s, end, OwnStep(s));
  }

  lemma SameThreshold(c: Config, s: Engine)
    requires InWarmup(c, s)
    ensures Do(c, s, OwnStep(s)).sh.count == s.sh.count
  {
  }

  /** From every point of every reset-free run at which the instance is still Registered or Warming and its watch has
      not returned, the watch and its timer alone can end the warm-up; and while the threshold is unreached they can
      only fail it. */
  lemma WarmupCanAlwaysEnd(c: Config, addr: string, startedAt: int, version: nat, steps: seq<Step>)
    requires ResetFree(steps)
    ensures var s := Exec(c, Started(addr, startedAt, version), steps);
            s.sh.fsm in {Registered, Warming} && !s.watch.Stopped? ==>
              CanEnd(c, s, if s.sh.count < c.readyAfter then {Failed} else {Ready, Active, Failed})
  {
    hide Exec, CanEnd;
    TimerRuns(c, Started(addr, startedAt, version), steps);
    var s := Exec(c, Started(addr, startedAt, version), steps);
    if s.sh.fsm in {Registered, Warming} && !s.watch.Stopped? {
      WatchEndsWarmup(c, s);
    }
  }

  // ----- When a reset is safe

  /** The handlers about to record a request in a loaded counter. */
  function Recorders(s: Engine, held: Option<nat>): set<nat> {
    set id | id in s.handlers && s.handlers[id] == Recording(held)
  }

  /** A loaded counter has reached the threshold, or will once those about to record in it have done so. */
  predicate MayReach(c: Config, s: Engine, held: Option<nat>) {
    Seen(s.sh, held) + |Recorders(s, held)| >= c.readyAfter
  }

  /** No thread stands between its count test and the transition to Ready, or holds a counter on which it could
      still pass that test. */
  predicate NoGatePassed(c: Config, s: Engine) {
    && !s.watch.WarmingGate? && !s.watch.WToReady?
    && (s.watch.WCountLoaded? ==> !MayReach(c, s, s.watch.held))
    && forall id :: id in s.handlers ==>
         !s.handlers[id].CheckWarming? && !s.handlers[id].ToReady? &&
         (s.handlers[id].CountLoaded? ==> !MayReach(c, s, s.handlers[id].held))
  }

  predicate KnownLoad(sh: Shared, held: Option<nat>) {
    held.Some? ==> held.value < |sh.past|
  }

  /** Whoever holds a replaced counter holds one of those that there are. */
  predicate LoadsKnown(s: Engine) {
    && (s.watch.WCountLoaded? ==> KnownLoad(s.sh, s.watch.held))
    && forall id :: id in s.handlers ==>
         && (s.handlers[id].Recording? ==> KnownLoad(s.sh, s.handlers[id].held))
         && (s.handlers[id].CountLoaded? ==> KnownLoad(s.sh, s.handlers[id].held))
  }

  lemma StepKeepsLoadsKnown(c: Config, s: Engine, step: Step)
    requires LoadsKnown(s)
    ensures LoadsKnown(Do(c, s, step))
  {
  }

  /** That is so in every run, with any resets at any time. */
  lemma {:induction false} RunsKeepLoadsKnown(c: Config, s: Engine, steps: seq<Step>)
    requires LoadsKnown(s)
    ensures LoadsKnown(Exec(c, s, steps))
    decreases |steps|
  {
    hide Do;
    if steps != [] {
      StepKeepsLoadsKnown(c, s, steps[0]);
      RunsKeepLoadsKnown(c, Do(c, s, steps[0]), steps[1..]);
    }
  }

  /** The engine right after ResetBenchmark has replaced the counter and forced the lifecycle. */
  function ResetNow(c: Config, s: Engine): Engine {
    Do(c, Do(c, s, ResetCall), ResetStep(true))
  }

  ghost predicate HonestGate(c: Config, s: Engine, passed: bool) {
    passed ==> s.sh.count >= c.readyAfter
  }

  ghost predicate HonestLoad(c: Config, s: Engine, held: Option<nat>) {
    held.Some? ==> held.value < |s.sh.past| && !MayReach(c, s, held)
  }

  /** Who has passed the count test has passed it on the current counter, and who holds a replaced one will fail. */
  ghost predicate GatesHonest(c: Config, s: Engine) {
    && FsmSafe(c, s.sh) && !s.reset.Forcing? && LoadsKnown(s)
    && HonestGate(c, s, s.watch.WarmingGate? || s.watch.WToReady?)
    && (s.watch.WCountLoaded? ==> HonestLoad(c, s, s.watch.held))
    && forall id :: id in s.handlers ==>
         && HonestGate(c, s, s.handlers[id].CheckWarming? || s.handlers[id].ToReady?)
         && (s.handlers[id].CountLoaded? ==> HonestLoad(c, s, s.handlers[id].held))
  }

  /** The step is a handler's recording in replaced counter `g`. */
  predicate RecordsIn(s: Engine, step: Step, g: nat) {
    step.Handler? && step.id in s.handlers && s.handlers[step.id] == Recording(Some(g))
  }

  lemma RecordersStep(c: Config, s: Engine, step: Step, g: nat)
    requires !step.ResetCall?
    ensures Recorders(Do(c, s, step), Some(g))
         == if RecordsIn(s, step, g) then Recorders(s, Some(g)) - {step.id} else Recorders(s, Some(g))
    ensures RecordsIn(s, step, g) ==> step.id in Recorders(s, Some(g))
  {
  }

  lemma SeenStep(c: Config, s: Engine, step: Step, g: nat)
    requires !step.ResetCall? && g < |s.sh.past|
    ensures var t := Do(c, s, step);
            && |t.sh.past| == |s.sh.past|
            && Seen(t.sh, Some(g)) == Seen(s.sh, Some(g)) + if RecordsIn(s, step, g) then 1 else 0
  {
  }

  /** A handler's step moves one unit from those about to record to the counter, or nothing. */
  lemma LoadsAreStable(c: Config, s: Engine, step: Step, g: nat)
    requires !step.ResetCall? && g < |s.sh.past|
    ensures var t := Do(c, s, step);
            |t.sh.past| == |s.sh.past| && (MayReach(c, t, Some(g)) <==> MayReach(c, s, Some(g)))
  {
    RecordersStep(c, s, step, g);
    SeenStep(c, s, step, g);
    hide Do, Recorders, Seen, RecordsIn;
  }

  lemma HonestStep(c: Config, s: Engine, step: Step)
    requires GatesHonest(c, s) && !step.ResetCall?
    ensures GatesHonest(c, Do(c, s, step))
  {
    var t := Do(c, s, step);
    StepKeepsLoadsKnown(c, s, step);
    CountStep(c, s, step);
    forall g: nat | g < |s.sh.past|
      ensures |t.sh.past| == |s.sh.past| && (MayReach(c, t, Some(g)) <==> MayReach(c, s, Some(g)))
    {
      LoadsAreStable(c, s, step, g);
    }
  }

  lemma {:induction false} HonestRuns(c: Config, s: Engine, steps: seq<Step>)
    requires GatesHonest(c, s) && ResetFree(steps)
    ensures FsmSafe(c, Exec(c, s, steps).sh)
    decreases |steps|
  {
    hide Do;
    if steps != [] {
      HonestStep(c, s, steps[0]);
      HonestRuns(c, Do(c, s, steps[0]), steps[1..]);
    }
  }

  /** A counter loaded before the reset has the same prospects after it. */
  lemma ResetKeepsLoad(c: Config, s: Engine, held: Option<nat>)
    requires s.reset.NoReset? && LoadsKnown(s) && KnownLoad(s.sh, held)
    ensures var g := if held.Some? then held.value else |s.sh.past|;
            var t := ResetNow(c, s);
            g < |t.sh.past| && (MayReach(c, t, Some(g)) <==> MayReach(c, s, held))
  {
    var g := if held.Some? then held.value else |s.sh.past|;
    assert Recorders(ResetNow(c, s), Some(g)) == Recorders(s, held);
  }

  lemma ResetIsHonest(c: Config, s: Engine)
    requires c.readyAfter >= 1 && s.reset.NoReset? && LoadsKnown(s) && NoGatePassed(c, s)
    ensures GatesHonest(c, ResetNow(c, s))
  {
    var t := ResetNow(c, s);
    if s.watch.WCountLoaded? {
      ResetKeepsLoad(c, s, s.watch.held);
    }
    forall id | id in s.handlers && s.handlers[id].CountLoaded?
      ensures HonestLoad(c, t, t.handlers[id].held)
    {
      ResetKeepsLoad(c, s, s.handlers[id].held);
    }
  }

  lemma FreshId(used: set<nat>) returns (k: nat)
    ensures k !in used && forall u :: u in used ==> u < k
  {
    if used == {} {
      k := 0;
    } else {
      var u :| u in used;
      var k' := FreshId(used - {u});
      k := if u < k' then k' else u + 1;
      forall w | w in used ensures w < k { if w != u { assert w in used - {u}; } }
    }
  }

  lemma ExecCons(c: Config, s: Engine, a: Step, rest: seq<Step>)
    ensures Exec(c, s, [a] + rest) == Exec(c, Do(c, s, a), rest)
  {
    assert ([a] + rest)[1..] == rest;
  }

  /** A fresh handler re-opens the warm-up; then the thread that had passed the count test goes on. */
  lemma StaleGateBreaks(c: Config, s: Engine, late: Step) returns (steps: seq<Step>)
    requires c.readyAfter >= 1 && s.sh.fsm == Registered && s.sh.count == 0
    requires match late
             case Watch(_) => s.watch.WarmingGate? || s.watch.WToReady?
             case Handler(id, _) => id in s.handlers && (s.handlers[id].CheckWarming? || s.handlers[id].ToReady?)
             case _ => false
    ensures ResetFree(steps) && !FsmSafe(c, Exec(c, s, steps).sh)
  {
    var k := FreshId(s.handlers.Keys);
    var s1 := Do(c, s, Arrive(k));
    var s2 := Do(c, s1, Handler(k, true));
    var s3 := Do(c, s2, Handler(k, true));
    var s4 := Do(c, s3, late);
    var tail := if s4.sh.fsm == Ready then [] else [late];
    steps := [Arrive(k)] + ([Handler(k, true)] + ([Handler(k, true)] + ([late] + tail)));
    ExecCons(c, s, Arrive(k), [Handler(k, true)] + ([Handler(k, true)] + ([late] + tail)));
    ExecCons(c, s1, Handler(k, true), [Handler(k, true)] + ([late] + tail));
    ExecCons(c, s2, Handler(k, true), [late] + tail);
    ExecCons(c, s3, late, tail);
    if tail != [] {
      var s5 := Do(c, s4, late);
      assert tail == [late] + [];
      ExecCons(c, s4, late, []);
      assert s5.sh.fsm == Ready && s5.sh.count == 0;
    }
  }

  ghost predicate CanBreak(c: Config, s: Engine) {
    exists steps :: ResetFree(steps) && !FsmSafe(c, Exec(c, s, steps).sh)
  }

  lemma BreaksLater(c: Config, s: Engine, step: Step)
    requires !step.ResetCall? && CanBreak(c, Do(c, s, step))
    ensures CanBreak(c, s)
  {
    hide Do;
    var rest :| ResetFree(rest) && !FsmSafe(c, Exec(c, Do(c, s, step), rest).sh);
    ExecCons(c, s, step, rest);
    assert ResetFree([step] + rest);
  }

  /** The thread named by a step has loaded counter `g` and not yet read it. */
  predicate HasLoaded(s: Engine, late: Step, g: nat) {
    match late
    case Watch(up) => up && s.watch.WCountLoaded? && s.watch.held == Some(g)
    case Handler(id, up) => up && id in s.handlers && s.handlers[id] == CountLoaded(Some(g))
    case _ => false
  }

  /** Those about to record in the replaced counter do so; then its reader passes the test, and goes on to
      declare readiness. */
  lemma {:induction false} StaleLoadBreaks(c: Config, s: Engine, late: Step, g: nat)
    requires c.readyAfter >= 1 && s.sh.fsm == Registered && s.sh.count == 0
    requires HasLoaded(s, late, g) && g < |s.sh.past| && MayReach(c, s, Some(g))
    ensures CanBreak(c, s)
    decreases |Recorders(s, Some(g))|
  {
    if Recorders(s, Some(g)) == {} {
      var steps := StaleGateBreaks(c, Do(c, s, late), late);
      BreaksLater(c, s, late);
    } else {
      var id :| id in Recorders(s, Some(g));
      var t := Do(c, s, Handler(id, true));
      assert Recorders(t, Some(g)) == Recorders(s, Some(g)) - {id};
      StaleLoadBreaks(c, t, late, g);
      BreaksLater(c, s, Handler(id, true));
    }
  }

  lemma PassedGateBreaks(c: Config, s: Engine)
    requires c.readyAfter >= 1 && s.reset.NoReset? && LoadsKnown(s) && !NoGatePassed(c, s)
    ensures CanBreak(c, ResetNow(c, s))
  {
    var t := ResetNow(c, s);
    if s.watch.WarmingGate? || s.watch.WToReady? {
      var steps := StaleGateBreaks(c, t, Watch(true));
    } else if s.watch.WCountLoaded? && MayReach(c, s, s.watch.held) {
      ResetKeepsLoad(c, s, s.watch.held);
      StaleLoadBreaks(c, t, Watch(true), t.watch.held.value);
    } else {
      var id :| id in s.handlers &&
        (s.handlers[id].CheckWarming? || s.handlers[id].ToReady? ||
         (s.handlers[id].CountLoaded? && MayReach(c, s, s.handlers[id].held)));
      if s.handlers[id].CountLoaded? {
        ResetKeepsLoad(c, s, s.handlers[id].held);
        StaleLoadBreaks(c, t, Handler(id, true), t.handlers[id].held.value);
      } else {
        var steps := StaleGateBreaks(c, t, Handler(id, true));
      }
    }
  }

  /** A reset keeps every later run safe if and only if no thread has passed the count test without having made
      its transition, and none holds the old counter with the threshold reached or about to be: such a thread
      would declare readiness on the requests served before the reset. */
  lemma ResetIsSafeIff(c: Config, s: Engine)
    requires c.readyAfter >= 1 && s.reset.NoReset? && LoadsKnown(s)
    ensures (forall steps | ResetFree(steps) :: FsmSafe(c, Exec(c, ResetNow(c, s), steps).sh)) <==> NoGatePassed(c, s)
  {
    hide Do, ResetNow, LoadsKnown, FsmSafe;
    if NoGatePassed(c, s) {
      ResetIsHonest(c, s);
      forall steps | ResetFree(steps)
        ensures FsmSafe(c, Exec(c, ResetNow(c, s), steps).sh)
      {
        HonestRuns(c, ResetNow(c, s), steps);
      }
    } else {
      PassedGateBreaks(c, s);
    }
  }

  /** Once the watch goroutine has returned after a timeout, no reset and no request ever makes the
      instance Active again. */
  lemma {:induction false} StoppedWatchNeverActivates(c: Config, s: Engine, steps: seq<Step>)
    requires s.watch.Stopped? && s.sh.fsm != Active
    ensures Exec(c, s, steps).watch.Stopped? && Exec(c, s, steps).sh.fsm != Active
    decreases |steps|
  {
    if steps != [] {
      StoppedWatchNeverActivates(c, Do(c, s, steps[0]), steps[1..]);
    }
  }

  // ----- A publication of Ready can be lost for good

  /** An update that can still land: it has yet to read, or holds the current version. */
  predicate Current(n: Znode, u: Update) {
    u.WriteRecord? ==> u.version == n.version
  }

  predicate WillPublishReady(n: Znode, pc: HandlerPc) {
    pc.ToReady? || (pc.PublishReady? && Current(n, pc.u))
  }

  predicate WatchWillPublishReady(n: Znode, pc: WatchPc) {
    pc.WToReady? || (pc.WPublishReady? && Current(n, pc.u))
  }

  /** Some thread will publish Ready when left to itself. */
  predicate Live(s: Engine) {
    WatchWillPublishReady(s.sh.node, s.watch) ||
    exists id :: id in s.handlers && WillPublishReady(s.sh.node, s.handlers[id])
  }

  predicate NotNewer(n: Znode, u: Update) {
    u.WriteRecord? ==> u.version <= n.version
  }

  /** The instance is past Warming and no reset is in progress; no pending publication of Ready comes from the
      future, as none does in any run. */
  ghost predicate Late(s: Engine) {
    && s.reset.NoReset? && PastWarming(s.sh.fsm) && s.sh.node.rec.state != Ready
    && (s.watch.WPublishReady? ==> NotNewer(s.sh.node, s.watch.u))
    && forall id :: id in s.handlers && s.handlers[id].PublishReady? ==> NotNewer(s.sh.node, s.handlers[id].u)
  }

  lemma LateHandler(c: Config, s: Engine, id: nat, up: bool)
    requires Late(s) && !Live(s) && id in s.handlers
    ensures var t := StepHandler(c, s, id, up); Late(t) && !Live(t)
  {
  }

  lemma LateWatch(c: Config, s: Engine, up: bool)
    requires Late(s) && !Live(s)
    ensures var t := StepWatch(c, s, up); Late(t) && !Live(t)
  {
  }

  lemma LateStep(c: Config, s: Engine, step: Step)
    requires Late(s) && !Live(s) && !step.ResetCall?
    ensures Late(Do(c, s, step)) && !Live(Do(c, s, step))
  {
    if step.Handler? && step.id in s.handlers {
      LateHandler(c, s, step.id, step.up);
    } else if step.Watch? {
      LateWatch(c, s, step.up);
    }
  }

  lemma {:induction false} LateRuns(c: Config, s: Engine, steps: seq<Step>)
    requires Late(s) && !Live(s) && ResetFree(steps)
    ensures Late(Exec(c, s, steps))
    decreases |steps|
  {
    hide Do, Late, Live;
    if steps != [] {
      LateStep(c, s, steps[0]);
      LateRuns(c, Do(c, s, steps[0]), steps[1..]);
    }
  }

  ghost predicate CanShowReady(c: Config, s: Engine) {
    exists steps :: ResetFree(steps) && Exec(c, s, steps).sh.node.rec.state == Ready
  }

  lemma ShowsLater(c: Config, s: Engine, step: Step)
    requires !step.ResetCall? && CanShowReady(c, Do(c, s, step))
    ensures CanShowReady(c, s)
  {
    hide Do;
    var rest :| ResetFree(rest) && Exec(c, Do(c, s, step), rest).sh.node.rec.state == Ready;
    ExecCons(c, s, step, rest);
    assert ResetFree([step] + rest);
  }

  lemma ShowsNow(c: Config, s: Engine)
    requires s.sh.node.rec.state == Ready
    ensures CanShowReady(c, s)
  {
    assert ResetFree([]) && Exec(c, s, []) == s;
  }

  /** A live thread, run on its own, publishes Ready within three steps. */
  lemma {:induction false} LiveHandlerShows(c: Config, s: Engine, id: nat)
    requires id in s.handlers && WillPublishReady(s.sh.node, s.handlers[id])
    ensures CanShowReady(c, s)
    decreases HandlerLeft(s.handlers[id])
  {
    var t := Do(c, s, Handler(id, true));
    if s.handlers[id].PublishReady? && s.handlers[id].u.WriteRecord? {
      ShowsNow(c, t);
    } else {
      LiveHandlerShows(c, t, id);
    }
    ShowsLater(c, s, Handler(id, true));
  }

  lemma {:induction false} LiveWatchShows(c: Config, s: Engine)
    requires WatchWillPublishReady(s.sh.node, s.watch)
    ensures CanShowReady(c, s)
    decreases WatchLeft(s.watch)
  {
    var t := Do(c, s, Watch(true));
    if s.watch.WPublishReady? && s.watch.u.WriteRecord? {
      ShowsNow(c, t);
    } else {
      LiveWatchShows(c, t);
    }
    ShowsLater(c, s, Watch(true));
  }

  /** Whoever else is in flight: once the instance is past Warming and its record does not show Ready, some later
      run will show it if and only if some thread is on its way to publish Ready at a version still current.
      Otherwise the coordinator's readiness test stays false, as long as the instance is not made Active. */
  lemma ReadyIsPublishedIff(c: Config, s: Engine)
    requires Late(s)
    ensures CanShowReady(c, s) <==> Live(s)
  {
    if !Live(s) {
      forall steps | ResetFree(steps)
        ensures Exec(c, s, steps).sh.node.rec.state != Ready
      {
        LateRuns(c, s, steps);
      }
    } else if WatchWillPublishReady(s.sh.node, s.watch) {
      LiveWatchShows(c, s);
    } else {
      var id :| id in s.handlers && WillPublishReady(s.sh.node, s.handlers[id]);
      LiveHandlerShows(c, s, id);
    }
  }

  /** Every disciplined run that has gone past Warming, and whose record does not show Ready, is such a state. */
  lemma RunsAreLate(c: Config, addr: string, startedAt: int, version: nat, steps: seq<Step>)
    requires Disciplined(c, Started(addr, startedAt, version), steps)
    ensures var t := Exec(c, Started(addr, startedAt, version), steps);
            t.reset.NoReset? && PastWarming(t.sh.fsm) && t.sh.node.rec.state != Ready ==> Late(t)
  {
    RunsKeepInv(c, Started(addr, startedAt, version), steps);
  }

  /** Two handlers in flight; everything else as Start left it. */
  function Two(fsm: State, count: nat, rec: InstanceRecord, version: nat, one: HandlerPc, two: HandlerPc): Engine {
    Engine(Shared(fsm, count, Znode(rec, version), []), map[1 := one, 2 := two], Idle, Counting, NoReset)
  }

  lemma TwoMoves(c: Config, s: Engine, id: nat)
    requires 1 in s.handlers && 2 in s.handlers
    requires s == Two(s.sh.fsm, s.sh.count, s.sh.node.rec, s.sh.node.version, s.handlers[1], s.handlers[2])
    requires id == 1 || id == 2
    ensures var (sh, pc) := MoveHandler(c, s.sh, s.handlers[id], true);
            Do(c, s, Handler(id, true))
              == Two(sh.fsm, sh.count, sh.node.rec, sh.node.version,
                     if id == 1 then pc else s.handlers[1], if id == 2 then pc else s.handlers[2])
  {
  }

  /** From the arrival of two requests to the moment the second one's update to Warming has landed
      between the first one's read and write of Ready. */
  function LossState(r: InstanceRecord, v: nat, i: nat): Engine {
    var w := r.(state := Warming);
    if i == 0 then Two(Registered, 0, r, v, CheckRegistered, CheckRegistered)
    else if i == 1 then Two(Registered, 0, r, v, ToWarming, CheckRegistered)
    else if i == 2 then Two(Registered, 0, r, v, ToWarming, ToWarming)
    else if i == 3 then Two(Warming, 0, r, v, PublishWarming(ReadRecord), ToWarming)
    else if i == 4 then Two(Warming, 0, r, v, PublishWarming(WriteRecord(r, v)), ToWarming)
    else if i == 5 then Two(Warming, 0, w, v + 1, Serving, ToWarming)
    else if i == 6 then Two(Warming, 0, w, v + 1, Recording(None), ToWarming)
    else if i == 7 then Two(Warming, 1, w, v + 1, CheckCount, ToWarming)
    else if i == 8 then Two(Warming, 1, w, v + 1, CountLoaded(None), ToWarming)
    else if i == 9 then Two(Warming, 1, w, v + 1, CheckWarming, ToWarming)
    else if i == 10 then Two(Warming, 1, w, v + 1, ToReady, ToWarming)
    else if i == 11 then Two(Ready, 1, w, v + 1, PublishReady(ReadRecord), ToWarming)
    else if i == 12 then Two(Ready, 1, w, v + 1, PublishReady(WriteRecord(w, v + 1)), ToWarming)
    else if i == 13 then Two(Ready, 1, w, v + 1, PublishReady(WriteRecord(w, v + 1)), PublishWarming(ReadRecord))
    else if i == 14 then
      Two(Ready, 1, w, v + 1, PublishReady(WriteRecord(w, v + 1)), PublishWarming(WriteRecord(w, v + 1)))
    else Two(Ready, 1, w, v + 2, PublishReady(WriteRecord(w, v + 1)), Serving)
  }

  /** Whose turn it is. */
  function LossTurn(i: nat): nat {
    if i == 1 || i >= 12 then 2 else 1
  }

  lemma LossRow(c: Config, r: InstanceRecord, v: nat, i: nat)
    requires c.readyAfter == 1 && r.state == Registered && i < 15
    ensures LossState(r, v, i + 1) == Do(c, LossState(r, v, i), Handler(LossTurn(i), true))
  {
    TwoMoves(c, LossState(r, v, i), LossTurn(i));
    assert r.(state := Warming).(state := Warming) == r.(state := Warming);
  }

  function LossSteps(i: nat, n: nat): seq<Step>
    decreases n - i
  {
    if i >= n then [] else [Handler(LossTurn(i), true)] + LossSteps(i + 1, n)
  }

  lemma {:induction false} LossRun(c: Config, r: InstanceRecord, v: nat, i: nat, n: nat)
    requires c.readyAfter == 1 && r.state == Registered && i <= n <= 15
    ensures Exec(c, LossState(r, v, i), LossSteps(i, n)) == LossState(r, v, n) && ResetFree(LossSteps(i, n))
    decreases n - i
  {
    hide LossState, Do;
    if i < n {
      LossRow(c, r, v, i);
      LossRun(c, r, v, i + 1, n);
      ExecCons(c, LossState(r, v, i), Handler(LossTurn(i), true), LossSteps(i + 1, n));
    }
  }

  lemma LossFromStart(c: Config, addr: string, startedAt: int, v: nat, n: nat) returns (steps: seq<Step>)
    requires c.readyAfter == 1 && n <= 15
    ensures ResetFree(steps)
    ensures Exec(c, Started(addr, startedAt, v), steps)
         == LossState(InstanceRecord(addr, Registered, "warmup", startedAt), v, n)
  {
    hide Do, LossState, Started;
    var r := InstanceRecord(addr, Registered, "warmup", startedAt);
    var s := Started(addr, startedAt, v);
    LossRun(c, r, v, 0, n);
    LossBegin(c, addr, startedAt, v);
    var rest := LossSteps(0, n);
    ExecCons(c, s, Arrive(1), [Arrive(2)] + rest);
    ExecCons(c, Do(c, s, Arrive(1)), Arrive(2), rest);
    steps := [Arrive(1)] + ([Arrive(2)] + rest);
  }

  /** The racing reset does arise: two overlapping requests lead to a reset after which some run is Ready on
      nothing, and that already while a handler has no more than loaded the counter. */
  lemma ResetCanRace(addr: string, startedAt: int, version: nat, i: nat)
    requires i == 8 || i == 9
    ensures var c := Config("warmup-1", 1);
            exists before ::
              var s := Exec(c, Started(addr, startedAt, version), before);
              && ResetFree(before) && s.reset.NoReset? && 1 in s.handlers
              && s.handlers[1] == (if i == 8 then CountLoaded(None) else CheckWarming) && CanBreak(c, ResetNow(c, s))
  {
    hide Exec, LossState, NoGatePassed, FsmSafe, ResetNow, CanBreak;
    var c := Config("warmup-1", 1);
    var before := LossFromStart(c, addr, startedAt, version, i);
    var s := Exec(c, Started(addr, startedAt, version), before);
    LossGate(c, InstanceRecord(addr, Registered, "warmup", startedAt), version, i);
    PassedGateBreaks(c, s);
  }

  lemma LossGate(c: Config, r: InstanceRecord, v: nat, i: nat)
    requires c.readyAfter == 1 && (i == 8 || i == 9)
    ensures var s := LossState(r, v, i);
            && 1 in s.handlers && s.handlers[1] == (if i == 8 then CountLoaded(None) else CheckWarming)
            && s.reset.NoReset? && LoadsKnown(s) && !NoGatePassed(c, s)
  {
    assert 1 in LossState(r, v, i).handlers;
  }

  lemma LossEnd(r: InstanceRecord, v: nat)
    ensures var s := LossState(r, v, 15);
            Late(s) && !Live(s) && s.sh.fsm == Ready && s.sh.node.rec.state == Warming
  {
  }

  lemma LossBegin(c: Config, addr: string, startedAt: int, v: nat)
    ensures Do(c, Do(c, Started(addr, startedAt, v), Arrive(1)), Arrive(2))
         == LossState(InstanceRecord(addr, Registered, "warmup", startedAt), v, 0)
  {
  }

  /** The late case does arise, with two overlapping requests and a registry that always answers: the instance is
      Ready, its record says Warming, and no later run without a reset shows Ready. */
  lemma ReadyPublicationCanBeLost(addr: string, startedAt: int, version: nat)
    ensures var c := Config("warmup-1", 1);
            exists steps ::
              var s := Exec(c, Started(addr, startedAt, version), steps);
              ResetFree(steps) && s.sh.fsm == Ready && s.sh.node.rec.state == Warming && !CanShowReady(c, s)
  {
    hide Exec, LossState, Late, Live, CanShowReady;
    var c := Config("warmup-1", 1);
    var steps := LossFromStart(c, addr, startedAt, version, 15);
    LossEnd(InstanceRecord(addr, Registered, "warmup", startedAt), version);
    ReadyIsPublishedIff(c, Exec(c, Started(addr, startedAt, version), steps));
  }
}
