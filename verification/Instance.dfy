/** The engine of one instance as the object it is, with one call at a time. Each method is proved against
    what the step system of module Engine computes when nobody interferes; module Engine itself covers
    every interleaving of the same steps. */
module Instance {
  import opened Lifecycle
  import opened Records
  import opened ShadowMetrics
  import E = Engine

  datatype Reply = Served | Forbidden

  /** The record after one publication of `st`, if it is made and gets through. */
  function Published(made: bool, st: State, n: Znode): Znode {
    if made then Znode(n.rec.(state := st), n.version + 1) else n
  }

  class Instance {
    const c: E.Config
    const keep: nat
    const fsm: FSM
    var shadow: ShadowMetrics
    var node: Znode

    ghost predicate Valid()
      reads this, shadow
    {
      shadow.Valid()
    }

    ghost function View(): E.Shared
      reads this, fsm, shadow
    {
      E.Shared(fsm.state, |shadow.history|, node, [])
    }

    /** The engine as Start leaves it, over the record it has registered. */
    constructor (c: E.Config, keep: nat, addr: string, startedAt: int, version: nat)
      ensures Valid() && this.c == c && fresh(fsm) && fresh(shadow)
      ensures View() == E.Started(addr, startedAt, version).sh
    {
      this.c, this.keep := c, keep;
      fsm := new FSM();
      shadow := new ShadowMetrics(keep);
      node := Znode(InstanceRecord(addr, Registered, "warmup", startedAt), version);
      new;
      var _ := fsm.Transition(Registered);
    }

    /** A read and a write conditional on the version read; `up` says whether the registry answers. */
    method UpdateInstanceState(st: State, up: bool)
      modifies this`node
      ensures node == Published(up, st, old(node))
      ensures up ==> node.rec == old(node).rec.(state := st) && node.version == old(node).version + 1
      ensures !up ==> node == old(node)
    {
      if !up {
        return;
      }
      var rec := node.rec;
      rec := rec.(state := st);
      node := Znode(rec, node.version + 1);
    }

    /** The transition and its publication, both with their errors dropped. */
    method Enter(st: State, up: bool)
      modifies this`node, fsm
      ensures fsm.state == After(old(fsm.state), st)
      ensures node == Published(up, st, old(node))
    {
      var _ := fsm.Transition(st);
      UpdateInstanceState(st, up);
    }

    /** Lifecycle and counter move as in the step system; so does the record when the registry answers. */
    ghost predicate Reached(t: E.Shared, up: bool)
      reads this, fsm, shadow
    {
      View().fsm == t.fsm && View().count == t.count && (up ==> node.rec == t.node.rec)
    }

    /** A request that is not marked as shadow passes through, a shadow mutation is refused, and a shadow GET
        is one run of a handler; `d` is the time it takes to serve. The two publications get through or not
        independently; each that does raises the version by one. */
    method ShadowMiddleware(isShadow: bool, isGet: bool, d: int, up1: bool, up2: bool) returns (r: Reply)
      requires Valid()
      modifies this`node, fsm, shadow
      ensures Valid()
      ensures r == if isShadow && !isGet then Forbidden else Served
      ensures !isShadow || !isGet ==> View() == old(View()) && shadow.history == old(shadow.history)
      ensures isShadow && isGet ==> shadow.history == old(shadow.history) + [d]
      ensures isShadow && isGet ==> Reached(E.ServeAlone(c, old(View()), E.CheckRegistered), up1 && up2)
      ensures isShadow && isGet ==>
        var f := E.Warmed(old(fsm.state));
        node == Published(fsm.state != f && up2, fsm.state, Published(f != old(fsm.state) && up1, f, old(node)))
    {
      if !isShadow {
        return Served;
      }
      if !isGet {
        return Forbidden;
      }
      E.ShadowRequestAlone(c, View());
      hide E.ServeAlone;
      if fsm.state == Registered {
        Enter(Warming, up1);
      }
      shadow.Record(d);
      var count := shadow.Count();
      if count >= c.readyAfter && fsm.state == Warming {
        Enter(Ready, up2);
      }
      return Served;
    }

    /** One configuration received by the watch goroutine; its publications get through or not independently. */
    method HandleMirrorConfig(cfg: MirrorConfig, up1: bool, up2: bool, up3: bool)
      requires Valid()
      modifies this`node, fsm
      ensures Valid() && Reached(E.WatchAlone(c, old(View()), E.WarmGate(cfg)), up1 && up2 && up3)
      ensures var f := if cfg.target == c.me && cfg.enabled && cfg.ratio > 0.0
                       then E.Warmed(old(fsm.state)) else old(fsm.state);
              var g := if cfg.active == c.me && f == Ready then Active else f;
              node == Published(fsm.state != g && up3, fsm.state,
                                Published(g != f && up2, g, Published(f != old(fsm.state) && up1, f, old(node))))
    {
      E.ConfigurationAlone(c, View(), cfg);
      hide E.WatchAlone;
      if cfg.target == c.me && cfg.enabled && cfg.ratio > 0.0 {
        if fsm.state == Registered {
          Enter(Warming, up1);
        }
      }
      if cfg.active == c.me && fsm.state == Ready {
        Enter(Active, up2);
      }
      var count := shadow.Count();
      if count >= c.readyAfter && fsm.state == Warming {
        Enter(Ready, up3);
      }
    }

    /** The timer's tick; `stop` ends the watch goroutine. */
    method OnTimeout(up: bool) returns (stop: bool)
      requires Valid()
      modifies this`node, fsm
      ensures Valid() && Reached(E.WatchAlone(c, old(View()), E.TimeoutReady), up)
      ensures stop <==> old(fsm.state) != Ready && old(fsm.state) != Active
      ensures stop ==> fsm.state == Failed
      ensures node == Published(stop && up, Failed, old(node))
    {
      E.TimeoutAlone(c, View());
      hide E.WatchAlone;
      stop := fsm.state != Ready && fsm.state != Active;
      if stop {
        Enter(Failed, up);
      }
    }

    /** The counter is replaced, not cleared, and the lifecycle forced back from any state. */
    method ResetBenchmark(warmupRole: bool, up: bool)
      requires Valid()
      modifies this, fsm
      ensures Valid()
      ensures !warmupRole ==> View() == old(View()) && shadow == old(shadow)
      ensures warmupRole ==> fresh(shadow) && shadow.history == [] && fsm.state == Registered
      ensures warmupRole && up ==> node.rec == old(node).rec.(state := Registered)
    {
      if !warmupRole {
        return;
      }
      shadow := new ShadowMetrics(keep);
      fsm.Force(Registered);
      UpdateInstanceState(Registered, up);
    }

    method Readyz() returns (ok: bool)
      ensures ok <==> fsm.state == Ready || fsm.state == Active
    {
      ok := fsm.state == Ready || fsm.state == Active;
    }
  }

  /** Driving the object: after n > 0 shadow GETs on a fresh instance it is ready exactly when n has reached
      the threshold, and its record shows the same state as the instance. */
  method ServeFresh(c: E.Config, keep: nat, addr: string, startedAt: int, version: nat, durations: seq<int>)
    returns (i: Instance)
    ensures i.Valid() && fresh(i) && i.shadow.history == durations
    ensures |durations| > 0 ==> (i.fsm.state == Ready <==> |durations| >= c.readyAfter)
    ensures i.node.rec.state == i.fsm.state
  {
    hide E.ServeAlone, E.ServeMany, Published;
    i := new Instance(c, keep, addr, startedAt, version);
    E.WarmupTakesReadyAfterRequests(c, addr, startedAt, version, 0);
    for k := 0 to |durations|
      invariant i.Valid() && fresh(i) && fresh(i.fsm) && fresh(i.shadow) && i.c == c
      invariant i.shadow.history == durations[..k]
      invariant i.fsm.state == (if k == 0 then Registered else if k < c.readyAfter then Warming else Ready)
      invariant i.node.rec.state == i.fsm.state
    {
      E.ShadowRequestAlone(c, i.View());
      var _ := i.ShadowMiddleware(true, true, durations[k], true, true);
      assert durations[..k + 1] == durations[..k] + [durations[k]];
    }
    assert durations[..|durations|] == durations;
  }
}
