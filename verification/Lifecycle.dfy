/** The warm-up lifecycle of one instance: states, the transition table, the guarded
    cell that holds the current state, and what any history of calls on it can do. */
module Lifecycle {

  datatype State = Starting | Registered | Warming | Ready | Active | Failed

  predicate ValidTransition(from: State, to: State) {
    match from
    case Starting => to == Registered || to == Failed
    case Registered => to == Warming || to == Failed
    case Warming => to == Ready || to == Failed
    case Ready => to == Active || to == Failed
    case Active => false
    case Failed => false
  }

  /** The state after a transition attempt whose error, if any, is dropped. */
  function After(from: State, to: State): State {
    if ValidTransition(from, to) then to else from
  }

  datatype TransitionResult = Moved | InvalidTransition(from: State, to: State)

  class FSM {
    var state: State

    constructor ()
      ensures state == Starting
    {
      state := Starting;
    }

    method Transition(next: State) returns (r: TransitionResult)
      modifies this
      ensures state == After(old(state), next)
      ensures r.Moved? <==> ValidTransition(old(state), next)
      ensures r.InvalidTransition? ==> r == InvalidTransition(old(state), next) && state == old(state)
    {
      if !ValidTransition(state, next) {
        return InvalidTransition(state, next);
      }
      state := next;
      return Moved;
    }

    method Force(next: State)
      modifies this
      ensures state == next
    {
      state := next;
    }
  }

  /** Starting an engine. An instance of another role is meant to be active at once, but the table has no such
      edge and the error is dropped: it stays in Starting. */
  method Start(fsm: FSM, warmupRole: bool, registered: bool) returns (ok: bool)
    modifies fsm
    ensures !warmupRole ==> ok && fsm.state == After(old(fsm.state), Active)
    ensures !warmupRole && old(fsm.state) == Starting ==> fsm.state == Starting
    ensures warmupRole ==> fsm.state == if registered then After(old(fsm.state), Registered) else old(fsm.state)
    ensures warmupRole ==> (ok <==> registered && ValidTransition(old(fsm.state), Registered))
  {
    if !warmupRole {
      var _ := fsm.Transition(Active);
      return true;
    }
    if !registered {
      return false;
    }
    var r := fsm.Transition(Registered);
    ok := r.Moved?;
  }

  /** One call on the cell: an attempt by any thread, or the reset that forces Registered. */
  datatype Call = Try(next: State) | Reset

  function Apply(s: State, c: Call): State {
    match c
    case Try(next) => After(s, next)
    case Reset => Registered
  }

  function Final(s: State, calls: seq<Call>): State
    decreases |calls|
  {
    if calls == [] then s else Final(Apply(s, calls[0]), calls[1..])
  }

  /** How many of the attempts succeed. */
  function Successes(s: State, calls: seq<Call>): nat
    decreases |calls|
  {
    if calls == [] then 0
    else (if calls[0].Try? && ValidTransition(s, calls[0].next) then 1 else 0)
         + Successes(Apply(s, calls[0]), calls[1..])
  }

  function Resets(calls: seq<Call>): nat {
    if calls == [] then 0 else (if calls[0].Reset? then 1 else 0) + Resets(calls[1..])
  }

  /** The states entered by successful attempts, in order, starting with the current one. */
  function Visited(s: State, calls: seq<Call>): seq<State>
    decreases |calls|
  {
    if calls == [] then [s]
    else if Apply(s, calls[0]) == s then Visited(s, calls[1..])
    else [s] + Visited(Apply(s, calls[0]), calls[1..])
  }

  /** The longest path of valid transitions that still leaves `s`. */
  function Budget(s: State): nat {
    match s
    case Starting => 4
    case Registered => 3
    case Warming => 2
    case Ready => 1
    case Active => 0
    case Failed => 0
  }

  /** The table is one ladder, climbed rung by rung from Starting to Active, with a way out to Failed from every rung
      but the last. */
  lemma TableIsTheLadder(from: State, to: State)
    ensures ValidTransition(from, to) <==>
            (to == Failed && from != Active && from != Failed) ||
            exists i :: 0 <= i < 4 && from == LADDER[i] && to == LADDER[i + 1]
  {
    assert LADDER[0] == Starting && LADDER[1] == Registered && LADDER[2] == Warming && LADDER[3] == Ready;
    assert LADDER[4] == Active;
  }

  const LADDER := [Starting, Registered, Warming, Ready, Active]

  /** Over any interleaving of calls, k resets leave room for at most 4 + 3k successful transitions;
      what is left of the budget at the end was not used. */
  lemma {:induction false} SuccessesBounded(s: State, calls: seq<Call>)
    ensures Successes(s, calls) + Budget(Final(s, calls)) <= Budget(s) + 3 * Resets(calls)
    ensures Successes(s, calls) <= 4 + 3 * Resets(calls)
    decreases |calls|
  {
    if calls != [] {
      SuccessesBounded(Apply(s, calls[0]), calls[1..]);
    }
  }

  /** The same calls, `k` resets later: one full climb, then `k` climbs from Registered. */
  function Climbs(k: nat): seq<Call> {
    if k == 0 then [Try(Registered), Try(Warming), Try(Ready), Try(Active)]
    else Climbs(k - 1) + [Reset, Try(Warming), Try(Ready), Try(Active)]
  }

  lemma {:induction false} RunSplits(s: State, a: seq<Call>, b: seq<Call>)
    ensures Final(s, a + b) == Final(Final(s, a), b)
    ensures Successes(s, a + b) == Successes(s, a) + Successes(Final(s, a), b)
    ensures Resets(a + b) == Resets(a) + Resets(b)
    decreases |a|
  {
    if a == [] {
      assert a + b == b;
    } else {
      assert (a + b)[1..] == a[1..] + b;
      RunSplits(Apply(s, a[0]), a[1..], b);
    }
  }

  /** The bound of SuccessesBounded is reached for every number of resets. */
  lemma {:induction false} SuccessBoundIsReached(k: nat)
    ensures Resets(Climbs(k)) == k
    ensures Successes(Starting, Climbs(k)) == 4 + 3 * k
    ensures Final(Starting, Climbs(k)) == Active
  {
    if k == 0 {
      var c := Climbs(0);
      assert c[1..] == [Try(Warming), Try(Ready), Try(Active)];
      assert c[1..][1..] == [Try(Ready), Try(Active)];
      assert c[1..][1..][1..] == [Try(Active)];
      assert c[1..][1..][1..][1..] == [];
    } else {
      SuccessBoundIsReached(k - 1);
      var c := [Reset, Try(Warming), Try(Ready), Try(Active)];
      RunSplits(Starting, Climbs(k - 1), c);
      assert c[1..] == [Try(Warming), Try(Ready), Try(Active)];
      assert c[1..][1..] == [Try(Ready), Try(Active)];
      assert c[1..][1..][1..] == [Try(Active)];
      assert c[1..][1..][1..][1..] == [];
    }
  }

  /** Without a reset the visited states form one strictly rising path of valid transitions. */
  lemma {:induction false} EpochRises(s: State, calls: seq<Call>)
    requires Resets(calls) == 0
    ensures var v := Visited(s, calls);
            && |v| == 1 + Successes(s, calls)
            && v[0] == s && v[|v| - 1] == Final(s, calls)
            && (forall i :: 0 <= i < |v| - 1 ==> ValidTransition(v[i], v[i + 1]))
            && (forall i, j :: 0 <= i < j < |v| ==> Budget(v[j]) < Budget(v[i]))
    decreases |calls|
  {
    if calls != [] {
      EpochRises(Apply(s, calls[0]), calls[1..]);
    }
  }

  /** Active and Failed are left only by a reset. */
  lemma {:induction false} TerminalUntilReset(s: State, calls: seq<Call>)
    requires s == Active || s == Failed
    requires Resets(calls) == 0
    ensures Final(s, calls) == s && Successes(s, calls) == 0
  {
    if calls != [] {
      TerminalUntilReset(s, calls[1..]);
    }
  }

  /** The cell never goes back within an epoch: what a thread has read is a lower bound later. */
  predicate AtLeastWarming(s: State) {
    s == Warming || PastWarming(s)
  }

  predicate PastWarming(s: State) {
    s == Ready || s == Active || s == Failed
  }
}
