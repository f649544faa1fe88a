/** `Deferred`: three callback lists wired so that settling one way disables the other way and
    locks the notifications.  The wiring is done with callbacks: the first three entries of the
    done list are the function that sets the state, `disable` of the fail list and `lock` of the
    progress list, and likewise for the fail list.

    This module describes a Deferred by the views of its lists; `DeferredObjects.dfy` has the
    object with its mutable lists and proves that it behaves as described here. */
module Deferreds {
  import opened Basics
  import opened Functions
  import opened Callbacks
  import Runs = CallbackRuns

  const ONCE_MEMORY := Flags(true, true, false, false)
  const MEMORY := Flags(false, true, false, false)

  datatype State = Pending | Settled(outcome: Outcome)

  datatype Deferred = Deferred(done: View, fail: View, progress: View, state: State)
  {
    /** The list whose fire settles the Deferred in the given way. */
    function ListOf(outcome: Outcome): View {
      if outcome.Resolved? then done else fail
    }

    function WithList(outcome: Outcome, v: View): Deferred {
      if outcome.Resolved? then this.(done := v) else this.(fail := v)
    }

    /** `isResolved` and `isRejected` are `fired` of the two lists. */
    predicate IsSettled(outcome: Outcome) {
      !ListOf(outcome).memory.Unset?
    }
  }

  function Other(outcome: Outcome): Outcome {
    if outcome.Resolved? then Rejected else Resolved
  }

  /** The three entries that the constructor puts in front of the handlers. */
  function Wiring(outcome: Outcome): seq<Fn> {
    [SetState(outcome), DisableOther(outcome), LockProgress(outcome)]
  }

  predicate IsWiring(fn: Fn) {
    fn.SetState? || fn.DisableOther? || fn.LockProgress?
  }

  function New(): Deferred {
    Deferred(Fresh().(past := Wiring(Resolved)), Fresh().(past := Wiring(Rejected)), Fresh(), Pending)
  }

  /** What one of the wiring functions does when it is invoked. */
  function Effect(d: Deferred, fn: Fn): Deferred
    requires IsWiring(fn)
  {
    match fn
    case SetState(outcome) => d.(state := Settled(outcome))
    case DisableOther(outcome) => d.WithList(Other(outcome), Disabled(d.ListOf(Other(outcome))))
    case LockProgress(_) => d.(progress := Locked(d.progress))
  }

  /** The entry that has control. */
  function Running(v: View): Option<Fn> {
    if v.firing && v.log != [] then Some(v.log[|v.log| - 1].fn) else None
  }

  function TurnsLeft(v: View): nat {
    if v.firing then 1 + |v.todo| else 0
  }

  lemma ReturnShrinks(v: View)
    requires v.firing
    ensures TurnsLeft(Returned(ONCE_MEMORY, v, false)) < TurnsLeft(v)
  {
    assert Finish(ONCE_MEMORY, v).firing == false;
  }

  /** Wiring functions run no foreign code: each does its work and returns at once. */
  function RunWiring(d: Deferred, outcome: Outcome): Deferred
    decreases TurnsLeft(d.ListOf(outcome))
  {
    var fn := Running(d.ListOf(outcome));
    if fn.Some? && IsWiring(fn.value) then
      var d' := Effect(d, fn.value);
      ReturnShrinks(d'.ListOf(outcome));
      RunWiring(d'.WithList(outcome, Returned(ONCE_MEMORY, d'.ListOf(outcome), false)), outcome)
    else d
  }

  /* ---------- The operations ---------- */

  datatype Op =
    | Handle(outcome: Outcome, fns: seq<Fn>)        // done, fail
    | HandleProgress(fns: seq<Fn>)                  // progress
    | Settle(outcome: Outcome, call: Call)          // resolveWith, rejectWith
    | Notify(call: Call)                            // notifyWith
    | Return(outcome: Outcome, returnedFalse: bool) // a done or fail handler comes back
    | ReturnProgress(returnedFalse: bool)           // a progress handler comes back

  function Step(d: Deferred, op: Op): Deferred {
    match op
    case Handle(outcome, fns) =>
      RunWiring(d.WithList(outcome, Added(ONCE_MEMORY, d.ListOf(outcome), fns)), outcome)
    case HandleProgress(fns) => d.(progress := Added(MEMORY, d.progress, fns))
    case Settle(outcome, call) =>
      RunWiring(d.WithList(outcome, Fired(ONCE_MEMORY, d.ListOf(outcome), call)), outcome)
    case Notify(call) => d.(progress := Fired(MEMORY, d.progress, call))
    case Return(outcome, returnedFalse) =>
      RunWiring(d.WithList(outcome, Returned(ONCE_MEMORY, d.ListOf(outcome), returnedFalse)), outcome)
    case ReturnProgress(returnedFalse) => d.(progress := Returned(MEMORY, d.progress, returnedFalse))
  }

  function Run(d: Deferred, ops: seq<Op>): Deferred
    decreases |ops|
  {
    if ops == [] then d else Run(Step(d, ops[0]), ops[1..])
  }

  /** The handlers that come from outside are none of the wiring functions. */
  predicate Foreign(op: Op) {
    && (op.Handle? ==> forall fn :: fn in op.fns ==> !IsWiring(fn))
    && (op.HandleProgress? ==> forall fn :: fn in op.fns ==> !IsWiring(fn))
  }

  predicate AllForeign(ops: seq<Op>) {
    forall op :: op in ops ==> Foreign(op)
  }

  /* ---------- The invariant ---------- */

  ghost predicate NoWiring(fns: seq<Fn>) {
    forall fn :: fn in fns ==> !IsWiring(fn)
  }

  /** A list that has not been fired: the wiring, and then the handlers. */
  ghost predicate NotFired(v: View, outcome: Outcome, handlers: seq<Fn>) {
    v == Fresh().(past := Wiring(outcome) + handlers, current := v.current) && NoWiring(handlers)
  }

  /** A list that has been fired with `call`: the wiring has run, and every handler has been
      invoked or is still to come. */
  ghost predicate FiredWith(v: View, outcome: Outcome, handlers: seq<Fn>, call: Call) {
    && v.alive && v.memory == Kept(call) && v.queue == Some([])
    && (v.firing ==> v.current == call && |v.log| > 3)
    && (!v.firing ==> v.past == [] && v.todo == [])
    && Fns(v.log) + v.todo == Wiring(outcome) + handlers
    && NoWiring(handlers)
    && forall i :: 0 <= i < |v.log| ==> v.log[i].call == call
  }

  ghost predicate Dead(v: View) {
    !v.alive && !v.firing && v.memory.Unset? && v.queue.None? && v.log == [] && v.past == [] && v.todo == []
  }

  /** `handlers(o)` are the handlers added for outcome o, and `call` is the call that settled. */
  ghost predicate DeferredInv(d: Deferred, done: seq<Fn>, fail: seq<Fn>, call: Call) {
    && Inv(MEMORY, d.progress) && !d.progress.memory.Spent?
    && match d.state {
         case Pending =>
           NotFired(d.done, Resolved, done) && NotFired(d.fail, Rejected, fail) && d.progress.alive
               && d.progress.queue.Some?
         case Settled(Resolved) =>
           FiredWith(d.done, Resolved, done, call) && Dead(d.fail) && d.progress.queue.None?
         case Settled(Rejected) =>
           FiredWith(d.fail, Rejected, fail, call) && Dead(d.done) && d.progress.queue.None?
       }
  }

  /* ---------- One step ---------- */

  /** The invocations of fns, all with the same call. */
  function Log(fns: seq<Fn>, call: Call): (log: seq<Invocation>)
    ensures |log| == |fns| && Fns(log) == fns
    ensures forall i :: 0 <= i < |log| ==> log[i].call == call
  {
    var log := seq(|fns|, i requires 0 <= i < |fns| => Invocation(fns[i], call));
    assert Fns(log) == fns;
    log
  }

  /** A first fire of the entries `all`, when n of them have been invoked. */
  function Turn(all: seq<Fn>, call: Call, n: nat): View
    requires n <= |all|
  {
    View(true, all[..n], all[n..], Some([]), Kept(call), true, call, Log(all[..n], call))
  }

  function AfterTurn(all: seq<Fn>, call: Call, n: nat): View
    requires n <= |all|
  {
    if n < |all| then Turn(all, call, n + 1) else Turn(all, call, n).(past := [], firing := false)
  }

  lemma NextTurn(all: seq<Fn>, call: Call, n: nat)
    requires n <= |all|
    ensures Proceed(ONCE_MEMORY, Turn(all, call, n)) == AfterTurn(all, call, n)
  {
    if n < |all| {
      var v := Turn(all, call, n);
      assert all[..n + 1] == all[..n] + [all[n]];
      assert all[n..][1..] == all[n + 1..];
      assert Log(all[..n + 1], call) == v.log + [Invocation(all[n], call)];
    }
  }

  /** The wiring function whose turn it is does its work, and the next entry gets control. */
  lemma WiringTurn(d: Deferred, outcome: Outcome, all: seq<Fn>, call: Call, n: nat)
    requires 0 < n <= |all| && d.ListOf(outcome) == Turn(all, call, n) && IsWiring(all[n - 1])
    requires Effect(d, all[n - 1]).ListOf(outcome) == d.ListOf(outcome)
    ensures RunWiring(d, outcome)
         == RunWiring(Effect(d, all[n - 1]).WithList(outcome, AfterTurn(all, call, n)), outcome)
  {
    NextTurn(all, call, n);
    assert Running(Turn(all, call, n)) == Some(all[n - 1]);
  }

  lemma WiringOver(d: Deferred, outcome: Outcome, all: seq<Fn>, call: Call, n: nat)
    requires n <= |all| && d.ListOf(outcome) == AfterTurn(all, call, n)
    requires forall i :: n <= i < |all| ==> !IsWiring(all[i])
    ensures RunWiring(d, outcome) == d
  {
    if n < |all| {
      assert Running(d.ListOf(outcome)) == Some(all[n]);
    }
  }

  /** What settling leaves behind: the state is set, the other list is disabled, the progress list
      is locked, and the first handler from outside, if there is one, has control. */
  function SettledBy(d: Deferred, outcome: Outcome, all: seq<Fn>, call: Call): Deferred
    requires |all| >= 3
  {
    d.(state := Settled(outcome), progress := Locked(d.progress))
      .WithList(Other(outcome), Disabled(d.ListOf(Other(outcome))))
      .WithList(outcome, AfterTurn(all, call, 3))
  }

  lemma RunsWiring(d: Deferred, outcome: Outcome, all: seq<Fn>, call: Call)
    requires Wiring(outcome) <= all && NoWiring(all[3..])
    requires d.ListOf(outcome) == Turn(all, call, 1)
    ensures RunWiring(d, outcome) == SettledBy(d, outcome, all, call)
  {
    assert all[0] == SetState(outcome) && all[1] == DisableOther(outcome) && all[2] == LockProgress(outcome);
    var d2 := d.(state := Settled(outcome)).WithList(outcome, Turn(all, call, 2));
    var d3 := d2.WithList(Other(outcome), Disabled(d.ListOf(Other(outcome)))).WithList(outcome, Turn(all, call, 3));
    var d4 := SettledBy(d, outcome, all, call);
    WiringTurn(d, outcome, all, call, 1);
    WiringTurn(d2, outcome, all, call, 2);
    WiringTurn(d3, outcome, all, call, 3);
    forall i | 3 <= i < |all| ensures !IsWiring(all[i]) {
      assert all[i] == all[3..][i - 3];
    }
    WiringOver(d4, outcome, all, call, 3);
  }

  lemma FirstTurn(start: View, all: seq<Fn>, call: Call)
    requires start == Fresh().(past := all, current := start.current) && all != []
    ensures Fired(ONCE_MEMORY, start, call) == Turn(all, call, 1)
  {
    assert start.Entries() == all == all[0..] && all[..0] == [];
    NextTurn(all, call, 0);
  }

  lemma AllTurned(outcome: Outcome, handlers: seq<Fn>, call: Call)
    requires NoWiring(handlers)
    ensures FiredWith(AfterTurn(Wiring(outcome) + handlers, call, 3), outcome, handlers, call)
  {
    var all := Wiring(outcome) + handlers;
    assert all[..3] == Wiring(outcome) && all[3..] == handlers;
    if handlers != [] {
      assert all[..4] + all[4..] == all;
    }
  }

  /** A pending Deferred is settled. */
  lemma SettlePending(d: Deferred, done: seq<Fn>, fail: seq<Fn>, outcome: Outcome, call: Call, call0: Call)
    requires DeferredInv(d, done, fail, call0) && d.state.Pending?
    ensures var d' := Step(d, Settle(outcome, call));
            DeferredInv(d', done, fail, call) && d'.state == Settled(outcome)
            && d'.progress == Locked(d.progress)
            && d'.ListOf(outcome) == AfterTurn(Wiring(outcome) + if outcome.Resolved? then done else fail, call, 3)
            && d'.ListOf(Other(outcome)).log == []
  {
    var handlers := if outcome.Resolved? then done else fail;
    var all := Wiring(outcome) + handlers;
    var start := d.ListOf(outcome);
    assert all[..3] == Wiring(outcome) && all[3..] == handlers;
    FirstTurn(start, all, call);
    var d1 := d.WithList(outcome, Turn(all, call, 1));
    RunsWiring(d1, outcome, all, call);
    var d' := SettledBy(d1, outcome, all, call);
    assert Step(d, Settle(outcome, call)) == d';
    AllTurned(outcome, handlers, call);
    assert d'.ListOf(outcome) == AfterTurn(all, call, 3);
    assert Dead(d'.ListOf(Other(outcome)));
  }

  /** The handlers that a run adds for one outcome, in order. */
  function Handlers(ops: seq<Op>, outcome: Outcome): seq<Fn> {
    if ops == [] then []
    else AddedFor(ops[0], outcome) + Handlers(ops[1..], outcome)
  }

  function AddedFor(op: Op, outcome: Outcome): seq<Fn> {
    if op.Handle? && op.outcome == outcome then op.fns else []
  }

  datatype Settlement = Settlement(outcome: Outcome, call: Call)

  /** The first resolve or reject of a run. */
  function FirstSettle(ops: seq<Op>): Option<Settlement> {
    if ops == [] then None
    else if ops[0].Settle? then Some(Settlement(ops[0].outcome, ops[0].call))
    else FirstSettle(ops[1..])
  }

  /** Nothing but the wiring itself can put a wiring function in control. */
  lemma NotWiring(d: Deferred, outcome: Outcome)
    requires Running(d.ListOf(outcome)).Some? ==> !IsWiring(Running(d.ListOf(outcome)).value)
    ensures RunWiring(d, outcome) == d
  {
  }

  /** A list that has been fired stays one under every operation; adds are the only ones that
      enlarge what it owes. */
  lemma FiredStep(v: View, outcome: Outcome, handlers: seq<Fn>, call: Call, op: Op)
    requires FiredWith(v, outcome, handlers, call) && Foreign(op)
    ensures op.Handle? ==> FiredWith(Added(ONCE_MEMORY, v, op.fns), outcome, handlers + op.fns, call)
    ensures op.Settle? ==> Fired(ONCE_MEMORY, v, op.call) == v
    ensures op.Return? ==> FiredWith(Returned(ONCE_MEMORY, v, op.returnedFalse), outcome, handlers, call)
  {
    if op.Handle? {
      var fns := op.fns;
      Assoc(Wiring(outcome), handlers, fns);
      if v.firing {
        Assoc(Fns(v.log), v.todo, fns);
      } else {
        assert v.todo == [] && Fns(v.log) + [] == Fns(v.log);
        var next := v.(todo := fns, current := call, firing := true);
        assert |Fns(v.log)| >= 3;
        FiredProceed(next, outcome, handlers + fns, call);
      }
    } else if op.Return? && v.firing {
      FiredProceed(v, outcome, handlers, call);
    }
  }

  lemma FiredProceed(v: View, outcome: Outcome, handlers: seq<Fn>, call: Call)
    requires v.alive && v.firing && v.memory == Kept(call) && v.current == call && v.queue == Some([])
    requires |v.log| >= 3 && Fns(v.log) + v.todo == Wiring(outcome) + handlers && NoWiring(handlers)
    requires forall i :: 0 <= i < |v.log| ==> v.log[i].call == call
    ensures FiredWith(Proceed(ONCE_MEMORY, v), outcome, handlers, call)
  {
    Runs.Paid(ONCE_MEMORY, v);
  }

  lemma RunningForeign(v: View, outcome: Outcome, handlers: seq<Fn>, call: Call)
    requires FiredWith(v, outcome, handlers, call)
    ensures Running(v).Some? ==> !IsWiring(Running(v).value)
  {
    if v.firing {
      var last := |v.log| - 1;
      assert v.log[last].fn == (Fns(v.log) + v.todo)[last] == handlers[last - 3];
    }
  }

  /** The progress list is locked only by settling. */
  lemma ProgressStep(v: View, op: Runs.Op)
    requires Inv(MEMORY, v) && (op.Add? || op.FireWith? || op.Return?)
    ensures var w := Runs.Step(MEMORY, v, op);
            Inv(MEMORY, w) && w.alive == v.alive && w.queue.Some? == v.queue.Some?
            && (!v.memory.Spent? ==> !w.memory.Spent?)
  {
    Runs.StepInv(MEMORY, v, op);
    match op {
      case Add(fns) =>
        if v.alive && !v.firing && v.memory.Kept? {
          ProceedKeepsQueue(Replaying(MEMORY, v, fns));
        }
      case FireWith(call) =>
        ProceedKeepsQueue(v.(past := [], todo := v.Entries(), current := call, firing := true, memory := Kept(call)));
      case Return(_) =>
        ProceedKeepsQueue(v);
      case Remove(_) =>
      case Lock =>
      case Disable =>
    }
  }

  lemma {:induction false} ProceedKeepsQueue(v: View)
    ensures var w := Proceed(MEMORY, v);
            && w.alive == v.alive && w.queue.Some? == v.queue.Some?
            && (!v.memory.Spent? ==> !w.memory.Spent?)
    decreases v.Waiting()
  {
    if v.todo == [] && v.alive && v.Waiting() > 0 {
      var entries, call := v.Entries(), v.queue.value[0];
      var v' := v.(past := entries, firing := false, queue := Some(v.queue.value[1..]));
      var next := v'.(past := [], todo := entries, firing := true, current := call, memory := Kept(call));
      ProceedKeepsQueue(next);
      assert Finish(MEMORY, v) == StartFire(MEMORY, v', [], entries, call) == Proceed(MEMORY, next);
    }
  }

  /** One operation: it settles a pending Deferred, or leaves the state as it is. */
  lemma DeferredStep(d: Deferred, done: seq<Fn>, fail: seq<Fn>, call: Call, op: Op)
    requires DeferredInv(d, done, fail, call) && Foreign(op)
    ensures var d' := Step(d, op);
            && DeferredInv(d', done + AddedFor(op, Resolved), fail + AddedFor(op, Rejected),
                           if d.state.Pending? && op.Settle? then op.call else call)
            && d'.state == (if d.state.Pending? && op.Settle? then Settled(op.outcome) else d.state)
  {
    assert done + [] == done && fail + [] == fail;
    match op {
      case HandleProgress(fns) => ProgressStep(d.progress, Runs.Add(fns));
      case Notify(c) => ProgressStep(d.progress, Runs.FireWith(c));
      case ReturnProgress(returnedFalse) => ProgressStep(d.progress, Runs.Return(returnedFalse));
      case Settle(outcome, c) =>
        if d.state.Pending? {
          SettlePending(d, done, fail, outcome, c, call);
        } else {
          SettledStep(d, done, fail, call, op, outcome);
        }
      case Handle(outcome, fns) =>
        if d.state.Pending? {
          NotWiring(d.WithList(outcome, Added(ONCE_MEMORY, d.ListOf(outcome), fns)), outcome);
          PendingAdd(d.ListOf(outcome), outcome, if outcome.Resolved? then done else fail, fns);
        } else {
          SettledStep(d, done, fail, call, op, outcome);
        }
      case Return(outcome, returnedFalse) =>
        if d.state.Pending? {
          NotWiring(d, outcome);
        } else {
          SettledStep(d, done, fail, call, op, outcome);
        }
    }
  }

  lemma PendingAdd(v: View, outcome: Outcome, handlers: seq<Fn>, fns: seq<Fn>)
    requires NotFired(v, outcome, handlers) && NoWiring(fns)
    ensures NotFired(Added(ONCE_MEMORY, v, fns), outcome, handlers + fns)
  {
    Assoc(Wiring(outcome), handlers, fns);
  }

  lemma SettledStep(d: Deferred, done: seq<Fn>, fail: seq<Fn>, call: Call, op: Op, outcome: Outcome)
    requires DeferredInv(d, done, fail, call) && Foreign(op) && d.state.Settled?
    requires (op.Settle? || op.Handle? || op.Return?) && op.outcome == outcome
    ensures var d' := Step(d, op);
            && d'.state == d.state
            && DeferredInv(d', if op.Handle? && outcome.Resolved? then done + op.fns else done,
                           if op.Handle? && outcome.Rejected? then fail + op.fns else fail, call)
  {
    var v := d.ListOf(outcome);
    var handlers := if outcome.Resolved? then done else fail;
    if d.state.outcome == outcome {
      FiredStep(v, outcome, handlers, call, op);
      var v' := if op.Handle? then Added(ONCE_MEMORY, v, op.fns)
                else if op.Settle? then v else Returned(ONCE_MEMORY, v, op.returnedFalse);
      RunningForeign(v', outcome, if op.Handle? then handlers + op.fns else handlers, call);
      NotWiring(d.WithList(outcome, v'), outcome);
    } else {
      NotWiring(d, outcome);
      assert d.WithList(outcome, v) == d;
    }
  }

  /* ---------- Runs ---------- */

  lemma HandlersCons(front: seq<Fn>, ops: seq<Op>, outcome: Outcome)
    requires ops != []
    ensures front + AddedFor(ops[0], outcome) + Handlers(ops[1..], outcome) == front + Handlers(ops, outcome)
  {
    var here, later := AddedFor(ops[0], outcome), Handlers(ops[1..], outcome);
    Assoc(front, here, later);
    assert Handlers(ops, outcome) == here + later;
  }

  /** The state after a run is decided by its first resolve or reject. */
  function Verdict(state: State, ops: seq<Op>): State {
    if state.Pending? && FirstSettle(ops).Some? then Settled(FirstSettle(ops).value.outcome) else state
  }

  function SettlingCall(state: State, ops: seq<Op>, call: Call): Call {
    if state.Pending? && FirstSettle(ops).Some? then FirstSettle(ops).value.call else call
  }

  lemma {:induction false} RunInv(d: Deferred, done: seq<Fn>, fail: seq<Fn>, call: Call, ops: seq<Op>)
    requires DeferredInv(d, done, fail, call) && AllForeign(ops)
    ensures DeferredInv(Run(d, ops), done + Handlers(ops, Resolved), fail + Handlers(ops, Rejected),
                        SettlingCall(d.state, ops, call))
    ensures Run(d, ops).state == Verdict(d.state, ops)
    decreases |ops|
  {
    if ops == [] {
      assert done + [] == done && fail + [] == fail;
    } else {
      var d' := Step(d, ops[0]);
      var call' := SettlingCall(d.state, [ops[0]], call);
      assert ops[0] in ops;
      DeferredStep(d, done, fail, call, ops[0]);
      RunInv(d', done + AddedFor(ops[0], Resolved), fail + AddedFor(ops[0], Rejected), call', ops[1..]);
      HandlersCons(done, ops, Resolved);
      HandlersCons(fail, ops, Rejected);
    }
  }

  /** What a Deferred does in any run, whatever its handlers do to it while they run: the first
      resolve or reject decides the state once and for all; the handlers of that outcome are
      invoked exactly once each, in the order in which they were added, before or after the
      settling, with the call that settled; and none of the other outcome ever is. */
  lemma SettlesOnce(ops: seq<Op>)
    requires AllForeign(ops)
    ensures var d := Run(New(), ops);
            if FirstSettle(ops).None? then
              d.state.Pending? && d.done.log == [] && d.fail.log == []
            else
              var outcome := FirstSettle(ops).value.outcome;
              var v := d.ListOf(outcome);
              && d.state == Settled(outcome)
              && d.ListOf(Other(outcome)).log == []
              && Fns(v.log) + v.todo == Wiring(outcome) + Handlers(ops, outcome)
              && (!v.firing ==> Fns(v.log) == Wiring(outcome) + Handlers(ops, outcome))
              && forall i :: 0 <= i < |v.log| ==> v.log[i].call == FirstSettle(ops).value.call
  {
    NewInv();
    RunInv(New(), [], [], NO_CALL, ops);
    assert [] + Handlers(ops, Resolved) == Handlers(ops, Resolved);
    assert [] + Handlers(ops, Rejected) == Handlers(ops, Rejected);
    var d := Run(New(), ops);
    if d.state.Settled? {
      var v := d.ListOf(d.state.outcome);
      if !v.firing {
        assert Fns(v.log) + [] == Fns(v.log);
      }
    }
  }

  lemma NewInv()
    ensures DeferredInv(New(), [], [], NO_CALL)
  {
    assert Wiring(Resolved) + [] == Wiring(Resolved) && Wiring(Rejected) + [] == Wiring(Rejected);
  }

  /** The state is never changed a second time. */
  lemma StateIsFinal(before: seq<Op>, after: seq<Op>)
    requires AllForeign(before) && AllForeign(after) && Run(New(), before).state.Settled?
    ensures Run(New(), before + after).state == Run(New(), before).state
  {
    RunAppend(New(), before, after);
    NewInv();
    RunInv(New(), [], [], NO_CALL, before);
    RunInv(Run(New(), before), [] + Handlers(before, Resolved), [] + Handlers(before, Rejected),
           SettlingCall(Pending, before, NO_CALL), after);
  }

  lemma {:induction false} RunAppend(d: Deferred, a: seq<Op>, b: seq<Op>)
    ensures Run(d, a + b) == Run(Run(d, a), b)
    decreases |a|
  {
    if a == [] {
      assert a + b == b;
    } else {
      assert (a + b)[1..] == a[1..] + b;
      RunAppend(Step(d, a[0]), a[1..], b);
    }
  }

  /** Whenever foreign code can look, that is after every operation of every run, `isResolved`
      and `isRejected` agree with `state`. */
  lemma PredicatesAgree(ops: seq<Op>, outcome: Outcome)
    requires AllForeign(ops)
    ensures var d := Run(New(), ops); d.IsSettled(outcome) <==> d.state == Settled(outcome)
  {
    NewInv();
    RunInv(New(), [], [], NO_CALL, ops);
  }

  /* ---------- Notifications after settling ---------- */

  ghost predicate Muted(v: View, from: nat) {
    && v.queue.None? && from <= |v.log|
    && (v.memory.Kept? ==> (v.firing ==> v.current == v.memory.call)
                           && forall i :: from <= i < |v.log| ==> v.log[i].call == v.memory.call)
    && (!v.memory.Kept? ==> !v.alive && !v.firing && from == |v.log|)
  }

  lemma {:induction false} MutedRun(d: Deferred, done: seq<Fn>, fail: seq<Fn>, call: Call, ops: seq<Op>, from: nat)
    requires d.state.Settled? && Muted(d.progress, from) && AllForeign(ops) && DeferredInv(d, done, fail, call)
    ensures var d' := Run(d, ops); Muted(d'.progress, from) && d'.progress.memory == d.progress.memory
    decreases |ops|
  {
    if ops == [] {
    } else {
      var op := ops[0];
      assert op in ops;
      DeferredStep(d, done, fail, call, op);
      MutedStep(d, done, fail, call, op, from);
      MutedRun(Step(d, op), done + AddedFor(op, Resolved), fail + AddedFor(op, Rejected), call, ops[1..], from);
    }
  }

  /** Once the Deferred is settled no notification gets through: the progress handlers that still
      run, and the ones added later, see the last notification whose fire had been started before
      the settling and no other; the ones that were waiting are lost. */
  lemma NoNotificationAfterSettling(before: seq<Op>, outcome: Outcome, call: Call, after: seq<Op>)
    requires AllForeign(before) && AllForeign(after) && FirstSettle(before).None?
    ensures var d0 := Run(New(), before);
            var d := Run(Step(d0, Settle(outcome, call)), after);
            && |d0.progress.log| <= |d.progress.log|
            && (|d0.progress.log| < |d.progress.log| ==> d0.progress.memory.Kept?)
            && forall i :: |d0.progress.log| <= i < |d.progress.log| ==>
                             d.progress.log[i].call == d0.progress.memory.call
  {
    NewInv();
    RunInv(New(), [], [], NO_CALL, before);
    var d0 := Run(New(), before);
    var done, fail := [] + Handlers(before, Resolved), [] + Handlers(before, Rejected);
    SettlePending(d0, done, fail, outcome, call, SettlingCall(Pending, before, NO_CALL));
    MutedRun(Step(d0, Settle(outcome, call)), done, fail, call, after, |d0.progress.log|);
  }

  lemma MutedStep(d: Deferred, done: seq<Fn>, fail: seq<Fn>, call: Call, op: Op, from: nat)
    requires d.state.Settled? && Muted(d.progress, from) && Foreign(op) && DeferredInv(d, done, fail, call)
    ensures var d' := Step(d, op); Muted(d'.progress, from) && d'.progress.memory == d.progress.memory
  {
    var v := d.progress;
    match op {
      case HandleProgress(fns) =>
        if v.alive && !v.firing && v.memory.Kept? {
          MutedProceed(Replaying(MEMORY, v, fns), from);
        }
      case ReturnProgress(_) =>
        if v.firing {
          MutedProceed(v, from);
        }
      case Notify(_) =>
      case _ =>
        SettledPlainly(d, done, fail, call, op);
    }
  }

  lemma MutedProceed(v: View, from: nat)
    requires Muted(v, from) && v.firing && v.alive
    ensures var w := Proceed(MEMORY, v); Muted(w, from) && w.memory == v.memory
  {
  }

  /** What an operation on the lists of a settled Deferred does, without the wiring. */
  function Plainly(d: Deferred, op: Op): Deferred
    requires op.Settle? || op.Handle? || op.Return?
  {
    var v := d.ListOf(op.outcome);
    d.WithList(op.outcome, match op
                           case Handle(_, fns) => Added(ONCE_MEMORY, v, fns)
                           case Return(_, returnedFalse) => Returned(ONCE_MEMORY, v, returnedFalse)
                           case _ => Fired(ONCE_MEMORY, v, op.call))
  }

  lemma SettledPlainly(d: Deferred, done: seq<Fn>, fail: seq<Fn>, call: Call, op: Op)
    requires d.state.Settled? && Foreign(op) && DeferredInv(d, done, fail, call)
    requires op.Settle? || op.Handle? || op.Return?
    ensures Step(d, op) == Plainly(d, op)
  {
    var outcome := op.outcome;
    var v := d.ListOf(outcome);
    if d.state.outcome == outcome {
      var handlers := if outcome.Resolved? then done else fail;
      FiredStep(v, outcome, handlers, call, op);
      var v' := Plainly(d, op).ListOf(outcome);
      RunningForeign(v', outcome, if op.Handle? then handlers + op.fns else handlers, call);
      NotWiring(d.WithList(outcome, v'), outcome);
    } else {
      NotWiring(d, outcome);
    }
  }

  /* ---------- Who is invoked by an operation ---------- */

  /** An operation on the done or fail list invokes at most one handler from outside, and that
      is then the last entry of the log. */
  lemma AtMostOneInvoked(d: Deferred, done: seq<Fn>, fail: seq<Fn>, call: Call, op: Op, fn: Fn)
    requires DeferredInv(d, done, fail, call) && Foreign(op) && !IsWiring(fn)
    requires op.Settle? || op.Handle? || op.Return?
    ensures var log, log' := d.ListOf(op.outcome).log, Step(d, op).ListOf(op.outcome).log;
            && |log| <= |log'|
            && Occurrences(Fns(log'), fn)
               == Occurrences(Fns(log), fn) + (if |log| < |log'| && log'[|log'| - 1].fn == fn then 1 else 0)
    ensures Step(d, op).ListOf(Other(op.outcome)).log == d.ListOf(Other(op.outcome)).log
  {
    if d.state.Settled? {
      SettledInvoked(d, done, fail, call, op, fn);
    } else if op.Settle? {
      SettlingInvoked(d, done, fail, call, op.outcome, op.call, fn);
    } else {
      NotWiring(Plainly(d, op), op.outcome);
    }
  }

  lemma SettledInvoked(d: Deferred, done: seq<Fn>, fail: seq<Fn>, call: Call, op: Op, fn: Fn)
    requires DeferredInv(d, done, fail, call) && Foreign(op) && d.state.Settled?
    requires op.Settle? || op.Handle? || op.Return?
    ensures var log, log' := d.ListOf(op.outcome).log, Step(d, op).ListOf(op.outcome).log;
            && |log| <= |log'|
            && Occurrences(Fns(log'), fn)
               == Occurrences(Fns(log), fn) + (if |log| < |log'| && log'[|log'| - 1].fn == fn then 1 else 0)
    ensures Step(d, op).ListOf(Other(op.outcome)).log == d.ListOf(Other(op.outcome)).log
  {
    SettledPlainly(d, done, fail, call, op);
    SettledInvokesOne(d, done, fail, call, op);
    CountOne(d.ListOf(op.outcome).log, Plainly(d, op).ListOf(op.outcome).log, fn);
  }

  lemma SettlingInvoked(d: Deferred, done: seq<Fn>, fail: seq<Fn>, call: Call, outcome: Outcome, call': Call, fn: Fn)
    requires DeferredInv(d, done, fail, call) && d.state.Pending? && !IsWiring(fn)
    ensures var log, log' := d.ListOf(outcome).log, Step(d, Settle(outcome, call')).ListOf(outcome).log;
            && |log| <= |log'|
            && Occurrences(Fns(log'), fn)
               == Occurrences(Fns(log), fn) + (if |log| < |log'| && log'[|log'| - 1].fn == fn then 1 else 0)
    ensures Step(d, Settle(outcome, call')).ListOf(Other(outcome)).log == d.ListOf(Other(outcome)).log
  {
    SettlePending(d, done, fail, outcome, call', call);
    SettlingInvokesOne(outcome, if outcome.Resolved? then done else fail, call', fn);
  }

  lemma CountOne(log: seq<Invocation>, log': seq<Invocation>, fn: Fn)
    requires OneMore(log, log')
    ensures |log| <= |log'|
    ensures Occurrences(Fns(log'), fn)
         == Occurrences(Fns(log), fn) + (if |log| < |log'| && log'[|log'| - 1].fn == fn then 1 else 0)
  {
    if log' != log {
      InvokedOne(log, log'[|log|], fn);
    }
  }

  lemma SettledInvokesOne(d: Deferred, done: seq<Fn>, fail: seq<Fn>, call: Call, op: Op)
    requires d.state.Settled? && Foreign(op) && DeferredInv(d, done, fail, call)
    requires op.Settle? || op.Handle? || op.Return?
    ensures OneMore(d.ListOf(op.outcome).log, Plainly(d, op).ListOf(op.outcome).log)
    ensures Plainly(d, op).ListOf(Other(op.outcome)).log == d.ListOf(Other(op.outcome)).log
  {
    var v := d.ListOf(op.outcome);
    PlainlyInvokesOne(v, op);
    if op.Settle? && d.state.outcome == op.outcome {
      FiredStep(v, op.outcome, if op.outcome.Resolved? then done else fail, call, op);
    }
  }

  lemma SettlingInvokesOne(outcome: Outcome, handlers: seq<Fn>, call: Call, fn: Fn)
    requires !IsWiring(fn) && NoWiring(handlers)
    ensures var log := AfterTurn(Wiring(outcome) + handlers, call, 3).log;
            && |log| > 0
            && Occurrences(Fns(log), fn) == (if log[|log| - 1].fn == fn then 1 else 0)
  {
    var all := Wiring(outcome) + handlers;
    assert all[..3] == Wiring(outcome);
    OccursIn(Wiring(outcome), fn);
    if handlers != [] {
      assert all[..4] == all[..3] + [handlers[0]];
      OccurrencesAppend(all[..3], [handlers[0]], fn);
      assert [handlers[0]][1..] == [];
    }
  }

  ghost predicate OneMore(log: seq<Invocation>, log': seq<Invocation>) {
    log' == log || (|log'| == |log| + 1 && log' == log + [log'[|log|]])
  }

  lemma PlainlyInvokesOne(v: View, op: Op)
    ensures op.Handle? ==> OneMore(v.log, Added(ONCE_MEMORY, v, op.fns).log)
    ensures op.Return? ==> OneMore(v.log, Returned(ONCE_MEMORY, v, op.returnedFalse).log)
  {
    ProceedInvokesOne(v);
    if op.Handle? && v.memory.Kept? {
      ProceedInvokesOne(Replaying(ONCE_MEMORY, v, op.fns).(memory := Kept(v.memory.call)));
    }
  }

  lemma ProceedInvokesOne(v: View)
    ensures OneMore(v.log, Proceed(ONCE_MEMORY, v).log)
  {
  }

  lemma InvokedOne(log: seq<Invocation>, last: Invocation, fn: Fn)
    ensures Occurrences(Fns(log + [last]), fn) == Occurrences(Fns(log), fn) + (if last.fn == fn then 1 else 0)
  {
    assert Fns(log + [last]) == Fns(log) + [last.fn];
    OccurrencesAppend(Fns(log), [last.fn], fn);
    assert [last.fn][1..] == [];
  }
}
