/** `then` of a Deferred: `done`, `fail` and `progress`, one after the other.  On a settled Deferred,
    or one that has been notified, an added handler runs at once, and may do anything to the Deferred
    before the next list is added to. */
module Thens {
  import opened Basics
  import opened Functions
  import opened Callbacks
  import opened Deferreds
  import Notifications

  lemma {:induction false} WiringShrinks(d: Deferred, outcome: Outcome)
    ensures TurnsLeft(RunWiring(d, outcome).ListOf(outcome)) <= TurnsLeft(d.ListOf(outcome))
    decreases TurnsLeft(d.ListOf(outcome))
  {
    var fn := Running(d.ListOf(outcome));
    if fn.None? || !IsWiring(fn.value) {
    } else {
      var d' := Effect(d, fn.value);
      ReturnShrinks(d'.ListOf(outcome));
      WiringShrinks(d'.WithList(outcome, Returned(ONCE_MEMORY, d'.ListOf(outcome), false)), outcome);
    }
  }

  lemma ComingBackShrinks(d: Deferred, outcome: Outcome)
    requires d.ListOf(outcome).firing
    ensures TurnsLeft(Step(d, Return(outcome, false)).ListOf(outcome)) < TurnsLeft(d.ListOf(outcome))
  {
    var returned := Returned(ONCE_MEMORY, d.ListOf(outcome), false);
    ReturnShrinks(d.ListOf(outcome));
    WiringShrinks(d.WithList(outcome, returned), outcome);
  }

  /** The handlers of the done or fail list that have control come back, one after the other, without
      doing anything to the Deferred. */
  function ComeBack(d: Deferred, outcome: Outcome): (d': Deferred)
    ensures !d'.ListOf(outcome).firing
    decreases TurnsLeft(d.ListOf(outcome))
  {
    if !d.ListOf(outcome).firing then d
    else
      ComingBackShrinks(d, outcome);
      ComeBack(Step(d, Return(outcome, false)), outcome)
  }

  /** The turns that a firing list may still take. */
  function Turns(v: View): nat {
    if v.firing then 1 + |v.todo| + v.Waiting() * |v.Entries()| else 0
  }

  lemma ProgressShrinks(d: Deferred)
    requires d.progress.firing
    ensures Turns(Step(d, ReturnProgress(false)).progress) < Turns(d.progress)
  {
    Notifications.DrainStep(MEMORY, d.progress, false);
  }

  function ComeBackProgress(d: Deferred): (d': Deferred)
    ensures !d'.progress.firing && d' == d.(progress := d'.progress)
    decreases Turns(d.progress)
  {
    if !d.progress.firing then d
    else
      ProgressShrinks(d);
      ComeBackProgress(Step(d, ReturnProgress(false)))
  }

  function AddHandlers(d: Deferred, outcome: Outcome, fns: seq<Fn>): Deferred {
    var d' := Step(d, Handle(outcome, fns));
    if d.ListOf(outcome).firing then d' else ComeBack(d', outcome)
  }

  function AddProgress(d: Deferred, fns: seq<Fn>): Deferred {
    var d' := Step(d, HandleProgress(fns));
    if d.progress.firing then d' else ComeBackProgress(d')
  }

  function Chained(d: Deferred, done: seq<Fn>, fail: seq<Fn>, progress: seq<Fn>): Deferred {
    AddProgress(AddHandlers(AddHandlers(d, Resolved, done), Rejected, fail), progress)
  }

  /* ---------- It is a run ---------- */

  lemma {:induction false} BackIsRun(d: Deferred, outcome: Outcome) returns (ops: seq<Op>)
    ensures Run(d, ops) == ComeBack(d, outcome) && forall op :: op in ops ==> op == Return(outcome, false)
    decreases TurnsLeft(d.ListOf(outcome))
  {
    if !d.ListOf(outcome).firing {
      ops := [];
    } else {
      ComingBackShrinks(d, outcome);
      ops := BackIsRun(Step(d, Return(outcome, false)), outcome);
      ops := [Return(outcome, false)] + ops;
    }
  }

  lemma {:induction false} ProgressBackIsRun(d: Deferred) returns (ops: seq<Op>)
    ensures Run(d, ops) == ComeBackProgress(d) && forall op :: op in ops ==> op == ReturnProgress(false)
    decreases Turns(d.progress)
  {
    if !d.progress.firing {
      ops := [];
    } else {
      ProgressShrinks(d);
      ops := ProgressBackIsRun(Step(d, ReturnProgress(false)));
      ops := [ReturnProgress(false)] + ops;
    }
  }

  lemma AddIsRun(d: Deferred, outcome: Outcome, fns: seq<Fn>) returns (back: seq<Op>)
    ensures Run(d, [Handle(outcome, fns)] + back) == AddHandlers(d, outcome, fns)
    ensures forall op :: op in back ==> op == Return(outcome, false)
  {
    var d' := Step(d, Handle(outcome, fns));
    if d.ListOf(outcome).firing {
      back := [];
    } else {
      back := BackIsRun(d', outcome);
    }
    assert ([Handle(outcome, fns)] + back)[1..] == back;
  }

  lemma AddProgressIsRun(d: Deferred, fns: seq<Fn>) returns (back: seq<Op>)
    ensures Run(d, [HandleProgress(fns)] + back) == AddProgress(d, fns)
    ensures forall op :: op in back ==> op == ReturnProgress(false)
  {
    var d' := Step(d, HandleProgress(fns));
    if d.progress.firing {
      back := [];
    } else {
      back := ProgressBackIsRun(d');
    }
    assert ([HandleProgress(fns)] + back)[1..] == back;
  }

  /** The operations that make up `then`.  Whatever each of the adds invokes at once does the operations
      of its part of `meanwhile` before the add returns, the coming back of handlers included. */
  function ThenOps(done: seq<Fn>, fail: seq<Fn>, progress: seq<Fn>, meanwhile: (seq<Op>, seq<Op>, seq<Op>)): seq<Op> {
    [Handle(Resolved, done)] + meanwhile.0 + ([Handle(Rejected, fail)] + meanwhile.1)
    + ([HandleProgress(progress)] + meanwhile.2)
  }

  lemma {:induction false} HandlersAppend(a: seq<Op>, b: seq<Op>, outcome: Outcome)
    ensures Handlers(a + b, outcome) == Handlers(a, outcome) + Handlers(b, outcome)
  {
    if a == [] {
      assert a + b == b;
    } else {
      HandlersAppend(a[1..], b, outcome);
      assert (a + b)[0] == a[0] && (a + b)[1..] == a[1..] + b;
      Assoc(AddedFor(a[0], outcome), Handlers(a[1..], outcome), Handlers(b, outcome));
    }
  }

  lemma HandlersOne(op: Op, rest: seq<Op>, outcome: Outcome)
    ensures Handlers([op] + rest, outcome) == AddedFor(op, outcome) + Handlers(rest, outcome)
  {
    assert ([op] + rest)[1..] == rest;
  }

  /** The handlers given to `then` go to the lists they are meant for, and in the order of the whole run. */
  lemma ThenHandlers(done: seq<Fn>, fail: seq<Fn>, progress: seq<Fn>, meanwhile: (seq<Op>, seq<Op>, seq<Op>),
                     outcome: Outcome)
    ensures Handlers(ThenOps(done, fail, progress, meanwhile), outcome)
         == (if outcome.Resolved? then done else []) + Handlers(meanwhile.0, outcome)
            + ((if outcome.Rejected? then fail else []) + Handlers(meanwhile.1, outcome))
            + Handlers(meanwhile.2, outcome)
  {
    var first, second := [Handle(Resolved, done)] + meanwhile.0, [Handle(Rejected, fail)] + meanwhile.1;
    HandlersAppend(first, second, outcome);
    HandlersAppend(first + second, [HandleProgress(progress)] + meanwhile.2, outcome);
    HandlersOne(Handle(Resolved, done), meanwhile.0, outcome);
    HandlersOne(Handle(Rejected, fail), meanwhile.1, outcome);
    HandlersOne(HandleProgress(progress), meanwhile.2, outcome);
    assert [] + Handlers(meanwhile.2, outcome) == Handlers(meanwhile.2, outcome);
  }

  /** When a pending Deferred has been given handlers by `then` and is settled after that, the handlers of that
      outcome are invoked behind all earlier ones, and none of the other outcome is. */
  lemma ThenSettles(before: seq<Op>, done: seq<Fn>, fail: seq<Fn>, progress: seq<Fn>, outcome: Outcome, call: Call)
    requires AllForeign(before) && FirstSettle(before).None?
    requires AllForeign(ThenOps(done, fail, progress, ([], [], [])))
    ensures var ops := before + ThenOps(done, fail, progress, ([], [], [])) + [Op.Settle(outcome, call)];
            var v := Run(New(), ops).ListOf(outcome);
            && Run(New(), ops).state == Settled(outcome)
            && Fns(v.log) + v.todo
               == Wiring(outcome) + (Handlers(before, outcome) + if outcome.Resolved? then done else fail)
            && (forall i :: 0 <= i < |v.log| ==> v.log[i].call == call)
            && Run(New(), ops).ListOf(Other(outcome)).log == []
  {
    var chain, settle := ThenOps(done, fail, progress, ([], [], [])), [Op.Settle(outcome, call)];
    var ops := before + chain + settle;
    SettlesOnce(ops);
    SettledFirst(before, done, fail, progress, outcome, call);
    HandlersAppend(before + chain, settle, outcome);
    HandlersAppend(before, chain, outcome);
    NoHandlers(settle[0], outcome);
    ChainHandlers(done, fail, progress, outcome);
  }

  lemma NoHandlers(op: Op, outcome: Outcome)
    requires op.Settle?
    ensures Handlers([op], outcome) == []
  {
    assert [op][1..] == [];
  }

  lemma ChainHandlers(done: seq<Fn>, fail: seq<Fn>, progress: seq<Fn>, outcome: Outcome)
    ensures Handlers(ThenOps(done, fail, progress, ([], [], [])), outcome) == if outcome.Resolved? then done else fail
  {
    ThenHandlers(done, fail, progress, ([], [], []), outcome);
  }

  lemma SettledFirst(before: seq<Op>, done: seq<Fn>, fail: seq<Fn>, progress: seq<Fn>, outcome: Outcome, call: Call)
    requires FirstSettle(before).None?
    ensures FirstSettle(before + ThenOps(done, fail, progress, ([], [], [])) + [Op.Settle(outcome, call)])
         == Some(Settlement(outcome, call))
  {
    var chain, settle := ThenOps(done, fail, progress, ([], [], [])), [Op.Settle(outcome, call)];
    assert chain == [Handle(Resolved, done), Handle(Rejected, fail), HandleProgress(progress)];
    assert chain[1..][1..][1..] == [] && FirstSettle(chain[1..][1..]).None?;
    NoneFirst(before, chain);
    NoneFirst(before + chain, settle);
  }

  lemma {:induction false} NoneFirst(a: seq<Op>, b: seq<Op>)
    requires FirstSettle(a).None?
    ensures FirstSettle(a + b) == FirstSettle(b)
  {
    if a == [] {
      assert a + b == b;
    } else {
      NoneFirst(a[1..], b);
      assert (a + b)[0] == a[0] && (a + b)[1..] == a[1..] + b;
    }
  }

  lemma AddInSteps(d: Deferred, add: Op, meanwhile: seq<Op>)
    ensures Run(d, [add] + meanwhile) == Run(Step(d, add), meanwhile)
  {
    assert ([add] + meanwhile)[1..] == meanwhile;
  }

  lemma ThenInSteps(d: Deferred, done: seq<Fn>, fail: seq<Fn>, progress: seq<Fn>,
                    meanwhile: (seq<Op>, seq<Op>, seq<Op>))
    ensures var d1 := Run(Step(d, Handle(Resolved, done)), meanwhile.0);
            var d2 := Run(Step(d1, Handle(Rejected, fail)), meanwhile.1);
            Run(d, ThenOps(done, fail, progress, meanwhile)) == Run(Step(d2, HandleProgress(progress)), meanwhile.2)
  {
    var d1 := Run(Step(d, Handle(Resolved, done)), meanwhile.0);
    var first, second := [Handle(Resolved, done)] + meanwhile.0, [Handle(Rejected, fail)] + meanwhile.1;
    RunAppend(d, first, second);
    RunAppend(d, first + second, [HandleProgress(progress)] + meanwhile.2);
    AddInSteps(d, Handle(Resolved, done), meanwhile.0);
    AddInSteps(d1, Handle(Rejected, fail), meanwhile.1);
    AddInSteps(Run(Step(d1, Handle(Rejected, fail)), meanwhile.1), HandleProgress(progress), meanwhile.2);
  }

  /** If the handlers only come back, the lists that were at rest before are so again when the next add
      begins, and what `then` does is a function of its arguments. */
  lemma ThenIsRun(d: Deferred, done: seq<Fn>, fail: seq<Fn>, progress: seq<Fn>)
      returns (back: (seq<Op>, seq<Op>, seq<Op>))
    ensures Run(d, ThenOps(done, fail, progress, back)) == Chained(d, done, fail, progress)
    ensures forall op :: op in back.0 + back.1 + back.2 ==> op.Return? || op.ReturnProgress?
  {
    var back0 := AddIsRun(d, Resolved, done);
    var d1 := AddHandlers(d, Resolved, done);
    var back1 := AddIsRun(d1, Rejected, fail);
    var d2 := AddHandlers(d1, Rejected, fail);
    var back2 := AddProgressIsRun(d2, progress);
    RunAppend(d, [Handle(Resolved, done)] + back0, [Handle(Rejected, fail)] + back1);
    RunAppend(d, [Handle(Resolved, done)] + back0 + ([Handle(Rejected, fail)] + back1),
        [HandleProgress(progress)] + back2);
    back := (back0, back1, back2);
  }
}
