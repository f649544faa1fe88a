/** The object that `Deferred` returns, with its three mutable callback lists and the closed-over
    state variable.  Every method is proved to do to the object what `Deferreds` says the
    operation does to a Deferred. */
module DeferredObjects {
  import opened Basics
  import opened Functions
  import opened Callbacks
  import opened CallbackLists
  import opened Deferreds
  import opened Thens

  function AsArgs(fns: seq<Fn>): (args: seq<Arg>)
    ensures |args| == |fns| && forall i :: 0 <= i < |fns| ==> args[i] == FnArg(fns[i])
  {
    seq(|fns|, i requires 0 <= i < |fns| => FnArg(fns[i]))
  }

  class DeferredObject {
    const done: CallbackList      // bx
    const fail: CallbackList      // bw
    const progress: CallbackList  // bv
    var state: State              // e

    ghost predicate Valid()
      reads this, done, fail, progress
    {
      && done != fail && done != progress && fail != progress
      && done.flags == ONCE_MEMORY && fail.flags == ONCE_MEMORY && progress.flags == MEMORY
      && done.Valid() && fail.Valid() && progress.Valid()
    }

    ghost function View(): Deferred
      reads this, done, fail, progress
      requires Valid()
    {
      Deferred(done.View(), fail.View(), progress.View(), state)
    }

    constructor ()
      ensures Valid() && View() == New()
      ensures fresh(done) && fresh(fail) && fresh(progress)
    {
      done := new CallbackList(ONCE_MEMORY);
      fail := new CallbackList(ONCE_MEMORY);
      progress := new CallbackList(MEMORY);
      state := Pending;
      new;
      AddWiring(done, Resolved);
      AddWiring(fail, Rejected);
    }

    static method AddWiring(list: CallbackList, outcome: Outcome)
      requires list.Valid() && list.flags == ONCE_MEMORY && list.View() == Fresh()
      modifies list
      ensures list.Valid() && list.View() == Fresh().(past := Wiring(outcome))
    {
      var args := [FnArg(SetState(outcome)), FnArg(DisableOther(outcome)), FnArg(LockProgress(outcome))];
      FlattenFns(Wiring(outcome), args);
      list.Add(args);
    }

    function List(outcome: Outcome): CallbackList {
      if outcome.Resolved? then done else fail
    }

    /** `done` and `fail` */
    method Handle(outcome: Outcome, args: seq<Arg>)
      requires Valid()
      modifies this, done, fail, progress
      ensures Valid() && View() == Step(old(View()), Op.Handle(outcome, Flatten(args)))
    {
      List(outcome).Add(args);
      RunWiring(outcome);
    }

    /** `progress` */
    method HandleProgress(args: seq<Arg>)
      requires Valid()
      modifies progress
      ensures Valid() && View() == Step(old(View()), Op.HandleProgress(Flatten(args)))
    {
      progress.Add(args);
    }

    /** `resolveWith` and `rejectWith` */
    method Settle(outcome: Outcome, call: Call)
      requires Valid()
      modifies this, done, fail, progress
      ensures Valid() && View() == Step(old(View()), Op.Settle(outcome, call))
    {
      List(outcome).FireWith(call);
      RunWiring(outcome);
    }

    /** `notifyWith` */
    method Notify(call: Call)
      requires Valid()
      modifies progress
      ensures Valid() && View() == Step(old(View()), Op.Notify(call))
    {
      progress.FireWith(call);
    }

    /** A handler of the done or fail list comes back. */
    method Return(outcome: Outcome, returnedFalse: bool)
      requires Valid() && List(outcome).firing
      modifies this, done, fail, progress
      ensures Valid() && View() == Step(old(View()), Op.Return(outcome, returnedFalse))
    {
      List(outcome).Return(returnedFalse);
      RunWiring(outcome);
    }

    /** A progress handler comes back. */
    method ReturnProgress(returnedFalse: bool)
      requires Valid() && progress.firing
      modifies progress
      ensures Valid() && View() == Step(old(View()), Op.ReturnProgress(returnedFalse))
    {
      progress.Return(returnedFalse);
    }

    /** Any one of the operations. */
    method Act(op: Op)
      requires Valid()
      modifies this, done, fail, progress
      ensures Valid() && View() == Step(old(View()), op)
    {
      match op {
        case Handle(outcome, fns) =>
          FlattenFns(fns, AsArgs(fns));
          Handle(outcome, AsArgs(fns));
        case HandleProgress(fns) =>
          FlattenFns(fns, AsArgs(fns));
          HandleProgress(AsArgs(fns));
        case Settle(outcome, call) => Settle(outcome, call);
        case Notify(call) => Notify(call);
        case Return(outcome, returnedFalse) =>
          if List(outcome).firing {
            Return(outcome, returnedFalse);
          } else {
            NotWiring(View(), outcome);
          }
        case ReturnProgress(returnedFalse) =>
          if progress.firing {
            ReturnProgress(returnedFalse);
          }
      }
    }

    method ActAll(ops: seq<Op>)
      requires Valid()
      modifies this, done, fail, progress
      ensures Valid() && View() == Run(old(View()), ops)
    {
      for i := 0 to |ops|
        invariant Valid() && Run(View(), ops[i..]) == Run(old(View()), ops)
      {
        Act(ops[i]);
        assert ops[i..][1..] == ops[i + 1..];
      }
    }

    /** `then`, where `meanwhile` is what is done to the Deferred by the handlers that each of the adds
        invokes at once. */
    method Then(doneArgs: seq<Arg>, failArgs: seq<Arg>, progressArgs: seq<Arg>,
                meanwhile: (seq<Op>, seq<Op>, seq<Op>))
      requires Valid()
      modifies this, done, fail, progress
      ensures Valid()
      ensures View()
              == Run(old(View()), ThenOps(Flatten(doneArgs), Flatten(failArgs), Flatten(progressArgs), meanwhile))
    {
      ghost var d := View();
      ThenInSteps(d, Flatten(doneArgs), Flatten(failArgs), Flatten(progressArgs), meanwhile);
      Handle(Resolved, doneArgs);
      ActAll(meanwhile.0);
      Handle(Rejected, failArgs);
      ActAll(meanwhile.1);
      HandleProgress(progressArgs);
      ActAll(meanwhile.2);
    }

    /** `isResolved` and `isRejected`: after any run they answer as `state` does. */
    method IsSettled(outcome: Outcome, ghost ops: seq<Op>) returns (settled: bool)
      requires Valid() && AllForeign(ops) && View() == Run(New(), ops)
      ensures settled <==> state == State.Settled(outcome)
    {
      PredicatesAgree(ops, outcome);
      settled := List(outcome).HasFired();
    }

    /** The wiring functions run as they get control; each of them returns at once. */
    method RunWiring(outcome: Outcome)
      requires Valid()
      modifies this, done, fail, progress
      ensures Valid() && View() == Deferreds.RunWiring(old(View()), outcome)
    {
      var fn := RunningFn(outcome);
      while fn.Some? && IsWiring(fn.value)
        invariant Valid() && fn == Running(View().ListOf(outcome))
        invariant Deferreds.RunWiring(View(), outcome) == Deferreds.RunWiring(old(View()), outcome)
        decreases TurnsLeft(View().ListOf(outcome))
      {
        TakeTurn(outcome, fn.value);
        fn := RunningFn(outcome);
      }
    }

    /** One wiring function does its work and returns. */
    method TakeTurn(outcome: Outcome, fn: Fn)
      requires Valid() && IsWiring(fn) && Running(View().ListOf(outcome)) == Some(fn)
      modifies this, done, fail, progress
      ensures Valid()
      ensures var d := Effect(old(View()), fn);
              View() == d.WithList(outcome, Returned(ONCE_MEMORY, d.ListOf(outcome), false))
      ensures TurnsLeft(View().ListOf(outcome)) < TurnsLeft(old(View()).ListOf(outcome))
    {
      Perform(fn);
      ReturnShrinks(View().ListOf(outcome));
      List(outcome).Return(false);
    }

    method RunningFn(outcome: Outcome) returns (fn: Option<Fn>)
      requires Valid()
      ensures fn == Running(View().ListOf(outcome))
    {
      var list := List(outcome);
      fn := if list.firing && list.log != [] then Some(list.log[|list.log| - 1].fn) else None;
    }

    /** The body of one wiring function. */
    method Perform(fn: Fn)
      requires Valid() && IsWiring(fn)
      modifies this, done`list, done`queue, done`memory, fail`list, fail`queue, fail`memory,
               progress`list, progress`queue, progress`memory
      ensures Valid() && View() == Effect(old(View()), fn)
    {
      match fn {
        case SetState(settled) =>
          state := State.Settled(settled);
        case DisableOther(settled) =>
          List(Other(settled)).Disable();
        case LockProgress(_) =>
          progress.Lock();
      }
    }
  }
}
