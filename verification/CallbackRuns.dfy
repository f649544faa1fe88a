/** What holds over whole runs of a callback list.

    A run is any sequence of operations.  `Return` is the running entry coming back; whatever
    stands before it are the operations that the entry, or anybody else, performed while it was
    running, so every re-entrant use of the list is such a sequence. */
module CallbackRuns {
  import opened Basics
  import opened Functions
  import opened Callbacks

  datatype Op =
    | Add(fns: seq<Fn>)
    | Remove(fns: seq<Fn>)
    | FireWith(call: Call)
    | Lock
    | Disable
    | Return(returnedFalse: bool)

  function Step(flags: Flags, v: View, op: Op): View {
    match op
    case Add(fns) => Added(flags, v, fns)
    case Remove(fns) => Removed(v, fns)
    case FireWith(call) => Fired(flags, v, call)
    case Lock => Locked(v)
    case Disable => Disabled(v)
    case Return(returnedFalse) => Returned(flags, v, returnedFalse)
  }

  function Run(flags: Flags, v: View, ops: seq<Op>): View
    decreases |ops|
  {
    if ops == [] then v else Run(flags, Step(flags, v, ops[0]), ops[1..])
  }

  lemma StepInv(flags: Flags, v: View, op: Op)
    requires Inv(flags, v)
    ensures Inv(flags, Step(flags, v, op))
  {
    match op
    case Add(fns) => AddedInv(flags, v, fns);
    case Remove(fns) => RemovedInv(flags, v, fns);
    case FireWith(call) => FiredInv(flags, v, call);
    case Lock =>
    case Disable =>
    case Return(returnedFalse) => ReturnedInv(flags, v, returnedFalse);
  }

  /** The invariant, and with it the correctness of the index arithmetic, survives any run. */
  lemma {:induction false} RunInv(flags: Flags, v: View, ops: seq<Op>)
    requires Inv(flags, v)
    ensures Inv(flags, Run(flags, v, ops))
    decreases |ops|
  {
    if ops == [] {
    } else {
      StepInv(flags, v, ops[0]);
      RunInv(flags, Step(flags, v, ops[0]), ops[1..]);
    }
  }

  /** Runs with an `empty` of the list between one and the next, or None if the list is not idle
      there, which is when the source does not support it. */
  function RunParts(flags: Flags, v: View, parts: seq<seq<Op>>): Option<View>
    requires parts != []
    decreases |parts|
  {
    var w := Run(flags, v, parts[0]);
    if |parts| == 1 then Some(w)
    else if w.firing then None
    else RunParts(flags, Emptied(w), parts[1..])
  }

  lemma {:induction false} PartsInv(flags: Flags, v: View, parts: seq<seq<Op>>)
    requires parts != [] && Inv(flags, v)
    ensures var w := RunParts(flags, v, parts); w.Some? ==> Inv(flags, w.value)
    decreases |parts|
  {
    var w := Run(flags, v, parts[0]);
    RunInv(flags, v, parts[0]);
    if |parts| == 1 || w.firing {
    } else {
      EmptiedInv(flags, w);
      PartsInv(flags, Emptied(w), parts[1..]);
    }
  }

  lemma {:induction false} RunAppend(flags: Flags, v: View, a: seq<Op>, b: seq<Op>)
    ensures Run(flags, v, a + b) == Run(flags, Run(flags, v, a), b)
    decreases |a|
  {
    if a == [] {
      assert a + b == b;
    } else {
      assert (a + b)[1..] == a[1..] + b;
      RunAppend(flags, Step(flags, v, a[0]), a[1..], b);
    }
  }

  /* ---------- Exactly once ---------- */

  /** Every entry that the adds of a run append, in order. */
  function Pushed(flags: Flags, v: View, ops: seq<Op>): seq<Fn>
    decreases |ops|
  {
    if ops == [] then []
    else PushedBy(flags, v, ops[0]) + Pushed(flags, Step(flags, v, ops[0]), ops[1..])
  }

  function PushedBy(flags: Flags, v: View, op: Op): seq<Fn> {
    if op.Add? && v.alive then Accepted(flags, v.Entries(), op.fns) else []
  }

  /** The entries that have not had their turn. */
  function Pending(v: View): seq<Fn> {
    if v.memory.Unset? then v.past else v.todo
  }

  function FirstFire(ops: seq<Op>): Option<Call> {
    if ops == [] then None
    else if ops[0].FireWith? then Some(ops[0].call)
    else FirstFire(ops[1..])
  }

  predicate LockedBeforeFire(ops: seq<Op>) {
    ops != [] && (ops[0].Lock? || (!ops[0].FireWith? && LockedBeforeFire(ops[1..])))
  }

  ghost predicate NeverRemoves(ops: seq<Op>, keep: set<Fn>) {
    forall op :: op in ops && op.Remove? ==> forall fn :: fn in op.fns ==> fn !in keep
  }

  predicate OnceMemory(flags: Flags) {
    flags.once && flags.memory && !flags.stopOnFalse
  }

  /** What is known of a "once memory" list at any point of a run. */
  ghost predicate OnceInv(flags: Flags, v: View) {
    && Inv(flags, v)
    && !v.memory.Spent?
    && (v.memory.Unset? ==> v.log == [] && !v.firing && (v.alive ==> v.queue.Some?))
    && (v.memory.Kept? ==> v.alive && forall i :: 0 <= i < |v.log| ==> v.log[i].call == v.memory.call)
  }

  lemma {:induction false} RemovedKeeps(v: View, fns: seq<Fn>, keep: set<Fn>)
    requires forall fn :: fn in fns ==> fn !in keep
    ensures var w := Removed(v, fns);
            && w == v.(past := w.past, todo := w.todo)
            && Only(w.past, keep) == Only(v.past, keep) && Only(w.todo, keep) == Only(v.todo, keep)
    decreases |fns|
  {
    if fns == [] {
    } else {
      OnlyWithout(v.past, keep, fns[0]);
      OnlyWithout(v.todo, keep, fns[0]);
      RemovedKeeps(v.(past := Without(v.past, fns[0]), todo := Without(v.todo, fns[0])), fns[1..], keep);
    }
  }

  lemma OnceAdd(flags: Flags, v: View, fns: seq<Fn>, keep: set<Fn>)
    requires OnceMemory(flags) && OnceInv(flags, v) && v.alive
    ensures var w := Added(flags, v, fns);
            && OnceInv(flags, w) && w.alive && w.memory == v.memory
            && Only(Fns(w.log) + Pending(w), keep)
               == Only(Fns(v.log) + Pending(v), keep) + Only(Accepted(flags, v.Entries(), fns), keep)
  {
    var w := Added(flags, v, fns);
    var accepted := Accepted(flags, v.Entries(), fns);
    AddedInv(flags, v, fns);
    OnlyAppend(Fns(v.log) + Pending(v), accepted, keep);
    if v.memory.Kept? && !v.firing {
      Paid(flags, v.(todo := accepted, current := v.memory.call, firing := true));
      assert Pending(v) == [] && Fns(v.log) + [] == Fns(v.log);
    } else {
      assert Fns(v.log) + Pending(w) == (Fns(v.log) + Pending(v)) + accepted;
    }
  }

  /** One step of a run adds to the debts of the list what it pushes, and pays only by invoking. */
  lemma OnceStep(flags: Flags, v: View, op: Op, keep: set<Fn>)
    requires OnceMemory(flags) && OnceInv(flags, v) && v.alive
    requires NeverRemoves([op], keep) && !op.Disable? && (op.Lock? ==> v.memory.Kept?)
    ensures var w := Step(flags, v, op);
            && OnceInv(flags, w) && w.alive
            && (v.memory.Kept? ==> w.memory == v.memory)
            && (v.memory.Unset? ==> w.memory == if op.FireWith? then Kept(op.call) else Unset)
            && Only(Fns(w.log) + Pending(w), keep)
               == Only(Fns(v.log) + Pending(v), keep) + Only(PushedBy(flags, v, op), keep)
  {
    var w := Step(flags, v, op);
    StepInv(flags, v, op);
    match op {
      case Add(fns) =>
        OnceAdd(flags, v, fns, keep);
      case Remove(fns) =>
        assert op in [op];
        RemovedKeeps(v, fns, keep);
        OnlyAppend(Fns(v.log), Pending(v), keep);
        OnlyAppend(Fns(v.log), Pending(w), keep);
      case FireWith(call) =>
        if !v.firing && v.memory.Unset? && v.queue.Some? {
          Paid(flags, v.(past := [], todo := v.Entries(), current := call, firing := true, memory := Kept(call)));
          assert v.Entries() == Pending(v);
        }
      case Return(returnedFalse) =>
        if v.firing {
          Paid(flags, v);
        }
      case Lock =>
      case Disable =>
    }
  }

  /** Giving control to the next entry moves it from the pending ones to the invoked ones. */
  lemma Paid(flags: Flags, v: View)
    requires flags.once && v.firing && v.alive && v.memory.Kept? && v.current == v.memory.call
    requires forall i :: 0 <= i < |v.log| ==> v.log[i].call == v.memory.call
    ensures var w := Proceed(flags, v);
            && Fns(w.log) + w.todo == Fns(v.log) + v.todo
            && w.memory == v.memory && w.alive
            && forall i :: 0 <= i < |w.log| ==> w.log[i].call == v.memory.call
  {
    if v.todo != [] {
      assert Fns(v.log + [Invocation(v.todo[0], v.current)]) == Fns(v.log) + [v.todo[0]];
      assert Fns(v.log) + [v.todo[0]] + v.todo[1..] == Fns(v.log) + v.todo;
    }
  }

  lemma {:induction false} OnceRun(flags: Flags, v: View, ops: seq<Op>, keep: set<Fn>)
    requires OnceMemory(flags) && OnceInv(flags, v) && v.alive
    requires NeverRemoves(ops, keep) && Disable !in ops && (v.memory.Unset? ==> !LockedBeforeFire(ops))
    ensures var w := Run(flags, v, ops);
            && OnceInv(flags, w) && w.alive
            && w.memory == (if v.memory.Kept? then v.memory
                            else if FirstFire(ops).Some? then Kept(FirstFire(ops).value) else Unset)
            && Only(Fns(w.log) + Pending(w), keep)
               == Only(Fns(v.log) + Pending(v), keep) + Only(Pushed(flags, v, ops), keep)
    decreases |ops|
  {
    if ops != [] {
      var v' := Step(flags, v, ops[0]);
      assert forall op :: op in [ops[0]] ==> op in ops;
      OnceStep(flags, v, ops[0], keep);
      OnceRun(flags, v', ops[1..], keep);
      OnlyAppend(PushedBy(flags, v, ops[0]), Pushed(flags, v', ops[1..]), keep);
      Assoc(Only(Fns(v.log) + Pending(v), keep), Only(PushedBy(flags, v, ops[0]), keep),
          Only(Pushed(flags, v', ops[1..]), keep));
    } else {
      assert Only(Pushed(flags, v, ops), keep) == [];
    }
  }

  /** On a "once memory" list every function that nobody removes is invoked exactly once for
      every time it was added, before, during or after the fire, in the order of the adds, and
      always with the context and arguments of the first fire; later fires add nothing.  Nothing
      is invoked before the first fire, and nothing is left to be invoked once the list is idle. */
  lemma ExactlyOnce(flags: Flags, ops: seq<Op>, keep: set<Fn>)
    requires OnceMemory(flags)
    requires NeverRemoves(ops, keep) && Disable !in ops && !LockedBeforeFire(ops)
    ensures var v, pushed := Run(flags, Fresh(), ops), Only(Pushed(flags, Fresh(), ops), keep);
            && (FirstFire(ops).None? ==> v.log == [])
            && (FirstFire(ops).Some? ==>
                  && Only(Fns(v.log), keep) + Only(v.todo, keep) == pushed
                  && (!v.firing ==> Only(Fns(v.log), keep) == pushed)
                  && forall i :: 0 <= i < |v.log| ==> v.log[i].call == FirstFire(ops).value)
  {
    var v := Run(flags, Fresh(), ops);
    OnceRun(flags, Fresh(), ops, keep);
    OnlyAppend(Fns(v.log), Pending(v), keep);
    assert Fns(Fresh().log) + Pending(Fresh()) == [];
    assert Only(Fns(v.log), keep) + [] == Only(Fns(v.log), keep);
  }

  /** `fired` of such a list tells whether it was ever fired. */
  lemma FiredExactly(flags: Flags, ops: seq<Op>)
    requires OnceMemory(flags) && Disable !in ops && !LockedBeforeFire(ops)
    ensures !Run(flags, Fresh(), ops).memory.Unset? <==> FirstFire(ops).Some?
  {
    OnceRun(flags, Fresh(), ops, {});
  }

  /** The other half: a list that is locked before it was ever fired never invokes anything. */
  lemma {:induction false} LockedUnfired(flags: Flags, v: View, ops: seq<Op>)
    requires OnceMemory(flags) && OnceInv(flags, v) && v.memory.Unset?
    requires v.alive ==> LockedBeforeFire(ops)
    ensures var w := Run(flags, v, ops); w.log == [] && !w.alive
    decreases |ops|
  {
    if ops == [] {
    } else {
      var v' := Step(flags, v, ops[0]);
      StepInv(flags, v, ops[0]);
      if ops[0].Remove? {
        RemovedKeeps(v, ops[0].fns, {});
      }
      LockedUnfired(flags, v', ops[1..]);
    }
  }

  /* ---------- Removal ---------- */

  /** A function that is in the list nowhere, and that nobody adds, is not invoked. */
  lemma {:induction false} AbsentNeverRuns(flags: Flags, v: View, ops: seq<Op>, fn: Fn)
    requires Inv(flags, v) && fn !in v.past && fn !in v.todo
    requires forall op :: op in ops && op.Add? ==> fn !in op.fns
    ensures var w := Run(flags, v, ops);
            Received(w.log, fn) == Received(v.log, fn) && fn !in w.past && fn !in w.todo
    decreases |ops|
  {
    if ops == [] {
    } else {
      StepInv(flags, v, ops[0]);
      AbsentStep(flags, v, ops[0], fn);
      AbsentNeverRuns(flags, Step(flags, v, ops[0]), ops[1..], fn);
    }
  }

  lemma AbsentStep(flags: Flags, v: View, op: Op, fn: Fn)
    requires Inv(flags, v) && fn !in v.past && fn !in v.todo
    requires op.Add? ==> fn !in op.fns
    ensures var w := Step(flags, v, op);
            Received(w.log, fn) == Received(v.log, fn) && fn !in w.past && fn !in w.todo
  {
    match op {
      case Add(fns) =>
        AcceptedFrom(flags, v.Entries(), fns, fn);
        if v.alive && !v.firing && v.memory.Kept? {
          AbsentProceed(flags, Replaying(flags, v, fns), fn);
        }
      case Remove(fns) => AbsentRemoved(v, fns, fn);
      case FireWith(call) =>
        if v.queue.Some? && !v.firing && !(flags.once && !v.memory.Unset?) {
          AbsentProceed(flags, v.(past := [], todo := v.Entries(), current := call, firing := true,
                                  memory := if flags.memory then Kept(call) else Spent), fn);
        }
      case Return(returnedFalse) =>
        if v.firing {
          AbsentProceed(flags, v, fn);
          AbsentFinish(flags, v.(memory := Spent), fn);
        }
      case Lock =>
      case Disable =>
    }
  }

  lemma {:induction false} AcceptedFrom(flags: Flags, entries: seq<Fn>, fns: seq<Fn>, fn: Fn)
    requires fn !in fns
    ensures fn !in Accepted(flags, entries, fns)
    decreases |fns|
  {
    if fns == [] {
    } else {
      AcceptedFrom(flags, entries, fns[1..], fn);
      AcceptedFrom(flags, entries + [fns[0]], fns[1..], fn);
    }
  }

  lemma {:induction false} AbsentRemoved(v: View, fns: seq<Fn>, fn: Fn)
    requires fn !in v.past && fn !in v.todo
    ensures var w := Removed(v, fns); fn !in w.past && fn !in w.todo && w.log == v.log
    decreases |fns|
  {
    if fns == [] {
    } else {
      WithoutMember(v.past, fns[0], fn);
      WithoutMember(v.todo, fns[0], fn);
      AbsentRemoved(v.(past := Without(v.past, fns[0]), todo := Without(v.todo, fns[0])), fns[1..], fn);
    }
  }

  lemma {:induction false} AbsentProceed(flags: Flags, v: View, fn: Fn)
    requires fn !in v.past && fn !in v.todo
    ensures var w := Proceed(flags, v);
            Received(w.log, fn) == Received(v.log, fn) && fn !in w.past && fn !in w.todo
    decreases v.Waiting(), 1
  {
    if v.todo != [] {
      ReceivedSnoc(v.log, Invocation(v.todo[0], v.current), fn);
    } else {
      AbsentFinish(flags, v, fn);
    }
  }

  lemma {:induction false} AbsentFinish(flags: Flags, v: View, fn: Fn)
    requires fn !in v.past && fn !in v.todo
    ensures var w := Finish(flags, v);
            Received(w.log, fn) == Received(v.log, fn) && fn !in w.past && fn !in w.todo
    decreases v.Waiting(), 0
  {
    if v.alive && !flags.once && v.Waiting() > 0 {
      var call := v.queue.value[0];
      AbsentProceed(flags, v.(past := [], todo := v.Entries(), queue := Some(v.queue.value[1..]), current := call,
                              firing := true, memory := if flags.memory then Kept(call) else Spent), fn);
    }
  }

  /** Adds to an idle list that remembers no call: what they push waits in it, in order. */
  lemma {:induction false} AddsWait(flags: Flags, v: View, adds: seq<Op>)
    requires Inv(flags, v) && !v.firing && v.alive && !v.memory.Kept? && forall op :: op in adds ==> op.Add?
    ensures Run(flags, v, adds) == v.(past := v.past + Pushed(flags, v, adds))
    decreases |adds|
  {
    if adds == [] {
      assert v.past + [] == v.past;
    } else {
      assert adds[0] in adds && forall op :: op in adds[1..] ==> op in adds;
      var v' := Step(flags, v, adds[0]);
      AddedInv(flags, v, adds[0].fns);
      AddsWait(flags, v', adds[1..]);
      Assoc(v.past, PushedBy(flags, v, adds[0]), Pushed(flags, v', adds[1..]));
    }
  }

  /** After `empty` of an idle list nothing that was in it is invoked unless it is added again, and a
      list that remembers no call can be filled anew, even if it was disabled. */
  lemma EmptiedRuns(flags: Flags, v: View, adds: seq<Op>, fn: Fn, ops: seq<Op>)
    requires Inv(flags, v) && !v.firing
    requires forall op :: op in ops && op.Add? ==> fn !in op.fns
    requires forall op :: op in adds ==> op.Add?
    ensures Received(Run(flags, Emptied(v), ops).log, fn) == Received(v.log, fn)
    ensures !v.memory.Kept? ==>
              var w := Run(flags, Emptied(v), adds);
              w.alive && w.past == Pushed(flags, Emptied(v), adds) && w.log == v.log
  {
    EmptiedInv(flags, v);
    AbsentNeverRuns(flags, Emptied(v), ops, fn);
    if !v.memory.Kept? {
      AddsWait(flags, Emptied(v), adds);
      assert [] + Pushed(flags, Emptied(v), adds) == Pushed(flags, Emptied(v), adds);
    }
  }

  /** After `remove(fn)`, wherever the running fire stands, fn does not run again unless it is
      added again. */
  lemma RemovedNeverRuns(flags: Flags, v: View, fns: seq<Fn>, fn: Fn, ops: seq<Op>)
    requires Inv(flags, v) && fn in fns
    requires forall op :: op in ops && op.Add? ==> fn !in op.fns
    ensures Received(Run(flags, v, [Remove(fns)] + ops).log, fn) == Received(v.log, fn)
  {
    RunAppend(flags, v, [Remove(fns)], ops);
    var w := Removed(v, fns);
    assert Run(flags, v, [Remove(fns)]) == w;
    RemovedInv(flags, v, fns);
    RemovedGone(v, fns, fn);
    AbsentNeverRuns(flags, w, ops, fn);
  }

  lemma {:induction false} RemovedGone(v: View, fns: seq<Fn>, fn: Fn)
    requires fn in fns
    ensures var w := Removed(v, fns); fn !in w.past && fn !in w.todo && w.log == v.log
    decreases |fns|
  {
    var v' := v.(past := Without(v.past, fns[0]), todo := Without(v.todo, fns[0]));
    if fn == fns[0] {
      WithoutMember(v.past, fn, fn);
      WithoutMember(v.todo, fn, fn);
      AbsentRemoved(v', fns[1..], fn);
    } else {
      RemovedGone(v', fns[1..], fn);
    }
  }
}
