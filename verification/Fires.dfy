/** One fire of a callback list of any kind, whatever is added and removed while it is under way. */
module Fires {
  import opened Basics
  import opened Functions
  import opened Callbacks
  import opened CallbackRuns

  /** After the operation the fire that is under way still is: nobody has disabled the list, and no
      entry has come back that was the last one or stopped the fire. */
  predicate GoesOn(flags: Flags, v: View, op: Op) {
    match op
    case Return(returnedFalse) => v.todo != [] && !(returnedFalse && flags.stopOnFalse)
    case Disable => false
    case Lock => v.memory.Kept?
    case _ => true
  }

  predicate SameFire(flags: Flags, v: View, ops: seq<Op>)
    decreases |ops|
  {
    ops == [] || (GoesOn(flags, v, ops[0]) && SameFire(flags, Step(flags, v, ops[0]), ops[1..]))
  }

  /** The entries invoked so far and those still to come. */
  function Course(v: View): seq<Fn> {
    Fns(v.log) + v.todo
  }

  lemma FireStep(flags: Flags, v: View, op: Op, keep: set<Fn>)
    requires v.firing && v.alive && GoesOn(flags, v, op) && NeverRemoves([op], keep)
    ensures var w := Step(flags, v, op);
            && w.firing && w.alive && w.current == v.current && v.log <= w.log
            && (forall i :: |v.log| <= i < |w.log| ==> w.log[i].call == v.current)
            && Only(Course(w), keep) == Only(Course(v), keep) + Only(PushedBy(flags, v, op), keep)
  {
    var w := Step(flags, v, op);
    assert Only(Course(v), keep) + [] == Only(Course(v), keep);
    match op {
      case Add(fns) =>
        var accepted := Accepted(flags, v.Entries(), fns);
        Assoc(Fns(v.log), v.todo, accepted);
        OnlyAppend(Course(v), accepted, keep);
      case Remove(fns) =>
        assert op in [op];
        RemovedKeeps(v, fns, keep);
        OnlyAppend(Fns(v.log), v.todo, keep);
        OnlyAppend(Fns(v.log), w.todo, keep);
      case Return(returnedFalse) =>
        assert Fns(w.log) == Fns(v.log) + [v.todo[0]];
        assert v.todo == [v.todo[0]] + v.todo[1..];
        Assoc(Fns(v.log), [v.todo[0]], v.todo[1..]);
      case FireWith(_) =>
      case Lock =>
      case Disable =>
    }
  }

  lemma {:induction false} FireRun(flags: Flags, v: View, ops: seq<Op>, keep: set<Fn>)
    requires v.firing && v.alive && SameFire(flags, v, ops) && NeverRemoves(ops, keep)
    ensures var w := Run(flags, v, ops);
            && w.firing && w.alive && w.current == v.current && v.log <= w.log
            && (forall i :: |v.log| <= i < |w.log| ==> w.log[i].call == v.current)
            && Only(Course(w), keep) == Only(Course(v), keep) + Only(Pushed(flags, v, ops), keep)
    decreases |ops|
  {
    if ops == [] {
      assert Only(Course(v), keep) + [] == Only(Course(v), keep);
    } else {
      var v' := Step(flags, v, ops[0]);
      assert ops[0] in ops && forall op :: op in ops[1..] ==> op in ops;
      FireStep(flags, v, ops[0], keep);
      FireRun(flags, v', ops[1..], keep);
      OnlyAppend(PushedBy(flags, v, ops[0]), Pushed(flags, v', ops[1..]), keep);
      Assoc(Only(Course(v), keep), Only(PushedBy(flags, v, ops[0]), keep), Only(Pushed(flags, v', ops[1..]), keep));
    }
  }

  lemma Cancel(a: seq<Fn>, b: seq<Fn>, c: seq<Fn>, d: seq<Fn>, e: seq<Fn>)
    requires a + b + c == a + d + e
    ensures b + c == d + e
  {
    Assoc(a, b, c);
    Assoc(a, d, e);
    assert (a + (b + c))[|a|..] == b + c;
    assert (a + (d + e))[|a|..] == d + e;
  }

  /** Taking the turns before the fire away from both sides. */
  lemma NewTurns(v: View, w: View, keep: set<Fn>, due: seq<Fn>, pushed: seq<Fn>)
    requires v.log <= w.log
    requires Only(Course(w), keep) == Only(Fns(v.log) + due, keep) + Only(pushed, keep)
    ensures Only(Fns(w.log[|v.log|..]), keep) + Only(w.todo, keep) == Only(due, keep) + Only(pushed, keep)
  {
    var news := w.log[|v.log|..];
    assert Fns(w.log) == Fns(v.log) + Fns(news);
    OnlyAppend(Fns(v.log), Fns(news), keep);
    OnlyAppend(Fns(w.log), w.todo, keep);
    OnlyAppend(Fns(v.log), due, keep);
    Cancel(Only(Fns(v.log), keep), Only(Fns(news), keep), Only(w.todo, keep), Only(due, keep), Only(pushed, keep));
  }

  /** As long as a fire is under way, on a list of any kind: the entries that nobody removes have
      their turns in order, once for every time they are in the list; the ones added meanwhile
      follow; what has not had its turn is still to come; and every turn gets the context and
      arguments of this fire, whatever other fires are asked for. */
  lemma OneTurnEach(flags: Flags, v: View, ops: seq<Op>, keep: set<Fn>)
    requires v.firing && v.alive && SameFire(flags, v, ops) && NeverRemoves(ops, keep)
    ensures var w := Run(flags, v, ops);
            && v.log <= w.log
            && Only(Fns(w.log[|v.log|..]), keep) + Only(w.todo, keep)
               == Only(v.todo, keep) + Only(Pushed(flags, v, ops), keep)
            && forall i :: |v.log| <= i < |w.log| ==> w.log[i].call == v.current
  {
    FireRun(flags, v, ops, keep);
    OnlyAppend(Fns(v.log), v.todo, keep);
    NewTurns(v, Run(flags, v, ops), keep, v.todo, Pushed(flags, v, ops));
  }

  predicate CanFire(flags: Flags, v: View) {
    !v.firing && v.alive && v.queue.Some? && !(flags.once && !v.memory.Unset?)
  }

  /** A fire of an idle list of any kind, from its start: the entries have their turns in order, and every
      turn gets the call that was asked for. */
  lemma WholeFire(flags: Flags, v: View, call: Call, ops: seq<Op>, keep: set<Fn>)
    requires Inv(flags, v) && CanFire(flags, v) && v.past != []
    requires SameFire(flags, Fired(flags, v, call), ops) && NeverRemoves(ops, keep)
    ensures var w := Run(flags, Fired(flags, v, call), ops);
            && v.log <= w.log
            && Only(Fns(w.log[|v.log|..]), keep) + Only(w.todo, keep)
               == Only(v.past, keep) + Only(Pushed(flags, Fired(flags, v, call), ops), keep)
            && forall i :: |v.log| <= i < |w.log| ==> w.log[i].call == call
  {
    var v0 := Fired(flags, v, call);
    FireStarts(flags, v, call);
    FireRun(flags, v0, ops, keep);
    var w := Run(flags, v0, ops);
    FirstTurn(v, v0, call);
    NewTurns(v, w, keep, v.past, Pushed(flags, v0, ops));
  }

  lemma FireStarts(flags: Flags, v: View, call: Call)
    requires Inv(flags, v) && CanFire(flags, v) && v.past != []
    ensures var v0 := Fired(flags, v, call);
            && v0.firing && v0.alive && v0.current == call
            && v0.log == v.log + [Invocation(v.past[0], call)] && v0.todo == v.past[1..]
  {
    var next := v.(past := [], todo := v.past, current := call, firing := true,
                   memory := if flags.memory then Kept(call) else Spent);
    assert v.Entries() == v.past;
    assert Fired(flags, v, call) == StartFire(flags, v, [], v.past, call) == Proceed(flags, next);
  }

  lemma FirstTurn(v: View, v0: View, call: Call)
    requires v.past != [] && v0.log == v.log + [Invocation(v.past[0], call)] && v0.todo == v.past[1..]
    ensures Course(v0) == Fns(v.log) + v.past
  {
    assert Fns(v0.log) == Fns(v.log) + [v.past[0]];
    assert [v.past[0]] + v.past[1..] == v.past;
    Assoc(Fns(v.log), [v.past[0]], v.past[1..]);
  }

  /** When its fire is over a "once" list without "memory" is dead, whatever is done to it. */
  lemma OnceDies(flags: Flags, v: View, returnedFalse: bool, ops: seq<Op>)
    requires flags.once && !flags.memory && Inv(flags, v) && v.firing && v.alive && v.todo == []
    ensures var w := Returned(flags, v, returnedFalse);
            !w.alive && !w.firing && Run(flags, w, ops).log == v.log
  {
    ReturnedInv(flags, v, returnedFalse);
    assert Proceed(flags, v) == Finish(flags, v);
    DeadForGood(flags, Returned(flags, v, returnedFalse), ops);
  }

  /** Nothing can bring a disabled list to invoke anything. */
  lemma {:induction false} DeadForGood(flags: Flags, v: View, ops: seq<Op>)
    requires Inv(flags, v) && !v.alive && !v.firing
    ensures var w := Run(flags, v, ops); w.log == v.log && !w.alive && !w.firing
    decreases |ops|
  {
    if ops == [] {
    } else {
      StepInv(flags, v, ops[0]);
      DeadStep(flags, v, ops[0]);
      DeadForGood(flags, Step(flags, v, ops[0]), ops[1..]);
    }
  }

  lemma DeadStep(flags: Flags, v: View, op: Op)
    requires Inv(flags, v) && !v.alive && !v.firing
    ensures var w := Step(flags, v, op); w.log == v.log && !w.alive && !w.firing
  {
    if op.Remove? {
      RemovedDead(v, op.fns);
    }
  }

  /** An entry that returns `false` under "stopOnFalse" ends its fire: the entries that have not had
      their turn do not get one in it.  A "once" list is then dead, whatever is done to it.  Any
      other list goes on with the next fire that waits, from the first entry, or else is idle and
      has forgotten its call, so that entries added later are not run before the next fire. */
  lemma FalseEndsFire(flags: Flags, v: View, ops: seq<Op>)
    requires Inv(flags, v) && v.firing && v.alive && flags.stopOnFalse
    ensures var w := Returned(flags, v, true);
            && (flags.once ==> !w.alive && !w.firing && Run(flags, w, ops).log == v.log)
            && (!flags.once && v.Waiting() > 0 ==>
                  w == StartFire(flags, v.(past := v.Entries(), todo := [], firing := false, memory := Spent,
                                           queue := Some(v.queue.value[1..])),
                                 [], v.Entries(), v.queue.value[0]))
            && (!flags.once && v.Waiting() == 0 ==>
                  w == v.(past := v.Entries(), todo := [], firing := false, memory := Spent)
                  && (NoFires(ops) ==> Run(flags, w, ops).log == v.log))
  {
    var w := Returned(flags, v, true);
    ReturnedInv(flags, v, true);
    if flags.once {
      DeadForGood(flags, w, ops);
    } else if v.Waiting() == 0 && NoFires(ops) {
      ForgottenRun(flags, w, ops);
    }
  }

  predicate NoFires(ops: seq<Op>) {
    forall op :: op in ops ==> !op.FireWith?
  }

  lemma {:induction false} ForgottenRun(flags: Flags, v: View, ops: seq<Op>)
    requires !v.firing && !v.memory.Kept? && NoFires(ops)
    ensures Run(flags, v, ops).log == v.log
    decreases |ops|
  {
    if ops == [] {
    } else {
      assert ops[0] in ops && forall op :: op in ops[1..] ==> op in ops;
      if ops[0].Remove? {
        RemovedKeeps(v, ops[0].fns, {});
      }
      ForgottenRun(flags, Step(flags, v, ops[0]), ops[1..]);
    }
  }
}
