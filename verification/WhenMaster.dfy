/** What the handlers of the master of `when` get: the notifications that it passes on, and its outcome. */
module WhenMaster {
  import opened Basics
  import opened Functions
  import opened Callbacks
  import D = Deferreds
  import L = LostNotifications
  import opened Whens

  /** What input i was last notified with. */
  function LastNotified(w: World, i: nat): Value
    requires InputsValid(w) && i < |w.inputs|
  {
    match w.inputs[i]
    case Plain(_) => Undefined
    case Promise(k) =>
      var calls := Received(w.deferreds[k].progress.log, WhenProgress(i));
      if calls == [] then Undefined else Collect(calls[|calls| - 1].args)
  }

  /** The progress handlers of `when` among fns are those of inputs that are the k-th Deferred. */
  ghost predicate Placed(inputs: seq<Input>, k: nat, fns: seq<Fn>) {
    forall i: nat :: WhenProgress(i) in fns ==> i < |inputs| && inputs[i] == Promise(k)
  }

  /** Whatever the list was fired with, or is going to be, is the shared array. */
  ghost predicate SharedOnly(v: View) {
    && (v.memory.Kept? ==> v.memory.call == SHARED)
    && (v.firing ==> v.current == SHARED)
    && (v.queue.Some? ==> forall i :: 0 <= i < |v.queue.value| ==> v.queue.value[i] == SHARED)
    && forall i :: 0 <= i < |v.log| ==> v.log[i].call == SHARED
  }

  ghost predicate Noticing(w: World) {
    && InputsValid(w) && |w.progressValues| == |w.inputs|
    && (forall k :: 0 <= k < |w.deferreds| ==> Placed(w.inputs, k, w.deferreds[k].progress.Entries()))
    && (forall i :: 0 <= i < |w.inputs| ==> w.progressValues[i] == LastNotified(w, i))
    && SharedOnly(w.master.progress)
  }

  /* ---------- One operation on a progress list ---------- */

  /** What an operation that adds fns does to a list: at most one more entry is invoked, one that was
      in the list or is added, and nothing else comes into the list. */
  ghost predicate Turned(v: View, w: View, fns: seq<Fn>) {
    && D.OneMore(v.log, w.log)
    && (|w.log| > |v.log| ==> w.log[|v.log|].fn in v.Entries() || w.log[|v.log|].fn in fns)
    && (forall fn :: fn in w.Entries() ==> fn in v.Entries() || fn in fns)
  }

  lemma {:induction false} ProceedTurns(v: View)
    ensures Turned(v, Proceed(D.MEMORY, v), [])
    ensures v.firing && SharedOnly(v) ==> SharedOnly(Proceed(D.MEMORY, v))
    decreases v.Waiting()
  {
    if v.todo == [] && v.alive && v.Waiting() > 0 {
      var entries, call := v.Entries(), v.queue.value[0];
      var v' := v.(past := entries, firing := false, queue := Some(v.queue.value[1..]));
      var next := v'.(past := [], todo := entries, firing := true, current := call, memory := Kept(call));
      ProceedTurns(next);
      assert Finish(D.MEMORY, v) == StartFire(D.MEMORY, v', [], entries, call) == Proceed(D.MEMORY, next);
    }
  }

  lemma AddedTurns(v: View, fns: seq<Fn>)
    ensures Turned(v, Added(D.MEMORY, v, fns), fns)
    ensures SharedOnly(v) ==> SharedOnly(Added(D.MEMORY, v, fns))
  {
    if v.alive && !v.firing && v.memory.Kept? {
      ProceedTurns(Replaying(D.MEMORY, v, fns));
    }
  }

  lemma FiredTurns(v: View, call: Call)
    ensures Turned(v, Fired(D.MEMORY, v, call), [])
    ensures SharedOnly(v) && call == SHARED ==> SharedOnly(Fired(D.MEMORY, v, call))
  {
    if v.queue.Some? && !v.firing {
      var next := v.(past := [], todo := v.Entries(), current := call, firing := true, memory := Kept(call));
      ProceedTurns(next);
      assert next.Entries() == v.Entries();
      assert Fired(D.MEMORY, v, call) == Proceed(D.MEMORY, next);
    }
  }

  lemma ReturnedTurns(v: View, returnedFalse: bool)
    ensures Turned(v, Returned(D.MEMORY, v, returnedFalse), [])
    ensures SharedOnly(v) ==> SharedOnly(Returned(D.MEMORY, v, returnedFalse))
  {
    ProceedTurns(v);
  }

  /** The other operations at most lock the list. */
  lemma {:induction false} WiringTurns(d: D.Deferred, outcome: Outcome)
    ensures var w := D.RunWiring(d, outcome).progress;
            && w.log == d.progress.log && (forall fn :: fn in w.Entries() ==> fn in d.progress.Entries())
            && (SharedOnly(d.progress) ==> SharedOnly(w))
    decreases D.TurnsLeft(d.ListOf(outcome))
  {
    var fn := D.Running(d.ListOf(outcome));
    if fn.None? || !D.IsWiring(fn.value) {
    } else {
      var d' := D.Effect(d, fn.value);
      D.ReturnShrinks(d'.ListOf(outcome));
      WiringTurns(d'.WithList(outcome, Returned(D.ONCE_MEMORY, d'.ListOf(outcome), false)), outcome);
    }
  }

  function AddedProgress(op: D.Op): seq<Fn> {
    if op.HandleProgress? then op.fns else []
  }

  lemma StepTurns(d: D.Deferred, op: D.Op)
    ensures Turned(d.progress, D.Step(d, op).progress, AddedProgress(op))
    ensures !OnProgress(op) ==> D.Step(d, op).progress.log == d.progress.log
    ensures SharedOnly(d.progress) && (op.Notify? ==> op.call == SHARED || d.progress.queue.None?) ==>
              SharedOnly(D.Step(d, op).progress)
  {
    match op {
      case HandleProgress(fns) => AddedTurns(d.progress, fns);
      case Notify(call) => FiredTurns(d.progress, call);
      case ReturnProgress(returnedFalse) => ReturnedTurns(d.progress, returnedFalse);
      case Handle(outcome, fns) =>
        WiringTurns(d.WithList(outcome, Added(D.ONCE_MEMORY, d.ListOf(outcome), fns)), outcome);
      case Settle(outcome, call) =>
        WiringTurns(d.WithList(outcome, Fired(D.ONCE_MEMORY, d.ListOf(outcome), call)), outcome);
      case Return(outcome, returnedFalse) =>
        WiringTurns(d.WithList(outcome, Returned(D.ONCE_MEMORY, d.ListOf(outcome), returnedFalse)), outcome);
    }
  }

  /* ---------- One operation on an input, and the reaction ---------- */

  /** The handler of input i on the progress list has just been invoked. */
  predicate Notifies(op: D.Op, news: Option<Invocation>, i: nat) {
    OnProgress(op) && news.Some? && news.value.fn == WhenProgress(i)
  }

  lemma OneReceived(log: seq<Invocation>, log': seq<Invocation>, fn: Fn)
    requires D.OneMore(log, log')
    ensures Received(log', fn) == Received(log, fn) +
              (if |log'| > |log| && log'[|log|].fn == fn then [log'[|log|].call] else [])
  {
    if |log'| > |log| {
      ReceivedSnoc(log, log'[|log|], fn);
    }
  }

  lemma NewsPlaced(w: World, k: nat, op: D.Op, i: nat)
    requires Noticing(w) && k < |w.deferreds| && Placed(w.inputs, k, AddedProgress(op))
    ensures Notifies(op, NewsOf(w.deferreds[k], op), i) ==> i < |w.inputs| && w.inputs[i] == Promise(k)
  {
    StepTurns(w.deferreds[k], op);
  }

  lemma NewsReceived(d: D.Deferred, op: D.Op, i: nat)
    ensures var news := NewsOf(d, op);
            Received(D.Step(d, op).progress.log, WhenProgress(i))
            == Received(d.progress.log, WhenProgress(i)) + (if Notifies(op, news, i) then [news.value.call] else [])
  {
    StepTurns(d, op);
    OneReceived(d.progress.log, D.Step(d, op).progress.log, WhenProgress(i));
  }

  lemma LastMoved(w: World, k: nat, op: D.Op, i: nat)
    requires Noticing(w) && k < |w.deferreds| && i < |w.inputs| && Placed(w.inputs, k, AddedProgress(op))
    ensures var news := NewsOf(w.deferreds[k], op);
            LastNotified(Moved(w, k, op), i)
            == if Notifies(op, news, i) then Collect(news.value.call.args) else LastNotified(w, i)
  {
    NewsPlaced(w, k, op, i);
    NewsReceived(w.deferreds[k], op, i);
  }

  lemma MovedPlaced(w: World, k: nat, op: D.Op)
    requires Noticing(w) && k < |w.deferreds| && Placed(w.inputs, k, AddedProgress(op))
    ensures var w' := Moved(w, k, op);
            forall j :: 0 <= j < |w'.deferreds| ==> Placed(w'.inputs, j, w'.deferreds[j].progress.Entries())
  {
    StepTurns(w.deferreds[k], op);
  }

  /** What is left to show of the world after the operation w1 and the reaction w2: the values, and the
      master's list. */
  lemma OnNoticing(w: World, k: nat, op: D.Op)
    requires Noticing(w) && k < |w.deferreds| && Placed(w.inputs, k, AddedProgress(op))
    ensures Noticing(On(w, k, op))
    ensures D.OneMore(w.master.progress.log, On(w, k, op).master.progress.log)
  {
    var w1, w2, news := Moved(w, k, op), On(w, k, op), NewsOf(w.deferreds[k], op);
    MovedPlaced(w, k, op);
    ReactMaster(w1, op, news);
    forall i | 0 <= i < |w.inputs|
      ensures w2.progressValues[i] == LastNotified(w2, i)
    {
      LastMoved(w, k, op, i);
      if j: nat :| Notifies(op, news, j) {
        NewsPlaced(w, k, op, j);
      }
    }
  }

  lemma ReactMaster(w: World, op: D.Op, news: Option<Invocation>)
    requires SharedOnly(w.master.progress)
    ensures var w' := if news.Some? then React(w, op, news.value) else w;
            && w'.inputs == w.inputs && w'.deferreds == w.deferreds
            && SharedOnly(w'.master.progress) && D.OneMore(w.master.progress.log, w'.master.progress.log)
            && |w'.progressValues| == |w.progressValues|
            && forall i :: 0 <= i < |w.progressValues| ==>
                 w'.progressValues[i] == if Notifies(op, news, i) then Collect(news.value.call.args)
                                         else w.progressValues[i]
  {
    if news.Some? {
      match news.value.fn {
        case WhenDone(i) =>
          if i < |w.values| {
            StepTurns(w.master, D.Settle(Resolved, Call(MASTER, w.values[i := Collect(news.value.call.args)])));
          }
        case WhenFail(_) => StepTurns(w.master, D.Settle(Rejected, news.value.call));
        case WhenProgress(_) => StepTurns(w.master, D.Notify(SHARED));
        case _ =>
      }
    }
  }

  /* ---------- The call of `when` ---------- */

  lemma {:induction false} AttachAllNoticing(w: World, k: nat, adds: seq<Attachment>)
    requires Noticing(w) && k < |w.deferreds|
    requires forall j :: 0 <= j < |adds| ==>
               Placed(w.inputs, k, AddedProgress(adds[j].add)) && Placed(w.inputs, k, AddedProgress(adds[j].back))
    ensures Noticing(AttachAll(w, k, adds))
    decreases |adds|
  {
    if adds == [] {
    } else {
      var add, back := adds[0].add, adds[0].back;
      var w' := On(w, k, add);
      OnFrame(w, k, add);
      OnNoticing(w, k, add);
      OnNoticing(w', k, back);
      AttachFrame(w, k, add, back);
      AttachAllNoticing(Attach(w, k, add, back), k, adds[1..]);
    }
  }

  lemma TakeNoticing(w: World, i: nat)
    requires Noticing(w) && i < |w.inputs|
    ensures Noticing(Take(w, i))
  {
    if w.inputs[i].Promise? {
      AttachAllNoticing(w, w.inputs[i].index, Attachments(i));
    } else {
      assert forall j :: 0 <= j < |w.inputs| ==> LastNotified(Take(w, i), j) == LastNotified(w, j);
    }
  }

  lemma {:induction false} TakeFirstNoticing(w: World, n: nat)
    requires Noticing(w) && n <= |w.inputs|
    ensures Noticing(TakeFirst(w, n))
  {
    if n == 0 {
    } else {
      TakeFirstNoticing(w, n - 1);
      TakeNoticing(TakeFirst(w, n - 1), n - 1);
    }
  }

  /** This call of `when` has not added anything to the progress lists yet. */
  ghost predicate Unnoticed(deferreds: seq<D.Deferred>) {
    forall k, i: nat :: 0 <= k < |deferreds| ==>
      && WhenProgress(i) !in deferreds[k].progress.Entries()
      && Received(deferreds[k].progress.log, WhenProgress(i)) == []
  }

  lemma BeginNoticing(deferreds: seq<D.Deferred>, inputs: seq<Input>)
    requires InputsValid(Before(deferreds, inputs)) && Unnoticed(deferreds)
    ensures Noticing(Begin(deferreds, inputs))
  {
    var w := Before(deferreds, inputs);
    TakeFirstNoticing(w, |inputs|);
    var w' := TakeFirst(w, |inputs|);
    StepTurns(w'.master, D.Settle(Resolved, Call(MASTER, w'.values)));
    assert forall j :: 0 <= j < |inputs| ==> LastNotified(ResolveMaster(w'), j) == LastNotified(w', j);
  }

  /* ---------- Afterwards ---------- */

  /** At the place of input i the array has what the input's handler of `when` was invoked with the last time,
      and nothing if it never was. */
  predicate ShowsLast(w: World, i: nat)
    requires InputsValid(w) && i < |w.inputs| == |w.progressValues|
  {
    match w.inputs[i]
    case Plain(_) => w.progressValues[i] == Undefined
    case Promise(k) =>
      var calls := Received(w.deferreds[k].progress.log, WhenProgress(i));
      if calls == [] then w.progressValues[i] == Undefined
      else StandsFor(w.progressValues[i], calls[|calls| - 1].args)
  }

  lemma NoticingShows(w: World)
    requires Noticing(w)
    ensures forall i :: 0 <= i < |w.inputs| ==> ShowsLast(w, i)
  {
  }

  lemma StepNoticing(w: World, b: Book, op: Op)
    requires Noticing(w) && Begun(w, b) && Allowed(w, op)
    ensures Noticing(Step(w, op))
    ensures D.OneMore(w.master.progress.log, Step(w, op).master.progress.log)
  {
    match op {
      case OnInput(k, o) => OnNoticing(w, k, o);
      case OnMaster(o) =>
        StepTurns(w.master, o);
        assert forall j :: 0 <= j < |w.inputs| ==> LastNotified(Step(w, op), j) == LastNotified(w, j);
    }
  }

  lemma {:induction false} RunNoticing(w: World, b: Book, ops: seq<Op>) returns (b': Book)
    requires Noticing(w) && Begun(w, b) && AllAllowed(w, ops)
    ensures Noticing(Run(w, ops)) && Begun(Run(w, ops), b') && Run(w, ops).inputs == w.inputs
    decreases |ops|
  {
    b' := b;
    if ops == [] {
    } else {
      StepFrame(w, ops[0]);
      StepNoticing(w, b, ops[0]);
      b' := StepGood(w, b, ops[0]);
      b' := RunNoticing(Step(w, ops[0]), b', ops[1..]);
    }
  }

  /** The master's progress handlers always get the latest values.  At any time after the call of
      `when` the next operation gives control to at most one of them; that one is applied to the
      shared array, and at the place of each input the array then holds what that input was last notified
      with, however long the notification of the master has been waiting. */
  lemma DeliversLatest(deferreds: seq<D.Deferred>, inputs: seq<Input>, b: Book, ops: seq<Op>, op: Op)
    requires Found(deferreds, inputs, b) && Unnoticed(deferreds)
    requires AllAllowed(Begin(deferreds, inputs), ops) && Allowed(Run(Begin(deferreds, inputs), ops), op)
    ensures var w := Run(Begin(deferreds, inputs), ops);
            var w', log := Step(w, op), w.master.progress.log;
            var log' := w'.master.progress.log;
            && (log' == log || (|log'| == |log| + 1 && log' == log + [log'[|log|]] && log'[|log|].call == SHARED))
            && InputsValid(w') && w'.inputs == inputs && |w'.progressValues| == |inputs|
            && forall i :: 0 <= i < |inputs| ==> ShowsLast(w', i)
  {
    var b' := BeginGood(deferreds, inputs, b);
    BeginNoticing(deferreds, inputs);
    var w := Begin(deferreds, inputs);
    b' := RunNoticing(w, b', ops);
    StepNoticing(Run(w, ops), b', op);
    StepFrame(Run(w, ops), op);
    NoticingShows(Step(Run(w, ops), op));
  }

  /* ---------- The master's done and fail handlers ---------- */

  /** The handlers done and fail have been added to the master. */
  ghost predicate MasterHas(w: World, done: seq<Fn>, fail: seq<Fn>) {
    exists call :: D.DeferredInv(w.master, done, fail, call)
  }

  lemma MasterStep(w: World, w': World, done: seq<Fn>, fail: seq<Fn>, op: D.Op)
    requires MasterHas(w, done, fail) && D.Foreign(op) && w'.master == D.Step(w.master, op)
    ensures MasterHas(w', done + D.AddedFor(op, Resolved), fail + D.AddedFor(op, Rejected))
    ensures !op.Handle? ==> MasterHas(w', done, fail)
  {
    var call :| D.DeferredInv(w.master, done, fail, call);
    D.DeferredStep(w.master, done, fail, call, op);
    assert done + [] == done && fail + [] == fail;
  }

  /** `when` itself adds no handlers to the master. */
  lemma OnMasterHas(w: World, k: nat, op: D.Op, done: seq<Fn>, fail: seq<Fn>)
    requires MasterHas(w, done, fail) && k < |w.deferreds|
    ensures MasterHas(On(w, k, op), done, fail)
  {
    var w1, w2, news := Moved(w, k, op), On(w, k, op), NewsOf(w.deferreds[k], op);
    assert w1.master == w.master;
    if news.Some? && w2.master != w.master {
      match news.value.fn {
        case WhenDone(i) =>
          var values := w.values[i := Collect(news.value.call.args)];
          MasterStep(w, w2, done, fail, D.Settle(Resolved, Call(MASTER, values)));
        case WhenFail(_) => MasterStep(w, w2, done, fail, D.Settle(Rejected, news.value.call));
        case WhenProgress(_) => MasterStep(w, w2, done, fail, D.Notify(SHARED));
      }
    }
  }

  lemma {:induction false} AttachAllMasterHas(w: World, k: nat, adds: seq<Attachment>, done: seq<Fn>, fail: seq<Fn>)
    requires MasterHas(w, done, fail) && k < |w.deferreds|
    ensures MasterHas(AttachAll(w, k, adds), done, fail)
    decreases |adds|
  {
    if adds == [] {
    } else {
      var add, back := adds[0].add, adds[0].back;
      OnFrame(w, k, add);
      OnMasterHas(w, k, add, done, fail);
      OnMasterHas(On(w, k, add), k, back, done, fail);
      AttachFrame(w, k, add, back);
      AttachAllMasterHas(Attach(w, k, add, back), k, adds[1..], done, fail);
    }
  }

  lemma {:induction false} TakeFirstMasterHas(w: World, n: nat, done: seq<Fn>, fail: seq<Fn>)
    requires MasterHas(w, done, fail) && InputsValid(w) && n <= |w.inputs|
    ensures MasterHas(TakeFirst(w, n), done, fail)
  {
    if n == 0 {
    } else {
      var w', i := TakeFirst(w, n - 1), n - 1;
      TakeFirstMasterHas(w, i, done, fail);
      if w.inputs[i].Promise? {
        AttachAllMasterHas(w', w.inputs[i].index, Attachments(i), done, fail);
      }
    }
  }

  lemma BeginMasterHas(deferreds: seq<D.Deferred>, inputs: seq<Input>)
    requires InputsValid(Before(deferreds, inputs))
    ensures MasterHas(Begin(deferreds, inputs), [], [])
  {
    D.NewInv();
    assert D.DeferredInv(Before(deferreds, inputs).master, [], [], NO_CALL);
    var w := TakeFirst(Before(deferreds, inputs), |inputs|);
    TakeFirstMasterHas(Before(deferreds, inputs), |inputs|, [], []);
    MasterStep(w, ResolveMaster(w), [], [], D.Settle(Resolved, Call(MASTER, w.values)));
  }

  /** What a run does to the master from outside. */
  function MasterPart(ops: seq<Op>): seq<D.Op> {
    if ops == [] then [] else (if ops[0].OnMaster? then [ops[0].op] else []) + MasterPart(ops[1..])
  }

  lemma {:induction false} RunMasterHas(w: World, ops: seq<Op>, done: seq<Fn>, fail: seq<Fn>)
    requires MasterHas(w, done, fail) && AllAllowed(w, ops)
    ensures MasterHas(Run(w, ops), done + D.Handlers(MasterPart(ops), Resolved),
                      fail + D.Handlers(MasterPart(ops), Rejected))
    decreases |ops|
  {
    if ops == [] {
      assert done + [] == done && fail + [] == fail;
    } else {
      var part := MasterPart(ops);
      match ops[0] {
        case OnInput(k, o) =>
          OnMasterHas(w, k, o, done, fail);
          RunMasterHas(Step(w, ops[0]), ops[1..], done, fail);
          assert part == MasterPart(ops[1..]);
        case OnMaster(o) =>
          MasterStep(w, Step(w, ops[0]), done, fail, o);
          RunMasterHas(Step(w, ops[0]), ops[1..], done + D.AddedFor(o, Resolved), fail + D.AddedFor(o, Rejected));
          assert part[0] == o && part[1..] == MasterPart(ops[1..]);
          D.HandlersCons(done, part, Resolved);
          D.HandlersCons(fail, part, Rejected);
      }
    }
  }

  /** The promise of input j has been rejected, and all these invocations are with the call that did it. */
  predicate RejectedLike(w: World, j: nat, log: seq<Invocation>)
    requires j < |w.inputs|
  {
    w.inputs[j].Promise? && var k := w.inputs[j].index;
                            && k < |w.deferreds| && w.deferreds[k].state == D.Settled(Rejected)
                            && w.deferreds[k].fail.memory.Kept?
                            && forall i :: 0 <= i < |log| ==> log[i].call == w.deferreds[k].fail.memory.call
  }

  /** The handlers that are added to the master, through its promise or otherwise, are invoked exactly
      once each and in order if they are for the outcome that the master comes to, and never if
      they are for the other one.  The done handlers get the values of all inputs, and the fail handlers
      get the call with which the promise of one of the inputs was rejected. */
  lemma MasterInvokesOnce(deferreds: seq<D.Deferred>, inputs: seq<Input>, b: Book, ops: seq<Op>)
    requires Found(deferreds, inputs, b) && AllAllowed(Begin(deferreds, inputs), ops)
    ensures var w := Run(Begin(deferreds, inputs), ops);
            match w.master.state
            case Pending => w.master.done.log == [] && w.master.fail.log == []
            case Settled(outcome) =>
              var v := w.master.ListOf(outcome);
              && w.master.ListOf(D.Other(outcome)).log == []
              && Fns(v.log) + v.todo == D.Wiring(outcome) + D.Handlers(MasterPart(ops), outcome)
              && (!v.firing ==> Fns(v.log) == D.Wiring(outcome) + D.Handlers(MasterPart(ops), outcome))
              && (outcome.Resolved? ==> forall i :: 0 <= i < |v.log| ==> v.log[i].call == Call(MASTER, w.values))
              && (outcome.Rejected? ==>
                    exists j :: 0 <= j < |w.inputs| && RejectedLike(w, j, v.log))
  {
    var w := Run(Begin(deferreds, inputs), ops);
    BeginMasterHas(deferreds, inputs);
    RunMasterHas(Begin(deferreds, inputs), ops, [], []);
    WaitsForAll(deferreds, inputs, b, ops);
    assert [] + D.Handlers(MasterPart(ops), Resolved) == D.Handlers(MasterPart(ops), Resolved);
    assert [] + D.Handlers(MasterPart(ops), Rejected) == D.Handlers(MasterPart(ops), Rejected);
    if w.master.state.Settled? {
      var v := w.master.ListOf(w.master.state.outcome);
      assert !v.firing ==> Fns(v.log) + [] == Fns(v.log);
      if w.master.state.outcome.Rejected? {
        var j :| 0 <= j < |inputs| && PassesOn(w, j);
        assert RejectedLike(w, j, v.log);
      }
    }
  }

  /* ---------- The master as one of the Deferreds ---------- */

  /** How many notifications of input i have reached the handler of `when`. */
  function ToldBy(w: World, i: nat): nat
    requires InputsValid(w) && i < |w.inputs|
  {
    match w.inputs[i]
    case Plain(_) => 0
    case Promise(k) => |Received(w.deferreds[k].progress.log, WhenProgress(i))|
  }

  /** And of the first n inputs. */
  function Told(w: World, n: nat): nat
    requires InputsValid(w) && n <= |w.inputs|
  {
    if n == 0 then 0 else Told(w, n - 1) + ToldBy(w, n - 1)
  }

  lemma ToldByMoved(w: World, k: nat, op: D.Op, i: nat)
    requires Noticing(w) && k < |w.deferreds| && Placed(w.inputs, k, AddedProgress(op)) && i < |w.inputs|
    ensures ToldBy(Moved(w, k, op), i)
         == ToldBy(w, i) + (if Notifies(op, NewsOf(w.deferreds[k], op), i) then 1 else 0)
  {
    NewsPlaced(w, k, op, i);
    NewsReceived(w.deferreds[k], op, i);
  }

  /** The input whose handler has just been invoked, if one has. */
  function Notifier(op: D.Op, news: Option<Invocation>): Option<nat> {
    if OnProgress(op) && news.Some? && news.value.fn.WhenProgress? then Some(news.value.fn.index) else None
  }

  lemma {:induction false} ToldMoved(w: World, k: nat, op: D.Op, n: nat, notifier: Option<nat>)
    requires Noticing(w) && k < |w.deferreds| && Placed(w.inputs, k, AddedProgress(op)) && n <= |w.inputs|
    requires notifier == Notifier(op, NewsOf(w.deferreds[k], op))
    ensures Told(Moved(w, k, op), n) == Told(w, n) + (if notifier.Some? && notifier.value < n then 1 else 0)
  {
    if n == 0 {
    } else {
      ToldMoved(w, k, op, n - 1, notifier);
      ToldByMoved(w, k, op, n - 1);
    }
  }

  lemma {:induction false} ToldSame(w: World, w': World, n: nat)
    requires InputsValid(w) && w'.deferreds == w.deferreds && w'.inputs == w.inputs && n <= |w.inputs|
    ensures Told(w', n) == Told(w, n)
  {
    if n == 0 {
    } else {
      ToldSame(w, w', n - 1);
    }
  }

  /** The operations have made the master what it is; and until it is settled it has been notified once for
      every notification of an input. */
  ghost predicate MasterRan(w: World, ops: seq<D.Op>) {
    && InputsValid(w) && D.AllForeign(ops) && w.master == D.Run(D.New(), ops)
    && (D.FirstSettle(ops).None? ==> |L.Notified(ops)| == Told(w, |w.inputs|))
  }

  lemma {:induction false} OneMoreOp(d: D.Deferred, ops: seq<D.Op>, op: D.Op)
    ensures D.Run(d, ops + [op]) == D.Step(D.Run(d, ops), op)
    ensures D.FirstSettle(ops + [op]).None? <==> D.FirstSettle(ops).None? && !op.Settle?
    ensures L.Notified(ops + [op]) == L.Notified(ops) + (if op.Notify? then [op.call] else [])
  {
    assert [op][1..] == [];
    D.RunAppend(d, ops, [op]);
    L.NotifiedAppend(ops, [op]);
    SettlesLast(ops, op);
  }

  lemma {:induction false} SettlesLast(ops: seq<D.Op>, op: D.Op)
    ensures D.FirstSettle(ops + [op]).None? <==> D.FirstSettle(ops).None? && !op.Settle?
  {
    if ops == [] {
      assert [] + [op] == [op] && [op][1..] == [];
    } else {
      SettlesLast(ops[1..], op);
      assert (ops + [op])[1..] == ops[1..] + [op];
    }
  }

  /** An operation on the master. */
  lemma MasterRuns(w: World, ops: seq<D.Op>, w': World, op: D.Op, told: nat)
    requires MasterRan(w, ops) && D.Foreign(op) && InputsValid(w') && w'.inputs == w.inputs
    requires w'.master == D.Step(w.master, op) && Told(w', |w.inputs|) == Told(w, |w.inputs|) + told
    requires D.FirstSettle(ops).None? && !op.Settle? ==> told == if op.Notify? then 1 else 0
    ensures MasterRan(w', ops + [op])
  {
    OneMoreOp(D.New(), ops, op);
  }

  /** What the reaction does to the master, if it does anything. */
  function MasterOp(w: World, op: D.Op, inv: Invocation): D.Op {
    if Notifier(op, Some(inv)).Some? then D.Notify(SHARED)
    else if inv.fn.WhenDone? && inv.fn.index < |w.values| then
      D.Settle(Resolved, Call(MASTER, w.values[inv.fn.index := Collect(inv.call.args)]))
    else D.Settle(Rejected, inv.call)
  }

  lemma ReactRuns(w: World, op: D.Op, inv: Invocation)
    requires var notifier := Notifier(op, Some(inv)); notifier.Some? ==> notifier.value < |w.progressValues|
    ensures var w', o := React(w, op, inv), MasterOp(w, op, inv);
            && w'.deferreds == w.deferreds && w'.inputs == w.inputs
            && (w'.master == D.Step(w.master, o) || (w'.master == w.master && !o.Notify?))
  {
  }

  lemma OnRuns(w: World, k: nat, op: D.Op, ops: seq<D.Op>) returns (ops': seq<D.Op>)
    requires Noticing(w) && k < |w.deferreds| && Placed(w.inputs, k, AddedProgress(op)) && MasterRan(w, ops)
    ensures MasterRan(On(w, k, op), ops')
  {
    var w1, news := Moved(w, k, op), NewsOf(w.deferreds[k], op);
    var notifier := Notifier(op, news);
    ToldMoved(w, k, op, |w.inputs|, notifier);
    ops' := ops;
    if news.Some? {
      if notifier.Some? {
        NewsPlaced(w, k, op, notifier.value);
      }
      ReactRuns(w1, op, news.value);
      ops' := ReactedRuns(w, w1, React(w1, op, news.value), ops, MasterOp(w1, op, news.value));
    }
  }

  lemma ReactedRuns(w: World, w1: World, w2: World, ops: seq<D.Op>, op: D.Op) returns (ops': seq<D.Op>)
    requires MasterRan(w, ops) && D.Foreign(op) && InputsValid(w1) && w1.inputs == w.inputs && w1.master == w.master
    requires w2.deferreds == w1.deferreds && w2.inputs == w1.inputs
    requires Told(w1, |w.inputs|) == Told(w, |w.inputs|) + (if op.Notify? then 1 else 0)
    requires w2.master == D.Step(w.master, op) || (w2.master == w.master && !op.Notify?)
    ensures MasterRan(w2, ops')
  {
    ToldSame(w1, w2, |w.inputs|);
    ops' := ops;
    if w2.master != w.master || op.Notify? {
      MasterRuns(w, ops, w2, op, if op.Notify? then 1 else 0);
      ops' := ops + [op];
    }
  }

  lemma {:induction false} AttachAllRuns(w: World, k: nat, adds: seq<Attachment>, ops: seq<D.Op>)
      returns (ops': seq<D.Op>)
    requires Noticing(w) && k < |w.deferreds| && MasterRan(w, ops)
    requires forall j :: 0 <= j < |adds| ==>
               Placed(w.inputs, k, AddedProgress(adds[j].add)) && Placed(w.inputs, k, AddedProgress(adds[j].back))
    ensures MasterRan(AttachAll(w, k, adds), ops')
    decreases |adds|
  {
    ops' := ops;
    if adds == [] {
    } else {
      var add, back := adds[0].add, adds[0].back;
      var w' := On(w, k, add);
      OnFrame(w, k, add);
      OnNoticing(w, k, add);
      OnNoticing(w', k, back);
      ops' := OnRuns(w, k, add, ops);
      if Attach(w, k, add, back) != w' {
        ops' := OnRuns(w', k, back, ops');
      }
      AttachFrame(w, k, add, back);
      ops' := AttachAllRuns(Attach(w, k, add, back), k, adds[1..], ops');
    }
  }

  lemma TakeRuns(w: World, i: nat, ops: seq<D.Op>) returns (ops': seq<D.Op>)
    requires Noticing(w) && i < |w.inputs| && MasterRan(w, ops)
    ensures MasterRan(Take(w, i), ops')
  {
    ops' := ops;
    if w.inputs[i].Promise? {
      ops' := AttachAllRuns(w, w.inputs[i].index, Attachments(i), ops);
    } else {
      ToldSame(w, Take(w, i), |w.inputs|);
    }
  }

  lemma {:induction false} TurnsRun(ws: seq<World>, n: nat, ops: seq<D.Op>) returns (ops': seq<D.Op>)
    requires Turns(ws) && n < |ws| && Noticing(ws[0]) && MasterRan(ws[0], ops)
    ensures Noticing(ws[n]) && MasterRan(ws[n], ops')
  {
    ops' := ops;
    if n == 0 {
    } else {
      ops' := TurnsRun(ws, n - 1, ops);
      assert IsTake(ws[n - 1], n - 1, ws[n]);
      TakeNoticing(ws[n - 1], n - 1);
      ops' := TakeRuns(ws[n - 1], n - 1, ops');
    }
  }

  lemma {:induction false} NothingTold(w: World, n: nat)
    requires InputsValid(w) && Unnoticed(w.deferreds) && n <= |w.inputs|
    ensures Told(w, n) == 0
  {
    if n == 0 {
    } else {
      NothingTold(w, n - 1);
    }
  }

  lemma BeginRuns(deferreds: seq<D.Deferred>, inputs: seq<Input>) returns (ops: seq<D.Op>)
    requires InputsValid(Before(deferreds, inputs)) && Unnoticed(deferreds)
    ensures MasterRan(Begin(deferreds, inputs), ops)
  {
    var w := Before(deferreds, inputs);
    NothingTold(w, |inputs|);
    var ws := TurnsOf(w);
    ops := TurnsRun(ws, |inputs|, []);
    var w' := TakeFirst(w, |inputs|);
    if w'.counter == 0 {
      ToldSame(w', ResolveMaster(w'), |inputs|);
      MasterRuns(w', ops, ResolveMaster(w'), D.Settle(Resolved, Call(MASTER, w'.values)), 0);
      ops := ops + [D.Settle(Resolved, Call(MASTER, w'.values))];
    }
  }

  lemma StepRuns(w: World, b: Book, op: Op, ops: seq<D.Op>) returns (ops': seq<D.Op>)
    requires Noticing(w) && Begun(w, b) && Allowed(w, op) && MasterRan(w, ops)
    ensures MasterRan(Step(w, op), ops')
  {
    match op {
      case OnInput(k, o) => ops' := OnRuns(w, k, o, ops);
      case OnMaster(o) =>
        D.NewInv();
        D.RunInv(D.New(), [], [], NO_CALL, ops);
        ToldSame(w, Step(w, op), |w.inputs|);
        MasterRuns(w, ops, Step(w, op), o, 0);
        ops' := ops + [o];
    }
  }

  lemma {:induction false} RunRuns(w: World, b: Book, ops: seq<Op>, ops0: seq<D.Op>) returns (ops': seq<D.Op>)
    requires Noticing(w) && Begun(w, b) && AllAllowed(w, ops) && MasterRan(w, ops0)
    ensures MasterRan(Run(w, ops), ops')
    decreases |ops|
  {
    ops' := ops0;
    if ops == [] {
    } else {
      StepNoticing(w, b, ops[0]);
      ops' := StepRuns(w, b, ops[0], ops0);
      var b' := StepGood(w, b, ops[0]);
      ops' := RunRuns(Step(w, ops[0]), b', ops[1..], ops');
    }
  }

  /** At any time after the call of `when` the master is a Deferred after a run of its own, so that all that is
      proved of those holds of it; and until it is settled it has been notified exactly once for every
      notification that an input's handler of `when` was invoked with. */
  lemma MasterIsRun(deferreds: seq<D.Deferred>, inputs: seq<Input>, b: Book, ops: seq<Op>)
      returns (masterOps: seq<D.Op>)
    requires Found(deferreds, inputs, b) && Unnoticed(deferreds) && AllAllowed(Begin(deferreds, inputs), ops)
    ensures var w := Run(Begin(deferreds, inputs), ops);
            && D.AllForeign(masterOps) && w.master == D.Run(D.New(), masterOps)
            && InputsValid(w) && w.inputs == inputs
            && (w.master.state.Pending? ==> |L.Notified(masterOps)| == Told(w, |inputs|))
  {
    var b' := BeginGood(deferreds, inputs, b);
    BeginNoticing(deferreds, inputs);
    var w := Begin(deferreds, inputs);
    masterOps := BeginRuns(deferreds, inputs);
    masterOps := RunRuns(w, b', ops, masterOps);
    var _ := RunNoticing(w, b', ops);
    D.NewInv();
    D.RunInv(D.New(), [], [], NO_CALL, masterOps);
  }
}
