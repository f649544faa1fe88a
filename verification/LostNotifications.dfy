/** What locking does to a list that still has fires waiting, and so what settling a Deferred does to
    the notifications that have not been delivered yet. */
module LostNotifications {
  import opened Basics
  import opened Functions
  import opened Callbacks
  import opened CallbackRuns
  import opened Notifications
  import Fires
  import D = Deferreds

  /* ---------- A locked list is one that nobody fires ---------- */

  /** The operations without the fires. */
  function Unfired(ops: seq<Op>): seq<Op> {
    if ops == [] then [] else (if ops[0].FireWith? then [] else [ops[0]]) + Unfired(ops[1..])
  }

  lemma {:induction false} UnfiredIssuesNothing(ops: seq<Op>)
    ensures Issued(Unfired(ops)) == []
    ensures forall op :: op in Unfired(ops) ==> op in ops
  {
    if ops == [] {
    } else {
      var first := if ops[0].FireWith? then [] else [ops[0]];
      UnfiredIssuesNothing(ops[1..]);
      IssuedAppend(first, Unfired(ops[1..]));
      if first != [] {
        IssuedOne(ops[0]);
      }
    }
  }

  /** A list that remembers a call and on which no fire waits. */
  predicate NoneWaiting(v: View) {
    v.alive && v.queue == Some([]) && v.memory.Kept?
  }

  lemma {:induction false} RemovedQueue(v: View, fns: seq<Fn>)
    ensures Removed(v.(queue := None), fns) == Removed(v, fns).(queue := None)
    ensures Removed(v, fns).queue == v.queue && Removed(v, fns).alive == v.alive
    ensures Removed(v, fns).memory == v.memory
    decreases |fns|
  {
    if fns == [] {
    } else {
      RemovedQueue(v.(past := Without(v.past, fns[0]), todo := Without(v.todo, fns[0])), fns[1..]);
    }
  }

  lemma ProceedQueue(flags: Flags, v: View)
    requires Repeating(flags) && NoneWaiting(v)
    ensures Proceed(flags, v.(queue := None)) == Proceed(flags, v).(queue := None)
    ensures NoneWaiting(Proceed(flags, v))
  {
  }

  lemma LockedStep(flags: Flags, v: View, op: Op)
    requires Repeating(flags) && NoneWaiting(v) && !op.Lock? && !op.Disable? && !op.FireWith?
    ensures Step(flags, v.(queue := None), op) == Step(flags, v, op).(queue := None)
    ensures NoneWaiting(Step(flags, v, op))
  {
    match op {
      case Add(fns) =>
        ProceedQueue(flags, Replaying(flags, v, fns));
      case Remove(fns) =>
        RemovedQueue(v, fns);
      case Return(_) =>
        ProceedQueue(flags, v);
    }
  }

  /** A locked list does what the same list, unlocked, would do if it were not fired any more. */
  lemma {:induction false} LockedRun(flags: Flags, v: View, ops: seq<Op>)
    requires Repeating(flags) && NoneWaiting(v) && Unlocked(ops)
    ensures Run(flags, v.(queue := None), ops) == Run(flags, v, Unfired(ops)).(queue := None)
    ensures NoneWaiting(Run(flags, v, Unfired(ops)))
    decreases |ops|
  {
    if ops == [] {
    } else {
      assert ops[0] in ops && forall op :: op in ops[1..] ==> op in ops;
      if ops[0].FireWith? {
        LockedRun(flags, v, ops[1..]);
        assert [] + Unfired(ops[1..]) == Unfired(ops[1..]);
      } else {
        LockedStep(flags, v, ops[0]);
        LockedRun(flags, Step(flags, v, ops[0]), ops[1..]);
        assert Unfired(ops)[1..] == Unfired(ops[1..]);
      }
    }
  }

  /* ---------- What gets through ---------- */

  /** The calls all were issued before the list was locked in the state v, and w is a later state.  fn has
      received those from the k-th on that had been started by then, but for the one it is about to
      receive; the ones that were waiting it never receives.  Once the list is idle it therefore has
      all of them exactly if none was waiting. */
  ghost predicate GetsStarted(v: View, w: View, all: seq<Call>, fn: Fn, k: nat) {
    var upTo := |all| - v.Waiting() - Occurrences(w.todo, fn);
    && k <= upTo <= |all|
    && Received(w.log, fn) == all[k..upTo]
    && (!w.firing ==>
          && upTo == |all| - v.Waiting()
          && (Received(w.log, fn) == all[k..] <==> v.Waiting() == 0))
  }

  lemma StartedOnly(v: View, w: View, started: seq<Call>, all: seq<Call>, fn: Fn, k: nat)
    requires v.queue.Some? && all == started + v.queue.value && Tracked(w.(queue := Some([])), started, fn, k)
    ensures GetsStarted(v, w, all, fn, k)
  {
    SliceOf(started, v.queue.value, k, Received(w.log, fn), Due(w, fn));
    var upTo := |all| - v.Waiting() - Occurrences(w.todo, fn);
    assert |all[k..upTo]| == upTo - k && |all[k..]| == |all| - k;
  }

  /** Nothing comes out of a list that is locked before a fire was started. */
  lemma NothingStarted(flags: Flags, v: View, ops: seq<Op>, fn: Fn)
    requires Inv(flags, v) && !v.firing && !v.memory.Kept? && Received(v.log, fn) == []
    ensures var w := Run(flags, Locked(v), ops); Received(w.log, fn) == [] && !w.firing && w.todo == []
  {
    LockedInv(flags, v);
    Fires.DeadForGood(flags, Locked(v), ops);
    RunInv(flags, Locked(v), ops);
  }

  /** A handler that is in the list when it is locked. */
  lemma LockedWith(flags: Flags, v: View, started: seq<Call>, all: seq<Call>, rest: seq<Op>, fn: Fn, k: nat)
    requires Repeating(flags) && Inv(flags, v) && Tracked(v, started, fn, k) && all == started + v.queue.value
    requires forall op :: op in rest ==> Harmless(op, fn)
    ensures GetsStarted(v, Run(flags, Locked(v), rest), all, fn, k)
  {
    if started == [] {
      assert Received(v.log, fn) == [];
      NothingStarted(flags, v, rest, fn);
    } else {
      TrackedLocked(flags, v, started, rest, fn, k);
      StartedOnly(v, Run(flags, Locked(v), rest), started, all, fn, k);
    }
  }

  lemma TrackedLocked(flags: Flags, v: View, started: seq<Call>, rest: seq<Op>, fn: Fn, k: nat)
    requires Repeating(flags) && Tracked(v, started, fn, k) && started != []
    requires forall op :: op in rest ==> Harmless(op, fn)
    ensures Tracked(Run(flags, Locked(v), rest).(queue := Some([])), started, fn, k)
  {
    var u := v.(queue := Some([]));
    LockedRun(flags, u, rest);
    UnfiredIssuesNothing(rest);
    var started' := TrackedRun(flags, u, Unfired(rest), started, fn, k);
    NothingMore(started', started);
  }

  lemma NothingMore(a: seq<Call>, b: seq<Call>)
    requires a + [] == b + [] + []
    ensures a == b
  {
    assert a + [] == a && b + [] + [] == b;
  }

  /** The list between the lock and the add of fn. */
  lemma LockedUntil(flags: Flags, v: View, started: seq<Call>, mid: seq<Op>, fn: Fn) returns (u: View)
    requires Repeating(flags) && Inv(flags, v) && Delivering(v, started) && started != []
    requires fn !in v.past && fn !in v.todo && Received(v.log, fn) == []
    requires Unlocked(mid) && forall op :: op in mid && op.Add? ==> fn !in op.fns
    ensures Run(flags, Locked(v), mid) == u.(queue := None) && NoneWaiting(u) && Delivering(u, started)
    ensures fn !in u.past && fn !in u.todo && Received(u.log, fn) == []
  {
    var u0 := v.(queue := Some([]));
    LockedRun(flags, u0, mid);
    UnfiredIssuesNothing(mid);
    u := Run(flags, u0, Unfired(mid));
    var started' := FiresInOrder(flags, u0, Unfired(mid), started);
    NothingMore(started', started);
    AbsentNeverRuns(flags, u0, Unfired(mid), fn);
  }

  /** And from the add on. */
  lemma LockedAdd(flags: Flags, u: View, started: seq<Call>, fns: seq<Fn>, rest: seq<Op>, fn: Fn)
    requires Repeating(flags) && NoneWaiting(u) && Delivering(u, started) && started != []
    requires fn !in u.past && fn !in u.todo && Received(u.log, fn) == []
    requires Occurrences(fns, fn) == 1 && forall op :: op in rest ==> Harmless(op, fn)
    ensures Tracked(Run(flags, Added(flags, u.(queue := None), fns), rest).(queue := Some([])), started, fn,
                    |started| - 1)
  {
    LockedStep(flags, u, Add(fns));
    LockedRun(flags, Added(flags, u, fns), rest);
    UnfiredIssuesNothing(rest);
    var started' := TrackedSince(flags, u, fns, Unfired(rest), started, fn);
    NothingMore(started', started);
  }

  lemma NothingAdded(flags: Flags, v: View, mid: seq<Op>, fns: seq<Fn>, rest: seq<Op>, fn: Fn)
    requires Inv(flags, v) && !v.firing && !v.memory.Kept? && Received(v.log, fn) == []
    ensures var w := Run(flags, Added(flags, Run(flags, Locked(v), mid), fns), rest);
            Received(w.log, fn) == [] && !w.firing && w.todo == []
  {
    NothingStarted(flags, v, mid + [Add(fns)] + rest, fn);
    RunAppend(flags, Locked(v), mid + [Add(fns)], rest);
    RunAppend(flags, Locked(v), mid, [Add(fns)]);
    assert [Add(fns)][1..] == [];
  }

  /** A handler that is added after the list was locked: it gets the last call that was started by then. */
  lemma LockedWithout(flags: Flags, v: View, started: seq<Call>, all: seq<Call>, mid: seq<Op>, fns: seq<Fn>,
                      rest: seq<Op>, fn: Fn)
    requires Repeating(flags) && Inv(flags, v) && Delivering(v, started) && all == started + v.queue.value
    requires fn !in v.past && fn !in v.todo && Received(v.log, fn) == []
    requires Unlocked(mid) && forall op :: op in mid && op.Add? ==> fn !in op.fns
    requires Occurrences(fns, fn) == 1 && forall op :: op in rest ==> Harmless(op, fn)
    ensures GetsStarted(v, Run(flags, Added(flags, Run(flags, Locked(v), mid), fns), rest), all, fn,
                        if started == [] then 0 else |started| - 1)
  {
    if started == [] {
      NothingAdded(flags, v, mid, fns, rest, fn);
    } else {
      var u := LockedUntil(flags, v, started, mid, fn);
      LockedAdd(flags, u, started, fns, rest, fn);
      StartedOnly(v, Run(flags, Added(flags, Run(flags, Locked(v), mid), fns), rest), started, all, fn,
                  |started| - 1);
    }
  }

  /** The story of a handler that is added before the list is locked ... */
  lemma LockLoses(flags: Flags, before: seq<Op>, fns: seq<Fn>, after: seq<Op>, rest: seq<Op>, fn: Fn)
    requires Repeating(flags) && Unlocked(before) && Occurrences(fns, fn) == 1
    requires forall op :: op in before && op.Add? ==> fn !in op.fns
    requires forall op :: op in after + rest ==> Harmless(op, fn)
    ensures var atAdd := Run(flags, Fresh(), before);
            var v := Run(flags, Fresh(), before + [Add(fns)] + after);
            GetsStarted(v, Run(flags, Locked(v), rest), Issued(before) + Issued(after), fn,
                        Latest(|Issued(before)|, atAdd.Waiting()))
  {
    var v0, v := Run(flags, Fresh(), before), Run(flags, Fresh(), before + [Add(fns)] + after);
    var started0 := UntilAdded(flags, before, fn);
    Notifications.ThreeParts(flags, before, fns, after);
    RunInv(flags, Fresh(), before + [Add(fns)] + after);
    var started := TrackedSince(flags, v0, fns, after, started0, fn);
    LockedWith(flags, v, started, Issued(before) + Issued(after), rest, fn, Latest(|Issued(before)|, v0.Waiting()));
  }

  /** ... and of one that is added afterwards. */
  lemma LockedLate(flags: Flags, before: seq<Op>, mid: seq<Op>, fns: seq<Fn>, rest: seq<Op>, fn: Fn)
    requires Repeating(flags) && Unlocked(before) && Unlocked(mid) && Occurrences(fns, fn) == 1
    requires forall op :: op in before + mid && op.Add? ==> fn !in op.fns
    requires forall op :: op in rest ==> Harmless(op, fn)
    ensures var v := Run(flags, Fresh(), before);
            GetsStarted(v, Run(flags, Locked(v), mid + [Add(fns)] + rest), Issued(before), fn,
                        Latest(|Issued(before)|, v.Waiting()))
  {
    var v := Run(flags, Fresh(), before);
    var started := UntilAdded(flags, before, fn);
    RunInv(flags, Fresh(), before);
    LockedWithout(flags, v, started, Issued(before), mid, fns, rest, fn);
    RunAppend(flags, Locked(v), mid + [Add(fns)], rest);
    RunAppend(flags, Locked(v), mid, [Add(fns)]);
    assert [Add(fns)][1..] == [];
  }

  /* ---------- The progress list of a Deferred ---------- */

  /** What an operation asks of the progress list, unless it settles the Deferred. */
  function ProgressOf(op: D.Op): seq<Op> {
    match op
    case HandleProgress(fns) => [Add(fns)]
    case Notify(call) => [FireWith(call)]
    case ReturnProgress(returnedFalse) => [Return(returnedFalse)]
    case _ => []
  }

  function ProgressOps(ops: seq<D.Op>): seq<Op> {
    if ops == [] then [] else ProgressOf(ops[0]) + ProgressOps(ops[1..])
  }

  /** The notifications that a run asks for. */
  function Notified(ops: seq<D.Op>): seq<Call> {
    if ops == [] then [] else (if ops[0].Notify? then [ops[0].call] else []) + Notified(ops[1..])
  }

  lemma {:induction false} NotifiedAppend(a: seq<D.Op>, b: seq<D.Op>)
    ensures Notified(a + b) == Notified(a) + Notified(b)
  {
    if a == [] {
      assert a + b == b;
    } else {
      NotifiedAppend(a[1..], b);
      assert (a + b)[0] == a[0] && (a + b)[1..] == a[1..] + b;
      Assoc(if a[0].Notify? then [a[0].call] else [], Notified(a[1..]), Notified(b));
    }
  }

  /** The run adds fn to no list of progress handlers. */
  predicate NotAdded(ops: seq<D.Op>, fn: Fn) {
    forall op :: op in ops && op.HandleProgress? ==> fn !in op.fns
  }

  lemma {:induction false} ProgressIssued(ops: seq<D.Op>)
    ensures Issued(ProgressOps(ops)) == Notified(ops)
  {
    if ops == [] {
    } else {
      ProgressIssued(ops[1..]);
      IssuedAppend(ProgressOf(ops[0]), ProgressOps(ops[1..]));
      if ProgressOf(ops[0]) != [] {
        IssuedOne(ProgressOf(ops[0])[0]);
      }
    }
  }

  lemma {:induction false} ProgressHarmless(ops: seq<D.Op>, fn: Fn)
    requires NotAdded(ops, fn)
    ensures forall op :: op in ProgressOps(ops) ==> Harmless(op, fn)
    ensures Unlocked(ProgressOps(ops))
  {
    if ops == [] {
    } else {
      assert ops[0] in ops && forall op :: op in ops[1..] ==> op in ops;
      ProgressHarmless(ops[1..], fn);
      forall op | op in ProgressOps(ops)
        ensures Harmless(op, fn)
      {
        assert op in ProgressOf(ops[0]) || op in ProgressOps(ops[1..]);
      }
    }
  }

  lemma ProgressStep(d: D.Deferred, done: seq<Fn>, fail: seq<Fn>, call: Call, op: D.Op)
    requires D.DeferredInv(d, done, fail, call) && D.Foreign(op) && (op.Settle? ==> d.state.Settled?)
    ensures D.Step(d, op).progress == Run(D.MEMORY, d.progress, ProgressOf(op))
  {
    if op.Handle? || op.Settle? || op.Return? {
      if d.state.Settled? {
        D.SettledPlainly(d, done, fail, call, op);
      } else if op.Handle? {
        D.NotWiring(d.WithList(op.outcome, Added(D.ONCE_MEMORY, d.ListOf(op.outcome), op.fns)), op.outcome);
      } else {
        D.NotWiring(d, op.outcome);
      }
    } else {
      assert ProgressOf(op)[1..] == [];
    }
  }

  /** As long as nothing settles the Deferred, and again when it is settled, its progress list sees
      only the operations that are meant for it. */
  lemma {:induction false} ProgressRun(d: D.Deferred, done: seq<Fn>, fail: seq<Fn>, call: Call, ops: seq<D.Op>)
    requires D.DeferredInv(d, done, fail, call) && D.AllForeign(ops)
    requires d.state.Settled? || D.FirstSettle(ops).None?
    ensures D.Run(d, ops).progress == Run(D.MEMORY, d.progress, ProgressOps(ops))
    decreases |ops|
  {
    if ops == [] {
    } else {
      var op := ops[0];
      assert op in ops && forall op :: op in ops[1..] ==> op in ops;
      D.DeferredStep(d, done, fail, call, op);
      ProgressStep(d, done, fail, call, op);
      ProgressRun(D.Step(d, op), done + D.AddedFor(op, Resolved), fail + D.AddedFor(op, Rejected),
                  call, ops[1..]);
      RunAppend(D.MEMORY, d.progress, ProgressOf(op), ProgressOps(ops[1..]));
    }
  }

  /** A pending Deferred after a run from the beginning. */
  lemma PendingProgress(ops: seq<D.Op>) returns (done: seq<Fn>, fail: seq<Fn>, call: Call)
    requires D.AllForeign(ops) && D.FirstSettle(ops).None?
    ensures var d := D.Run(D.New(), ops);
            && D.DeferredInv(d, done, fail, call) && d.state.Pending?
            && d.progress == Run(D.MEMORY, Fresh(), ProgressOps(ops))
  {
    D.NewInv();
    D.RunInv(D.New(), [], [], NO_CALL, ops);
    ProgressRun(D.New(), [], [], NO_CALL, ops);
    done, fail := [] + D.Handlers(ops, Resolved), [] + D.Handlers(ops, Rejected);
    call := D.SettlingCall(D.Pending, ops, NO_CALL);
  }

  /** What becomes of the progress list when a pending Deferred is settled, and afterwards. */
  lemma SettledProgress(ops: seq<D.Op>, outcome: Outcome, call: Call, after: seq<D.Op>)
    requires D.AllForeign(ops) && D.FirstSettle(ops).None? && D.AllForeign(after)
    ensures var v := D.Run(D.New(), ops).progress;
            && Inv(D.MEMORY, v) && v == Run(D.MEMORY, Fresh(), ProgressOps(ops))
            && D.Run(D.Step(D.Run(D.New(), ops), D.Settle(outcome, call)), after).progress
               == Run(D.MEMORY, Locked(v), ProgressOps(after))
  {
    var done, fail, call0 := PendingProgress(ops);
    var d0 := D.Run(D.New(), ops);
    D.SettlePending(d0, done, fail, outcome, call, call0);
    ProgressRun(D.Step(d0, D.Settle(outcome, call)), done, fail, call, after);
  }

  lemma {:induction false} Appended(a: seq<D.Op>, b: seq<D.Op>)
    ensures ProgressOps(a + b) == ProgressOps(a) + ProgressOps(b)
    ensures D.FirstSettle(a).None? && D.FirstSettle(b).None? ==> D.FirstSettle(a + b).None?
  {
    if a == [] {
      assert a + b == b;
    } else {
      Appended(a[1..], b);
      assert (a + b)[0] == a[0] && (a + b)[1..] == a[1..] + b;
      Assoc(ProgressOf(a[0]), ProgressOps(a[1..]), ProgressOps(b));
    }
  }

  lemma WithHandler(before: seq<D.Op>, fns: seq<Fn>, after: seq<D.Op>)
    ensures ProgressOps(before + [D.HandleProgress(fns)] + after)
         == ProgressOps(before) + [Add(fns)] + ProgressOps(after)
    ensures D.FirstSettle(before).None? && D.FirstSettle(after).None? ==>
              D.FirstSettle(before + [D.HandleProgress(fns)] + after).None?
  {
    var add := [D.HandleProgress(fns)];
    assert add[1..] == [] && ProgressOps(add) == [Add(fns)] + [];
    assert D.FirstSettle(add).None?;
    Appended(before, add);
    Appended(before + add, after);
  }

  lemma ForeignParts(a: seq<D.Op>, op: D.Op, b: seq<D.Op>)
    requires D.AllForeign(a) && D.Foreign(op) && D.AllForeign(b)
    ensures D.AllForeign(a + [op] + b)
  {
  }

  /** Which notifications a progress handler gets.  It is added to a pending Deferred after the
      operations `before`, and nobody adds it a second time; the Deferred is settled after the
      operations `between`, and then follow the operations `after`.  As without settling it
      gets the latest notification known when it was added, and the later ones in order, but only those
      that had been started when the Deferred was settled: the ones waiting then are lost, and those
      issued afterwards are too.  In the end it has therefore got all that were issued before the
      settling if and only if none was waiting, as is always so when no progress handler is running. */
  lemma WaitingAreLost(before: seq<D.Op>, fns: seq<Fn>, between: seq<D.Op>, outcome: Outcome, call: Call,
                       after: seq<D.Op>, fn: Fn)
    requires D.AllForeign(before) && D.Foreign(D.HandleProgress(fns)) && D.AllForeign(between) && D.AllForeign(after)
    requires D.FirstSettle(before).None? && D.FirstSettle(between).None?
    requires Occurrences(fns, fn) == 1 && NotAdded(before, fn) && NotAdded(between, fn) && NotAdded(after, fn)
    ensures var atAdd := D.Run(D.New(), before).progress;
            var d0 := D.Run(D.New(), before + [D.HandleProgress(fns)] + between);
            var d := D.Run(D.Step(d0, D.Settle(outcome, call)), after);
            && GetsStarted(d0.progress, d.progress, Notified(before + between), fn,
                           Latest(|Notified(before)|, atAdd.Waiting()))
            && (!d0.progress.firing ==> d0.progress.Waiting() == 0)
  {
    var ops := before + [D.HandleProgress(fns)] + between;
    ForeignParts(before, D.HandleProgress(fns), between);
    WithHandler(before, fns, between);
    SettledProgress(ops, outcome, call, after);
    SettledProgress(before, outcome, call, []);
    ProgressHarmless(before, fn);
    ProgressHarmless(between, fn);
    ProgressHarmless(after, fn);
    LockLoses(D.MEMORY, ProgressOps(before), fns, ProgressOps(between), ProgressOps(after), fn);
    ProgressIssued(before);
    ProgressIssued(between);
    NotifiedAppend(before, between);
  }

  /** A handler that is added when the Deferred has been settled after the operations `before` gets the
      last notification that had been started by then, once, and no other. */
  lemma LateHandler(before: seq<D.Op>, outcome: Outcome, call: Call, between: seq<D.Op>, fns: seq<Fn>,
                    after: seq<D.Op>, fn: Fn)
    requires D.AllForeign(before) && D.AllForeign(between) && D.Foreign(D.HandleProgress(fns)) && D.AllForeign(after)
    requires D.FirstSettle(before).None?
    requires Occurrences(fns, fn) == 1 && NotAdded(before, fn) && NotAdded(between, fn) && NotAdded(after, fn)
    ensures var d0 := D.Run(D.New(), before);
            var d := D.Run(D.Step(d0, D.Settle(outcome, call)), between + [D.HandleProgress(fns)] + after);
            var all := Notified(before);
            GetsStarted(d0.progress, d.progress, all, fn, Latest(|all|, d0.progress.Waiting()))
  {
    var ops := between + [D.HandleProgress(fns)] + after;
    ForeignParts(between, D.HandleProgress(fns), after);
    SettledProgress(before, outcome, call, ops);
    ProgressHarmless(before, fn);
    ProgressHarmless(between, fn);
    ProgressHarmless(after, fn);
    WithHandler(between, fns, after);
    LockedLate(D.MEMORY, ProgressOps(before), ProgressOps(between), fns, ProgressOps(after), fn);
    ProgressIssued(before);
  }

  /** The progress list when its one handler has been notified and, while it runs, has notified again. */
  function Notifying(c1: Call, c2: Call): View {
    View(true, [User(0)], [], Some([c2]), Kept(c1), true, c1, [Invocation(User(0), c1)])
  }

  lemma NotifiedTwice(c1: Call, c2: Call)
    ensures var ops := [Add([User(0)]), FireWith(c1), FireWith(c2)];
            Run(D.MEMORY, Fresh(), ops) == Notifying(c1, c2)
  {
    var ops := [Add([User(0)]), FireWith(c1), FireWith(c2)];
    var v1 := Fresh().(past := [User(0)]);
    var v2 := Notifying(c1, c2).(queue := Some([]));
    assert Step(D.MEMORY, Fresh(), ops[0]) == v1;
    assert Step(D.MEMORY, v1, ops[1]) == v2;
    assert [] + [c2] == [c2] && Step(D.MEMORY, v2, ops[2]) == Notifying(c1, c2);
    assert ops[1..][1..][1..] == [];
    assert Run(D.MEMORY, v2, ops[1..][1..]) == Notifying(c1, c2);
  }

  lemma LockedReturn(c1: Call, c2: Call)
    ensures var v := Returned(D.MEMORY, Locked(Notifying(c1, c2)), false);
            !v.firing && Received(v.log, User(0)) == [c1]
  {
    var v := Notifying(c1, c2).(queue := None);
    assert Returned(D.MEMORY, v, false) == Finish(D.MEMORY, v);
    ReceivedSnoc([], Invocation(User(0), c1), User(0));
    assert [] + v.log == v.log;
  }

  lemma TwoAsked(c1: Call, c2: Call)
    ensures var ops := [D.HandleProgress([User(0)]), D.Notify(c1), D.Notify(c2)];
            D.FirstSettle(ops).None? && ProgressOps(ops) == [Add([User(0)]), FireWith(c1), FireWith(c2)]
  {
    var ops := [D.HandleProgress([User(0)]), D.Notify(c1), D.Notify(c2)];
    assert ops[1..][1..][1..] == [];
    assert D.FirstSettle(ops[1..][1..]).None? && ProgressOps(ops[1..][1..]) == [FireWith(c2)] + [];
  }

  /** A notification is lost when a progress handler notifies again and then settles the Deferred. */
  lemma OneIsLost(c1: Call, c2: Call, outcome: Outcome, call: Call)
    ensures var d0 := D.Run(D.New(), [D.HandleProgress([User(0)]), D.Notify(c1), D.Notify(c2)]);
            var d := D.Run(D.Step(d0, D.Settle(outcome, call)), [D.ReturnProgress(false)]);
            !d.progress.firing && d0.progress.Waiting() == 1 && Received(d.progress.log, User(0)) == [c1]
  {
    var ops := [D.HandleProgress([User(0)]), D.Notify(c1), D.Notify(c2)];
    TwoAsked(c1, c2);
    SettledProgress(ops, outcome, call, [D.ReturnProgress(false)]);
    NotifiedTwice(c1, c2);
    assert ProgressOps([D.ReturnProgress(false)]) == [Return(false)] + [];
    LockedReturn(c1, c2);
  }
}
