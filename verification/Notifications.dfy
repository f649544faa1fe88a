/** Lists that remember a call and can be fired many times (the progress lists of Deferred):
    fires issued while another one runs wait for it, and each handler sees a contiguous stretch
    of the calls in the order in which they were issued. */
module Notifications {
  import opened Basics
  import opened Functions
  import opened Callbacks
  import opened CallbackRuns

  predicate Repeating(flags: Flags) {
    flags.memory && !flags.once && !flags.stopOnFalse
  }

  /** The calls that the fires of a run ask for, in order. */
  function Issued(ops: seq<Op>): seq<Call> {
    if ops == [] then []
    else (if ops[0].FireWith? then [ops[0].call] else []) + Issued(ops[1..])
  }

  lemma {:induction false} IssuedAppend(a: seq<Op>, b: seq<Op>)
    ensures Issued(a + b) == Issued(a) + Issued(b)
  {
    if a == [] {
      assert a + b == b;
    } else {
      IssuedAppend(a[1..], b);
      assert (a + b)[0] == a[0] && (a + b)[1..] == a[1..] + b;
      Assoc(if a[0].FireWith? then [a[0].call] else [], Issued(a[1..]), Issued(b));
    }
  }

  /** Nobody locks or disables the list. */
  predicate Unlocked(ops: seq<Op>) {
    Lock !in ops && Disable !in ops
  }

  lemma IssuedOne(op: Op)
    ensures Issued([op]) == if op.FireWith? then [op.call] else []
  {
    assert [op][1..] == [];
  }

  lemma IssuedFirst(ops: seq<Op>)
    requires ops != []
    ensures Issued(ops) == Issued([ops[0]]) + Issued(ops[1..])
  {
    IssuedOne(ops[0]);
  }

  /** fn sits once in a list whose fires have been started with the calls `started`, in that
      order.  The last of them is the one remembered and, during a fire, the one being delivered;
      fn has received those from the k-th on, and the last one as well once its turn has come. */
  ghost predicate Tracked(v: View, started: seq<Call>, fn: Fn, k: nat) {
    && v.alive && v.queue.Some? && (!v.firing ==> v.todo == [] && v.Waiting() == 0)
    && (if started == [] then v.memory.Unset? && !v.firing
        else v.memory == Kept(started[|started| - 1]) && (v.firing ==> v.current == started[|started| - 1]))
    && Occurrences(v.past, fn) + Occurrences(v.todo, fn) == 1
    && k <= |started|
    && Received(v.log, fn) + Due(v, fn) == started[k..]
  }

  /** The call that fn is about to receive in the running fire. */
  function Due(v: View, fn: Fn): seq<Call> {
    if Occurrences(v.todo, fn) > 0 then [v.current] else []
  }

  lemma TrackedInvoke(flags: Flags, v: View, started: seq<Call>, fn: Fn, k: nat)
    requires v.firing && Tracked(v, started, fn, k) && v.todo != []
    ensures Tracked(Proceed(flags, v), started, fn, k)
  {
    var head, rest := v.todo[0], v.todo[1..];
    ReceivedSnoc(v.log, Invocation(head, v.current), fn);
    OccurrencesAppend(v.past, [head], fn);
    assert [head][1..] == [];
    assert Occurrences([head], fn) == if head == fn then 1 else 0;
    assert Occurrences(v.todo, fn) == Occurrences([head], fn) + Occurrences(rest, fn);
    var w := v.(past := v.past + [head], todo := rest, log := v.log + [Invocation(head, v.current)]);
    assert Proceed(flags, v) == w;
    if head == fn {
      assert Due(v, fn) == [v.current] && Due(w, fn) == [];
      assert Received(v.log, fn) + [v.current] + [] == Received(v.log, fn) + [v.current];
    } else {
      assert Due(w, fn) == Due(v, fn) && Received(w.log, fn) == Received(v.log, fn) + [];
      assert Received(v.log, fn) + [] == Received(v.log, fn);
    }
  }

  /** The start of the next fire that waits: everything in the list is due again. */
  lemma TrackedNext(flags: Flags, v: View, started: seq<Call>, fn: Fn, k: nat)
    requires Repeating(flags) && v.firing && Tracked(v, started, fn, k) && v.todo == [] && v.Waiting() > 0
    ensures Tracked(Proceed(flags, v), started + [v.queue.value[0]], fn, k)
    ensures Proceed(flags, v).queue == Some(v.queue.value[1..])
  {
    var call := v.queue.value[0];
    var next := v.(past := [], todo := v.past, queue := Some(v.queue.value[1..]), current := call,
                   memory := Kept(call));
    assert Tracked(next, started + [call], fn, k) by {
      assert Received(v.log, fn) + [] == Received(v.log, fn);
      assert (started + [call])[k..] == started[k..] + [call];
    }
    OccursIn(v.past, fn);
    TrackedInvoke(flags, next, started + [call], fn, k);
    NextFire(flags, v);
  }

  lemma NextFire(flags: Flags, v: View)
    requires Repeating(flags) && v.alive && v.firing && v.todo == [] && v.Waiting() > 0
    ensures Proceed(flags, v)
         == Proceed(flags, v.(past := [], todo := v.past, queue := Some(v.queue.value[1..]),
                              current := v.queue.value[0], memory := Kept(v.queue.value[0])))
  {
    assert v.Entries() == v.past;
    var v' := v.(firing := false, queue := Some(v.queue.value[1..]));
    assert Finish(flags, v) == StartFire(flags, v', [], v.past, v.queue.value[0]);
  }

  /** The step that gives control to the next entry, starting the next fire if need be. */
  lemma TrackedProceed(flags: Flags, v: View, started: seq<Call>, fn: Fn, k: nat) returns (started': seq<Call>)
    requires Repeating(flags) && v.firing && Tracked(v, started, fn, k)
    ensures var w := Proceed(flags, v);
            Tracked(w, started', fn, k) && started' + w.queue.value == started + v.queue.value
  {
    started' := started;
    if v.todo != [] {
      TrackedInvoke(flags, v, started, fn, k);
    } else if v.Waiting() > 0 {
      TrackedNext(flags, v, started, fn, k);
      started' := started + [v.queue.value[0]];
      Shift(started, v.queue.value);
    } else {
      assert v.Entries() == v.past;
    }
  }

  ghost predicate Harmless(op: Op, fn: Fn) {
    && !op.Lock? && !op.Disable?
    && (op.Add? ==> fn !in op.fns)
    && (op.Remove? ==> fn !in op.fns)
  }

  lemma {:induction false} AcceptedWithout(flags: Flags, entries: seq<Fn>, fns: seq<Fn>, fn: Fn)
    requires fn !in fns
    ensures Occurrences(Accepted(flags, entries, fns), fn) == 0
  {
    AcceptedFrom(flags, entries, fns, fn);
    OccursIn(Accepted(flags, entries, fns), fn);
  }

  lemma {:induction false} RemovedOccurrences(v: View, fns: seq<Fn>, fn: Fn)
    requires fn !in fns
    ensures var w := Removed(v, fns);
            && w == v.(past := w.past, todo := w.todo)
            && Occurrences(w.past, fn) == Occurrences(v.past, fn)
            && Occurrences(w.todo, fn) == Occurrences(v.todo, fn)
            && |w.todo| <= |v.todo|
    decreases |fns|
  {
    if fns == [] {
    } else {
      OccurrencesWithout(v.past, fns[0], fn);
      OccurrencesWithout(v.todo, fns[0], fn);
      RemovedOccurrences(v.(past := Without(v.past, fns[0]), todo := Without(v.todo, fns[0])), fns[1..], fn);
    }
  }

  lemma TrackedAdd(flags: Flags, v: View, fns: seq<Fn>, started: seq<Call>, fn: Fn, k: nat)
      returns (started': seq<Call>)
    requires Repeating(flags) && Tracked(v, started, fn, k) && fn !in fns
    ensures var w := Added(flags, v, fns);
            Tracked(w, started', fn, k) && started' + w.queue.value == started + v.queue.value
  {
    var accepted := Accepted(flags, v.Entries(), fns);
    AcceptedWithout(flags, v.Entries(), fns, fn);
    OccurrencesAppend(v.past, accepted, fn);
    OccurrencesAppend(v.todo, accepted, fn);
    started' := started;
    if !v.firing && v.memory.Kept? {
      started' := TrackedProceed(flags, Replaying(flags, v, fns), started, fn, k);
    }
  }

  lemma TrackedStep(flags: Flags, v: View, op: Op, started: seq<Call>, fn: Fn, k: nat) returns (started': seq<Call>)
    requires Repeating(flags) && Tracked(v, started, fn, k) && Harmless(op, fn)
    ensures var w := Step(flags, v, op);
            Tracked(w, started', fn, k) && started' + w.queue.value == started + v.queue.value + Issued([op])
  {
    started' := started;
    IssuedOne(op);
    assert started + v.queue.value + [] == started + v.queue.value;
    match op {
      case Add(fns) =>
        started' := TrackedAdd(flags, v, fns, started, fn, k);
      case Remove(fns) =>
        TrackedRemove(v, fns, started, fn, k);
      case Return(returnedFalse) =>
        if v.firing {
          started' := TrackedProceed(flags, v, started, fn, k);
        }
      case FireWith(call) =>
        if v.firing {
          TrackedQueue(flags, v, call, started, fn, k);
        } else {
          started' := TrackedFire(flags, v, call, started, fn, k);
        }
    }
  }

  lemma TrackedRemove(v: View, fns: seq<Fn>, started: seq<Call>, fn: Fn, k: nat)
    requires Tracked(v, started, fn, k) && fn !in fns
    ensures Tracked(Removed(v, fns), started, fn, k) && Removed(v, fns).queue == v.queue
  {
    RemovedOccurrences(v, fns, fn);
  }

  lemma TrackedQueue(flags: Flags, v: View, call: Call, started: seq<Call>, fn: Fn, k: nat)
    requires Repeating(flags) && Tracked(v, started, fn, k) && v.firing
    ensures Tracked(Fired(flags, v, call), started, fn, k)
    ensures started + Fired(flags, v, call).queue.value == started + v.queue.value + [call]
  {
    Assoc(started, v.queue.value, [call]);
  }

  /** A fire on an idle list. */
  lemma TrackedFire(flags: Flags, v: View, call: Call, started: seq<Call>, fn: Fn, k: nat) returns (started': seq<Call>)
    requires Repeating(flags) && Tracked(v, started, fn, k) && !v.firing
    ensures var w := Fired(flags, v, call);
            Tracked(w, started', fn, k) && started' + w.queue.value == started + v.queue.value + [call]
  {
    var next := v.(past := [], todo := v.past, current := call, firing := true, memory := Kept(call));
    IdleFire(flags, v, call);
    TrackedStart(v, call, started, fn, k);
    started' := TrackedProceed(flags, next, started + [call], fn, k);
    assert started + [call] + [] == started + [] + [call];
  }

  lemma IdleFire(flags: Flags, v: View, call: Call)
    requires Repeating(flags) && v.alive && v.queue.Some? && !v.firing && v.todo == []
    ensures Fired(flags, v, call)
         == Proceed(flags, v.(past := [], todo := v.past, current := call, firing := true, memory := Kept(call)))
  {
    assert v.Entries() == v.past;
  }

  /** Everything in the idle list is due for the call. */
  lemma TrackedStart(v: View, call: Call, started: seq<Call>, fn: Fn, k: nat)
    requires Tracked(v, started, fn, k) && !v.firing
    ensures Tracked(v.(past := [], todo := v.past, current := call, firing := true, memory := Kept(call)),
                    started + [call], fn, k)
  {
    assert (started + [call])[k..] == started[k..] + [call];
    assert Received(v.log, fn) + [] == Received(v.log, fn);
    OccursIn(v.past, fn);
  }

  lemma {:induction false} TrackedRun(flags: Flags, v: View, ops: seq<Op>, started: seq<Call>, fn: Fn, k: nat)
      returns (started': seq<Call>)
    requires Repeating(flags) && Tracked(v, started, fn, k)
    requires forall op :: op in ops ==> Harmless(op, fn)
    ensures var w := Run(flags, v, ops);
            Tracked(w, started', fn, k) && started' + w.queue.value == started + v.queue.value + Issued(ops)
    decreases |ops|
  {
    started' := started;
    if ops == [] {
      assert started + v.queue.value + [] == started + v.queue.value;
    } else {
      started' := TrackedStep(flags, v, ops[0], started, fn, k);
      var front := started + v.queue.value;
      started' := TrackedRun(flags, Step(flags, v, ops[0]), ops[1..], started', fn, k);
      IssuedFirst(ops);
      Assoc(front, Issued([ops[0]]), Issued(ops[1..]));
    }
  }

  /* ---------- From the empty list on ---------- */

  /** The same bookkeeping without a handler to follow: what has been delivered and what waits. */
  ghost predicate Delivering(v: View, started: seq<Call>) {
    && v.alive && v.queue.Some? && (!v.firing ==> v.todo == [] && v.Waiting() == 0)
    && (if started == [] then v.memory.Unset? && !v.firing
        else v.memory == Kept(started[|started| - 1]) && (v.firing ==> v.current == started[|started| - 1]))
  }

  lemma {:induction false} DeliveringProceed(flags: Flags, v: View, started: seq<Call>) returns (started': seq<Call>)
    requires Repeating(flags) && v.firing && Delivering(v, started)
    ensures var w := Proceed(flags, v);
            Delivering(w, started') && started' + w.queue.value == started + v.queue.value
    decreases v.Waiting()
  {
    started' := started;
    if v.todo == [] && v.Waiting() > 0 {
      var call := v.queue.value[0];
      NextFire(flags, v);
      started' := DeliveringProceed(flags,
                    v.(past := [], todo := v.past, queue := Some(v.queue.value[1..]), current := call,
                       memory := Kept(call)), started + [call]);
      Shift(started, v.queue.value);
    }
  }

  lemma DeliveringStep(flags: Flags, v: View, op: Op, started: seq<Call>) returns (started': seq<Call>)
    requires Repeating(flags) && Delivering(v, started) && Unlocked([op])
    ensures var w := Step(flags, v, op);
            Delivering(w, started') && started' + w.queue.value == started + v.queue.value + Issued([op])
  {
    started' := started;
    assert op in [op];
    IssuedOne(op);
    assert started + v.queue.value + [] == started + v.queue.value;
    match op {
      case Add(fns) =>
        if !v.firing && v.memory.Kept? {
          started' := DeliveringProceed(flags, Replaying(flags, v, fns), started);
        }
      case Remove(fns) =>
        RemovedKeeps(v, fns, {});
        RemovedShrinks(v, fns);
      case Return(returnedFalse) =>
        if v.firing {
          started' := DeliveringProceed(flags, v, started);
        }
      case FireWith(call) =>
        if v.firing {
          Assoc(started, v.queue.value, [call]);
        } else {
          started' := DeliveringProceed(flags,
                        v.(past := [], todo := v.Entries(), current := call, firing := true, memory := Kept(call)),
                        started + [call]);
          assert started + [call] + [] == started + [] + [call];
        }
    }
  }

  lemma {:induction false} RemovedShrinks(v: View, fns: seq<Fn>)
    ensures |Removed(v, fns).todo| <= |v.todo|
    decreases |fns|
  {
    if fns == [] {
    } else {
      RemovedShrinks(v.(past := Without(v.past, fns[0]), todo := Without(v.todo, fns[0])), fns[1..]);
    }
  }

  /** Fires are started in the order in which they were issued: what has been started, followed
      by what waits, is exactly what was issued, and the list remembers the last one started. */
  lemma {:induction false} FiresInOrder(flags: Flags, v: View, ops: seq<Op>, started: seq<Call>)
      returns (started': seq<Call>)
    requires Repeating(flags) && Delivering(v, started) && Unlocked(ops)
    ensures var w := Run(flags, v, ops);
            Delivering(w, started') && started' + w.queue.value == started + v.queue.value + Issued(ops)
    decreases |ops|
  {
    started' := started;
    if ops == [] {
      assert started + v.queue.value + [] == started + v.queue.value;
    } else {
      assert ops[0] in ops && forall op :: op in ops[1..] ==> op in ops;
      started' := DeliveringStep(flags, v, ops[0], started);
      var front := started + v.queue.value;
      started' := FiresInOrder(flags, Step(flags, v, ops[0]), ops[1..], started');
      IssuedFirst(ops);
      Assoc(front, Issued([ops[0]]), Issued(ops[1..]));
    }
  }

  /** The place of the latest call that has been started, of so many issued and so many waiting. */
  function Latest(issued: nat, waiting: nat): nat {
    if issued <= waiting then 0 else issued - waiting - 1
  }

  /** The whole story of one handler.  It is added after the operations `before`, and then follow
      the operations `after`; nobody adds it a second time or removes it.  If k is the number of
      calls whose fire had been started before the last one when it was added, then it receives the
      calls from the k-th on, each once and in the order in which they were issued: the latest
      remembered call when it is added to an idle list, the running call when it is added during a
      fire, and every later call.  Once the list is idle it has received all of them. */
  lemma HandlerSeesSuffix(flags: Flags, before: seq<Op>, fns: seq<Fn>, after: seq<Op>, fn: Fn)
    requires Repeating(flags) && Unlocked(before)
    requires Occurrences(fns, fn) == 1
    requires forall op :: op in before && op.Add? ==> fn !in op.fns
    requires forall op :: op in after ==> Harmless(op, fn)
    ensures var atAdd := Run(flags, Fresh(), before);
            var k := Latest(|Issued(before)|, atAdd.Waiting());
            var v := Run(flags, Fresh(), before + [Add(fns)] + after);
            var all := Issued(before + after);
            var upTo := |all| - v.Waiting() - Occurrences(v.todo, fn);
            && 0 <= k <= upTo <= |all|
            && Received(v.log, fn) == all[k..upTo]
            && (!v.firing ==> upTo == |all|)
  {
    var started := UntilAdded(flags, before, fn);
    ThreeParts(flags, before, fns, after);
    FromAdd(flags, Run(flags, Fresh(), before), fns, after, started, Issued(before), fn);
    IssuedAppend(before, after);
  }

  /** The time from the add on, where v0 is the list before it. */
  lemma FromAdd(flags: Flags, v0: View, fns: seq<Fn>, after: seq<Op>, started: seq<Call>, issued: seq<Call>, fn: Fn)
    requires Repeating(flags) && Delivering(v0, started) && started + v0.queue.value == issued
    requires fn !in v0.past && fn !in v0.todo && Received(v0.log, fn) == []
    requires Occurrences(fns, fn) == 1 && forall op :: op in after ==> Harmless(op, fn)
    ensures var k := Latest(|issued|, v0.Waiting());
            var v, all := Run(flags, Added(flags, v0, fns), after), issued + Issued(after);
            var upTo := |all| - v.Waiting() - Occurrences(v.todo, fn);
            && 0 <= k <= upTo <= |all|
            && Received(v.log, fn) == all[k..upTo]
            && (!v.firing ==> upTo == |all|)
  {
    var started' := TrackedSince(flags, v0, fns, after, started, fn);
    HandlerHas(flags, Run(flags, Added(flags, v0, fns), after), started', issued + Issued(after),
               Latest(|issued|, v0.Waiting()), fn);
  }

  lemma TrackedSince(flags: Flags, v0: View, fns: seq<Fn>, after: seq<Op>, started: seq<Call>, fn: Fn)
      returns (started': seq<Call>)
    requires Repeating(flags) && Delivering(v0, started)
    requires fn !in v0.past && fn !in v0.todo && Received(v0.log, fn) == []
    requires Occurrences(fns, fn) == 1 && forall op :: op in after ==> Harmless(op, fn)
    ensures var v := Run(flags, Added(flags, v0, fns), after);
            && Tracked(v, started', fn, if started == [] then 0 else |started| - 1)
            && started' + v.queue.value == started + v0.queue.value + Issued(after)
  {
    var k := if started == [] then 0 else |started| - 1;
    started' := TrackedFromAdd(flags, v0, fns, started, fn);
    started' := TrackedRun(flags, Added(flags, v0, fns), after, started', fn, k);
  }

  lemma ThreeParts(flags: Flags, before: seq<Op>, fns: seq<Fn>, after: seq<Op>)
    ensures Run(flags, Fresh(), before + [Add(fns)] + after)
         == Run(flags, Added(flags, Run(flags, Fresh(), before), fns), after)
  {
    RunAppend(flags, Fresh(), before + [Add(fns)], after);
    RunAppend(flags, Fresh(), before, [Add(fns)]);
    assert [Add(fns)][1..] == [];
  }

  /** The time before the handler is added. */
  lemma UntilAdded(flags: Flags, before: seq<Op>, fn: Fn) returns (started: seq<Call>)
    requires Repeating(flags) && Unlocked(before)
    requires forall op :: op in before && op.Add? ==> fn !in op.fns
    ensures var v := Run(flags, Fresh(), before);
            && Delivering(v, started) && started + v.queue.value == Issued(before)
            && fn !in v.past && fn !in v.todo && Received(v.log, fn) == []
  {
    RunInv(flags, Fresh(), before);
    AbsentNeverRuns(flags, Fresh(), before, fn);
    started := FiresInOrder(flags, Fresh(), before, []);
    assert [] + [] + Issued(before) == Issued(before);
  }

  /** What has been started and what waits is all that was issued. */
  lemma HandlerHas(flags: Flags, v: View, started: seq<Call>, all: seq<Call>, k: nat, fn: Fn)
    requires v.queue.Some? && all == started + v.queue.value && Occurrences(v.todo, fn) <= 1
    requires k <= |started| && Received(v.log, fn) + Due(v, fn) == started[k..]
    ensures var upTo := |all| - v.Waiting() - Occurrences(v.todo, fn);
            && k <= upTo <= |all|
            && Received(v.log, fn) == all[k..upTo]
  {
    SliceOf(started, v.queue.value, k, Received(v.log, fn), Due(v, fn));
    assert Occurrences(v.todo, fn) == |Due(v, fn)|;
  }

  /** The handler as it is being added. */
  lemma TrackedFromAdd(flags: Flags, v: View, fns: seq<Fn>, started: seq<Call>, fn: Fn) returns (started': seq<Call>)
    requires Repeating(flags) && Delivering(v, started) && Occurrences(fns, fn) == 1
    requires fn !in v.past && fn !in v.todo && Received(v.log, fn) == []
    ensures var w := Added(flags, v, fns);
            && Tracked(w, started', fn, if started == [] then 0 else |started| - 1)
            && started' + w.queue.value == started + v.queue.value
  {
    var k := if started == [] then 0 else |started| - 1;
    var accepted := Accepted(flags, v.Entries(), fns);
    AcceptedOnce(flags, v.Entries(), fns, fn);
    OccursIn(v.past, fn);
    OccursIn(v.todo, fn);
    OccurrencesAppend(v.past, accepted, fn);
    OccurrencesAppend(v.todo, accepted, fn);
    started' := started;
    if !v.firing && v.memory.Kept? {
      started' := TrackedProceed(flags, Replaying(flags, v, fns), started, fn, k);
    }
  }

  lemma {:induction false} AcceptedOnce(flags: Flags, entries: seq<Fn>, fns: seq<Fn>, fn: Fn)
    requires fn !in entries && Occurrences(fns, fn) == 1
    ensures Occurrences(Accepted(flags, entries, fns), fn) == 1
    decreases |fns|
  {
    if fns[0] == fn {
      OccursIn(fns[1..], fn);
      AcceptedWithout(flags, entries + [fn], fns[1..], fn);
    } else if flags.unique && fns[0] in entries {
      AcceptedOnce(flags, entries, fns[1..], fn);
    } else {
      AcceptedOnce(flags, entries + [fns[0]], fns[1..], fn);
    }
  }

  /* ---------- Draining ---------- */

  /** If no further fires are issued, as many entries coming back as there are turns left end
      the firing. */
  lemma {:induction false} Drains(flags: Flags, v: View, comingBack: seq<Op>)
    requires forall op :: op in comingBack ==> op.Return?
    requires v.firing ==> |comingBack| > |v.todo| + v.Waiting() * |v.Entries()|
    ensures !Run(flags, v, comingBack).firing
    decreases |comingBack|
  {
    if comingBack == [] {
    } else {
      var w := Step(flags, v, comingBack[0]);
      assert comingBack[0] in comingBack && forall op :: op in comingBack[1..] ==> op in comingBack;
      if v.firing {
        DrainStep(flags, v, comingBack[0].returnedFalse);
      }
      Drains(flags, w, comingBack[1..]);
    }
  }

  lemma DrainStep(flags: Flags, v: View, returnedFalse: bool)
    requires v.firing
    ensures var w := Returned(flags, v, returnedFalse);
            w.firing ==> |w.todo| + w.Waiting() * |w.Entries()| < |v.todo| + v.Waiting() * |v.Entries()|
  {
    if returnedFalse && flags.stopOnFalse {
      DrainFinish(flags, v.(memory := Spent));
    } else if v.todo == [] {
      DrainFinish(flags, v);
    } else {
      assert v.past + [v.todo[0]] + v.todo[1..] == v.Entries();
    }
  }

  lemma DrainFirst(flags: Flags, next: View, waiting: nat)
    requires next.firing && next.past == [] && next.todo != [] && next.Waiting() + 1 == waiting
    ensures var w := Proceed(flags, next);
            |w.todo| + w.Waiting() * |w.Entries()| < waiting * |next.Entries()|
  {
    var w, n := Proceed(flags, next), |next.todo|;
    assert next.Entries() == next.todo && w.Entries() == next.todo;
    assert waiting * n == (waiting - 1) * n + n;
  }

  lemma {:induction false} DrainFinish(flags: Flags, v: View)
    requires v.firing
    ensures var w := Finish(flags, v);
            w.firing ==> |w.todo| + w.Waiting() * |w.Entries()| < v.Waiting() * |v.Entries()|
    decreases v.Waiting()
  {
    if !v.alive || flags.once || v.Waiting() == 0 {
    } else {
      var entries, call := v.Entries(), v.queue.value[0];
      var v' := v.(past := entries, todo := [], firing := false, queue := Some(v.queue.value[1..]));
      var next := v'.(past := [], todo := entries, current := call, firing := true,
                      memory := if flags.memory then Kept(call) else Spent);
      assert Finish(flags, v) == StartFire(flags, v', [], entries, call) == Proceed(flags, next);
      if entries == [] {
        DrainFinish(flags, next);
      } else {
        DrainFirst(flags, next, v.Waiting());
      }
    }
  }
}
