/** `when` with two or more arguments: a master Deferred that waits for all of them.

    Each argument is a plain value or the promise of a Deferred.  For a promise, `when` adds one
    handler to each of its three lists; these handlers share a counter and an array of values.
    The Deferreds are the real ones of `Deferreds`, and go on being used by everybody else. */
module Whens {
  import opened Basics
  import opened Functions
  import opened Callbacks
  import D = Deferreds
  import opened Deferreds

  datatype Input = Plain(value: Value) | Promise(index: nat)

  datatype World = World(
    deferreds: seq<Deferred>,
    inputs: seq<Input>,          // the arguments of `when`
    master: Deferred,            // bC
    counter: int,                // bw
    values: seq<Value>,          // bx
    progressValues: seq<Value>)  // bB

  /** The contexts of the master's fires: the Deferred itself, and its promise. */
  const MASTER := 1
  const MASTER_PROMISE := 2

  /** What the master is notified with is the array bB itself.  A handler is applied to what is in it
      when it gets control, so the call that is queued and remembered names the array only. */
  const SHARED := Call(MASTER_PROMISE, [])

  /** One argument stands for itself; several are collected into an array. */
  function Collect(args: seq<Value>): Value {
    if |args| > 1 then Tuple(args) else if |args| == 1 then args[0] else Undefined
  }

  /** The value that a handler keeps when it is invoked with these arguments: the one argument, or the array
      of them if there are several, or nothing if there is none. */
  predicate StandsFor(value: Value, args: seq<Value>) {
    && (args == [] ==> value == Undefined)
    && (|args| == 1 ==> value == args[0])
    && (|args| > 1 ==> value == Tuple(args))
  }

  function ResolveMaster(w: World): World {
    w.(master := D.Step(w.master, D.Settle(Resolved, Call(MASTER, w.values))))
  }

  /** The operation works on the list of the given outcome. */
  predicate OnList(op: D.Op, outcome: Outcome) {
    (op.Handle? || op.Settle? || op.Return?) && op.outcome == outcome
  }

  /** What the handlers of `when` do when the operation op invokes one of them.  `when` puts each
      kind of handler into the one list that it is meant for. */
  function React(w: World, op: D.Op, inv: Invocation): World {
    match inv.fn
    case WhenDone(i) =>
      if OnList(op, Resolved) && i < |w.values| then
        var w' := w.(values := w.values[i := Collect(inv.call.args)], counter := w.counter - 1);
        if w'.counter == 0 then ResolveMaster(w') else w'
      else w
    case WhenFail(_) =>
      if OnList(op, Rejected) then w.(master := D.Step(w.master, D.Settle(Rejected, inv.call))) else w
    case WhenProgress(i) =>
      if OnProgress(op) && i < |w.progressValues| then
        var w' := w.(progressValues := w.progressValues[i := Collect(inv.call.args)]);
        w'.(master := D.Step(w'.master, D.Notify(SHARED)))
      else w
    case _ => w
  }

  predicate OnProgress(op: D.Op) {
    op.HandleProgress? || op.Notify? || op.ReturnProgress?
  }

  function ListFor(d: Deferred, op: D.Op): View {
    if OnProgress(op) then d.progress else d.ListOf(op.outcome)
  }

  /** The invocation that an operation taking d to d' ends with, if it invokes anything. */
  function NewsIn(d: Deferred, d': Deferred, op: D.Op): Option<Invocation> {
    var log, log' := ListFor(d, op).log, ListFor(d', op).log;
    if |log| < |log'| then Some(log'[|log'| - 1]) else None
  }

  function NewsOf(d: Deferred, op: D.Op): Option<Invocation> {
    NewsIn(d, D.Step(d, op), op)
  }

  /** An operation on one of the Deferreds, and the reaction if it invokes a handler of `when`. */
  function On(w: World, k: nat, op: D.Op): World
    requires k < |w.deferreds|
  {
    var w', news := Moved(w, k, op), NewsOf(w.deferreds[k], op);
    if news.Some? then React(w', op, news.value) else w'
  }

  /** The Deferreds after an operation, before any reaction. */
  function Moved(w: World, k: nat, op: D.Op): World
    requires k < |w.deferreds|
  {
    w.(deferreds := w.deferreds[k := D.Step(w.deferreds[k], op)])
  }

  /* ---------- The call of `when` ---------- */

  /** Adds one handler.  If it is invoked at once it also comes back before `add` does. */
  function Attach(w: World, k: nat, add: D.Op, back: D.Op): World
    requires k < |w.deferreds|
  {
    var w' := On(w, k, add);
    OnFrame(w, k, add);
    if !ListFor(w.deferreds[k], add).firing && ListFor(w'.deferreds[k], add).firing then On(w', k, back) else w'
  }

  predicate InputsValid(w: World) {
    forall i :: 0 <= i < |w.inputs| && w.inputs[i].Promise? ==> w.inputs[i].index < |w.deferreds|
  }

  lemma OnFrame(w: World, k: nat, op: D.Op)
    requires k < |w.deferreds|
    ensures On(w, k, op).inputs == w.inputs && |On(w, k, op).deferreds| == |w.deferreds|
  {
  }

  lemma AttachFrame(w: World, k: nat, add: D.Op, back: D.Op)
    requires k < |w.deferreds|
    ensures Attach(w, k, add, back).inputs == w.inputs && |Attach(w, k, add, back).deferreds| == |w.deferreds|
  {
    OnFrame(w, k, add);
    OnFrame(On(w, k, add), k, back);
  }

  datatype Attachment = Attachment(add: D.Op, back: D.Op)

  /** Adds handlers one after the other. */
  function AttachAll(w: World, k: nat, adds: seq<Attachment>): (w': World)
    requires k < |w.deferreds|
    ensures w'.inputs == w.inputs && |w'.deferreds| == |w.deferreds|
    decreases |adds|
  {
    if adds == [] then w
    else
      AttachFrame(w, k, adds[0].add, adds[0].back);
      AttachAll(Attach(w, k, adds[0].add, adds[0].back), k, adds[1..])
  }

  /** What `when` adds to the promise of input i, by `then`. */
  function Attachments(i: nat): seq<Attachment> {
    [Attachment(D.Handle(Resolved, [WhenDone(i)]), D.Return(Resolved, false)),
     Attachment(D.Handle(Rejected, [WhenFail(i)]), D.Return(Rejected, false)),
     Attachment(D.HandleProgress([WhenProgress(i)]), D.ReturnProgress(false))]
  }

  /** The i-th turn of the loop: `then` on a promise, or one less to wait for. */
  function Take(w: World, i: nat): (w': World)
    requires InputsValid(w) && i < |w.inputs|
    ensures w'.inputs == w.inputs && |w'.deferreds| == |w.deferreds|
  {
    match w.inputs[i]
    case Plain(_) => w.(counter := w.counter - 1)
    case Promise(k) => AttachAll(w, k, Attachments(i))
  }

  /** The first n turns. */
  function TakeFirst(w: World, n: nat): (w': World)
    requires InputsValid(w) && n <= |w.inputs|
    ensures w'.inputs == w.inputs && |w'.deferreds| == |w.deferreds|
  {
    if n == 0 then w
    else Take(TakeFirst(w, n - 1), n - 1)
  }

  /** The world as `when` sees it when it is called. */
  function Before(deferreds: seq<Deferred>, inputs: seq<Input>): World {
    World(deferreds, inputs, New(), |inputs|,
          seq(|inputs|, i requires 0 <= i < |inputs| => if inputs[i].Plain? then inputs[i].value else Undefined),
          seq(|inputs|, _ => Undefined))
  }

  function Begin(deferreds: seq<Deferred>, inputs: seq<Input>): (w: World)
    requires InputsValid(Before(deferreds, inputs))
    ensures w.inputs == inputs && |w.deferreds| == |deferreds|
  {
    var w := TakeFirst(Before(deferreds, inputs), |inputs|);
    if w.counter == 0 then ResolveMaster(w) else w
  }

  /* ---------- Afterwards ---------- */

  /** Anything may happen to the Deferreds.  Of the master only the promise is in foreign hands, until
      it is settled: its done handlers get the master itself as their context, and may do with it
      whatever they like. */
  datatype Op = OnInput(index: nat, op: D.Op) | OnMaster(op: D.Op)

  predicate FromOutside(op: D.Op) {
    && Foreign(op)
    && (op.Handle? ==> forall fn :: fn in op.fns ==> !fn.WhenDone? && !fn.WhenFail? && !fn.WhenProgress?)
    && (op.HandleProgress? ==> forall fn :: fn in op.fns ==> !fn.WhenDone? && !fn.WhenFail? && !fn.WhenProgress?)
  }

  predicate Allowed(w: World, op: Op) {
    match op
    case OnInput(k, o) => k < |w.deferreds| && FromOutside(o)
    case OnMaster(o) => FromOutside(o) && (o.Settle? || o.Notify? ==> w.master.state.Settled?)
  }

  function Step(w: World, op: Op): World
    requires Allowed(w, op)
  {
    match op
    case OnInput(k, o) => On(w, k, o)
    case OnMaster(o) => w.(master := D.Step(w.master, o))
  }

  /* ---------- Which inputs have been dealt with ---------- */

  /** The handler of input i on the done list of its promise has been invoked. */
  predicate DoneInvoked(w: World, i: nat)
    requires InputsValid(w) && i < |w.inputs|
  {
    w.inputs[i].Promise? && Occurrences(Fns(w.deferreds[w.inputs[i].index].done.log), WhenDone(i)) > 0
  }

  predicate FailInvoked(w: World, i: nat)
    requires InputsValid(w) && i < |w.inputs|
  {
    w.inputs[i].Promise? && Occurrences(Fns(w.deferreds[w.inputs[i].index].fail.log), WhenFail(i)) > 0
  }

  /** Input i is off the list: a plain value that has been passed by, or a promise whose done
      handler has been invoked. */
  predicate Ready(w: World, passed: nat, i: nat)
    requires InputsValid(w) && i < |w.inputs|
  {
    (w.inputs[i].Plain? && i < passed) || DoneInvoked(w, i)
  }

  /** How many of the first n inputs are not. */
  function Open(w: World, passed: nat, n: nat): nat
    requires InputsValid(w) && n <= |w.inputs|
  {
    if n == 0 then 0 else Open(w, passed, n - 1) + (if Ready(w, passed, n - 1) then 0 else 1)
  }

  lemma {:induction false} OpenSame(w: World, passed: nat, w': World, passed': nat, n: nat)
    requires InputsValid(w) && InputsValid(w') && n <= |w.inputs| == |w'.inputs|
    requires forall i :: 0 <= i < n ==> (Ready(w, passed, i) <==> Ready(w', passed', i))
    ensures Open(w, passed, n) == Open(w', passed', n)
  {
    if n == 0 {
    } else {
      OpenSame(w, passed, w', passed', n - 1);
    }
  }

  lemma {:induction false} OpenOneLess(w: World, passed: nat, w': World, passed': nat, n: nat, j: nat)
    requires InputsValid(w) && InputsValid(w') && j < n <= |w.inputs| == |w'.inputs|
    requires forall i :: 0 <= i < n && i != j ==> (Ready(w, passed, i) <==> Ready(w', passed', i))
    requires !Ready(w, passed, j) && Ready(w', passed', j)
    ensures Open(w, passed, n) == Open(w', passed', n) + 1
  {
    if n - 1 == j {
      OpenSame(w, passed, w', passed', n - 1);
    } else {
      OpenOneLess(w, passed, w', passed', n - 1, j);
    }
  }

  lemma {:induction false} OpenZero(w: World, passed: nat, n: nat)
    requires InputsValid(w) && n <= |w.inputs|
    ensures Open(w, passed, n) == 0 <==> forall i :: 0 <= i < n ==> Ready(w, passed, i)
    ensures Open(w, passed, n) <= n
  {
    if n == 0 {
    } else {
      OpenZero(w, passed, n - 1);
    }
  }

  /* ---------- The invariant ---------- */

  /** What the proofs keep about the Deferreds: the handlers added to each list, and the call
      that settled each of them. */
  datatype Book = Book(done: seq<seq<Fn>>, fail: seq<seq<Fn>>, calls: seq<Call>,
                       masterDone: seq<Fn>, masterFail: seq<Fn>, masterCall: Call)

  ghost predicate Fits(w: World, b: Book) {
    && InputsValid(w) && |w.values| == |w.inputs|
    && |b.done| == |b.fail| == |b.calls| == |w.deferreds|
    && AllKept(w.deferreds, b.done, b.fail, b.calls, |w.deferreds|)
    && DeferredInv(w.master, b.masterDone, b.masterFail, b.masterCall)
  }

  /** The first n Deferreds keep their invariant. */
  ghost predicate AllKept(ds: seq<Deferred>, done: seq<seq<Fn>>, fail: seq<seq<Fn>>, calls: seq<Call>, n: nat)
    requires n <= |ds| == |done| == |fail| == |calls|
  {
    n > 0 ==> AllKept(ds, done, fail, calls, n - 1) && DeferredInv(ds[n - 1], done[n - 1], fail[n - 1], calls[n - 1])
  }

  lemma {:induction false} KeptAt(ds: seq<Deferred>, done: seq<seq<Fn>>, fail: seq<seq<Fn>>, calls: seq<Call>, n: nat,
                                  k: nat)
    requires k < n <= |ds| == |done| == |fail| == |calls| && AllKept(ds, done, fail, calls, n)
    ensures DeferredInv(ds[k], done[k], fail[k], calls[k])
  {
    if k == n - 1 {
    } else {
      KeptAt(ds, done, fail, calls, n - 1, k);
    }
  }

  lemma {:induction false} KeptOthers(ds: seq<Deferred>, done: seq<seq<Fn>>, fail: seq<seq<Fn>>, calls: seq<Call>,
      n: nat,
                                      k: nat, d: Deferred, done': seq<Fn>, fail': seq<Fn>, call: Call)
    requires n <= |ds| == |done| == |fail| == |calls| && k < |ds| && AllKept(ds, done, fail, calls, n)
    requires DeferredInv(d, done', fail', call)
    ensures AllKept(ds[k := d], done[k := done'], fail[k := fail'], calls[k := call], n)
  {
    if n == 0 {
    } else {
      KeptOthers(ds, done, fail, calls, n - 1, k, d, done', fail', call);
    }
  }

  lemma {:induction false} KeptAll(ds: seq<Deferred>, done: seq<seq<Fn>>, fail: seq<seq<Fn>>, calls: seq<Call>, n: nat)
    requires n <= |ds| == |done| == |fail| == |calls|
    requires forall k :: 0 <= k < |ds| ==> DeferredInv(ds[k], done[k], fail[k], calls[k])
    ensures AllKept(ds, done, fail, calls, n)
  {
    if n == 0 {
    } else {
      KeptAll(ds, done, fail, calls, n - 1);
    }
  }

  lemma KeptOne(w: World, b: Book, k: nat)
    requires Fits(w, b) && k < |w.deferreds|
    ensures DeferredInv(w.deferreds[k], b.done[k], b.fail[k], b.calls[k])
  {
    KeptAt(w.deferreds, b.done, b.fail, b.calls, |w.deferreds|, k);
  }

  /** The handlers of the first onDone (onFail) inputs sit where they belong, once each. */
  ghost predicate Attached(inputs: seq<Input>, done: seq<seq<Fn>>, fail: seq<seq<Fn>>, onDone: nat, onFail: nat)
    requires |done| == |fail|
  {
    forall k, i :: 0 <= k < |done| && 0 <= i ==>
      && Occurrences(done[k], WhenDone(i)) == Wanted(inputs, k, i, onDone)
      && Occurrences(fail[k], WhenFail(i)) == Wanted(inputs, k, i, onFail)
  }

  /** How often the handler of input i should be on a list of the k-th Deferred when those of the first
      upTo inputs have been added. */
  function Wanted(inputs: seq<Input>, k: nat, i: nat, upTo: nat): nat {
    if i < upTo && i < |inputs| && inputs[i] == Promise(k) then 1 else 0
  }

  ghost predicate ValuesPlaced(w: World, b: Book)
    requires Fits(w, b)
  {
    forall i :: 0 <= i < |w.inputs| ==>
      && (w.inputs[i].Plain? ==> w.values[i] == w.inputs[i].value)
      && (DoneInvoked(w, i) ==> w.values[i] == Collect(b.calls[w.inputs[i].index].args))
  }

  ghost predicate AnyFailed(w: World)
    requires InputsValid(w)
  {
    exists i :: 0 <= i < |w.inputs| && FailInvoked(w, i)
  }

  /** One of the inputs that have passed on their rejection was rejected with this call. */
  ghost predicate Blamed(w: World, calls: seq<Call>, call: Call)
    requires InputsValid(w) && |calls| == |w.deferreds|
  {
    exists i :: 0 <= i < |w.inputs| && FailInvoked(w, i) && calls[w.inputs[i].index] == call
  }

  /** When there is nothing left to wait for, the master has been resolved. */
  predicate Complete(w: World) {
    w.counter == 0 ==> w.master.state == Settled(Resolved)
  }

  ghost predicate Good(w: World, b: Book, onDone: nat, onFail: nat, passed: nat) {
    && Fits(w, b) && Attached(w.inputs, b.done, b.fail, onDone, onFail) && ValuesPlaced(w, b)
    && w.counter == Open(w, passed, |w.inputs|)
    && (w.master.state == Settled(Resolved) ==> w.counter == 0 && b.masterCall == Call(MASTER, w.values))
    && (w.master.state == Settled(Rejected) <==> AnyFailed(w))
    && (w.master.state == Settled(Rejected) ==> Blamed(w, b.calls, b.masterCall))
  }

  /** The lists of a Deferred against the handlers added to them. */
  lemma InvokedWhenSettled(d: Deferred, done: seq<Fn>, fail: seq<Fn>, call: Call, fn: Fn)
    requires DeferredInv(d, done, fail, call) && !IsWiring(fn)
    ensures Occurrences(Fns(d.done.log), fn) <= Occurrences(done, fn)
    ensures Occurrences(Fns(d.fail.log), fn) <= Occurrences(fail, fn)
    ensures Occurrences(Fns(d.done.log), fn) > 0 ==> d.state == Settled(Resolved)
    ensures Occurrences(Fns(d.fail.log), fn) > 0 ==> d.state == Settled(Rejected)
    ensures d.state == Settled(Resolved) && !d.done.firing ==> Occurrences(Fns(d.done.log), fn) == Occurrences(done, fn)
    ensures d.state == Settled(Rejected) && !d.fail.firing ==> Occurrences(Fns(d.fail.log), fn) == Occurrences(fail, fn)
  {
    match d.state
    case Pending =>
    case Settled(Resolved) => FiredOccurrences(d.done, Resolved, done, call, fn);
    case Settled(Rejected) => FiredOccurrences(d.fail, Rejected, fail, call, fn);
  }

  lemma FiredOccurrences(v: View, outcome: Outcome, handlers: seq<Fn>, call: Call, fn: Fn)
    requires FiredWith(v, outcome, handlers, call) && !IsWiring(fn)
    ensures Occurrences(Fns(v.log), fn) + Occurrences(v.todo, fn) == Occurrences(handlers, fn)
  {
    OccurrencesAppend(Fns(v.log), v.todo, fn);
    OccurrencesAppend(Wiring(outcome), handlers, fn);
    OccursIn(Wiring(outcome), fn);
  }

  /** Once an input has failed the counter cannot reach zero any more. */
  lemma FailedStaysOpen(w: World, b: Book, passed: nat)
    requires Fits(w, b) && AnyFailed(w)
    ensures Open(w, passed, |w.inputs|) > 0
  {
    var i :| 0 <= i < |w.inputs| && FailInvoked(w, i);
    var k := w.inputs[i].index;
    KeptOne(w, b, k);
    InvokedWhenSettled(w.deferreds[k], b.done[k], b.fail[k], b.calls[k], WhenFail(i));
    InvokedWhenSettled(w.deferreds[k], b.done[k], b.fail[k], b.calls[k], WhenDone(i));
    assert !Ready(w, passed, i);
    OpenZero(w, passed, |w.inputs|);
  }

  /* ---------- One operation on an input ---------- */

  function Booked(w: World, b: Book, k: nat, op: D.Op): Book
    requires k < |w.deferreds| == |b.done| == |b.fail| == |b.calls|
  {
    b.(done := b.done[k := b.done[k] + AddedFor(op, Resolved)],
       fail := b.fail[k := b.fail[k] + AddedFor(op, Rejected)],
       calls := b.calls[k := if w.deferreds[k].state.Pending? && op.Settle? then op.call else b.calls[k]])
  }

  lemma MovedFits(w: World, b: Book, k: nat, op: D.Op)
    requires Fits(w, b) && k < |w.deferreds| && Foreign(op)
    ensures Fits(Moved(w, k, op), Booked(w, b, k, op))
  {
    KeptOne(w, b, k);
    DeferredStep(w.deferreds[k], b.done[k], b.fail[k], b.calls[k], op);
    KeptOthers(w.deferreds, b.done, b.fail, b.calls, |w.deferreds|, k, D.Step(w.deferreds[k], op),
               b.done[k] + AddedFor(op, Resolved), b.fail[k] + AddedFor(op, Rejected),
               if w.deferreds[k].state.Pending? && op.Settle? then op.call else b.calls[k]);
  }

  /** The operation invokes fn from the list of the given outcome. */
  predicate Invokes(d: Deferred, op: D.Op, outcome: Outcome, fn: Fn) {
    OnList(op, outcome) && NewsOf(d, op).Some? && NewsOf(d, op).value.fn == fn
  }

  function HandlersAfter(done: seq<Fn>, fail: seq<Fn>, op: D.Op, outcome: Outcome): seq<Fn> {
    if outcome.Resolved? then done + AddedFor(op, Resolved) else fail + AddedFor(op, Rejected)
  }

  lemma InvokedCount(d: Deferred, done: seq<Fn>, fail: seq<Fn>, call: Call, op: D.Op, outcome: Outcome, fn: Fn)
    requires DeferredInv(d, done, fail, call) && Foreign(op) && !IsWiring(fn)
    ensures Occurrences(Fns(D.Step(d, op).ListOf(outcome).log), fn)
         == Occurrences(Fns(d.ListOf(outcome).log), fn) + (if Invokes(d, op, outcome, fn) then 1 else 0)
  {
    if OnProgress(op) {
      ProgressOnly(d, op);
    } else {
      InvokedCountOn(d, done, fail, call, op, outcome, fn, D.Step(d, op));
    }
  }

  lemma InvokedCountOn(d: Deferred, done: seq<Fn>, fail: seq<Fn>, call: Call, op: D.Op, outcome: Outcome, fn: Fn,
                       d': Deferred)
    requires DeferredInv(d, done, fail, call) && Foreign(op) && !IsWiring(fn) && !OnProgress(op) && d' == D.Step(d, op)
    ensures Occurrences(Fns(d'.ListOf(outcome).log), fn)
         == Occurrences(Fns(d.ListOf(outcome).log), fn)
            + (if OnList(op, outcome) && NewsIn(d, d', op).Some? && NewsIn(d, d', op).value.fn == fn then 1 else 0)
  {
    AtMostOneInvoked(d, done, fail, call, op, fn);
    CountFrom(d, d', op, outcome, fn);
  }

  lemma ProgressOnly(d: Deferred, op: D.Op)
    requires OnProgress(op)
    ensures D.Step(d, op).done == d.done && D.Step(d, op).fail == d.fail
  {
  }

  lemma CountFrom(d: Deferred, d': Deferred, op: D.Op, outcome: Outcome, fn: Fn)
    requires !OnProgress(op)
    requires var log, log' := d.ListOf(op.outcome).log, d'.ListOf(op.outcome).log;
             && |log| <= |log'|
             && Occurrences(Fns(log'), fn)
                == Occurrences(Fns(log), fn) + (if |log| < |log'| && log'[|log'| - 1].fn == fn then 1 else 0)
             && d'.ListOf(Other(op.outcome)).log == d.ListOf(Other(op.outcome)).log
    ensures var news := NewsIn(d, d', op);
            Occurrences(Fns(d'.ListOf(outcome).log), fn)
            == Occurrences(Fns(d.ListOf(outcome).log), fn)
               + (if OnList(op, outcome) && news.Some? && news.value.fn == fn then 1 else 0)
  {
  }

  /** A handler that was added to one list once is invoked by an operation only if it had not
      been invoked before. */
  lemma InvokedOnce(d: Deferred, done: seq<Fn>, fail: seq<Fn>, call: Call, op: D.Op, outcome: Outcome, fn: Fn)
    requires DeferredInv(d, done, fail, call) && Foreign(op) && !IsWiring(fn)
    ensures Invokes(d, op, outcome, fn) ==> Occurrences(HandlersAfter(done, fail, op, outcome), fn) > 0
    ensures Invokes(d, op, outcome, fn) && Occurrences(HandlersAfter(done, fail, op, outcome), fn) <= 1 ==>
              Occurrences(Fns(d.ListOf(outcome).log), fn) == 0
  {
    var d' := D.Step(d, op);
    InvokedCount(d, done, fail, call, op, outcome, fn);
    DeferredStep(d, done, fail, call, op);
    InvokedWhenSettled(d', HandlersAfter(done, fail, op, Resolved), HandlersAfter(done, fail, op, Rejected),
                       if d.state.Pending? && op.Settle? then op.call else call, fn);
  }

  /** It is invoked with the call that settled the Deferred. */
  lemma InvokedWithCall(d: Deferred, done: seq<Fn>, fail: seq<Fn>, call: Call, op: D.Op, outcome: Outcome, fn: Fn)
    requires DeferredInv(d, done, fail, call) && Foreign(op) && !IsWiring(fn)
    requires Invokes(d, op, outcome, fn)
    ensures NewsOf(d, op).value.call == if d.state.Pending? && op.Settle? then op.call else call
  {
    DeferredStep(d, done, fail, call, op);
  }

  /** The handlers of `when` that have been invoked after the operation are those invoked before
      it and the one that the operation invokes, which had not been invoked before. */
  lemma DoneInvokedBy(w: World, k: nat, op: D.Op, i: nat, done: seq<Fn>, fail: seq<Fn>, call: Call)
    requires InputsValid(w) && k < |w.deferreds| && Foreign(op) && i < |w.inputs|
    requires DeferredInv(w.deferreds[k], done, fail, call)
    requires Occurrences(HandlersAfter(done, fail, op, Resolved), WhenDone(i))
          <= if w.inputs[i] == Promise(k) then 1 else 0
    ensures Invokes(w.deferreds[k], op, Resolved, WhenDone(i)) ==> w.inputs[i] == Promise(k) && !DoneInvoked(w, i)
    ensures DoneInvoked(Moved(w, k, op), i)
       <==> DoneInvoked(w, i) || Invokes(w.deferreds[k], op, Resolved, WhenDone(i))
  {
    InvokedCount(w.deferreds[k], done, fail, call, op, Resolved, WhenDone(i));
    InvokedOnce(w.deferreds[k], done, fail, call, op, Resolved, WhenDone(i));
  }

  lemma FailInvokedBy(w: World, k: nat, op: D.Op, i: nat, done: seq<Fn>, fail: seq<Fn>, call: Call)
    requires InputsValid(w) && k < |w.deferreds| && Foreign(op) && i < |w.inputs|
    requires DeferredInv(w.deferreds[k], done, fail, call)
    requires Occurrences(HandlersAfter(done, fail, op, Rejected), WhenFail(i))
          <= if w.inputs[i] == Promise(k) then 1 else 0
    ensures Invokes(w.deferreds[k], op, Rejected, WhenFail(i)) ==> w.inputs[i] == Promise(k)
    ensures FailInvoked(Moved(w, k, op), i)
       <==> FailInvoked(w, i) || Invokes(w.deferreds[k], op, Rejected, WhenFail(i))
  {
    InvokedCount(w.deferreds[k], done, fail, call, op, Rejected, WhenFail(i));
    InvokedOnce(w.deferreds[k], done, fail, call, op, Rejected, WhenFail(i));
  }

  /* ---------- The reaction ---------- */

  predicate Hits(news: Option<Invocation>, op: D.Op, outcome: Outcome, fn: Fn) {
    OnList(op, outcome) && news.Some? && news.value.fn == fn
  }

  /** The world w1 between an operation on input k of w and the reaction to its news. */
  ghost predicate Between(w: World, w1: World, b: Book, k: nat, op: D.Op, news: Option<Invocation>,
                          onDone: nat, onFail: nat, passed: nat)
  {
    && InputsValid(w) && Fits(w1, b) && Attached(w1.inputs, b.done, b.fail, onDone, onFail) && k < |w1.deferreds|
    && w1 == w.(deferreds := w1.deferreds)
    && w.counter == Open(w, passed, |w.inputs|)
    && (forall i :: 0 <= i < |w.inputs| ==>
          && (DoneInvoked(w1, i) <==> DoneInvoked(w, i) || Hits(news, op, Resolved, WhenDone(i)))
          && (FailInvoked(w1, i) <==> FailInvoked(w, i) || Hits(news, op, Rejected, WhenFail(i)))
          && (w.inputs[i].Plain? ==> w.values[i] == w.inputs[i].value)
          && (DoneInvoked(w, i) ==> w.values[i] == Collect(b.calls[w.inputs[i].index].args)))
    && (w.master.state == Settled(Resolved) ==> w.counter == 0 && b.masterCall == Call(MASTER, w.values))
    && (w.master.state == Settled(Rejected) <==> AnyFailed(w))
    && (w.master.state == Settled(Rejected) ==> Blamed(w1, b.calls, b.masterCall))
  }

  lemma SameOpen(w: World, w1: World, passed: nat)
    requires InputsValid(w) && InputsValid(w1) && w1.inputs == w.inputs
    requires forall i :: 0 <= i < |w.inputs| ==> (DoneInvoked(w1, i) <==> DoneInvoked(w, i))
    ensures Open(w1, passed, |w.inputs|) == Open(w, passed, |w.inputs|)
  {
    forall i | 0 <= i < |w.inputs|
      ensures Ready(w, passed, i) <==> Ready(w1, passed, i)
    {
    }
    OpenSame(w, passed, w1, passed, |w.inputs|);
  }

  /** Nothing that concerns the outcome: at most a notification of the master. */
  lemma OtherReacts(w: World, w1: World, b: Book, k: nat, op: D.Op, news: Option<Invocation>,
                    onDone: nat, onFail: nat, passed: nat)
    requires Between(w, w1, b, k, op, news, onDone, onFail, passed)
    requires forall i: nat :: !Hits(news, op, Resolved, WhenDone(i)) && !Hits(news, op, Rejected, WhenFail(i))
    ensures var w2 := if news.Some? then React(w1, op, news.value) else w1;
            Good(w2, b, onDone, onFail, passed) && w2.counter == w.counter && w2.master.state == w.master.state
  {
    SameOpen(w, w1, passed);
    assert AnyFailed(w1) <==> AnyFailed(w);
    assert Good(w1, b, onDone, onFail, passed);
    if news.Some? {
      var w2 := React(w1, op, news.value);
      if news.value.fn.WhenProgress? && OnProgress(op) && news.value.fn.index < |w1.progressValues| {
        var i := news.value.fn.index;
        var values := w1.progressValues[i := Collect(news.value.call.args)];
        var notify := D.Notify(SHARED);
        assert w2 == w1.(progressValues := values, master := D.Step(w1.master, notify));
        SameButMaster(w1, b, w2, b, onDone, onFail, passed, notify);
      } else {
        assert w2 == w1 by {
          if news.value.fn.WhenDone? {
            assert !Hits(news, op, Resolved, WhenDone(news.value.fn.index));
          }
          if news.value.fn.WhenFail? {
            assert !Hits(news, op, Rejected, WhenFail(news.value.fn.index));
          }
        }
      }
    }
  }

  /** An operation on the master that does not settle it, or comes when it is settled. */
  lemma SameButMaster(w: World, b: Book, w': World, b': Book, onDone: nat, onFail: nat, passed: nat, op: D.Op)
    requires Good(w, b, onDone, onFail, passed) && Foreign(op) && (op.Settle? ==> w.master.state.Settled?)
    requires w' == w.(progressValues := w'.progressValues, master := D.Step(w.master, op))
    requires b' == b.(masterDone := b.masterDone + AddedFor(op, Resolved),
             masterFail := b.masterFail + AddedFor(op, Rejected))
             || (b' == b && op.Notify?)
    ensures Good(w', b', onDone, onFail, passed) && w'.master.state == w.master.state
  {
    MasterStays(w.master, b.masterDone, b.masterFail, b.masterCall, op);
    MasterOnly(w, b, w', b', onDone, onFail, passed);
  }

  lemma MasterStays(d: Deferred, done: seq<Fn>, fail: seq<Fn>, call: Call, op: D.Op)
    requires DeferredInv(d, done, fail, call) && Foreign(op) && (op.Settle? ==> d.state.Settled?)
    ensures DeferredInv(D.Step(d, op), done + AddedFor(op, Resolved), fail + AddedFor(op, Rejected), call)
    ensures op.Notify? ==> DeferredInv(D.Step(d, op), done, fail, call)
    ensures D.Step(d, op).state == d.state
  {
    DeferredStep(d, done, fail, call, op);
    assert done + [] == done && fail + [] == fail;
  }

  /** Changing the master only leaves everything about the inputs as it is. */
  lemma MasterOnly(w: World, b: Book, w': World, b': Book, onDone: nat, onFail: nat, passed: nat)
    requires Fits(w, b) && Attached(w.inputs, b.done, b.fail, onDone, onFail) && ValuesPlaced(w, b)
    requires w' == w.(progressValues := w'.progressValues, master := w'.master)
    requires b' == b.(masterDone := b'.masterDone, masterFail := b'.masterFail, masterCall := b'.masterCall)
    requires DeferredInv(w'.master, b'.masterDone, b'.masterFail, b'.masterCall)
    ensures Fits(w', b') && Attached(w'.inputs, b'.done, b'.fail, onDone, onFail) && ValuesPlaced(w', b')
    ensures Open(w', passed, |w.inputs|) == Open(w, passed, |w.inputs|)
    ensures AnyFailed(w') <==> AnyFailed(w)
    ensures forall call :: Blamed(w, b.calls, call) ==> Blamed(w', b'.calls, call)
  {
    SameOpen(w, w', passed);
    assert forall i :: 0 <= i < |w.inputs| ==>
                         (FailInvoked(w', i) <==> FailInvoked(w, i)) && (DoneInvoked(w', i) <==> DoneInvoked(w, i));
    SameBlame(w, w', b.calls);
  }

  /** The world is good but for the master, which has still to be settled. */
  ghost predicate Unsettled(w: World, b: Book, onDone: nat, onFail: nat, passed: nat) {
    && Fits(w, b) && Attached(w.inputs, b.done, b.fail, onDone, onFail) && ValuesPlaced(w, b)
    && w.counter == Open(w, passed, |w.inputs|)
  }

  lemma MasterSettles(d: Deferred, done: seq<Fn>, fail: seq<Fn>, call: Call, outcome: Outcome, call': Call)
    requires DeferredInv(d, done, fail, call)
    ensures var d' := D.Step(d, D.Settle(outcome, call'));
            && DeferredInv(d', done, fail, if d.state.Pending? then call' else call)
            && d'.state == if d.state.Pending? then Settled(outcome) else d.state
  {
    DeferredStep(d, done, fail, call, D.Settle(outcome, call'));
    assert done + [] == done && fail + [] == fail;
  }

  lemma MasterSettled(w: World, b: Book, w': World, b': Book, onDone: nat, onFail: nat, passed: nat, outcome: Outcome)
    requires Unsettled(w, b, onDone, onFail, passed)
    requires w' == w.(master := w'.master) && b' == b.(masterCall := b'.masterCall)
    requires DeferredInv(w'.master, b'.masterDone, b'.masterFail, b'.masterCall) && w'.master.state == Settled(outcome)
    requires if outcome.Rejected? then AnyFailed(w) && Blamed(w, b.calls, b'.masterCall)
             else w.counter == 0 && b'.masterCall == Call(MASTER, w.values) && !AnyFailed(w)
    ensures Good(w', b', onDone, onFail, passed)
  {
    MasterOnly(w, b, w', b', onDone, onFail, passed);
  }

  /** The outcome is the one that the inputs call for, and no other has been settled on. */
  lemma OutcomeFits(w: World, b: Book, onDone: nat, onFail: nat, passed: nat, outcome: Outcome)
    requires Unsettled(w, b, onDone, onFail, passed)
    requires if outcome.Resolved? then w.counter == 0 else AnyFailed(w)
    requires w.master.state == Settled(Resolved) ==> w.counter == 0
    requires w.master.state == Settled(Rejected) ==> AnyFailed(w)
    ensures outcome.Rejected? <==> AnyFailed(w)
    ensures w.master.state.Pending? || w.master.state == Settled(outcome)
  {
    if AnyFailed(w) {
      FailedStaysOpen(w, b, passed);
    }
  }

  lemma SettleMaster(w: World, b: Book, onDone: nat, onFail: nat, passed: nat, outcome: Outcome, call: Call)
      returns (b': Book)
    requires Unsettled(w, b, onDone, onFail, passed)
    requires outcome.Resolved? ==> w.counter == 0 && call == Call(MASTER, w.values)
    requires w.master.state == Settled(Resolved) ==> w.counter == 0 && b.masterCall == Call(MASTER, w.values)
    requires w.master.state == Settled(Rejected) ==> AnyFailed(w) && Blamed(w, b.calls, b.masterCall)
    requires outcome.Rejected? ==> AnyFailed(w) && Blamed(w, b.calls, call)
    ensures Good(w.(master := D.Step(w.master, D.Settle(outcome, call))), b', onDone, onFail, passed)
    ensures D.Step(w.master, D.Settle(outcome, call)).state == Settled(outcome)
  {
    OutcomeFits(w, b, onDone, onFail, passed, outcome);
    MasterSettles(w.master, b.masterDone, b.masterFail, b.masterCall, outcome, call);
    b' := b.(masterCall := if w.master.state.Pending? then call else b.masterCall);
    var w' := w.(master := D.Step(w.master, D.Settle(outcome, call)));
    MasterSettled(w, b, w', b', onDone, onFail, passed, outcome);
  }

  function Counted(w: World, j: nat, inv: Invocation): World
    requires j < |w.values|
  {
    w.(values := w.values[j := Collect(inv.call.args)], counter := w.counter - 1)
  }

  /** The done handler of input j has been invoked: its value is put in place and there is one
      input less to wait for. */
  lemma DoneCounts(w: World, w1: World, b: Book, k: nat, op: D.Op, inv: Invocation, j: nat,
                   onDone: nat, onFail: nat, passed: nat)
    requires Between(w, w1, b, k, op, Some(inv), onDone, onFail, passed)
    requires Hits(Some(inv), op, Resolved, WhenDone(j))
    requires j < |w.inputs| && w.inputs[j] == Promise(k) && !DoneInvoked(w, j) && inv.call == b.calls[k]
    ensures var w2 := Counted(w1, j, inv);
            && Unsettled(w2, b, onDone, onFail, passed) && w.counter > 0 && (AnyFailed(w2) <==> AnyFailed(w))
            && forall call :: Blamed(w1, b.calls, call) ==> Blamed(w2, b.calls, call)
  {
    var w2 := Counted(w1, j, inv);
    assert forall i :: 0 <= i < |w.inputs| && i != j ==> (DoneInvoked(w1, i) <==> DoneInvoked(w, i));
    DoneOpens(w, w2, passed, j);
    assert forall i :: 0 <= i < |w.inputs| ==> (FailInvoked(w2, i) <==> FailInvoked(w, i));
    SameBlame(w1, w2, b.calls);
    forall i | 0 <= i < |w.inputs|
      ensures w.inputs[i].Plain? ==> w2.values[i] == w.inputs[i].value
      ensures DoneInvoked(w2, i) ==> w2.values[i] == Collect(b.calls[w.inputs[i].index].args)
    {
      assert DoneInvoked(w2, i) <==> DoneInvoked(w1, i);
      assert i != j && DoneInvoked(w1, i) ==> DoneInvoked(w, i);
    }
  }

  lemma SameBlame(w: World, w': World, calls: seq<Call>)
    requires InputsValid(w) && w'.inputs == w.inputs && w'.deferreds == w.deferreds && |calls| == |w.deferreds|
    ensures forall call :: Blamed(w, calls, call) ==> Blamed(w', calls, call)
  {
    forall call | Blamed(w, calls, call)
      ensures Blamed(w', calls, call)
    {
      var i :| 0 <= i < |w.inputs| && FailInvoked(w, i) && calls[w.inputs[i].index] == call;
      assert FailInvoked(w', i);
    }
  }

  lemma DoneOpens(w: World, w': World, passed: nat, j: nat)
    requires InputsValid(w) && InputsValid(w') && w'.inputs == w.inputs && j < |w.inputs| && w.inputs[j].Promise?
    requires forall i :: 0 <= i < |w.inputs| && i != j ==> (DoneInvoked(w', i) <==> DoneInvoked(w, i))
    requires !DoneInvoked(w, j) && DoneInvoked(w', j)
    ensures Open(w, passed, |w.inputs|) == Open(w', passed, |w.inputs|) + 1
  {
    forall i | 0 <= i < |w.inputs| && i != j
      ensures Ready(w, passed, i) <==> Ready(w', passed, i)
    {
      assert DoneInvoked(w', i) <==> DoneInvoked(w, i);
    }
    OpenOneLess(w, passed, w', passed, |w.inputs|, j);
  }

  lemma DoneReacts(w: World, w1: World, b: Book, k: nat, op: D.Op, inv: Invocation, j: nat,
                   onDone: nat, onFail: nat, passed: nat) returns (b': Book)
    requires Between(w, w1, b, k, op, Some(inv), onDone, onFail, passed)
    requires Hits(Some(inv), op, Resolved, WhenDone(j))
    requires j < |w.inputs| && w.inputs[j] == Promise(k) && !DoneInvoked(w, j) && inv.call == b.calls[k]
    ensures Good(React(w1, op, inv), b', onDone, onFail, passed) && Complete(React(w1, op, inv))
  {
    DoneCounts(w, w1, b, k, op, inv, j, onDone, onFail, passed);
    var w2 := Counted(w1, j, inv);
    b' := b;
    assert w2.master.state != Settled(Resolved);
    assert React(w1, op, inv) == if w2.counter == 0 then ResolveMaster(w2) else w2;
    if w2.counter == 0 {
      b' := SettleMaster(w2, b, onDone, onFail, passed, Resolved, Call(MASTER, w2.values));
    }
  }

  /** The fail handler of input j has been invoked: the master is rejected, if it was pending. */
  lemma FailReacts(w: World, w1: World, b: Book, k: nat, op: D.Op, inv: Invocation, j: nat,
                   onDone: nat, onFail: nat, passed: nat) returns (b': Book)
    requires Between(w, w1, b, k, op, Some(inv), onDone, onFail, passed)
    requires Hits(Some(inv), op, Rejected, WhenFail(j))
    requires j < |w.inputs| && w.inputs[j] == Promise(k) && inv.call == b.calls[k]
    ensures Good(React(w1, op, inv), b', onDone, onFail, passed)
    ensures React(w1, op, inv).master.state == Settled(Rejected)
  {
    SameOpen(w, w1, passed);
    assert FailInvoked(w1, j);
    assert Unsettled(w1, b, onDone, onFail, passed);
    assert React(w1, op, inv) == w1.(master := D.Step(w1.master, D.Settle(Rejected, inv.call)));
    b' := SettleMaster(w1, b, onDone, onFail, passed, Rejected, inv.call);
  }

  /* ---------- Every operation keeps the invariant ---------- */

  predicate Ordinary(op: D.Op) {
    Foreign(op) && (op.Handle? ==> forall fn :: fn in op.fns ==> !fn.WhenDone? && !fn.WhenFail?)
  }

  /** The operation is one from outside, or the next one that `when` itself performs. */
  ghost predicate Next(w: World, k: nat, op: D.Op, onDone: nat, onFail: nat, onDone': nat, onFail': nat) {
    || (Ordinary(op) && onDone' == onDone && onFail' == onFail)
    || (op == D.Handle(Resolved, [WhenDone(onDone)]) && onDone < |w.inputs| && w.inputs[onDone] == Promise(k)
        && onDone' == onDone + 1 && onFail' == onFail)
    || (op == D.Handle(Rejected, [WhenFail(onFail)]) && onFail < |w.inputs| && w.inputs[onFail] == Promise(k)
        && onDone' == onDone && onFail' == onFail + 1)
  }

  lemma NextForeign(w: World, k: nat, op: D.Op, onDone: nat, onFail: nat, onDone': nat, onFail': nat)
    requires Next(w, k, op, onDone, onFail, onDone', onFail')
    ensures Foreign(op)
  {
  }

  /** What an operation adds for one outcome, counted. */
  lemma AddedCount(w: World, k: nat, op: D.Op, onDone: nat, onFail: nat, onDone': nat, onFail': nat, i: nat)
    requires Next(w, k, op, onDone, onFail, onDone', onFail')
    ensures Occurrences(AddedFor(op, Resolved), WhenDone(i)) == if onDone' > onDone && i == onDone then 1 else 0
    ensures Occurrences(AddedFor(op, Rejected), WhenFail(i)) == if onFail' > onFail && i == onFail then 1 else 0
  {
    OccursIn(AddedFor(op, Resolved), WhenDone(i));
    OccursIn(AddedFor(op, Rejected), WhenFail(i));
    if op.Handle? && |op.fns| == 1 {
      assert op.fns[1..] == [];
    }
  }

  lemma AttachedAfter(w: World, b: Book, k: nat, op: D.Op, onDone: nat, onFail: nat, onDone': nat, onFail': nat)
    requires |b.done| == |b.fail| == |b.calls| == |w.deferreds| && k < |w.deferreds|
    requires Attached(w.inputs, b.done, b.fail, onDone, onFail)
    requires Next(w, k, op, onDone, onFail, onDone', onFail')
    ensures Attached(w.inputs, Booked(w, b, k, op).done, Booked(w, b, k, op).fail, onDone', onFail')
  {
    var b' := Booked(w, b, k, op);
    forall k', i | 0 <= k' < |w.deferreds| && 0 <= i
      ensures Occurrences(b'.done[k'], WhenDone(i)) == Wanted(w.inputs, k', i, onDone')
      ensures Occurrences(b'.fail[k'], WhenFail(i)) == Wanted(w.inputs, k', i, onFail')
    {
      assert Occurrences(b.done[k'], WhenDone(i)) == Wanted(w.inputs, k', i, onDone);
      assert Occurrences(b.fail[k'], WhenFail(i)) == Wanted(w.inputs, k', i, onFail);
      AttachedOne(w, b.done[k'], b.fail[k'], k, op, onDone, onFail, onDone', onFail', k', i);
    }
  }

  lemma AttachedOne(w: World, done: seq<Fn>, fail: seq<Fn>, k: nat, op: D.Op, onDone: nat, onFail: nat,
                    onDone': nat, onFail': nat, k': nat, i: nat)
    requires Occurrences(done, WhenDone(i)) == Wanted(w.inputs, k', i, onDone)
    requires Occurrences(fail, WhenFail(i)) == Wanted(w.inputs, k', i, onFail)
    requires Next(w, k, op, onDone, onFail, onDone', onFail')
    ensures Occurrences(if k' == k then done + AddedFor(op, Resolved) else done, WhenDone(i))
         == Wanted(w.inputs, k', i, onDone')
    ensures Occurrences(if k' == k then fail + AddedFor(op, Rejected) else fail, WhenFail(i))
         == Wanted(w.inputs, k', i, onFail')
  {
    AddedCount(w, k, op, onDone, onFail, onDone', onFail', i);
    OccurrencesAppend(done, AddedFor(op, Resolved), WhenDone(i));
    OccurrencesAppend(fail, AddedFor(op, Rejected), WhenFail(i));
  }

  /** One input across the operation. */
  lemma MovedInput(w: World, b: Book, k: nat, op: D.Op, onDone: nat, onFail: nat, i: nat)
    requires Fits(w, b) && k < |w.deferreds| && Foreign(op) && i < |w.inputs|
    requires Fits(Moved(w, k, op), Booked(w, b, k, op))
             && Attached(w.inputs, Booked(w, b, k, op).done, Booked(w, b, k, op).fail, onDone, onFail)
    ensures DoneInvoked(Moved(w, k, op), i)
       <==> DoneInvoked(w, i) || Invokes(w.deferreds[k], op, Resolved, WhenDone(i))
    ensures FailInvoked(Moved(w, k, op), i)
       <==> FailInvoked(w, i) || Invokes(w.deferreds[k], op, Rejected, WhenFail(i))
    ensures Invokes(w.deferreds[k], op, Resolved, WhenDone(i)) ==> w.inputs[i] == Promise(k) && !DoneInvoked(w, i)
    ensures Invokes(w.deferreds[k], op, Rejected, WhenFail(i)) ==> w.inputs[i] == Promise(k)
  {
    var b' := Booked(w, b, k, op);
    assert HandlersAfter(b.done[k], b.fail[k], op, Resolved) == b'.done[k];
    assert HandlersAfter(b.done[k], b.fail[k], op, Rejected) == b'.fail[k];
    KeptOne(w, b, k);
    DoneInvokedBy(w, k, op, i, b.done[k], b.fail[k], b.calls[k]);
    FailInvokedBy(w, k, op, i, b.done[k], b.fail[k], b.calls[k]);
  }

  /** A value that has been put in place belongs to a Deferred whose call is settled for good. */
  lemma ValueStays(w: World, b: Book, k: nat, op: D.Op, i: nat)
    requires Fits(w, b) && k < |w.deferreds| && i < |w.inputs| && (DoneInvoked(w, i) || FailInvoked(w, i))
    ensures Booked(w, b, k, op).calls[w.inputs[i].index] == b.calls[w.inputs[i].index]
  {
    var index := w.inputs[i].index;
    KeptOne(w, b, index);
    InvokedWhenSettled(w.deferreds[index], b.done[index], b.fail[index], b.calls[index], WhenDone(i));
    InvokedWhenSettled(w.deferreds[index], b.done[index], b.fail[index], b.calls[index], WhenFail(i));
  }

  /** The world between the operation and the reaction. */
  lemma MovedBetween(w: World, b: Book, k: nat, op: D.Op, onDone: nat, onFail: nat, passed: nat,
                     onDone': nat, onFail': nat)
    requires Good(w, b, onDone, onFail, passed) && k < |w.deferreds|
    requires Next(w, k, op, onDone, onFail, onDone', onFail')
    ensures Between(w, Moved(w, k, op), Booked(w, b, k, op), k, op, NewsOf(w.deferreds[k], op), onDone', onFail',
            passed)
    ensures forall j :: 0 <= j < |w.inputs| && Invokes(w.deferreds[k], op, Resolved, WhenDone(j)) ==>
                          w.inputs[j] == Promise(k) && !DoneInvoked(w, j)
    ensures forall j :: 0 <= j < |w.inputs| && Invokes(w.deferreds[k], op, Rejected, WhenFail(j)) ==>
                          w.inputs[j] == Promise(k)
  {
    NextForeign(w, k, op, onDone, onFail, onDone', onFail');
    MovedFits(w, b, k, op);
    AttachedAfter(w, b, k, op, onDone, onFail, onDone', onFail');
    BetweenFrom(w, b, Moved(w, k, op), Booked(w, b, k, op), k, op, NewsOf(w.deferreds[k], op), onDone, onFail, passed,
                onDone', onFail') by {
      forall i | 0 <= i < |w.inputs|
        ensures MovedWell(w, b.calls, Moved(w, k, op), Booked(w, b, k, op).calls, op, NewsOf(w.deferreds[k], op), k, i)
      {
        MovedInput(w, b, k, op, onDone', onFail', i);
        if DoneInvoked(w, i) || FailInvoked(w, i) {
          ValueStays(w, b, k, op, i);
        }
      }
    }
  }

  predicate MovedWell(w: World, calls: seq<Call>, w1: World, calls1: seq<Call>, op: D.Op, news: Option<Invocation>,
                      k: nat, i: nat)
    requires InputsValid(w) && InputsValid(w1) && w1.inputs == w.inputs && i < |w.inputs|
    requires |calls| == |calls1| == |w1.deferreds| == |w.deferreds|
  {
    && (DoneInvoked(w1, i) <==> DoneInvoked(w, i) || Hits(news, op, Resolved, WhenDone(i)))
    && (FailInvoked(w1, i) <==> FailInvoked(w, i) || Hits(news, op, Rejected, WhenFail(i)))
    && (Hits(news, op, Resolved, WhenDone(i)) ==> w.inputs[i] == Promise(k) && !DoneInvoked(w, i))
    && (Hits(news, op, Rejected, WhenFail(i)) ==> w.inputs[i] == Promise(k))
    && (DoneInvoked(w, i) || FailInvoked(w, i) ==> calls1[w.inputs[i].index] == calls[w.inputs[i].index])
  }

  lemma BetweenFrom(w: World, b: Book, w1: World, b1: Book, k: nat, op: D.Op, news: Option<Invocation>,
                    onDone: nat, onFail: nat, passed: nat, onDone': nat, onFail': nat)
    requires Good(w, b, onDone, onFail, passed) && k < |w.deferreds|
    requires w1 == w.(deferreds := w1.deferreds) && |w1.deferreds| == |w.deferreds|
    requires b1.masterCall == b.masterCall
    requires Fits(w1, b1) && Attached(w1.inputs, b1.done, b1.fail, onDone', onFail')
    requires forall i :: 0 <= i < |w.inputs| ==> MovedWell(w, b.calls, w1, b1.calls, op, news, k, i)
    ensures Between(w, w1, b1, k, op, news, onDone', onFail', passed)
    ensures forall j :: 0 <= j < |w.inputs| && Hits(news, op, Resolved, WhenDone(j)) ==>
                          w.inputs[j] == Promise(k) && !DoneInvoked(w, j)
    ensures forall j :: 0 <= j < |w.inputs| && Hits(news, op, Rejected, WhenFail(j)) ==> w.inputs[j] == Promise(k)
  {
    if w.master.state == Settled(Rejected) {
      var i :| 0 <= i < |w.inputs| && FailInvoked(w, i) && b.calls[w.inputs[i].index] == b.masterCall;
      assert MovedWell(w, b.calls, w1, b1.calls, op, news, k, i);
    }
    forall i | 0 <= i < |w.inputs|
      ensures DoneInvoked(w1, i) <==> DoneInvoked(w, i) || Hits(news, op, Resolved, WhenDone(i))
      ensures FailInvoked(w1, i) <==> FailInvoked(w, i) || Hits(news, op, Rejected, WhenFail(i))
      ensures Hits(news, op, Resolved, WhenDone(i)) ==> w.inputs[i] == Promise(k) && !DoneInvoked(w, i)
      ensures Hits(news, op, Rejected, WhenFail(i)) ==> w.inputs[i] == Promise(k)
      ensures w.inputs[i].Plain? ==> w.values[i] == w.inputs[i].value
      ensures DoneInvoked(w, i) ==> w.values[i] == Collect(b1.calls[w.inputs[i].index].args)
    {
      assert MovedWell(w, b.calls, w1, b1.calls, op, news, k, i);
    }
  }

  lemma OnGood(w: World, b: Book, k: nat, op: D.Op, onDone: nat, onFail: nat, passed: nat, onDone': nat, onFail': nat)
      returns (b': Book)
    requires Good(w, b, onDone, onFail, passed) && k < |w.deferreds|
    requires Next(w, k, op, onDone, onFail, onDone', onFail')
    ensures Good(On(w, k, op), b', onDone', onFail', passed)
    ensures Complete(w) ==> Complete(On(w, k, op))
  {
    MovedBetween(w, b, k, op, onDone, onFail, passed, onDone', onFail');
    NextForeign(w, k, op, onDone, onFail, onDone', onFail');
    var d := w.deferreds[k];
    var w1, b1, news := Moved(w, k, op), Booked(w, b, k, op), NewsOf(d, op);
    b' := ReactGood(w, b, w1, b1, k, op, news, onDone, onFail, passed, onDone', onFail');
  }

  lemma ReactGood(w: World, b: Book, w1: World, b1: Book, k: nat, op: D.Op, news: Option<Invocation>,
                  onDone: nat, onFail: nat, passed: nat, onDone': nat, onFail': nat) returns (b': Book)
    requires Fits(w, b) && k < |w.deferreds| && Foreign(op)
    requires w1 == Moved(w, k, op) && b1 == Booked(w, b, k, op) && news == NewsOf(w.deferreds[k], op)
    requires Between(w, w1, b1, k, op, news, onDone', onFail', passed)
    requires forall j :: 0 <= j < |w.inputs| && Hits(news, op, Resolved, WhenDone(j)) ==>
                           w.inputs[j] == Promise(k) && !DoneInvoked(w, j)
    requires forall j :: 0 <= j < |w.inputs| && Hits(news, op, Rejected, WhenFail(j)) ==> w.inputs[j] == Promise(k)
    ensures var w2 := if news.Some? then React(w1, op, news.value) else w1;
            Good(w2, b', onDone', onFail', passed) && (Complete(w) ==> Complete(w2))
  {
    if j: nat :| Hits(news, op, Resolved, WhenDone(j)) {
      InvokedInRange(w, b, k, op, onDone', onFail', j);
      b' := DoneReacts(w, w1, b1, k, op, news.value, j, onDone', onFail', passed);
    } else if j: nat :| Hits(news, op, Rejected, WhenFail(j)) {
      FailInRange(w, b, k, op, onDone', onFail', j);
      b' := FailReacts(w, w1, b1, k, op, news.value, j, onDone', onFail', passed);
      RejectedIsOpen(React(w1, op, news.value), b', onDone', onFail', passed);
    } else {
      b' := b1;
      OtherReacts(w, w1, b1, k, op, news, onDone', onFail', passed);
    }
  }

  lemma RejectedIsOpen(w: World, b: Book, onDone: nat, onFail: nat, passed: nat)
    requires Good(w, b, onDone, onFail, passed) && w.master.state == Settled(Rejected)
    ensures w.counter > 0
  {
    FailedStaysOpen(w, b, passed);
  }

  lemma InvokedInRange(w: World, b: Book, k: nat, op: D.Op, onDone: nat, onFail: nat, i: nat)
    requires Fits(w, b) && k < |w.deferreds| && Foreign(op)
    requires Fits(Moved(w, k, op), Booked(w, b, k, op))
             && Attached(w.inputs, Booked(w, b, k, op).done, Booked(w, b, k, op).fail, onDone, onFail)
    requires Invokes(w.deferreds[k], op, Resolved, WhenDone(i))
    ensures i < |w.inputs|
    ensures NewsOf(w.deferreds[k], op).value.call == Booked(w, b, k, op).calls[k]
  {
    var b' := Booked(w, b, k, op);
    assert HandlersAfter(b.done[k], b.fail[k], op, Resolved) == b'.done[k];
    KeptOne(w, b, k);
    InvokedOnce(w.deferreds[k], b.done[k], b.fail[k], b.calls[k], op, Resolved, WhenDone(i));
    InvokedWithCall(w.deferreds[k], b.done[k], b.fail[k], b.calls[k], op, Resolved, WhenDone(i));
  }

  lemma FailInRange(w: World, b: Book, k: nat, op: D.Op, onDone: nat, onFail: nat, i: nat)
    requires Fits(w, b) && k < |w.deferreds| && Foreign(op)
    requires Fits(Moved(w, k, op), Booked(w, b, k, op))
             && Attached(w.inputs, Booked(w, b, k, op).done, Booked(w, b, k, op).fail, onDone, onFail)
    requires Invokes(w.deferreds[k], op, Rejected, WhenFail(i))
    ensures i < |w.inputs|
    ensures NewsOf(w.deferreds[k], op).value.call == Booked(w, b, k, op).calls[k]
  {
    var b' := Booked(w, b, k, op);
    assert HandlersAfter(b.done[k], b.fail[k], op, Rejected) == b'.fail[k];
    KeptOne(w, b, k);
    InvokedOnce(w.deferreds[k], b.done[k], b.fail[k], b.calls[k], op, Rejected, WhenFail(i));
    InvokedWithCall(w.deferreds[k], b.done[k], b.fail[k], b.calls[k], op, Rejected, WhenFail(i));
  }

  /* ---------- The loop of `when` ---------- */

  lemma AttachGood(w: World, b: Book, k: nat, add: D.Op, back: D.Op, onDone: nat, onFail: nat, passed: nat,
                   onDone': nat, onFail': nat) returns (b': Book)
    requires Good(w, b, onDone, onFail, passed) && k < |w.deferreds|
    requires Next(w, k, add, onDone, onFail, onDone', onFail') && (back.Return? || back.ReturnProgress?)
    ensures Good(Attach(w, k, add, back), b', onDone', onFail', passed)
  {
    OnFrame(w, k, add);
    b' := OnGood(w, b, k, add, onDone, onFail, passed, onDone', onFail');
    var w' := On(w, k, add);
    var comesBack := !ListFor(w.deferreds[k], add).firing && ListFor(w'.deferreds[k], add).firing;
    assert Attach(w, k, add, back) == if comesBack then On(w', k, back) else w';
    b' := BackGood(comesBack, w', b', k, back, onDone', onFail', passed);
  }

  lemma BackGood(comesBack: bool, w: World, b: Book, k: nat, back: D.Op, onDone: nat, onFail: nat, passed: nat)
      returns (b': Book)
    requires Good(w, b, onDone, onFail, passed) && k < |w.deferreds| && (back.Return? || back.ReturnProgress?)
    ensures Good(if comesBack then On(w, k, back) else w, b', onDone, onFail, passed)
  {
    b' := b;
    if comesBack {
      b' := OnGood(w, b, k, back, onDone, onFail, passed, onDone, onFail);
    }
  }

  lemma AttachFirst(w: World, b: Book, k: nat, adds: seq<Attachment>, onDone: nat, onFail: nat, passed: nat,
                    onDone': nat, onFail': nat) returns (w': World, b': Book)
    requires Good(w, b, onDone, onFail, passed) && k < |w.deferreds| && adds != []
    requires Next(w, k, adds[0].add, onDone, onFail, onDone', onFail')
    requires adds[0].back.Return? || adds[0].back.ReturnProgress?
    ensures Good(w', b', onDone', onFail', passed) && w'.inputs == w.inputs && |w'.deferreds| == |w.deferreds|
    ensures AttachAll(w, k, adds) == AttachAll(w', k, adds[1..])
  {
    AttachFrame(w, k, adds[0].add, adds[0].back);
    w' := Attach(w, k, adds[0].add, adds[0].back);
    b' := AttachGood(w, b, k, adds[0].add, adds[0].back, onDone, onFail, passed, onDone', onFail');
  }

  lemma TakeGood(w: World, b: Book, i: nat) returns (b': Book)
    requires Good(w, b, i, i, i) && i < |w.inputs|
    ensures Good(Take(w, i), b', i + 1, i + 1, i + 1)
  {
    if w.inputs[i].Plain? {
      b' := b;
      PlainGood(w, b, i);
    } else {
      var w';
      w', b' := PromiseGood(w, b, i);
      PassPromise(w', b', i);
    }
  }

  lemma PromiseGood(w: World, b: Book, i: nat) returns (w': World, b': Book)
    requires Good(w, b, i, i, i) && i < |w.inputs| && w.inputs[i].Promise?
    ensures w' == AttachAll(w, w.inputs[i].index, Attachments(i)) && w'.inputs == w.inputs
    ensures Good(w', b', i + 1, i + 1, i)
  {
    var k, adds := w.inputs[i].index, Attachments(i);
    w', b' := AttachFirst(w, b, k, adds, i, i, i, i + 1, i);
    w', b' := AttachRest(w', b', k, i);
  }

  /** The fail and the progress handler of input i. */
  lemma AttachRest(w: World, b: Book, k: nat, i: nat) returns (w': World, b': Book)
    requires Good(w, b, i + 1, i, i) && k < |w.deferreds| && i < |w.inputs| && w.inputs[i] == Promise(k)
    ensures w' == AttachAll(w, k, Attachments(i)[1..]) && w'.inputs == w.inputs
    ensures Good(w', b', i + 1, i + 1, i)
  {
    var adds := Attachments(i)[1..];
    w', b' := AttachFirst(w, b, k, adds, i + 1, i, i, i + 1, i + 1);
    w', b' := AttachFirst(w', b', k, adds[1..], i + 1, i + 1, i, i + 1, i + 1);
    assert adds[1..][1..] == [];
  }

  /** A plain value: one input less to wait for. */
  lemma PlainGood(w: World, b: Book, i: nat)
    requires Good(w, b, i, i, i) && i < |w.inputs| && w.inputs[i].Plain?
    ensures Good(Take(w, i), b, i + 1, i + 1, i + 1)
  {
    var w' := Take(w, i);
    PlainOpen(w, i);
    PlainAttached(w, b, i);
    assert forall j :: 0 <= j < |w.inputs| ==>
                         (FailInvoked(w', j) <==> FailInvoked(w, j)) && (DoneInvoked(w', j) <==> DoneInvoked(w, j));
    assert AnyFailed(w') <==> AnyFailed(w);
  }

  lemma PlainOpen(w: World, i: nat)
    requires InputsValid(w) && i < |w.inputs| && w.inputs[i].Plain?
    ensures Open(w, i, |w.inputs|) == Open(Take(w, i), i + 1, |w.inputs|) + 1
  {
    var w' := Take(w, i);
    forall j | 0 <= j < |w.inputs| && j != i
      ensures Ready(w, i, j) <==> Ready(w', i + 1, j)
    {
      assert DoneInvoked(w', j) <==> DoneInvoked(w, j);
    }
    OpenOneLess(w, i, w', i + 1, |w.inputs|, i);
  }

  lemma PlainAttached(w: World, b: Book, i: nat)
    requires Fits(w, b) && Attached(w.inputs, b.done, b.fail, i, i) && i < |w.inputs| && w.inputs[i].Plain?
    ensures Fits(Take(w, i), b) && Attached(w.inputs, b.done, b.fail, i + 1, i + 1)
  {
  }

  lemma PassPromise(w: World, b: Book, i: nat)
    requires Good(w, b, i + 1, i + 1, i) && i < |w.inputs| && w.inputs[i].Promise?
    ensures Good(w, b, i + 1, i + 1, i + 1)
  {
    PromisePassed(w, i);
  }

  lemma PromisePassed(w: World, i: nat)
    requires InputsValid(w) && i < |w.inputs| && w.inputs[i].Promise?
    ensures Open(w, i, |w.inputs|) == Open(w, i + 1, |w.inputs|)
  {
    OpenSame(w, i, w, i + 1, |w.inputs|);
  }

  predicate IsTake(w: World, i: nat, w': World) {
    InputsValid(w) && i < |w.inputs| && w' == Take(w, i)
  }

  /** The worlds between the turns of the loop. */
  ghost predicate Turns(ws: seq<World>) {
    forall j :: 0 <= j < |ws| - 1 ==> IsTake(ws[j], j, ws[j + 1])
  }

  lemma TurnsOf(w: World) returns (ws: seq<World>)
    requires InputsValid(w)
    ensures Turns(ws) && |ws| == |w.inputs| + 1 && ws[0] == w && ws[|w.inputs|] == TakeFirst(w, |w.inputs|)
  {
    ws := seq(|w.inputs| + 1, j requires 0 <= j <= |w.inputs| => TakeFirst(w, j));
    forall j | 0 <= j < |ws| - 1
      ensures IsTake(ws[j], j, ws[j + 1])
    {
      NextTurn(w, j);
    }
  }

  lemma NextTurn(w: World, n: nat)
    requires InputsValid(w) && n < |w.inputs|
    ensures IsTake(TakeFirst(w, n), n, TakeFirst(w, n + 1))
  {
  }

  lemma {:induction false} TurnsGood(ws: seq<World>, b: Book, n: nat) returns (b': Book)
    requires Turns(ws) && n < |ws| && Good(ws[0], b, 0, 0, 0)
    ensures Good(ws[n], b', n, n, n)
  {
    if n == 0 {
      b' := b;
    } else {
      b' := TurnsGood(ws, b, n - 1);
      assert IsTake(ws[n - 1], n - 1, ws[n]);
      b' := TakeGood(ws[n - 1], b', n - 1);
    }
  }

  lemma TakeFirstGood(w: World, b: Book) returns (b': Book)
    requires Good(w, b, 0, 0, 0)
    ensures var n := |w.inputs|; Good(TakeFirst(w, n), b', n, n, n)
  {
    var ws := TurnsOf(w);
    b' := TurnsGood(ws, b, |w.inputs|);
  }

  /* ---------- What `when` promises ---------- */

  /** Nothing has been attached to the Deferreds by this call of `when` yet. */
  ghost predicate Unattached(done: seq<seq<Fn>>, fail: seq<seq<Fn>>) {
    && (forall k, i: nat :: 0 <= k < |done| ==> Occurrences(done[k], WhenDone(i)) == 0)
    && (forall k, i: nat :: 0 <= k < |fail| ==> Occurrences(fail[k], WhenFail(i)) == 0)
  }

  /** The Deferreds that `when` finds: in whatever state, with whatever handlers. */
  ghost predicate Found(deferreds: seq<Deferred>, inputs: seq<Input>, b: Book) {
    && InputsValid(Before(deferreds, inputs))
    && |b.done| == |b.fail| == |b.calls| == |deferreds|
    && (forall k :: 0 <= k < |deferreds| ==> DeferredInv(deferreds[k], b.done[k], b.fail[k], b.calls[k]))
    && Unattached(b.done, b.fail) && b.masterDone == [] && b.masterFail == [] && b.masterCall == NO_CALL
  }

  lemma BeforeGood(deferreds: seq<Deferred>, inputs: seq<Input>, b: Book)
    requires Found(deferreds, inputs, b)
    ensures Good(Before(deferreds, inputs), b, 0, 0, 0)
  {
    var w := Before(deferreds, inputs);
    NewInv();
    KeptAll(deferreds, b.done, b.fail, b.calls, |deferreds|);
    forall i | 0 <= i < |inputs|
      ensures !DoneInvoked(w, i) && !FailInvoked(w, i)
    {
      if inputs[i].Promise? {
        var k := inputs[i].index;
        InvokedWhenSettled(deferreds[k], b.done[k], b.fail[k], b.calls[k], WhenDone(i));
        InvokedWhenSettled(deferreds[k], b.done[k], b.fail[k], b.calls[k], WhenFail(i));
      }
    }
    AllOpen(w, |inputs|);
  }

  lemma {:induction false} AllOpen(w: World, n: nat)
    requires InputsValid(w) && n <= |w.inputs|
    requires forall i :: 0 <= i < n ==> !Ready(w, 0, i)
    ensures Open(w, 0, n) == n
  {
    if n == 0 {
    } else {
      AllOpen(w, n - 1);
    }
  }

  lemma BeginGood(deferreds: seq<Deferred>, inputs: seq<Input>, b: Book) returns (b': Book)
    requires Found(deferreds, inputs, b)
    ensures Begun(Begin(deferreds, inputs), b')
  {
    BeforeGood(deferreds, inputs, b);
    var w, n := TakeFirst(Before(deferreds, inputs), |inputs|), |inputs|;
    b' := TakeFirstGood(Before(deferreds, inputs), b);
    if w.counter == 0 {
      b' := SettleMaster(w, b', n, n, n, Resolved, Call(MASTER, w.values));
    }
  }

  /** Each operation is allowed when its time comes. */
  predicate AllAllowed(w: World, ops: seq<Op>)
    decreases |ops|
  {
    ops == [] || (Allowed(w, ops[0]) && AllAllowed(Step(w, ops[0]), ops[1..]))
  }

  function Run(w: World, ops: seq<Op>): World
    requires AllAllowed(w, ops)
    decreases |ops|
  {
    if ops == [] then w else Run(Step(w, ops[0]), ops[1..])
  }

  lemma StepFrame(w: World, op: Op)
    requires Allowed(w, op)
    ensures |Step(w, op).deferreds| == |w.deferreds| && Step(w, op).inputs == w.inputs
  {
  }

  lemma {:induction false} RunGood(w: World, b: Book, ops: seq<Op>) returns (b': Book)
    requires AllAllowed(w, ops) && Begun(w, b)
    ensures var w' := Run(w, ops); Begun(w', b') && w'.inputs == w.inputs && |w'.deferreds| == |w.deferreds|
    decreases |ops|
  {
    if ops == [] {
      b' := b;
    } else {
      StepFrame(w, ops[0]);
      b' := StepGood(w, b, ops[0]);
      b' := RunGood(Step(w, ops[0]), b', ops[1..]);
    }
  }

  /** The invariant after `when` has returned. */
  ghost predicate Begun(w: World, b: Book) {
    Good(w, b, |w.inputs|, |w.inputs|, |w.inputs|) && Complete(w)
  }

  lemma StepGood(w: World, b: Book, op: Op) returns (b': Book)
    requires Allowed(w, op)
    requires Begun(w, b)
    ensures Begun(Step(w, op), b')
  {
    StepFrame(w, op);
    var n := |w.inputs|;
    match op {
      case OnInput(k, o) =>
        b' := OnGood(w, b, k, o, n, n, n, n, n);
      case OnMaster(o) =>
        b' := b.(masterDone := b.masterDone + AddedFor(o, Resolved),
            masterFail := b.masterFail + AddedFor(o, Rejected));
        SameButMaster(w, b, Step(w, op), b', n, n, n, o);
    }
  }

  /** The promise of every input, if it has one, has been resolved. */
  predicate AllResolved(w: World)
    requires InputsValid(w)
  {
    forall i :: 0 <= i < |w.inputs| && w.inputs[i].Promise? ==>
        w.deferreds[w.inputs[i].index].state == Settled(Resolved)
  }

  predicate SomeRejected(w: World)
    requires InputsValid(w)
  {
    exists i :: 0 <= i < |w.inputs| && w.inputs[i].Promise? && w.deferreds[w.inputs[i].index].state == Settled(Rejected)
  }

  /** No handler of an input's promise is running. */
  predicate Quiet(w: World)
    requires InputsValid(w)
  {
    forall i :: 0 <= i < |w.inputs| && w.inputs[i].Promise? ==>
      !w.deferreds[w.inputs[i].index].done.firing && !w.deferreds[w.inputs[i].index].fail.firing
  }

  /** The promise of input i has been rejected, and the master with the very call that rejected it. */
  predicate PassesOn(w: World, i: nat)
    requires InputsValid(w) && i < |w.inputs|
  {
    w.inputs[i].Promise? && var d := w.deferreds[w.inputs[i].index];
                            && d.state == Settled(Rejected) && d.fail.memory.Kept?
                            && w.master.fail.memory == d.fail.memory
  }

  /** What `when` promises:
      - its counter is the number of inputs whose handler has not been invoked;
      - the master is resolved exactly when the counter is zero, and then all promises are resolved
        and the master's handlers get the values of the inputs, in the order of the inputs;
      - the master is rejected exactly when a promise has passed its rejection on, and then with the
        call that rejected one of them;
      - as soon as no handler of an input is running, the master is resolved if and only if all
        promises are, and rejected if and only if one of them is. */
  ghost predicate AsPromised(w: World, inputs: seq<Input>) {
    && InputsValid(w) && w.inputs == inputs
    && w.counter == Open(w, |inputs|, |inputs|)
    && (w.master.state == Settled(Resolved) <==> w.counter == 0)
    && (w.master.state == Settled(Rejected) <==> AnyFailed(w))
    && (w.master.state == Settled(Resolved) ==> AllResolved(w) && w.master.done.memory == Kept(Call(MASTER, w.values)))
    && (w.master.state == Settled(Rejected) ==> exists i :: 0 <= i < |inputs| && PassesOn(w, i))
    && (Quiet(w) ==>
          && (w.master.state == Settled(Resolved) <==> AllResolved(w))
          && (w.master.state == Settled(Rejected) <==> SomeRejected(w)))
  }

  /** All this holds at any time after the call, whatever is done to the inputs and to the master in
      between, attempts to settle the master a second time included. */
  lemma WaitsForAll(deferreds: seq<Deferred>, inputs: seq<Input>, b: Book, ops: seq<Op>)
    requires Found(deferreds, inputs, b) && AllAllowed(Begin(deferreds, inputs), ops)
    ensures AsPromised(Run(Begin(deferreds, inputs), ops), inputs)
  {
    var b1 := BeginGood(deferreds, inputs, b);
    var w1 := Begin(deferreds, inputs);
    var b2 := RunGood(w1, b1, ops);
    var w := Run(w1, ops);
    MasterStates(w, b2);
    if w.master.state == Settled(Rejected) {
      MasterBlames(w, b2);
    }
    if Quiet(w) {
      QuietStates(w, b2);
    }
  }

  lemma MasterStates(w: World, b: Book)
    requires Begun(w, b)
    ensures w.master.state == Settled(Resolved) <==> w.counter == 0
    ensures w.master.state == Settled(Resolved) ==>
            AllResolved(w) && w.master.done.memory == Kept(Call(MASTER, w.values))
    ensures w.master.state == Settled(Rejected) ==> SomeRejected(w)
  {
    var n := |w.inputs|;
    OpenZero(w, n, n);
    forall i | 0 <= i < n && w.inputs[i].Promise?
      ensures DoneInvoked(w, i) ==> w.deferreds[w.inputs[i].index].state == Settled(Resolved)
      ensures FailInvoked(w, i) ==> w.deferreds[w.inputs[i].index].state == Settled(Rejected)
    {
      var k := w.inputs[i].index;
      KeptOne(w, b, k);
      InvokedWhenSettled(w.deferreds[k], b.done[k], b.fail[k], b.calls[k], WhenDone(i));
      InvokedWhenSettled(w.deferreds[k], b.done[k], b.fail[k], b.calls[k], WhenFail(i));
    }
    if w.counter == 0 {
      forall i | 0 <= i < n && w.inputs[i].Promise?
        ensures w.deferreds[w.inputs[i].index].state == Settled(Resolved)
      {
        assert Ready(w, n, i);
      }
    }
  }

  lemma MasterBlames(w: World, b: Book)
    requires Begun(w, b) && w.master.state == Settled(Rejected)
    ensures exists i :: 0 <= i < |w.inputs| && PassesOn(w, i)
  {
    var i :| 0 <= i < |w.inputs| && FailInvoked(w, i) && b.calls[w.inputs[i].index] == b.masterCall;
    var k := w.inputs[i].index;
    KeptOne(w, b, k);
    InvokedWhenSettled(w.deferreds[k], b.done[k], b.fail[k], b.calls[k], WhenFail(i));
    assert PassesOn(w, i);
  }

  lemma QuietStates(w: World, b: Book)
    requires Begun(w, b)
    requires Quiet(w)
    ensures AllResolved(w) ==> w.master.state == Settled(Resolved)
    ensures SomeRejected(w) ==> w.master.state == Settled(Rejected)
    ensures w.master.state == Settled(Resolved) ==> !SomeRejected(w)
    ensures w.master.state == Settled(Rejected) ==> !AllResolved(w)
  {
    var n := |w.inputs|;
    OpenZero(w, n, n);
    MasterStates(w, b);
    if AllResolved(w) {
      forall i | 0 <= i < n
        ensures Ready(w, n, i)
      {
        if w.inputs[i].Promise? {
          QuietInput(w, b, i);
        }
      }
    }
    if SomeRejected(w) {
      var i :| 0 <= i < n && w.inputs[i].Promise? && w.deferreds[w.inputs[i].index].state == Settled(Rejected);
      QuietInput(w, b, i);
    }
  }

  /** An input whose handlers are not running has been dealt with if it is settled. */
  lemma QuietInput(w: World, b: Book, i: nat)
    requires Fits(w, b) && Attached(w.inputs, b.done, b.fail, |w.inputs|, |w.inputs|) && Quiet(w)
    requires i < |w.inputs| && w.inputs[i].Promise?
    ensures w.deferreds[w.inputs[i].index].state == Settled(Resolved) ==> DoneInvoked(w, i)
    ensures w.deferreds[w.inputs[i].index].state == Settled(Rejected) ==> FailInvoked(w, i)
  {
    var k := w.inputs[i].index;
    KeptOne(w, b, k);
    InvokedWhenSettled(w.deferreds[k], b.done[k], b.fail[k], b.calls[k], WhenDone(i));
    InvokedWhenSettled(w.deferreds[k], b.done[k], b.fail[k], b.calls[k], WhenFail(i));
    assert Occurrences(b.done[k], WhenDone(i)) == 1 && Occurrences(b.fail[k], WhenFail(i)) == 1;
  }

  /** The values that the resolved master hands over: the plain inputs themselves, and what each
      promise was resolved with, which is what its own handlers are invoked with. */
  lemma ValuesInOrder(deferreds: seq<Deferred>, inputs: seq<Input>, b: Book, ops: seq<Op>, i: nat)
    requires Found(deferreds, inputs, b) && AllAllowed(Begin(deferreds, inputs), ops)
    requires i < |inputs| && Run(Begin(deferreds, inputs), ops).master.state == Settled(Resolved)
    ensures var w := Run(Begin(deferreds, inputs), ops);
            && |w.values| == |inputs|
            && match inputs[i]
               case Plain(value) => w.values[i] == value
               case Promise(k) => k < |w.deferreds| && HasValueOf(w.values[i], w.deferreds[k])
  {
    var b1 := BeginGood(deferreds, inputs, b);
    var w1, n := Begin(deferreds, inputs), |inputs|;
    var b2 := RunGood(w1, b1, ops);
    var w := Run(w1, ops);
    MasterStates(w, b2);
    OpenZero(w, n, n);
    assert Ready(w, n, i);
    if inputs[i].Promise? {
      ResolvedWith(w, b2, i);
    }
  }

  /** The Deferred is resolved, and the value stands for the arguments with which it was. */
  predicate HasValueOf(value: Value, d: Deferred) {
    && d.state == Settled(Resolved) && d.done.memory.Kept?
    && StandsFor(value, d.done.memory.call.args)
    && forall j :: 0 <= j < |d.done.log| ==> d.done.log[j].call == d.done.memory.call
  }

  lemma ResolvedWith(w: World, b: Book, i: nat)
    requires Fits(w, b) && ValuesPlaced(w, b) && i < |w.inputs| && DoneInvoked(w, i)
    ensures HasValueOf(w.values[i], w.deferreds[w.inputs[i].index])
  {
    var k := w.inputs[i].index;
    KeptOne(w, b, k);
    InvokedWhenSettled(w.deferreds[k], b.done[k], b.fail[k], b.calls[k], WhenDone(i));
  }
}
