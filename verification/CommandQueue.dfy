/** The viewer's command queue as its threads use it.

    The main thread runs `processQueue`; the spinner thread runs the callbacks of the
    subscriptions, and so does the main thread itself while it is inside `ros::spinOnce`, which
    `addDisplay` calls in the middle of applying a command.  A state holds what all of them share
    and where each of them stands; a step is one atomic action of one of them, and the steps may
    follow each other in any order that the lock permits. */
module CommandQueue {
  import opened Basics
  import opened Displays

  datatype Thread = Main | Spinner

  /** A message that starts a callback. */
  datatype Message =
    | ResetMessage
    | BaseFrameMessage(frame: Text)
    | FrameRateMessage(rate: int)
    | WorldFrameMessage(show: bool)

  function AddMarkers(): Command {
    AddDisplayCommand(MarkerArray, RvizMarkerArray, TheMarkers, MarkerArrayMessage, Empty)
  }

  /** The commands that a callback pushes, one after the other; `tested` is the fixed frame that it
      reads when it starts, and `frame` the one that it reads when it makes the command. */
  function Commands(m: Message, tested: Text, frame: Text): (cs: seq<Command>)
    ensures 1 <= |cs| && AllTagged(cs)
  {
    match m
    case ResetMessage => [RemoveDisplayCommand(MarkerArray), AddMarkers()]
    case BaseFrameMessage(f) => [SetFixedFrameCommand(f)]
    case FrameRateMessage(rate) => [SetFrameRateCommand(rate)]
    case WorldFrameMessage(show) =>
      if tested != Empty && show then [AddDisplayCommand(Axes, RvizAxes, Empty, Empty, frame)]
      else [RemoveDisplayCommand(Axes)]
  }

  /** What a callback does next for the command whose turn it is. */
  datatype Phase = New | Lock | Push | Unlock

  /** A running callback: the fixed frames it has read, how many commands it is done with, and the
      object it has made and not yet pushed.  When it is done with all of them it may have the fixed
      frame still to assign. */
  datatype Callback =
    | Idle
    | Running(message: Message, tested: Text, frame: Text, index: nat, phase: Phase, holding: Option<nat>)

  function CommandsOf(cb: Callback): seq<Command>
    requires cb.Running?
  {
    Commands(cb.message, cb.tested, cb.frame)
  }

  /** Where the main thread stands in `processQueue`, or outside of it. */
  datatype Pc = Outside | Test | LockFront | Front | UnlockFront | Apply | Spin | Delete | LockPop | Pop | UnlockPop

  /** What a run starts from and does not change: the display manager before any command, whose
      frame and rate are rviz's own choice, and whether two callbacks of one subscription may
      overlap. */
  datatype Setup = Setup(blank: Manager, overlap: bool)

  datatype State = State(
    setup: Setup,
    heap: map<nat, Command>,     // the command objects that exist
    next: nat,                   // pointers from here on have never been used
    queue: seq<nat>,             // dQueue_
    lock: Option<Thread>,        // mtx_
    pc: Pc,
    comm: nat,                   // the pointer that the main thread has fronted
    mainCallback: Callback,      // run by the main thread inside spinOnce
    spinnerCallback: Callback,
    manager: Manager,
    fixedFrame: Text,            // fixedFrame_
    pushed: seq<Command>,        // history: every command pushed
    applied: seq<Command>)       // history: every command applied
  {
    function CallbackOf(t: Thread): Callback {
      if t.Main? then mainCallback else spinnerCallback
    }

    function WithCallback(t: Thread, cb: Callback): State {
      if t.Main? then this.(mainCallback := cb) else this.(spinnerCallback := cb)
    }
  }

  function OtherThread(t: Thread): Thread {
    if t.Main? then Spinner else Main
  }

  /** The constructor has pushed its command and starts the threads. */
  function Init(setup: Setup): State {
    State(setup, map[0 := AddMarkers()], 1, [0], None, Outside, 0, Idle, Idle, setup.blank, Empty, [AddMarkers()], [])
  }

  /* ---------- Steps ---------- */

  /** The next action of the main loop; a message that starts a callback on a thread; the next
      action of the callback that a thread runs. */
  datatype Event = MainStep | Start(thread: Thread, message: Message) | CallbackStep(thread: Thread)

  /** The callbacks of one subscription overlap only if the setup says so; the main thread runs callbacks only inside
      spinOnce; taking the lock has to wait until it is free. */
  predicate Enabled(s: State, e: Event) {
    match e
    case MainStep =>
      s.mainCallback.Idle? && (s.pc.LockFront? || s.pc.LockPop? ==> s.lock.None?)
    case Start(t, m) =>
      && s.CallbackOf(t).Idle? && (t.Main? ==> s.pc.Spin?)
      && (s.setup.overlap || s.CallbackOf(OtherThread(t)).Idle?
          || !SameSubscription(s.CallbackOf(OtherThread(t)).message, m))
    case CallbackStep(t) =>
      s.CallbackOf(t).Running? && (s.CallbackOf(t).phase.Lock? ==> s.lock.None?)
  }

  predicate SameSubscription(a: Message, b: Message) {
    || (a.ResetMessage? && b.ResetMessage?)
    || (a.BaseFrameMessage? && b.BaseFrameMessage?)
    || (a.FrameRateMessage? && b.FrameRateMessage?)
    || (a.WorldFrameMessage? && b.WorldFrameMessage?)
  }

  /** The accesses of a step that the language leaves undefined when they go wrong: looking at the
      front of an empty queue, using a command that does not exist any more or is of another class,
      deleting one twice, popping something else than what was fronted. */
  predicate Safe(s: State, e: Event) {
    match e
    case MainStep =>
      && (s.pc.Front? ==> |s.queue| > 0 && s.queue[0] in s.heap)
      && (s.pc.Apply? ==> s.comm in s.heap && WellTagged(s.heap[s.comm]))
      && (s.pc.Delete? ==> s.comm in s.heap)
      && (s.pc.Pop? ==> |s.queue| > 0 && s.queue[0] == s.comm)
    case Start(_, _) => true
    case CallbackStep(t) =>
      var cb := s.CallbackOf(t);
      cb.Running? && cb.phase.Push? ==> cb.holding.Some? && cb.holding.value in s.heap
  }

  function Step(s: State, e: Event): State
    requires Enabled(s, e) && Safe(s, e)
  {
    match e
    case MainStep => MainNext(s)
    case Start(t, m) => s.WithCallback(t, Running(m, s.fixedFrame, s.fixedFrame, 0, New, None))
    case CallbackStep(t) => CallbackNext(s, t)
  }

  function MainNext(s: State): State
    requires Enabled(s, MainStep) && Safe(s, MainStep)
  {
    match s.pc
    case Outside => s.(pc := Test)
    case Test => s.(pc := if |s.queue| > 0 then LockFront else Outside)
    case LockFront => s.(lock := Some(Main), pc := Front)
    case Front => s.(comm := s.queue[0], pc := UnlockFront)
    case UnlockFront => s.(lock := None, pc := Apply)
    case Apply =>
      var c := s.heap[s.comm];
      s.(manager := Displays.Apply(s.manager, c), applied := s.applied + [c],
         pc := if c.typeString == AddTag then Spin else Delete)
    case Spin => s.(pc := Delete)
    case Delete => s.(heap := s.heap - {s.comm}, pc := LockPop)
    case LockPop => s.(lock := Some(Main), pc := Pop)
    case Pop => s.(queue := s.queue[1..], pc := UnlockPop)
    case UnlockPop => s.(lock := None, pc := Test)
  }

  function CallbackNext(s: State, t: Thread): State
    requires Enabled(s, CallbackStep(t)) && Safe(s, CallbackStep(t))
  {
    var cb := s.CallbackOf(t);
    if cb.index >= |CommandsOf(cb)| then
      s.(fixedFrame := if cb.message.BaseFrameMessage? then cb.message.frame else s.fixedFrame).WithCallback(t, Idle)
    else
      match cb.phase
      case New =>
        var made := cb.(frame := s.fixedFrame);
        s.(heap := s.heap[s.next := CommandsOf(made)[cb.index]], next := s.next + 1)
         .WithCallback(t, made.(phase := Lock, holding := Some(s.next)))
      case Lock => s.(lock := Some(t)).WithCallback(t, cb.(phase := Push))
      case Push =>
        s.(queue := s.queue + [cb.holding.value], pushed := s.pushed + [s.heap[cb.holding.value]])
         .WithCallback(t, cb.(phase := Unlock, holding := None))
      case Unlock =>
        var last := cb.index + 1 == |CommandsOf(cb)| && !cb.message.BaseFrameMessage?;
        s.(lock := None).WithCallback(t, if last then Idle else cb.(index := cb.index + 1, phase := New))
  }

  /* ---------- The invariant ---------- */

  predicate CallbackValid(s: State, t: Thread) {
    var cb := s.CallbackOf(t);
    cb.Running? ==>
      && cb.index <= |CommandsOf(cb)|
      && (cb.index == |CommandsOf(cb)| ==> cb.phase.New? && cb.message.BaseFrameMessage?)
      && (cb.holding.Some? <==> cb.phase.Lock? || cb.phase.Push?)
      && (cb.holding.Some? ==>
            cb.holding.value in s.heap && s.heap[cb.holding.value] == CommandsOf(cb)[cb.index])
  }

  predicate HoldsLock(s: State, t: Thread) {
    || (s.CallbackOf(t).Running? && (s.CallbackOf(t).phase.Push? || s.CallbackOf(t).phase.Unlock?))
    || (t.Main? && (s.pc.Front? || s.pc.UnlockFront? || s.pc.Pop? || s.pc.UnlockPop?))
  }

  /** The main thread has fronted the head of the queue and not popped it. */
  predicate HasFronted(s: State) {
    s.pc.UnlockFront? || s.pc.Apply? || s.pc.Spin? || s.pc.Delete? || s.pc.LockPop? || s.pc.Pop?
  }

  /** The head of the queue has been applied, and is about to be deleted and popped. */
  predicate HeadApplied(s: State) {
    s.pc.Spin? || s.pc.Delete? || s.pc.LockPop? || s.pc.Pop?
  }

  predicate HeadDeleted(s: State) {
    s.pc.LockPop? || s.pc.Pop?
  }

  /** The lock is held by the thread that is in a critical section, and by nobody else. */
  predicate LockInv(s: State) {
    && (forall t: Thread :: s.lock == Some(t) <==> HoldsLock(s, t))
    && (s.mainCallback.Running? ==> s.pc.Spin?)
  }

  /** The queue entries that stand for existing objects. */
  function LiveQueue(s: State): seq<nat> {
    if HeadDeleted(s) && |s.queue| > 0 then s.queue[1..] else s.queue
  }

  predicate Holds(s: State, t: Thread, p: nat) {
    s.CallbackOf(t).Running? && s.CallbackOf(t).holding == Some(p)
  }

  /** Every command that exists has one owner: the queue, or the callback that has made it and not
      yet pushed it.  The only pointer in the queue whose object is gone is the head, between its
      deletion and its popping. */
  ghost predicate OwnershipInv(s: State) {
    && (forall p :: p in s.heap <==> p in LiveQueue(s) || Holds(s, Main, p) || Holds(s, Spinner, p))
    && (forall i, j :: 0 <= i < j < |s.queue| ==> s.queue[i] != s.queue[j])
    && (forall p :: Holds(s, Main, p) || Holds(s, Spinner, p) ==> p !in s.queue)
    && (forall p :: Holds(s, Main, p) ==> !Holds(s, Spinner, p))
    && (forall p :: p in s.heap ==> p < s.next)
    && (forall p :: p in s.queue ==> p < s.next)
    && (forall p :: p in s.heap ==> WellTagged(s.heap[p]))
    && (HeadDeleted(s) ==> s.queue != [] && s.queue[0] !in s.heap)
  }

  /** The main loop looks at the head only when there is one, and it stays the head until popped. */
  predicate FrontInv(s: State) {
    && (s.pc.LockFront? || s.pc.Front? ==> |s.queue| > 0)
    && (HasFronted(s) ==> |s.queue| > 0 && s.comm == s.queue[0])
    && (s.pc.Spin? || s.pc.Delete? ==> s.comm in s.heap)
  }

  /** The pointers of the commands that have still to be applied. */
  function PendingQueue(s: State): seq<nat> {
    if HeadApplied(s) && |s.queue| > 0 then s.queue[1..] else s.queue
  }

  predicate AllIn(q: seq<nat>, heap: map<nat, Command>) {
    forall i :: 0 <= i < |q| ==> q[i] in heap
  }

  function Contents(q: seq<nat>, heap: map<nat, Command>): (cs: seq<Command>)
    requires AllIn(q, heap)
  {
    seq(|q|, i requires 0 <= i < |q| => heap[q[i]])
  }

  /** The commands applied so far, followed by those still pending, are the commands pushed, in
      the order in which they were pushed; and the manager shows what they make of it. */
  ghost predicate FifoInv(s: State) {
    && AllIn(PendingQueue(s), s.heap)
    && s.pushed == s.applied + Contents(PendingQueue(s), s.heap)
    && AllTagged(s.pushed) && AllTagged(s.applied)
    && s.manager == ApplyAll(s.setup.blank, s.applied)
  }

  ghost predicate Inv(s: State) {
    && CallbackValid(s, Main) && CallbackValid(s, Spinner)
    && LockInv(s) && OwnershipInv(s) && FrontInv(s) && FifoInv(s)
  }

  /* ---------- Every step is safe and keeps the invariant ---------- */

  lemma InitInv(setup: Setup)
    ensures Inv(Init(setup))
  {
    var s := Init(setup);
    assert s.pushed == [] + Contents([0], s.heap);
  }

  /** Nothing undefined is ever about to happen. */
  lemma InvSafe(s: State, e: Event)
    requires Inv(s) && Enabled(s, e)
    ensures Safe(s, e)
  {
    if e.MainStep? && s.pc.Front? {
      assert s.queue[0] in LiveQueue(s);
    }
    if e.MainStep? && s.pc.Apply? {
      assert s.queue[0] in LiveQueue(s);
    }
  }

  lemma MainLock(s: State)
    requires LockInv(s) && Enabled(s, MainStep) && Safe(s, MainStep)
    ensures LockInv(MainNext(s))
  {
    var s' := MainNext(s);
    assert s'.spinnerCallback == s.spinnerCallback && s'.mainCallback.Idle?;
    assert s.lock == Some(Main) <==> HoldsLock(s, Main);
    assert s.lock == Some(Spinner) <==> HoldsLock(s, Spinner);
    assert HoldsLock(s', Spinner) == HoldsLock(s, Spinner);
  }

  lemma StartLock(s: State, t: Thread, m: Message)
    requires LockInv(s) && Enabled(s, Start(t, m))
    ensures LockInv(Step(s, Start(t, m)))
  {
    var s' := Step(s, Start(t, m));
    assert forall u: Thread :: HoldsLock(s', u) == HoldsLock(s, u);
  }

  lemma CallbackLock(s: State, t: Thread)
    requires LockInv(s) && CallbackValid(s, t) && Enabled(s, CallbackStep(t)) && Safe(s, CallbackStep(t))
    ensures LockInv(CallbackNext(s, t))
  {
    var s' := CallbackNext(s, t);
    assert s'.CallbackOf(OtherThread(t)) == s.CallbackOf(OtherThread(t)) && s'.pc == s.pc;
    assert s.lock == Some(t) <==> HoldsLock(s, t);
    assert s.lock == Some(OtherThread(t)) <==> HoldsLock(s, OtherThread(t));
    assert HoldsLock(s', OtherThread(t)) == HoldsLock(s, OtherThread(t));
    forall u: Thread
      ensures s'.lock == Some(u) <==> HoldsLock(s', u)
    {
      assert u == t || u == OtherThread(t);
    }
  }

  lemma MainCallbacks(s: State)
    requires CallbackValid(s, Main) && CallbackValid(s, Spinner) && Enabled(s, MainStep) && Safe(s, MainStep)
    requires s.pc.Delete? ==> !Holds(s, Spinner, s.comm)
    ensures CallbackValid(MainNext(s), Main) && CallbackValid(MainNext(s), Spinner)
  {
    var s' := MainNext(s);
    assert s'.spinnerCallback == s.spinnerCallback && s'.mainCallback == s.mainCallback;
  }

  lemma CallbackCallbacks(s: State, t: Thread)
    requires CallbackValid(s, Main) && CallbackValid(s, Spinner)
    requires Enabled(s, CallbackStep(t)) && Safe(s, CallbackStep(t))
    requires s.next !in s.heap
    ensures CallbackValid(CallbackNext(s, t), t) && CallbackValid(CallbackNext(s, t), OtherThread(t))
  {
    var s', other := CallbackNext(s, t), OtherThread(t);
    assert CallbackValid(s, t) && CallbackValid(s, other);
    assert s'.CallbackOf(other) == s.CallbackOf(other);
    assert forall p :: p in s.heap ==> p in s'.heap && s'.heap[p] == s.heap[p];
  }

  /** Steps that touch neither the objects nor the queue nor who holds what. */
  lemma SameOwnership(s: State, s': State)
    requires OwnershipInv(s) && s'.heap == s.heap && s'.queue == s.queue && s'.next == s.next
    requires HeadDeleted(s') == HeadDeleted(s)
    requires forall t: Thread, p :: Holds(s', t, p) <==> Holds(s, t, p)
    ensures OwnershipInv(s')
  {
    assert LiveQueue(s') == LiveQueue(s);
  }

  lemma DeleteOwnership(s: State)
    requires OwnershipInv(s) && FrontInv(s) && s.pc.Delete? && Enabled(s, MainStep) && Safe(s, MainStep)
    ensures OwnershipInv(MainNext(s))
  {
    var s' := MainNext(s);
    assert forall t: Thread, p :: Holds(s', t, p) <==> Holds(s, t, p);
    assert s.queue == [s.queue[0]] + s.queue[1..];
    assert LiveQueue(s) == s.queue && LiveQueue(s') == s.queue[1..];
    forall p
      ensures p in s'.heap <==> p in LiveQueue(s') || Holds(s', Main, p) || Holds(s', Spinner, p)
    {
      assert p in s.queue <==> p == s.comm || p in s.queue[1..];
    }
  }

  lemma PopOwnership(s: State)
    requires OwnershipInv(s) && FrontInv(s) && s.pc.Pop? && Enabled(s, MainStep) && Safe(s, MainStep)
    ensures OwnershipInv(MainNext(s))
  {
    var s' := MainNext(s);
    assert forall t: Thread, p :: Holds(s', t, p) <==> Holds(s, t, p);
    assert LiveQueue(s') == s.queue[1..] == LiveQueue(s);
  }

  lemma MainOwnership(s: State)
    requires OwnershipInv(s) && FrontInv(s) && Enabled(s, MainStep) && Safe(s, MainStep)
    ensures OwnershipInv(MainNext(s))
  {
    if s.pc.Delete? {
      DeleteOwnership(s);
    } else if s.pc.Pop? {
      PopOwnership(s);
    } else {
      SameOwnership(s, MainNext(s));
    }
  }

  /** A callback makes a command. */
  lemma NewOwnership(s: State, s': State, t: Thread, c: Command)
    requires OwnershipInv(s) && WellTagged(c) && s.CallbackOf(t).Running? && s.CallbackOf(t).holding.None?
    requires s' == s.(heap := s.heap[s.next := c], next := s.next + 1)
                    .WithCallback(t, s.CallbackOf(t).(frame := s.fixedFrame, phase := Lock, holding := Some(s.next)))
    ensures OwnershipInv(s')
  {
    NewHolder(s, s', t, c);
    assert LiveQueue(s') == LiveQueue(s);
    assert s.next !in s.heap && s.next !in s.queue;
    assert forall p :: p in LiveQueue(s) ==> p in s.queue;
  }

  lemma NewHolder(s: State, s': State, t: Thread, c: Command)
    requires s.CallbackOf(t).Running? && s.CallbackOf(t).holding.None?
    requires s' == s.(heap := s.heap[s.next := c], next := s.next + 1)
                    .WithCallback(t, s.CallbackOf(t).(frame := s.fixedFrame, phase := Lock, holding := Some(s.next)))
    ensures forall p :: Holds(s', Main, p) <==> Holds(s, Main, p) || (t.Main? && p == s.next)
    ensures forall p :: Holds(s', Spinner, p) <==> Holds(s, Spinner, p) || (t.Spinner? && p == s.next)
  {
  }

  /** A callback hands its command over to the queue. */
  lemma PushOwnership(s: State, s': State, t: Thread, p: nat)
    requires OwnershipInv(s) && s.CallbackOf(t).Running? && s.CallbackOf(t).holding == Some(p)
    requires s'.heap == s.heap && s'.next == s.next && s'.pc == s.pc && s'.queue == s.queue + [p]
    requires s'.CallbackOf(OtherThread(t)) == s.CallbackOf(OtherThread(t))
    requires s'.CallbackOf(t).Running? && s'.CallbackOf(t).holding.None?
    ensures OwnershipInv(s')
  {
    assert Holds(s, t, p) && forall q :: Holds(s, t, q) <==> q == p;
    assert forall q :: !Holds(s', t, q);
    assert forall q :: Holds(s', OtherThread(t), q) <==> Holds(s, OtherThread(t), q);
    assert LiveQueue(s') == LiveQueue(s) + [p];
    assert p !in s.queue;
  }

  lemma CallbackOwnership(s: State, t: Thread)
    requires OwnershipInv(s) && CallbackValid(s, t)
    requires Enabled(s, CallbackStep(t)) && Safe(s, CallbackStep(t))
    ensures OwnershipInv(CallbackNext(s, t))
  {
    var s', cb := CallbackNext(s, t), s.CallbackOf(t);
    if cb.index < |CommandsOf(cb)| && cb.phase.Push? {
      PushOwnership(s, s', t, cb.holding.value);
    } else if cb.index < |CommandsOf(cb)| && cb.phase.New? {
      NewOwnership(s, s', t, CommandsOf(cb.(frame := s.fixedFrame))[cb.index]);
    } else {
      assert forall p :: Holds(s', OtherThread(t), p) <==> Holds(s, OtherThread(t), p);
      assert forall p :: Holds(s', t, p) <==> Holds(s, t, p);
      forall u: Thread, p
        ensures Holds(s', u, p) <==> Holds(s, u, p)
      {
        assert u == t || u == OtherThread(t);
      }
      SameOwnership(s, s');
    }
  }

  lemma StartOwnership(s: State, t: Thread, m: Message)
    requires OwnershipInv(s) && Enabled(s, Start(t, m))
    ensures OwnershipInv(Step(s, Start(t, m)))
  {
    var s' := Step(s, Start(t, m));
    assert forall u: Thread, p :: Holds(s', u, p) <==> Holds(s, u, p);
  }

  lemma MainFront(s: State)
    requires FrontInv(s) && Enabled(s, MainStep) && Safe(s, MainStep)
    ensures FrontInv(MainNext(s))
  {
  }

  lemma CallbackFront(s: State, t: Thread)
    requires FrontInv(s) && Enabled(s, CallbackStep(t)) && Safe(s, CallbackStep(t))
    ensures FrontInv(CallbackNext(s, t))
  {
    var s' := CallbackNext(s, t);
    assert s'.pc == s.pc && s'.comm == s.comm && s.queue <= s'.queue;
    assert s.comm in s.heap ==> s.comm in s'.heap;
  }

  lemma ContentsSame(q: seq<nat>, heap: map<nat, Command>, heap': map<nat, Command>)
    requires AllIn(q, heap) && forall i :: 0 <= i < |q| ==> q[i] in heap' && heap'[q[i]] == heap[q[i]]
    ensures AllIn(q, heap') && Contents(q, heap') == Contents(q, heap)
  {
  }

  lemma HeadMoves(applied: seq<Command>, q: seq<nat>, heap: map<nat, Command>)
    requires q != [] && AllIn(q, heap)
    ensures AllIn(q[1..], heap)
    ensures applied + Contents(q, heap) == applied + [heap[q[0]]] + Contents(q[1..], heap)
  {
    assert AllIn(q[1..], heap);
    assert Contents(q, heap) == [heap[q[0]]] + Contents(q[1..], heap);
  }

  lemma ApplyFifo(s: State)
    requires FifoInv(s) && FrontInv(s) && s.pc.Apply? && Enabled(s, MainStep) && Safe(s, MainStep)
    ensures FifoInv(MainNext(s))
  {
    assert PendingQueue(s) == s.queue && PendingQueue(MainNext(s)) == s.queue[1..];
    HeadMoves(s.applied, s.queue, s.heap);
    ApplyAllSnoc(s.setup.blank, s.applied, s.heap[s.comm]);
  }

  lemma MainFifo(s: State)
    requires FifoInv(s) && FrontInv(s) && Enabled(s, MainStep) && Safe(s, MainStep)
    requires s.pc.Delete? ==> s.comm !in s.queue[1..]
    ensures FifoInv(MainNext(s))
  {
    if s.pc.Apply? {
      ApplyFifo(s);
    } else if s.pc.Delete? {
      DeleteFifo(s);
    } else {
      SameFifo(s, MainNext(s));
    }
  }

  lemma DeleteFifo(s: State)
    requires FifoInv(s) && FrontInv(s) && s.pc.Delete? && Enabled(s, MainStep) && Safe(s, MainStep)
    requires s.comm !in s.queue[1..]
    ensures FifoInv(MainNext(s))
  {
    var s' := MainNext(s);
    assert PendingQueue(s') == PendingQueue(s) == s.queue[1..];
    ContentsSame(s.queue[1..], s.heap, s'.heap);
  }

  lemma SameFifo(s: State, s': State)
    requires FifoInv(s) && PendingQueue(s') == PendingQueue(s) && s'.heap == s.heap && s'.setup == s.setup
    requires s'.pushed == s.pushed && s'.applied == s.applied && s'.manager == s.manager
    ensures FifoInv(s')
  {
  }

  lemma PushFifo(s: State, s': State, p: nat)
    requires FifoInv(s) && p in s.heap && WellTagged(s.heap[p])
    requires PendingQueue(s') == PendingQueue(s) + [p] && s'.heap == s.heap && s'.setup == s.setup
    requires s'.pushed == s.pushed + [s.heap[p]] && s'.applied == s.applied && s'.manager == s.manager
    ensures FifoInv(s')
  {
    assert Contents(PendingQueue(s'), s.heap) == Contents(PendingQueue(s), s.heap) + [s.heap[p]];
    Assoc(s.applied, Contents(PendingQueue(s), s.heap), [s.heap[p]]);
  }

  lemma CallbackFifo(s: State, t: Thread)
    requires FifoInv(s) && CallbackValid(s, t) && s.next !in s.heap && (HasFronted(s) ==> |s.queue| > 0)
    requires Enabled(s, CallbackStep(t)) && Safe(s, CallbackStep(t))
    ensures FifoInv(CallbackNext(s, t))
  {
    var s', cb := CallbackNext(s, t), s.CallbackOf(t);
    assert s'.applied == s.applied && s'.manager == s.manager && s'.pc == s.pc;
    if cb.index < |CommandsOf(cb)| && cb.phase.Push? {
      assert PendingQueue(s') == PendingQueue(s) + [cb.holding.value];
      PushFifo(s, s', cb.holding.value);
    } else {
      assert PendingQueue(s') == PendingQueue(s);
      ContentsSame(PendingQueue(s), s.heap, s'.heap);
    }
  }

  /** Whatever step is taken next, it is safe and keeps the invariant. */
  lemma StepInv(s: State, e: Event)
    requires Inv(s) && Enabled(s, e)
    ensures Safe(s, e) && Inv(Step(s, e))
  {
    InvSafe(s, e);
    match e {
      case MainStep =>
        MainLock(s);
        MainCallbacksStep(s);
        MainOwnership(s);
        MainFront(s);
        MainFifoStep(s);
      case Start(t, m) =>
        StartLock(s, t, m);
        StartOwnership(s, t, m);
        StartRest(s, t, m);
      case CallbackStep(t) =>
        assert s.next !in s.heap;
        CallbackLock(s, t);
        CallbackCallbacks(s, t);
        CallbackOwnership(s, t);
        CallbackFront(s, t);
        CallbackFifo(s, t);
    }
  }

  lemma MainCallbacksStep(s: State)
    requires Inv(s) && Enabled(s, MainStep) && Safe(s, MainStep)
    ensures CallbackValid(MainNext(s), Main) && CallbackValid(MainNext(s), Spinner)
  {
    if Holds(s, Spinner, s.comm) {
      assert s.comm !in s.queue;
    }
    MainCallbacks(s);
  }

  lemma MainFifoStep(s: State)
    requires Inv(s) && Enabled(s, MainStep) && Safe(s, MainStep)
    ensures FifoInv(MainNext(s))
  {
    MainFifo(s);
  }

  lemma StartRest(s: State, t: Thread, m: Message)
    requires Inv(s) && Enabled(s, Start(t, m))
    ensures var s' := Step(s, Start(t, m));
            CallbackValid(s', Main) && CallbackValid(s', Spinner) && FrontInv(s') && FifoInv(s')
  {
    var s' := Step(s, Start(t, m));
    assert PendingQueue(s') == PendingQueue(s) && s'.heap == s.heap;
  }
}
