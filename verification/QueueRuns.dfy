/** What holds of the viewer's command queue in every run of its threads. */
module QueueRuns {
  import opened Basics
  import opened Displays
  import opened CommandQueue

  /** How a run ends: in a state, or with an event that could not happen, or with an access that
      the language leaves undefined. */
  datatype Result = Reached(state: State) | Impossible | Undefined

  function Run(s: State, events: seq<Event>): Result
    decreases |events|
  {
    if events == [] then Reached(s)
    else if !Enabled(s, events[0]) then Impossible
    else if !Safe(s, events[0]) then Undefined
    else Run(Step(s, events[0]), events[1..])
  }

  lemma {:induction false} RunInv(s: State, events: seq<Event>)
    requires Inv(s)
    ensures var r := Run(s, events); !r.Undefined? && (r.Reached? ==> Inv(r.state))
    decreases |events|
  {
    if events == [] {
    } else if Enabled(s, events[0]) {
      StepInv(s, events[0]);
      RunInv(Step(s, events[0]), events[1..]);
    }
  }

  /** In no interleaving of the threads does an access go wrong: the main thread never looks at
      the front of an empty queue, never uses or deletes a command that has been deleted, never
      treats a command as one of another class, and pops exactly the pointer that it fronted. */
  lemma NothingUndefined(setup: Setup, events: seq<Event>)
    ensures !Run(Init(setup), events).Undefined?
  {
    InitInv(setup);
    RunInv(Init(setup), events);
  }

  /** Each command is applied exactly once and in the order of the pushes: at any time the
      commands applied and then the ones whose pointers wait in the queue are the commands pushed. */
  lemma FirstInFirstOut(setup: Setup, events: seq<Event>)
    requires Run(Init(setup), events).Reached?
    ensures var s := Run(Init(setup), events).state;
            && AllIn(PendingQueue(s), s.heap)
            && s.pushed == s.applied + Contents(PendingQueue(s), s.heap)
            && (s.queue == [] ==> s.applied == s.pushed)
  {
    InitInv(setup);
    RunInv(Init(setup), events);
  }

  /** The atomic queue that the threads together implement. */
  datatype Fifo = Fifo(applied: seq<Command>, waiting: seq<Command>)

  ghost function Abstract(s: State): Fifo
    requires Inv(s)
  {
    Fifo(s.applied, Contents(PendingQueue(s), s.heap))
  }

  ghost predicate FifoStep(f: Fifo, g: Fifo) {
    || g == f
    || (exists c :: g == f.(waiting := f.waiting + [c]))
    || (f.waiting != [] && g == Fifo(f.applied + [f.waiting[0]], f.waiting[1..]))
  }

  /** Every step of every thread is, on the atomic queue, one enqueue, one dequeue or nothing. */
  lemma Refines(s: State, e: Event)
    requires Inv(s) && Enabled(s, e)
    ensures Safe(s, e) && Inv(Step(s, e)) && FifoStep(Abstract(s), Abstract(Step(s, e)))
  {
    StepInv(s, e);
    var s' := Step(s, e);
    var f, g := Abstract(s), Abstract(s');
    assert s'.pushed == g.applied + g.waiting && s.pushed == f.applied + f.waiting;
    if g.applied == f.applied {
      Cancel(f.applied, f.waiting, g.waiting);
      PushesAtMostOne(s, e);
    } else {
      AppliesHead(s, e);
      Cancel(g.applied, f.waiting[1..], g.waiting);
    }
  }

  lemma Cancel<T>(a: seq<T>, b: seq<T>, c: seq<T>)
    ensures a + b == a + c ==> b == c
    ensures forall x :: a + b + [x] == a + c ==> c == b + [x]
  {
    if a + b == a + c {
      assert b == (a + b)[|a|..] && c == (a + c)[|a|..];
    }
    forall x | a + b + [x] == a + c
      ensures c == b + [x]
    {
      assert c == (a + c)[|a|..] && b + [x] == (a + b + [x])[|a|..];
    }
  }

  lemma PushesAtMostOne(s: State, e: Event)
    requires Enabled(s, e) && Safe(s, e)
    ensures var s' := Step(s, e); s'.pushed == s.pushed || exists c :: s'.pushed == s.pushed + [c]
    ensures var s' := Step(s, e); s'.applied != s.applied ==> e.MainStep? && s.pc.Apply? && s'.pushed == s.pushed
  {
  }

  lemma AppliesHead(s: State, e: Event)
    requires Inv(s) && Enabled(s, e) && Safe(s, e) && Step(s, e).applied != s.applied
    ensures var f, s' := Abstract(s), Step(s, e);
            f.waiting != [] && s'.applied == f.applied + [f.waiting[0]] && s'.pushed == s.pushed
            && s.pushed == s'.applied + f.waiting[1..]
  {
    PushesAtMostOne(s, e);
    assert PendingQueue(s) == s.queue;
    var f := Abstract(s);
    assert f.waiting == [f.waiting[0]] + f.waiting[1..];
    Assoc(f.applied, [f.waiting[0]], f.waiting[1..]);
  }

  /** How many actions the main thread takes in a run, and how many of them enter `processQueue`. */
  function MainSteps(events: seq<Event>): nat {
    if events == [] then 0 else (if events[0].MainStep? then 1 else 0) + MainSteps(events[1..])
  }

  predicate InLoop(s: State, events: seq<Event>)
    decreases |events|
  {
    events == [] || (
      Enabled(s, events[0]) && Safe(s, events[0])
      && !(events[0].MainStep? && s.pc.Outside?)
      && InLoop(Step(s, events[0]), events[1..]))
  }

  /** The actions that the main thread has still to take for what is in the queue: ten for each
      turn of the loop, and the test that ends it. */
  function Work(s: State): int {
    10 * |s.queue| + match s.pc
                     case Outside => 0
                     case Test => 1
                     case LockFront => 0
                     case Front => -1
                     case UnlockFront => -2
                     case Apply => -3
                     case Spin => -4
                     case Delete => -5
                     case LockPop => -6
                     case Pop => -7
                     case UnlockPop => 2
  }

  lemma WorkStep(s: State, e: Event)
    requires FrontInv(s) && Enabled(s, e) && Safe(s, e) && !(e.MainStep? && s.pc.Outside?)
    ensures Work(s) >= 0
    ensures var s' := Step(s, e);
            && |s.pushed| <= |s'.pushed|
            && Work(s') + (if e.MainStep? then 1 else 0) <= Work(s) + 10 * (|s'.pushed| - |s.pushed|)
  {
    match e {
      case MainStep => WorkMain(s);
      case Start(_, _) =>
      case CallbackStep(t) =>
        assert CallbackNext(s, t).pc == s.pc;
    }
  }

  lemma WorkMain(s: State)
    requires FrontInv(s) && Enabled(s, MainStep) && Safe(s, MainStep) && !s.pc.Outside?
    ensures Work(s) >= 0
    ensures var s' := MainNext(s);
            s'.pushed == s.pushed && Work(s') + 1 <= Work(s)
  {
  }

  lemma {:induction false} WorkLeft(s: State, events: seq<Event>)
    requires Inv(s) && InLoop(s, events)
    ensures var r := Run(s, events);
            && r.Reached? && Inv(r.state)
            && |s.pushed| <= |r.state.pushed|
            && Work(r.state) >= 0
            && MainSteps(events) + Work(r.state) <= Work(s) + 10 * (|r.state.pushed| - |s.pushed|)
    decreases |events|
  {
    if events == [] {
    } else {
      StepInv(s, events[0]);
      WorkStep(s, events[0]);
      WorkLeft(Step(s, events[0]), events[1..]);
    }
  }

  /** `processQueue` ends: as long as the main thread stays in its loop, it takes no more than ten
      actions for each command in the queue and for each one pushed meanwhile, and two more. */
  lemma LoopEnds(s: State, events: seq<Event>)
    requires Inv(s) && InLoop(s, events)
    ensures var r := Run(s, events);
            && r.Reached?
            && |s.pushed| <= |r.state.pushed|
            && MainSteps(events) <= 10 * (|s.queue| + |r.state.pushed| - |s.pushed|) + 2
  {
    WorkLeft(s, events);
  }

  /** The two threads are never both between taking and releasing the lock, and the main thread
      does not hold it while it applies or deletes a command, except inside a nested push. */
  lemma LockDiscipline(setup: Setup, events: seq<Event>)
    requires Run(Init(setup), events).Reached?
    ensures var s := Run(Init(setup), events).state;
            && !(HoldsLock(s, Main) && HoldsLock(s, Spinner))
            && (s.pc.Apply? || s.pc.Delete? || (s.pc.Spin? && s.mainCallback.Idle?) ==> s.lock != Some(Main))
            && (s.mainCallback.Running? && s.mainCallback.phase.Lock? ==> s.lock != Some(Main))
  {
    InitInv(setup);
    RunInv(Init(setup), events);
    var s := Run(Init(setup), events).state;
    assert s.lock == Some(Main) <==> HoldsLock(s, Main);
    assert s.lock == Some(Spinner) <==> HoldsLock(s, Spinner);
  }

  /** The main thread is calling back, or may begin to: then it has just applied a command that adds a display. */
  predicate CallsBackInAdd(s: State) {
    s.pc.Spin? || s.mainCallback.Running? ==>
      s.pc.Spin? && s.applied != [] && s.applied[|s.applied| - 1].typeString == AddTag
  }

  lemma {:induction false} RunCallsBack(s: State, events: seq<Event>)
    requires CallsBackInAdd(s)
    ensures var r := Run(s, events); r.Reached? ==> CallsBackInAdd(r.state)
    decreases |events|
  {
    if events == [] {
    } else if Enabled(s, events[0]) && Safe(s, events[0]) {
      RunCallsBack(Step(s, events[0]), events[1..]);
    }
  }

  /** The loop runs callbacks of its own thread only inside the adding of a display, and it gives them the
      opportunity in every such one. */
  lemma CallsBackInAdds(setup: Setup, events: seq<Event>)
    requires Run(Init(setup), events).Reached?
    ensures var s := Run(Init(setup), events).state;
            && CallsBackInAdd(s)
            && (s.pc.Apply? ==> Enabled(s, MainStep) && Safe(s, MainStep)
                                && (Step(s, MainStep).pc.Spin? <==> s.heap[s.comm].typeString == AddTag))
  {
    InitInv(setup);
    RunInv(Init(setup), events);
    RunCallsBack(Init(setup), events);
  }

  /** What the thread would do next. */
  function NextOf(s: State, t: Thread): Event {
    if s.CallbackOf(t).Running? then CallbackStep(t) else MainStep
  }

  /** No run gets stuck: a thread that waits for the lock waits for the other thread, and whoever
      holds the lock can go on. */
  lemma NoDeadlock(setup: Setup, events: seq<Event>)
    requires Run(Init(setup), events).Reached?
    ensures var s := Run(Init(setup), events).state;
            && (s.lock.Some? ==> Enabled(s, NextOf(s, s.lock.value)))
            && (Enabled(s, NextOf(s, Main)) || s.lock == Some(Spinner))
            && (s.spinnerCallback.Running? ==> Enabled(s, CallbackStep(Spinner)) || s.lock == Some(Main))
  {
    InitInv(setup);
    RunInv(Init(setup), events);
    var s := Run(Init(setup), events).state;
    assert s.lock == Some(Main) <==> HoldsLock(s, Main);
    assert s.lock == Some(Spinner) <==> HoldsLock(s, Spinner);
  }

  /** Every command object in existence has exactly one owner. */
  lemma OneOwner(setup: Setup, events: seq<Event>, p: nat)
    requires Run(Init(setup), events).Reached? && p in Run(Init(setup), events).state.heap
    ensures var s := Run(Init(setup), events).state;
            && (p in LiveQueue(s) || Holds(s, Main, p) || Holds(s, Spinner, p))
            && !(p in s.queue && Holds(s, Main, p)) && !(p in s.queue && Holds(s, Spinner, p))
            && !(Holds(s, Main, p) && Holds(s, Spinner, p))
            && forall i, j :: 0 <= i < j < |s.queue| && s.queue[i] == p ==> s.queue[j] != p
  {
    InitInv(setup);
    RunInv(Init(setup), events);
  }
}
