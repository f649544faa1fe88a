/** The viewer keeps to one marker display exactly as long as resets do not overlap. */
module ResetRuns {
  import opened Basics
  import opened Displays
  import opened CommandQueue
  import opened QueueRuns
  import opened ViewerState

  lemma {:induction false} RunAppend(s: State, a: seq<Event>, b: seq<Event>)
    requires Run(s, a).Reached?
    ensures Run(s, a + b) == Run(Run(s, a).state, b)
    decreases |a|
  {
    if a == [] {
      assert a + b == b;
    } else {
      RunAppend(Step(s, a[0]), a[1..], b);
      assert (a + b)[0] == a[0] && (a + b)[1..] == a[1..] + b;
    }
  }

  lemma OneStep(s: State, e: Event)
    requires Enabled(s, e) && Safe(s, e)
    ensures Run(s, [e]) == Reached(Step(s, e))
  {
    assert [e][1..] == [];
  }

  /** The main thread left alone, with no callback under way, empties the queue. */
  lemma {:induction false} Drain(s: State) returns (events: seq<Event>)
    requires Inv(s) && s.mainCallback.Idle? && s.spinnerCallback.Idle? && !s.pc.Outside?
    ensures var r := Run(s, events);
            && r.Reached? && Inv(r.state) && r.state.queue == [] && r.state.pc.Test?
            && r.state.pushed == s.pushed && r.state.fixedFrame == s.fixedFrame
            && r.state.mainCallback.Idle? && r.state.spinnerCallback.Idle?
    decreases Work(s)
  {
    if s.pc.Test? && s.queue == [] {
      events := [];
    } else {
      assert s.lock == Some(Spinner) <==> HoldsLock(s, Spinner);
      assert s.lock == Some(Main) <==> HoldsLock(s, Main);
      StepInv(s, MainStep);
      WorkStep(s, MainStep);
      MainKeeps(s);
      events := Drain(Step(s, MainStep));
      OneStep(s, MainStep);
      RunAppend(s, [MainStep], events);
      events := [MainStep] + events;
    }
  }

  /** A run goes on with one more event. */
  lemma OneMore(s: State, events: seq<Event>, now: State, e: Event)
    requires Run(s, events) == Reached(now) && Enabled(now, e) && Safe(now, e)
    ensures Run(s, events + [e]) == Reached(Step(now, e))
  {
    OneStep(now, e);
    RunAppend(s, events, [e]);
  }

  predicate HasTurn(s: State, t: Thread) {
    s.CallbackOf(t).Running? && s.CallbackOf(t).index < |CommandsOf(s.CallbackOf(t))|
  }

  /** The callback has made its next command. */
  function Made(s: State, t: Thread): State
    requires HasTurn(s, t)
  {
    var made := s.CallbackOf(t).(frame := s.fixedFrame);
    s.(heap := s.heap[s.next := CommandsOf(made)[made.index]], next := s.next + 1)
     .WithCallback(t, made.(phase := Lock, holding := Some(s.next)))
  }

  function Locked(s: State, t: Thread): State
    requires HasTurn(s, t)
  {
    s.(lock := Some(t)).WithCallback(t, s.CallbackOf(t).(phase := Push))
  }

  /** It has pushed the command and released the lock. */
  function Pushed(s: State, t: Thread): State
    requires HasTurn(s, t) && s.CallbackOf(t).holding.Some? && s.CallbackOf(t).holding.value in s.heap
  {
    var cb := s.CallbackOf(t);
    var last := cb.index + 1 == |CommandsOf(cb)| && !cb.message.BaseFrameMessage?;
    s.(queue := s.queue + [cb.holding.value], pushed := s.pushed + [s.heap[cb.holding.value]], lock := None)
     .WithCallback(t, if last then Idle else cb.(index := cb.index + 1, phase := New, holding := None))
  }

  predicate ReadyToPush(s: State, t: Thread) {
    s.lock.None? && HasTurn(s, t) && s.CallbackOf(t).phase.New? && s.CallbackOf(t).holding.None?
  }

  /** The callback has its turn: it makes the command, takes the lock, pushes and releases the lock. */
  lemma ThenPush(s: State, events: seq<Event>, now: State, t: Thread) returns (events': seq<Event>, s': State)
    requires Run(s, events) == Reached(now) && ReadyToPush(now, t)
    ensures Run(s, events') == Reached(s') && s' == Pushed(Locked(Made(now, t), t), t)
    ensures forall e :: e in events' ==> e in events || e == CallbackStep(t)
  {
    var e := CallbackStep(t);
    var s1 := MakeTurn(s, events, now, t);
    var s2 := LockTurn(s, events + [e], s1, t);
    events', s' := PushTurn(s, events + [e] + [e], s2, t);
  }

  lemma MakeTurn(s: State, events: seq<Event>, now: State, t: Thread) returns (s': State)
    requires Run(s, events) == Reached(now) && ReadyToPush(now, t)
    ensures Run(s, events + [CallbackStep(t)]) == Reached(s') && s' == Made(now, t)
  {
    OneMore(s, events, now, CallbackStep(t));
    s' := Step(now, CallbackStep(t));
  }

  lemma LockTurn(s: State, events: seq<Event>, now: State, t: Thread) returns (s': State)
    requires Run(s, events) == Reached(now) && now.lock.None? && HasTurn(now, t) && now.CallbackOf(t).phase.Lock?
    ensures Run(s, events + [CallbackStep(t)]) == Reached(s') && s' == Locked(now, t)
  {
    OneMore(s, events, now, CallbackStep(t));
    s' := Step(now, CallbackStep(t));
  }

  lemma PushTurn(s: State, events: seq<Event>, now: State, t: Thread) returns (events': seq<Event>, s': State)
    requires Run(s, events) == Reached(now) && HasTurn(now, t) && now.CallbackOf(t).phase.Push?
    requires now.CallbackOf(t).holding.Some? && now.CallbackOf(t).holding.value in now.heap
    ensures Run(s, events') == Reached(s') && s' == Pushed(now, t)
    ensures forall e :: e in events' ==> e in events || e == CallbackStep(t)
  {
    var e := CallbackStep(t);
    OneMore(s, events, now, e);
    var s1 := Step(now, e);
    OneMore(s, events + [e], s1, e);
    events', s' := events + [e] + [e], Step(s1, e);
  }

  /** A callback of the reset subscription is about to make its command of that index. */
  predicate ResetAt(cb: Callback, index: nat) {
    cb.Running? && cb.message.ResetMessage? && cb.index == index && cb.phase.New? && cb.holding.None?
  }

  /** A reset has its first turn. */
  lemma ThenRemove(s: State, events: seq<Event>, now: State, t: Thread) returns (events': seq<Event>, s': State)
    requires Run(s, events) == Reached(now) && now.lock.None?
    requires ResetAt(now.CallbackOf(t), 0)
    ensures Run(s, events') == Reached(s')
    ensures s'.lock.None? && s'.pc == now.pc && s'.pushed == now.pushed + [RemoveDisplayCommand(MarkerArray)]
    ensures ResetAt(s'.CallbackOf(t), 1)
    ensures s'.CallbackOf(OtherThread(t)) == now.CallbackOf(OtherThread(t))
  {
    events', s' := ThenPush(s, events, now, t);
  }

  /** And its second one. */
  lemma ThenAdd(s: State, events: seq<Event>, now: State, t: Thread) returns (events': seq<Event>, s': State)
    requires Run(s, events) == Reached(now) && now.lock.None?
    requires ResetAt(now.CallbackOf(t), 1)
    ensures Run(s, events') == Reached(s')
    ensures s'.lock.None? && s'.pc == now.pc && s'.pushed == now.pushed + [AddMarkers()] && s'.CallbackOf(t).Idle?
    ensures s'.CallbackOf(OtherThread(t)) == now.CallbackOf(OtherThread(t))
  {
    events', s' := ThenPush(s, events, now, t);
  }

  function Ahead(pc: Pc): nat {
    match pc
    case Outside => 6
    case Test => 5
    case LockFront => 4
    case Front => 3
    case UnlockFront => 2
    case Apply => 1
    case _ => 0
  }

  /** The first turn of the loop up to `spinOnce`. */
  lemma FirstTurn(setup: Setup) returns (events: seq<Event>, s: State)
    ensures Run(Init(setup), events) == Reached(s) && Inv(s)
    ensures s == Init(setup).(pc := Spin, manager := s.manager, applied := [AddMarkers()])
    ensures forall e :: e in events ==> e == MainStep
  {
    InitInv(setup);
    s, events := Init(setup), [];
    while !s.pc.Spin?
      invariant Run(Init(setup), events) == Reached(s) && Inv(s) && s.heap == map[0 := AddMarkers()]
      invariant s == Init(setup).(pc := s.pc, lock := s.lock, manager := s.manager, applied := s.applied)
      invariant s.pc.Outside? || s.pc.Test? || s.pc.LockFront? || s.pc.Front? || s.pc.UnlockFront? || s.pc.Apply?
                || s.pc.Spin?
      invariant s.lock == if s.pc.Front? || s.pc.UnlockFront? then Some(Main) else None
      invariant s.applied == if s.pc.Spin? then [AddMarkers()] else []
      invariant forall e :: e in events ==> e == MainStep
      decreases Ahead(s.pc)
    {
      StepInv(s, MainStep);
      OneMore(Init(setup), events, s, MainStep);
      s, events := Step(s, MainStep), events + [MainStep];
    }
  }

  /** Two resets start while the first command is being applied, both push their removals, and then
      both push their additions. */
  lemma BothReset(s: State) returns (events: seq<Event>, s': State)
    requires s.setup.overlap && s.pc.Spin? && s.lock.None? && s.mainCallback.Idle? && s.spinnerCallback.Idle?
    ensures Run(s, events) == Reached(s')
    ensures s'.mainCallback.Idle? && s'.spinnerCallback.Idle? && s'.pc.Spin?
    ensures var remove, add := RemoveDisplayCommand(MarkerArray), AddMarkers();
            s'.pushed == s.pushed + [remove] + [remove] + [add] + [add]
  {
    var s1 := Step(s, Start(Main, ResetMessage));
    OneMore(s, [], s, Start(Main, ResetMessage));
    OneMore(s, [] + [Start(Main, ResetMessage)], s1, Start(Spinner, ResetMessage));
    events := [] + [Start(Main, ResetMessage)] + [Start(Spinner, ResetMessage)];
    s' := Step(s1, Start(Spinner, ResetMessage));
    events, s' := ThenRemove(s, events, s', Main);
    events, s' := ThenRemove(s, events, s', Spinner);
    events, s' := ThenAdd(s, events, s', Main);
    events, s' := ThenAdd(s, events, s', Spinner);
  }

  lemma CountNext(m: Manager, cs: seq<Command>, c: Command)
    requires AllTagged(cs) && WellTagged(c)
    ensures AllTagged(cs + [c])
    ensures var before := Count(ApplyAll(m, cs).displays, MarkerArray);
            Count(ApplyAll(m, cs + [c]).displays, MarkerArray)
            == if Effect(c, MarkerArray) < 0 && before == 0 then 0 else before + Effect(c, MarkerArray)
  {
    ApplyAllSnoc(m, cs, c);
    CountApply(ApplyAll(m, cs), c, MarkerArray);
  }

  lemma AddTwice(m: Manager, cs: seq<Command>, add: Command)
    requires AllTagged(cs) && WellTagged(add) && Effect(add, MarkerArray) == 1
    requires Count(ApplyAll(m, cs).displays, MarkerArray) == 0
    ensures AllTagged(cs + [add] + [add]) && Count(ApplyAll(m, cs + [add] + [add]).displays, MarkerArray) == 2
  {
    CountNext(m, cs, add);
    CountNext(m, cs + [add], add);
  }

  lemma RemoveTwice(m: Manager, cs: seq<Command>, remove: Command)
    requires AllTagged(cs) && WellTagged(remove) && Effect(remove, MarkerArray) == -1
    requires Count(ApplyAll(m, cs).displays, MarkerArray) == 1
    ensures AllTagged(cs + [remove] + [remove])
            && Count(ApplyAll(m, cs + [remove] + [remove]).displays, MarkerArray) == 0
  {
    CountNext(m, cs, remove);
    CountNext(m, cs + [remove], remove);
  }

  lemma TwoLeft(m: Manager, cs: seq<Command>, remove: Command, add: Command)
    requires AllTagged(cs) && Count(ApplyAll(m, cs).displays, MarkerArray) == 1
    requires WellTagged(remove) && Effect(remove, MarkerArray) == -1
    requires WellTagged(add) && Effect(add, MarkerArray) == 1
    ensures var all := cs + [remove] + [remove] + [add] + [add];
            AllTagged(all) && Count(ApplyAll(m, all).displays, MarkerArray) == 2
  {
    RemoveTwice(m, cs, remove);
    AddTwice(m, cs + [remove] + [remove], add);
  }

  /** When everything has been applied. */
  lemma Drained(s: State)
    requires FifoInv(s) && s.queue == [] && s.setup.blank.displays == []
    requires var remove, add := RemoveDisplayCommand(MarkerArray), AddMarkers();
             s.pushed == [] + [add] + [remove] + [remove] + [add] + [add]
    ensures Count(s.manager.displays, MarkerArray) == 2
  {
    var remove, add := RemoveDisplayCommand(MarkerArray), AddMarkers();
    assert s.applied + [] == s.applied == s.pushed;
    CountNext(s.setup.blank, [], add);
    TwoLeft(s.setup.blank, [] + [add], remove, add);
  }

  /** If resets may overlap, a run leaves two marker displays. */
  lemma OverlappingResets(setup: Setup) returns (events: seq<Event>)
    requires setup.overlap && setup.blank.displays == []
    ensures var r := Run(Init(setup), events);
            r.Reached? && Count(r.state.manager.displays, MarkerArray) == 2
  {
    var s1, s2, s3;
    events, s1 := FirstTurn(setup);
    events, s2 := ThenBothReset(Init(setup), events, s1);
    InitInv(setup);
    RunInv(Init(setup), events);
    events, s3 := ThenDrain(Init(setup), events, s2);
    SetupStays(Init(setup), events);
    assert [] + [AddMarkers()] == s1.pushed;
    Drained(s3);
  }

  lemma ThenBothReset(s: State, events: seq<Event>, now: State) returns (events': seq<Event>, s': State)
    requires Run(s, events) == Reached(now)
    requires now.setup.overlap && now.pc.Spin? && now.lock.None? && now.mainCallback.Idle? && now.spinnerCallback.Idle?
    ensures Run(s, events') == Reached(s')
    ensures s'.mainCallback.Idle? && s'.spinnerCallback.Idle? && s'.pc.Spin?
    ensures var remove, add := RemoveDisplayCommand(MarkerArray), AddMarkers();
            s'.pushed == now.pushed + [remove] + [remove] + [add] + [add]
  {
    var more;
    more, s' := BothReset(now);
    RunAppend(s, events, more);
    events' := events + more;
  }

  lemma ThenDrain(s: State, events: seq<Event>, now: State) returns (events': seq<Event>, s': State)
    requires Run(s, events) == Reached(now)
    requires Inv(now) && now.mainCallback.Idle? && now.spinnerCallback.Idle? && !now.pc.Outside?
    ensures Run(s, events') == Reached(s') && Inv(s') && s'.queue == [] && s'.pc.Test?
    ensures s'.pushed == now.pushed && s'.fixedFrame == now.fixedFrame
    ensures s'.mainCallback.Idle? && s'.spinnerCallback.Idle?
  {
    var more := Drain(now);
    RunAppend(s, events, more);
    events', s' := events + more, Run(now, more).state;
  }

  /** There is at most one marker display in every run if and only if callbacks of one subscription
      do not overlap. */
  lemma OneMarkerIffApart(setup: Setup)
    requires setup.blank.displays == []
    ensures !setup.overlap <==>
            forall events :: Run(Init(setup), events).Reached? ==>
                               Count(Run(Init(setup), events).state.manager.displays, MarkerArray) <= 1
  {
    if setup.overlap {
      var events := OverlappingResets(setup);
      assert Run(Init(setup), events).Reached?;
    } else {
      forall events | Run(Init(setup), events).Reached?
        ensures Count(Run(Init(setup), events).state.manager.displays, MarkerArray) <= 1
      {
        OneMarkerDisplay(setup, events);
      }
    }
  }
}
