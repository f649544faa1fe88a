/** The world-frame callback tests the fixed frame and then reads it again for its command; a
    base-frame callback on the other thread may assign it in between. */
module AxesRuns {
  import opened Basics
  import opened Displays
  import opened CommandQueue
  import opened QueueRuns
  import opened ViewerState
  import opened ResetRuns

  /** The command adds no axes without a frame, as the test of the callback means it to be. */
  predicate NamesFrame(c: Command) {
    c.fields.AddDisplayFields? && c.fields.name == Axes ==> c.fields.frame != Empty
  }

  predicate AllNameFrames(cs: seq<Command>) {
    forall i :: 0 <= i < |cs| ==> NamesFrame(cs[i])
  }

  predicate Announces(e: Event, frames: set<Text>) {
    e.Start? && e.message.BaseFrameMessage? ==> e.message.frame in frames
  }

  /** The base frames announced in a run are among these. */
  predicate Sends(events: seq<Event>, frames: set<Text>) {
    forall e :: e in events ==> Announces(e, frames)
  }

  ghost predicate FrameRead(cb: Callback, fixedFrame: Text, frames: set<Text>) {
    cb.Running? ==>
      && (cb.tested != Empty ==> fixedFrame != Empty)
      && (cb.tested != Empty && cb.holding.Some? ==> cb.frame != Empty)
      && (cb.message.BaseFrameMessage? ==> cb.message.frame in frames)
  }

  ghost predicate AxesInv(s: State, frames: set<Text>) {
    && AllNameFrames(s.pushed)
    && FrameRead(s.mainCallback, s.fixedFrame, frames) && FrameRead(s.spinnerCallback, s.fixedFrame, frames)
    && (frames <= {Empty} ==> s.fixedFrame == Empty)
  }

  lemma AxesStep(s: State, e: Event, frames: set<Text>)
    requires Inv(s) && Enabled(s, e) && Safe(s, e) && Announces(e, frames)
    requires AxesInv(s, frames) && (Empty !in frames || frames <= {Empty})
    ensures AxesInv(Step(s, e), frames)
  {
    match e {
      case MainStep =>
        MainKeeps(s);
      case Start(t, m) =>
      case CallbackStep(t) =>
        AxesCallback(s, t, frames);
    }
  }

  lemma AxesCallback(s: State, t: Thread, frames: set<Text>)
    requires Inv(s) && Enabled(s, CallbackStep(t)) && Safe(s, CallbackStep(t))
    requires AxesInv(s, frames) && (Empty !in frames || frames <= {Empty})
    ensures AxesInv(CallbackNext(s, t), frames)
  {
    var s', cb, other := CallbackNext(s, t), s.CallbackOf(t), s.CallbackOf(OtherThread(t));
    assert s'.CallbackOf(OtherThread(t)) == other;
    assert FrameRead(cb, s.fixedFrame, frames) && FrameRead(other, s.fixedFrame, frames);
    CallbackReads(s, t, frames);
    if cb.index < |CommandsOf(cb)| && cb.phase.Push? {
      assert CallbackValid(s, t);
      NextNames(cb, s.fixedFrame, frames);
      assert s'.pushed == s.pushed + [CommandsOf(cb)[cb.index]];
    }
  }

  /** The callback itself, and the assignment of the frame under the other one. */
  lemma CallbackReads(s: State, t: Thread, frames: set<Text>)
    requires Enabled(s, CallbackStep(t)) && Safe(s, CallbackStep(t))
    requires FrameRead(s.CallbackOf(t), s.fixedFrame, frames)
    requires FrameRead(s.CallbackOf(OtherThread(t)), s.fixedFrame, frames)
    requires (frames <= {Empty} ==> s.fixedFrame == Empty) && (Empty !in frames || frames <= {Empty})
    ensures var s' := CallbackNext(s, t);
            && FrameRead(s'.CallbackOf(t), s'.fixedFrame, frames)
            && FrameRead(s.CallbackOf(OtherThread(t)), s'.fixedFrame, frames)
            && (frames <= {Empty} ==> s'.fixedFrame == Empty)
  {
    var s', cb := CallbackNext(s, t), s.CallbackOf(t);
    if cb.index >= |CommandsOf(cb)| {
      assert s'.CallbackOf(t).Idle?;
    } else {
      assert s'.fixedFrame == s.fixedFrame;
    }
  }

  lemma NextNames(cb: Callback, fixedFrame: Text, frames: set<Text>)
    requires FrameRead(cb, fixedFrame, frames) && cb.Running? && cb.holding.Some? && cb.index < |CommandsOf(cb)|
    ensures NamesFrame(CommandsOf(cb)[cb.index])
  {
  }

  lemma {:induction false} AxesRun(s: State, events: seq<Event>, frames: set<Text>)
    requires Inv(s) && Sends(events, frames) && AxesInv(s, frames) && (Empty !in frames || frames <= {Empty})
    ensures var r := Run(s, events); r.Reached? ==> AxesInv(r.state, frames)
    decreases |events|
  {
    if events == [] {
    } else if Enabled(s, events[0]) {
      assert events[0] in events && forall e :: e in events[1..] ==> e in events;
      StepInv(s, events[0]);
      AxesStep(s, events[0], frames);
      AxesRun(Step(s, events[0]), events[1..], frames);
    }
  }

  /* ---------- The run that goes wrong ---------- */

  /** A base-frame callback on the spinner thread, from its start to its end. */
  lemma SetFrame(s: State, events: seq<Event>, now: State, frame: Text) returns (events': seq<Event>, s': State)
    requires Run(s, events) == Reached(now) && now.lock.None? && now.spinnerCallback.Idle?
    requires now.mainCallback.Running? ==> !now.mainCallback.message.BaseFrameMessage?
    ensures Run(s, events') == Reached(s') && s'.lock.None? && s'.spinnerCallback.Idle? && s'.pc == now.pc
    ensures s'.mainCallback == now.mainCallback && s'.fixedFrame == frame
    ensures forall e :: e in events' ==> e in events || e == Start(Spinner, BaseFrameMessage(frame)) || !e.Start?
  {
    var start := Start(Spinner, BaseFrameMessage(frame));
    ResetRuns.OneMore(s, events, now, start);
    events', s' := ThenPush(s, events + [start], Step(now, start), Spinner);
    ResetRuns.OneMore(s, events', s', CallbackStep(Spinner));
    events', s' := events' + [CallbackStep(Spinner)], Step(s', CallbackStep(Spinner));
  }

  /** The world-frame callback tests the frame on the main thread. */
  lemma TestFrame(s: State, events: seq<Event>, now: State) returns (events': seq<Event>, s': State)
    requires Run(s, events) == Reached(now) && now.lock.None? && now.pc.Spin?
    requires now.mainCallback.Idle? && now.spinnerCallback.Idle?
    ensures Run(s, events') == Reached(s') && s'.lock.None? && s'.spinnerCallback.Idle?
    ensures s'.mainCallback == Running(WorldFrameMessage(true), now.fixedFrame, now.fixedFrame, 0, New, None)
    ensures forall e :: e in events' ==> e in events || e == Start(Main, WorldFrameMessage(true))
  {
    var start := Start(Main, WorldFrameMessage(true));
    ResetRuns.OneMore(s, events, now, start);
    events', s' := events + [start], Step(now, start);
  }

  /** It goes on when the frame is empty. */
  lemma AskForAxes(s: State, events: seq<Event>, now: State, tested: Text) returns (events': seq<Event>, s': State)
    requires Run(s, events) == Reached(now) && now.lock.None? && now.fixedFrame == Empty && tested != Empty
    requires now.mainCallback == Running(WorldFrameMessage(true), tested, tested, 0, New, None)
    ensures Run(s, events') == Reached(s') && !AllNameFrames(s'.pushed)
    ensures forall e :: e in events' ==> e in events || !e.Start?
  {
    events', s' := ThenPush(s, events, now, Main);
    assert s'.pushed == now.pushed + [AddDisplayCommand(Axes, RvizAxes, Empty, Empty, Empty)];
    assert !NamesFrame(s'.pushed[|now.pushed|]);
  }

  /** The axes are asked for while the frame is `frame`, and the frame is taken back in between. */
  lemma AxesWithoutFrame(setup: Setup, frame: Text) returns (events: seq<Event>)
    requires frame != Empty
    ensures Sends(events, {Empty, frame})
    ensures var r := Run(Init(setup), events); r.Reached? && !AllNameFrames(r.state.pushed)
  {
    var s;
    events, s := FirstTurn(setup);
    events, s := SetFrame(Init(setup), events, s, frame);
    events, s := TestFrame(Init(setup), events, s);
    events, s := SetFrame(Init(setup), events, s, Empty);
    events, s := AskForAxes(Init(setup), events, s, frame);
  }

  /** No run asks for axes without a frame if and only if the empty frame is never announced, or no
      other one is. */
  lemma AxesNameFrames(setup: Setup, frames: set<Text>)
    ensures (forall events :: Sends(events, frames) && Run(Init(setup), events).Reached? ==>
                                AllNameFrames(Run(Init(setup), events).state.pushed))
            <==> Empty !in frames || frames <= {Empty}
  {
    if Empty !in frames || frames <= {Empty} {
      forall events | Sends(events, frames) && Run(Init(setup), events).Reached?
        ensures AllNameFrames(Run(Init(setup), events).state.pushed)
      {
        InitInv(setup);
        AxesRun(Init(setup), events, frames);
      }
    } else {
      var frame :| frame in frames && frame != Empty;
      var events := AxesWithoutFrame(setup, frame);
      assert Sends(events, frames);
      assert Run(Init(setup), events).Reached?;
    }
  }
}
