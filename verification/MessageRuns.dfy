/** What each message comes to: the callback that it starts runs to its end, and then the main thread
    empties the queue. */
module MessageRuns {
  import opened Basics
  import opened Displays
  import opened CommandQueue
  import opened QueueRuns
  import opened ViewerState
  import opened ResetRuns

  /** No callback is under way, and everything pushed has been applied. */
  ghost predicate AtRest(s: State) {
    Inv(s) && s.mainCallback.Idle? && s.spinnerCallback.Idle? && s.pc.Test? && s.queue == []
  }

  lemma RestShows(s: State)
    requires AtRest(s)
    ensures AllTagged(s.pushed) && s.manager == ApplyAll(s.setup.blank, s.pushed) && s.lock.None?
  {
    assert s.applied + [] == s.applied;
    assert s.lock == Some(Main) <==> HoldsLock(s, Main);
    assert s.lock == Some(Spinner) <==> HoldsLock(s, Spinner);
  }

  /** The callback starts. */
  lemma Begun(s: State, m: Message) returns (events: seq<Event>, s': State)
    requires AtRest(s)
    ensures Run(s, events) == Reached(s') && s' == s.(spinnerCallback := s'.spinnerCallback)
    ensures s'.spinnerCallback == Running(m, s.fixedFrame, s.fixedFrame, 0, New, None)
  {
    OneStep(s, Start(Spinner, m));
    events, s' := [Start(Spinner, m)], Step(s, Start(Spinner, m));
  }

  /** A callback that pushes one command. */
  lemma PushesOne(s: State, m: Message) returns (events: seq<Event>, s': State)
    requires AtRest(s) && (m.FrameRateMessage? || m.WorldFrameMessage?)
    ensures Run(s, events) == Reached(s') && s'.pc == s.pc && s'.mainCallback.Idle? && s'.spinnerCallback.Idle?
    ensures s'.fixedFrame == s.fixedFrame
    ensures s'.pushed == s.pushed + [if m.FrameRateMessage? then SetFrameRateCommand(m.rate)
                                     else if m.show && s.fixedFrame != Empty then
                                       AddDisplayCommand(Axes, RvizAxes, Empty, Empty, s.fixedFrame)
                                     else RemoveDisplayCommand(Axes)]
  {
    RestShows(s);
    var now;
    events, now := Begun(s, m);
    events, s' := ThenPush(s, events, now, Spinner);
  }

  /** A base-frame callback assigns the frame when it has pushed its command. */
  lemma PushesFrame(s: State, frame: Text) returns (events: seq<Event>, s': State)
    requires AtRest(s)
    ensures Run(s, events) == Reached(s') && s'.pc == s.pc && s'.mainCallback.Idle? && s'.spinnerCallback.Idle?
    ensures s'.fixedFrame == frame && s'.pushed == s.pushed + [SetFixedFrameCommand(frame)]
  {
    RestShows(s);
    var now;
    events, now := Begun(s, BaseFrameMessage(frame));
    events, now := ThenPush(s, events, now, Spinner);
    ResetRuns.OneMore(s, events, now, CallbackStep(Spinner));
    events, s' := events + [CallbackStep(Spinner)], Step(now, CallbackStep(Spinner));
  }

  lemma PushesReset(s: State) returns (events: seq<Event>, s': State)
    requires AtRest(s)
    ensures Run(s, events) == Reached(s') && s'.pc == s.pc && s'.mainCallback.Idle? && s'.spinnerCallback.Idle?
    ensures s'.pushed == s.pushed + [RemoveDisplayCommand(MarkerArray)] + [AddMarkers()]
  {
    RestShows(s);
    var now;
    events, now := Begun(s, ResetMessage);
    events, now := ThenRemove(s, events, now, Spinner);
    events, s' := ThenAdd(s, events, now, Spinner);
  }

  /** What was pushed is applied. */
  lemma ThenShown(s: State, events: seq<Event>, now: State) returns (events': seq<Event>, s': State)
    requires AtRest(s) && Run(s, events) == Reached(now)
    requires now.pc.Test? && now.mainCallback.Idle? && now.spinnerCallback.Idle?
    ensures Run(s, events') == Reached(s') && AtRest(s') && s'.fixedFrame == now.fixedFrame
    ensures AllTagged(now.pushed) && s'.manager == ApplyAll(s.setup.blank, now.pushed)
  {
    RunInv(s, events);
    events', s' := ThenDrain(s, events, now);
    RestShows(s');
    SetupStays(s, events');
  }

  /** A base-frame message: the viewer shows that frame, and `fixedFrame_` is that frame. */
  lemma FrameShown(s: State, frame: Text) returns (events: seq<Event>, s': State)
    requires AtRest(s)
    ensures Run(s, events) == Reached(s') && AtRest(s')
    ensures s'.fixedFrame == frame && s'.manager == s.manager.(fixedFrame := frame)
  {
    var now;
    events, now := PushesFrame(s, frame);
    events, s' := ThenShown(s, events, now);
    RestShows(s);
    ApplyAllSnoc(s.setup.blank, s.pushed, SetFixedFrameCommand(frame));
  }

  /** A frame-rate message: the viewer has that rate, the signed number taken as an unsigned one of 32 bits. */
  lemma RateShown(s: State, rate: int) returns (events: seq<Event>, s': State)
    requires AtRest(s) && -0x8000 <= rate < 0x8000
    ensures Run(s, events) == Reached(s') && AtRest(s')
    ensures s'.fixedFrame == s.fixedFrame
    ensures s'.manager == s.manager.(frameRate := if rate >= 0 then rate else rate + 0x1_0000_0000)
  {
    var now;
    events, now := PushesOne(s, FrameRateMessage(rate));
    events, s' := ThenShown(s, events, now);
    RestShows(s);
    ApplyAllSnoc(s.setup.blank, s.pushed, SetFrameRateCommand(rate));
  }

  /** A world-frame message: with `true`, and a fixed frame that is not empty, axes at this frame are
      shown; otherwise the first axes, if there are any, are taken away. */
  lemma AxesShown(s: State, show: bool) returns (events: seq<Event>, s': State)
    requires AtRest(s)
    ensures Run(s, events) == Reached(s') && AtRest(s') && s'.fixedFrame == s.fixedFrame
    ensures s'.manager == s.manager.(displays :=
              if show && s.fixedFrame != Empty then
                s.manager.displays + [Display(Axes, RvizAxes, Empty, Empty, s.fixedFrame)]
              else RemoveFirst(s.manager.displays, Axes))
    ensures !show ==> var n := Count(s.manager.displays, Axes);
                      Count(s'.manager.displays, Axes) == if n > 0 then n - 1 else 0
  {
    var now;
    events, now := PushesOne(s, WorldFrameMessage(show));
    events, s' := ThenShown(s, events, now);
    RestShows(s);
    ApplyAllSnoc(s.setup.blank, s.pushed, now.pushed[|s.pushed|]);
    AxesApplied(s.manager, s.fixedFrame);
  }

  lemma AxesApplied(m: Manager, frame: Text)
    ensures Displays.Apply(m, AddDisplayCommand(Axes, RvizAxes, Empty, Empty, frame))
         == m.(displays := m.displays + [Display(Axes, RvizAxes, Empty, Empty, frame)])
    ensures Displays.Apply(m, RemoveDisplayCommand(Axes)) == m.(displays := RemoveFirst(m.displays, Axes))
    ensures var n := Count(m.displays, Axes);
            Count(RemoveFirst(m.displays, Axes), Axes) == if n > 0 then n - 1 else 0
  {
    RemoveFirstCount(m.displays, Axes, Axes);
  }

  /** A reset: the first marker display is taken away, and a new one shown at the end. */
  lemma ResetShown(s: State) returns (events: seq<Event>, s': State)
    requires AtRest(s)
    ensures Run(s, events) == Reached(s') && AtRest(s')
    ensures s'.manager == s.manager.(displays :=
              RemoveFirst(s.manager.displays, MarkerArray)
              + [Display(MarkerArray, RvizMarkerArray, TheMarkers, MarkerArrayMessage, Empty)])
  {
    var now, remove := s, RemoveDisplayCommand(MarkerArray);
    events, now := PushesReset(s);
    events, s' := ThenShown(s, events, now);
    RestShows(s);
    ApplyAllSnoc(s.setup.blank, s.pushed, remove);
    ApplyAllSnoc(s.setup.blank, s.pushed + [remove], AddMarkers());
  }
}
