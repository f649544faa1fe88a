/** What the viewer shows in every run: its one marker display, and the fixed frame. */
module ViewerState {
  import opened Basics
  import opened Displays
  import opened CommandQueue
  import opened QueueRuns

  /** The callbacks of one subscription do not overlap. */
  ghost predicate Apart(s: State) {
    !s.setup.overlap && (s.mainCallback.Running? && s.spinnerCallback.Running? ==>
      !SameSubscription(s.mainCallback.message, s.spinnerCallback.message))
  }

  /* ---------- The marker display ---------- */

  /** The adds (true) and removes (false) of the marker display among the commands. */
  function Markers(cs: seq<Command>): seq<bool>
    requires AllTagged(cs)
  {
    if cs == [] then [] else Markers(cs[..|cs| - 1]) + MarkerOf(cs[|cs| - 1])
  }

  function MarkerOf(c: Command): seq<bool>
    requires WellTagged(c)
  {
    if Effect(c, MarkerArray) > 0 then [true] else if Effect(c, MarkerArray) < 0 then [false] else []
  }

  lemma MarkersSnoc(cs: seq<Command>, c: Command)
    requires AllTagged(cs) && WellTagged(c)
    ensures AllTagged(cs + [c]) && Markers(cs + [c]) == Markers(cs) + MarkerOf(c)
  {
    assert (cs + [c])[..|cs|] == cs;
  }

  lemma MoreMarkers(a: seq<Command>, front: seq<Command>, last: Command)
    requires AllTagged(a) && AllTagged(front) && WellTagged(last)
    requires AllTagged(a + front) && Markers(a + front) == Markers(a) + Markers(front)
    ensures var b := front + [last];
            AllTagged(b) && AllTagged(a + b) && Markers(a + b) == Markers(a) + Markers(b)
  {
    Assoc(a, front, [last]);
    MarkersSnoc(a + front, last);
    MarkersSnoc(front, last);
    Assoc(Markers(a), Markers(front), MarkerOf(last));
  }

  lemma {:induction false} MarkersAppend(a: seq<Command>, b: seq<Command>)
    requires AllTagged(a) && AllTagged(b)
    ensures AllTagged(a + b) && Markers(a + b) == Markers(a) + Markers(b)
  {
    if b == [] {
      assert a + b == a;
    } else {
      var front, last := b[..|b| - 1], b[|b| - 1];
      MarkersAppend(a, front);
      assert b == front + [last];
      MoreMarkers(a, front, last);
    }
  }

  /** Adds and removes take turns, beginning with an add. */
  ghost predicate Alternating(m: seq<bool>) {
    (m != [] ==> m[0]) && forall i :: 0 <= i < |m| - 1 ==> m[i] != m[i + 1]
  }

  lemma AlternatingStart(a: seq<bool>, b: seq<bool>)
    requires Alternating(a + b)
    ensures Alternating(a)
  {
    forall i | 0 <= i < |a| - 1
      ensures a[i] != a[i + 1]
    {
      assert (a + b)[i] != (a + b)[i + 1];
    }
    assert a != [] ==> a[0] == (a + b)[0];
  }

  /** Then the displays hold one marker display after an add, and none after a remove. */
  lemma {:induction false} AlternatingCount(m: Manager, cs: seq<Command>)
    requires AllTagged(cs) && Alternating(Markers(cs)) && m.displays == []
    ensures Count(ApplyAll(m, cs).displays, MarkerArray)
         == if Markers(cs) != [] && Markers(cs)[|Markers(cs)| - 1] then 1 else 0
  {
    if cs == [] {
    } else {
      var front, last := cs[..|cs| - 1], cs[|cs| - 1];
      AlternatingStart(Markers(front), MarkerOf(last));
      AlternatingCount(m, front);
      CountApply(ApplyAll(m, front), last, MarkerArray);
      if MarkerOf(last) != [] && Markers(front) != [] {
        var n := |Markers(front)|;
        assert Markers(cs)[n - 1] != Markers(cs)[n];
      }
    }
  }

  /** A reset that has pushed its removal and not yet its addition. */
  predicate HalfReset(cb: Callback) {
    cb.Running? && cb.message.ResetMessage?
    && ((cb.index == 0 && cb.phase.Unlock?) || (cb.index == 1 && !cb.phase.Unlock?))
  }

  predicate ResetInProgress(s: State) {
    HalfReset(s.mainCallback) || HalfReset(s.spinnerCallback)
  }

  ghost predicate MarkerInv(s: State) {
    && AllTagged(s.pushed) && Alternating(Markers(s.pushed)) && Markers(s.pushed) != []
    && (Markers(s.pushed)[|Markers(s.pushed)| - 1] <==> !ResetInProgress(s))
  }

  lemma MarkerSnoc(s: State, s': State, c: Command)
    requires MarkerInv(s) && WellTagged(c) && s'.pushed == s.pushed + [c]
    requires if Effect(c, MarkerArray) > 0 then ResetInProgress(s) && !ResetInProgress(s')
             else if Effect(c, MarkerArray) < 0 then !ResetInProgress(s) && ResetInProgress(s')
             else ResetInProgress(s') == ResetInProgress(s)
    ensures MarkerInv(s')
  {
    MarkersSnoc(s.pushed, c);
  }

  lemma MarkerStep(s: State, e: Event)
    requires CallbackValid(s, Main) && CallbackValid(s, Spinner) && Apart(s) && MarkerInv(s)
    requires Enabled(s, e) && Safe(s, e)
    ensures Apart(Step(s, e)) && MarkerInv(Step(s, e))
  {
    match e {
      case MainStep =>
        MainKeeps(s);
      case Start(t, m) =>
        MarkerStart(s, t, m);
      case CallbackStep(t) =>
        MarkerCallback(s, t);
    }
  }

  lemma MainKeeps(s: State)
    requires Enabled(s, MainStep) && Safe(s, MainStep)
    ensures var s' := MainNext(s);
            && s'.pushed == s.pushed && s'.fixedFrame == s.fixedFrame
            && s'.mainCallback == s.mainCallback && s'.spinnerCallback == s.spinnerCallback
  {
  }

  lemma MarkerStart(s: State, t: Thread, m: Message)
    requires Apart(s) && MarkerInv(s) && Enabled(s, Start(t, m))
    ensures Apart(Step(s, Start(t, m))) && MarkerInv(Step(s, Start(t, m)))
  {
    var s' := Step(s, Start(t, m));
    assert s'.CallbackOf(OtherThread(t)) == s.CallbackOf(OtherThread(t)) && s'.pushed == s.pushed;
    assert ResetInProgress(s') == ResetInProgress(s);
  }

  lemma MarkerCallback(s: State, t: Thread)
    requires CallbackValid(s, t) && Apart(s) && MarkerInv(s)
    requires Enabled(s, CallbackStep(t)) && Safe(s, CallbackStep(t))
    ensures Apart(CallbackNext(s, t)) && MarkerInv(CallbackNext(s, t))
  {
    var s', cb, other := CallbackNext(s, t), s.CallbackOf(t), s.CallbackOf(OtherThread(t));
    assert s'.CallbackOf(OtherThread(t)) == other;
    HalfResets(s, t);
    HalfResets(s', t);
    if cb.index < |CommandsOf(cb)| && cb.phase.Push? {
      var c := s.heap[cb.holding.value];
      PushesHalf(cb, s'.CallbackOf(t), c);
      NotBothHalf(s, t, c);
      MarkerSnoc(s, s', c);
    } else {
      assert s'.pushed == s.pushed;
    }
  }

  lemma HalfResets(s: State, t: Thread)
    ensures ResetInProgress(s) <==> HalfReset(s.CallbackOf(t)) || HalfReset(s.CallbackOf(OtherThread(t)))
  {
  }

  /** A push turns a reset into a half one exactly if it is the push of a removal of the markers. */
  lemma PushesHalf(cb: Callback, cb': Callback, c: Command)
    requires cb.Running? && cb.index < |CommandsOf(cb)| && cb.phase.Push? && c == CommandsOf(cb)[cb.index]
    requires cb' == cb.(phase := Unlock, holding := None)
    ensures Effect(c, MarkerArray) > 0 ==> HalfReset(cb) && !HalfReset(cb') && cb.message.ResetMessage?
    ensures Effect(c, MarkerArray) < 0 ==> !HalfReset(cb) && HalfReset(cb') && cb.message.ResetMessage?
    ensures Effect(c, MarkerArray) == 0 ==> HalfReset(cb') == HalfReset(cb)
  {
  }

  /** While one thread runs a reset, the other one does not. */
  lemma NotBothHalf(s: State, t: Thread, c: Command)
    requires Apart(s)
    ensures s.CallbackOf(t).Running? && s.CallbackOf(t).message.ResetMessage? ==>
            !HalfReset(s.CallbackOf(OtherThread(t)))
  {
  }

  lemma {:induction false} MarkerRun(s: State, events: seq<Event>)
    requires Inv(s) && Apart(s) && MarkerInv(s)
    ensures var r := Run(s, events); r.Reached? ==> Inv(r.state) && Apart(r.state) && MarkerInv(r.state)
    decreases |events|
  {
    if events == [] {
    } else if Enabled(s, events[0]) {
      StepInv(s, events[0]);
      MarkerStep(s, events[0]);
      MarkerRun(Step(s, events[0]), events[1..]);
    }
  }

  /** A command that adds markers shows them as they should be. */
  predicate RightMarkers(c: Command) {
    c.fields.AddDisplayFields? && c.fields.name == MarkerArray ==>
      && c.fields.displayType == RvizMarkerArray && c.fields.topic == TheMarkers
      && c.fields.topicType == MarkerArrayMessage
  }

  predicate AllRight(cs: seq<Command>) {
    forall i :: 0 <= i < |cs| ==> RightMarkers(cs[i])
  }

  predicate RightDisplays(displays: seq<Display>) {
    forall d :: d in displays && d.name == MarkerArray ==>
      d.displayType == RvizMarkerArray && d.topic == TheMarkers && d.topicType == MarkerArrayMessage
  }

  lemma RightStep(s: State, e: Event)
    requires CallbackValid(s, Main) && CallbackValid(s, Spinner) && AllRight(s.pushed)
    requires Enabled(s, e) && Safe(s, e)
    ensures AllRight(Step(s, e).pushed)
  {
    match e {
      case MainStep => MainKeeps(s);
      case Start(_, _) =>
      case CallbackStep(t) =>
        var cb := s.CallbackOf(t);
        if cb.index < |CommandsOf(cb)| && cb.phase.Push? {
          assert CallbackValid(s, t);
          RightCommand(cb);
          assert Step(s, e).pushed == s.pushed + [CommandsOf(cb)[cb.index]];
        }
    }
  }

  lemma RightCommand(cb: Callback)
    requires cb.Running? && cb.index < |CommandsOf(cb)|
    ensures RightMarkers(CommandsOf(cb)[cb.index])
  {
  }

  lemma {:induction false} RightRun(s: State, events: seq<Event>)
    requires Inv(s) && AllRight(s.pushed)
    ensures var r := Run(s, events); r.Reached? ==> AllRight(r.state.pushed)
    decreases |events|
  {
    if events == [] {
    } else if Enabled(s, events[0]) {
      StepInv(s, events[0]);
      RightStep(s, events[0]);
      RightRun(Step(s, events[0]), events[1..]);
    }
  }

  lemma {:induction false} RightApplied(m: Manager, cs: seq<Command>)
    requires AllTagged(cs) && AllRight(cs) && m.displays == []
    ensures RightDisplays(ApplyAll(m, cs).displays)
  {
    if cs == [] {
    } else {
      var front, c := cs[..|cs| - 1], cs[|cs| - 1];
      RightApplied(m, front);
      assert RightMarkers(c);
      if c.typeString == AddTag {
        AddedLast(ApplyAll(m, front), c);
      } else if c.typeString == RemoveTag {
        RemovedFrom(ApplyAll(m, front).displays, c.fields.name);
      }
    }
  }

  lemma MarkersRight(setup: Setup, events: seq<Event>)
    requires setup.blank.displays == [] && Run(Init(setup), events).Reached?
    ensures RightDisplays(Run(Init(setup), events).state.manager.displays)
  {
    var s := Run(Init(setup), events).state;
    InitInv(setup);
    RunInv(Init(setup), events);
    RightRun(Init(setup), events);
    SetupStays(Init(setup), events);
    assert forall i :: 0 <= i < |s.applied| ==> s.applied[i] == s.pushed[i];
    RightApplied(setup.blank, s.applied);
  }

  /** When two resets never overlap there is at most one marker display in every run, and exactly
      one whenever all pushed commands have been applied and no reset is halfway.  Whatever marker display
      there is has the type, the topic and the type of messages that it should have. */
  lemma OneMarkerDisplay(setup: Setup, events: seq<Event>)
    requires !setup.overlap && setup.blank.displays == []
    requires Run(Init(setup), events).Reached?
    ensures var s := Run(Init(setup), events).state;
            var n := Count(s.manager.displays, MarkerArray);
            && n <= 1 && (s.applied == s.pushed && !ResetInProgress(s) ==> n == 1)
            && RightDisplays(s.manager.displays)
  {
    InitInv(setup);
    InitMarkers(setup);
    MarkerRun(Init(setup), events);
    SetupStays(Init(setup), events);
    MarkerCount(Run(Init(setup), events).state);
    MarkersRight(setup, events);
  }

  lemma {:induction false} SetupStays(s: State, events: seq<Event>)
    ensures var r := Run(s, events); r.Reached? ==> r.state.setup == s.setup
    decreases |events|
  {
    if events == [] {
    } else if Enabled(s, events[0]) && Safe(s, events[0]) {
      SetupStays(Step(s, events[0]), events[1..]);
    }
  }

  lemma InitMarkers(setup: Setup)
    requires !setup.overlap
    ensures Apart(Init(setup)) && MarkerInv(Init(setup))
  {
    var pushed := Init(setup).pushed;
    assert pushed[..0] == [] && Markers(pushed) == [] + MarkerOf(pushed[0]);
  }

  lemma BothTagged(a: seq<Command>, b: seq<Command>)
    requires AllTagged(a + b)
    ensures AllTagged(a) && AllTagged(b)
  {
    assert forall i :: 0 <= i < |a| ==> a[i] == (a + b)[i];
    assert forall i :: 0 <= i < |b| ==> b[i] == (a + b)[|a| + i];
  }

  lemma MarkerCount(s: State)
    requires FifoInv(s) && MarkerInv(s) && s.setup.blank.displays == []
    ensures var n := Count(s.manager.displays, MarkerArray);
            n <= 1 && (s.applied == s.pushed && !ResetInProgress(s) ==> n == 1)
  {
    var waiting := Contents(PendingQueue(s), s.heap);
    BothTagged(s.applied, waiting);
    MarkersAppend(s.applied, waiting);
    AlternatingStart(Markers(s.applied), Markers(waiting));
    AlternatingCount(s.setup.blank, s.applied);
  }

  /* ---------- The fixed frame ---------- */

  /** The frame set by the last of the commands that set one, if there is one. */
  function LastFrame(cs: seq<Command>): Option<Text>
    requires AllTagged(cs)
  {
    if cs == [] then None
    else if cs[|cs| - 1].typeString == FixedFrameTag then Some(cs[|cs| - 1].fields.fixedFrame)
    else LastFrame(cs[..|cs| - 1])
  }

  lemma {:induction false} ManagerFrame(m: Manager, cs: seq<Command>)
    requires AllTagged(cs)
    ensures ApplyAll(m, cs).fixedFrame == if LastFrame(cs).Some? then LastFrame(cs).value else m.fixedFrame
  {
    if cs == [] {
    } else {
      ManagerFrame(m, cs[..|cs| - 1]);
    }
  }

  predicate SetsFrame(cs: seq<Command>) {
    exists i :: 0 <= i < |cs| && cs[i].typeString == FixedFrameTag
  }

  lemma {:induction false} FrameIsSet(cs: seq<Command>)
    requires AllTagged(cs)
    ensures LastFrame(cs).Some? <==> SetsFrame(cs)
  {
    if cs == [] {
    } else {
      var front := cs[..|cs| - 1];
      FrameIsSet(front);
      if SetsFrame(front) {
        var i :| 0 <= i < |front| && front[i].typeString == FixedFrameTag;
        assert cs[i].typeString == FixedFrameTag;
      }
      if SetsFrame(cs) && cs[|cs| - 1].typeString != FixedFrameTag {
        var i :| 0 <= i < |cs| && cs[i].typeString == FixedFrameTag;
        assert front[i].typeString == FixedFrameTag;
      }
    }
  }

  /** A base-frame callback that has pushed its command and not yet assigned the frame. */
  predicate FrameDue(cb: Callback) {
    cb.Running? && cb.message.BaseFrameMessage? && (cb.index > 0 || cb.phase.Unlock?)
  }

  /** The frame that `fixedFrame_` has, or is about to get. */
  function ComingFrame(s: State): Text {
    if FrameDue(s.mainCallback) then s.mainCallback.message.frame
    else if FrameDue(s.spinnerCallback) then s.spinnerCallback.message.frame
    else s.fixedFrame
  }

  ghost predicate FrameInv(s: State) {
    && AllTagged(s.pushed)
    && match LastFrame(s.pushed) {
         case Some(frame) => ComingFrame(s) == frame
         case None => s.fixedFrame == Empty && !FrameDue(s.mainCallback) && !FrameDue(s.spinnerCallback)
       }
  }

  lemma FrameStep(s: State, e: Event)
    requires CallbackValid(s, Main) && CallbackValid(s, Spinner) && Apart(s) && FrameInv(s)
    requires Enabled(s, e) && Safe(s, e)
    ensures FrameInv(Step(s, e))
  {
    match e {
      case MainStep =>
        MainKeeps(s);
      case Start(t, m) =>
        FrameStart(s, t, m);
      case CallbackStep(t) =>
        FrameCallback(s, t);
    }
  }

  lemma FrameStart(s: State, t: Thread, m: Message)
    requires FrameInv(s) && Enabled(s, Start(t, m))
    ensures FrameInv(Step(s, Start(t, m)))
  {
    var s' := Step(s, Start(t, m));
    assert s'.CallbackOf(OtherThread(t)) == s.CallbackOf(OtherThread(t)) && s'.pushed == s.pushed;
  }

  lemma FrameSnoc(s: State, s': State, c: Command)
    requires FrameInv(s) && WellTagged(c) && s'.pushed == s.pushed + [c]
    requires if c.typeString == FixedFrameTag then ComingFrame(s') == c.fields.fixedFrame
             else ComingFrame(s') == ComingFrame(s) && s'.fixedFrame == s.fixedFrame
                  && (FrameDue(s'.mainCallback) || FrameDue(s'.spinnerCallback) ==>
                        FrameDue(s.mainCallback) || FrameDue(s.spinnerCallback))
    ensures FrameInv(s')
  {
    assert s'.pushed[..|s'.pushed| - 1] == s.pushed;
  }

  lemma FrameCallback(s: State, t: Thread)
    requires CallbackValid(s, t) && Apart(s) && FrameInv(s)
    requires Enabled(s, CallbackStep(t)) && Safe(s, CallbackStep(t))
    ensures FrameInv(CallbackNext(s, t))
  {
    var s', cb := CallbackNext(s, t), s.CallbackOf(t);
    assert s'.CallbackOf(OtherThread(t)) == s.CallbackOf(OtherThread(t));
    if cb.index < |CommandsOf(cb)| && cb.phase.Push? {
      var c := s.heap[cb.holding.value];
      assert c == CommandsOf(cb)[cb.index];
      FrameSnoc(s, s', c);
    } else {
      assert s'.pushed == s.pushed;
    }
  }

  lemma {:induction false} FrameRun(s: State, events: seq<Event>)
    requires Inv(s) && Apart(s) && MarkerInv(s) && FrameInv(s)
    ensures var r := Run(s, events); r.Reached? ==> Inv(r.state) && FrameInv(r.state)
    decreases |events|
  {
    if events == [] {
    } else if Enabled(s, events[0]) {
      StepInv(s, events[0]);
      MarkerStep(s, events[0]);
      FrameStep(s, events[0]);
      FrameRun(Step(s, events[0]), events[1..]);
    }
  }

  /** Whenever all pushed commands have been applied and no base-frame callback is between its push
      and its assignment: once a base-frame command has been pushed, the viewer shows the frame in
      `fixedFrame_`; until then it shows the frame rviz began with, while `fixedFrame_` is empty.
      The two therefore agree exactly if a base-frame command has been pushed or rviz began with
      the empty frame. */
  lemma FramesAgree(setup: Setup, events: seq<Event>)
    requires !setup.overlap && Run(Init(setup), events).Reached?
    ensures var s := Run(Init(setup), events).state;
            s.applied == s.pushed && !FrameDue(s.mainCallback) && !FrameDue(s.spinnerCallback) ==>
              && (SetsFrame(s.pushed) ==> s.manager.fixedFrame == s.fixedFrame)
              && (!SetsFrame(s.pushed) ==> s.manager.fixedFrame == setup.blank.fixedFrame && s.fixedFrame == Empty)
              && (s.manager.fixedFrame == s.fixedFrame <==> SetsFrame(s.pushed) || setup.blank.fixedFrame == Empty)
  {
    InitInv(setup);
    InitMarkers(setup);
    InitFrame(setup);
    FrameRun(Init(setup), events);
    SetupStays(Init(setup), events);
    var s := Run(Init(setup), events).state;
    ManagerFrame(setup.blank, s.applied);
    FrameIsSet(s.pushed);
  }

  lemma InitFrame(setup: Setup)
    ensures FrameInv(Init(setup))
  {
    var pushed := Init(setup).pushed;
    assert pushed[..0] == [];
  }
}
