/** The handoff of the viewer between publishers.

    The registration callback grants the viewer to a publisher if the parameter `/viewerOccupied`
    is false: it reads the parameter, sets it, stores the name and makes the service client, each
    in a separate action.  The main loop checks now and then whether the service of the registered
    publisher still exists, and gives the viewer free if it does not.  The two run on different
    threads without any lock.

    The initial state is that of one viewer process that starts with the parameter unset.  Two
    callbacks of the registration can be under way at the same time only if `overlap` says so. */
module ViewerHandoff {

  type Publisher = nat

  /** What a registration callback does next. */
  datatype Registration = Idle | Read(who: Publisher) | Set(who: Publisher) | Name(who: Publisher)
      | Connect(who: Publisher)

  /** What the alive check does next: nothing, ask for the service, drop the client, or give the
      viewer free. */
  datatype Check = NoCheck | Ask | Drop | Release

  datatype Entry = Granted(who: Publisher) | FoundMissing(who: Publisher)

  datatype State = State(
    occupied: bool,               // the parameter /viewerOccupied
    name: Publisher,              // registeredViewerPublisher_
    client: bool,                 // aliveServiceClient_ is set
    first: Registration,
    second: Registration,
    check: Check,
    history: seq<Entry>)

  function Init(): State {
    State(false, 0, false, Idle, Idle, NoCheck, [])
  }

  datatype Event =
    | Register(slot: bool, who: Publisher)  // a registration message arrives
    | Continue(slot: bool)                  // the callback in that slot takes its next action
    | BeginCheck                            // the main loop tests aliveServiceClient_
    | ContinueCheck(exists_: bool)          // the check goes on; the service exists or not

  function Slot(s: State, slot: bool): Registration {
    if slot then s.second else s.first
  }

  function WithSlot(s: State, slot: bool, r: Registration): State {
    if slot then s.(second := r) else s.(first := r)
  }

  predicate Enabled(overlap: bool, s: State, e: Event) {
    match e
    case Register(slot, _) => Slot(s, slot).Idle? && (overlap || Slot(s, !slot).Idle?)
    case Continue(slot) => !Slot(s, slot).Idle?
    case BeginCheck => s.check.NoCheck?
    case ContinueCheck(_) => !s.check.NoCheck?
  }

  function Step(s: State, e: Event): State {
    match e
    case Register(slot, who) => WithSlot(s, slot, Read(who))
    case Continue(slot) => (
      match Slot(s, slot)
      case Idle => s
      case Read(who) => WithSlot(s, slot, if s.occupied then Idle else Set(who))
      case Set(who) => WithSlot(s.(occupied := true), slot, Name(who))
      case Name(who) => WithSlot(s.(name := who, history := s.history + [Granted(who)]), slot, Connect(who))
      case Connect(_) => WithSlot(s.(client := true), slot, Idle)
    )
    case BeginCheck => if s.client then s.(check := Ask) else s
    case ContinueCheck(exists_) => (
      match s.check
      case NoCheck => s
      case Ask =>
        if exists_ then s.(check := NoCheck)
        else s.(check := Drop, history := s.history + [FoundMissing(s.name)])
      case Drop => s.(client := false, check := Release)
      case Release => s.(occupied := false, check := NoCheck)
    )
  }

  /** A run, or None if one of its events could not happen. */
  datatype Outcome = Reached(state: State) | Impossible

  function Run(overlap: bool, s: State, events: seq<Event>): Outcome
    decreases |events|
  {
    if events == [] then Reached(s)
    else if !Enabled(overlap, s, events[0]) then Impossible
    else Run(overlap, Step(s, events[0]), events[1..])
  }

  /* ---------- What the handoff is for ---------- */

  /** The registration is past its test and has not finished. */
  predicate Granting(r: Registration) {
    r.Set? || r.Name? || r.Connect?
  }

  /** The check has seen a client and has not finished. */
  predicate Checking(c: Check) {
    !c.NoCheck?
  }

  /** The publisher that has the viewer according to the history. */
  datatype Holder = Nobody | Holder(who: Publisher)

  function HolderAfter(history: seq<Entry>): Holder {
    if history == [] then Nobody
    else match history[|history| - 1]
         case Granted(who) => Holder(who)
         case FoundMissing(_) => Nobody
  }

  /** The viewer is never granted while somebody has it: between two grants the check has found
      the service of the first one missing. */
  predicate Orderly(history: seq<Entry>) {
    history == [] ||
    var front := history[..|history| - 1];
    && Orderly(front)
    && match history[|history| - 1]
       case Granted(_) => HolderAfter(front) == Nobody
       case FoundMissing(who) => HolderAfter(front) == Holder(who)
  }

  /** Nobody touches what another is working on, and the history is in order. */
  predicate Exclusive(s: State) {
    && !(Granting(s.first) && Granting(s.second))
    && !(Checking(s.check) && (Granting(s.first) || Granting(s.second)))
    && Orderly(s.history)
    && (s.client && !Granting(s.first) && !Granting(s.second) && !s.check.Drop? ==>
          HolderAfter(s.history) == Holder(s.name))
    && (s.first.Idle? && s.second.Idle? && s.check.NoCheck? ==> (s.occupied <==> s.client))
  }

  predicate Inv(s: State) {
    && (s.first.Idle? || s.second.Idle?)
    && var r := if s.first.Idle? then s.second else s.first;
    && Orderly(s.history)
    && match s.check
       case NoCheck => (
         match r
         case Set(_) => !s.occupied && !s.client && HolderAfter(s.history) == Nobody
         case Name(_) => s.occupied && !s.client && HolderAfter(s.history) == Nobody
         case Connect(who) => s.occupied && !s.client && s.name == who && HolderAfter(s.history) == Holder(who)
         case _ => s.occupied == s.client && HolderAfter(s.history) == if s.client then Holder(s.name) else Nobody
       )
       case Ask => !Granting(r) && s.occupied && s.client && HolderAfter(s.history) == Holder(s.name)
       case Drop => !Granting(r) && s.occupied && s.client && HolderAfter(s.history) == Nobody
       case Release => !Granting(r) && s.occupied && !s.client && HolderAfter(s.history) == Nobody
  }

  /** The check asks for the service, and is told that it does not exist. */
  predicate ToldMissing(s: State, e: Event) {
    s.check.Ask? && e == ContinueCheck(false)
  }

  lemma OrderlySnoc(history: seq<Entry>, e: Entry)
    requires Orderly(history)
    requires match e
             case Granted(_) => HolderAfter(history) == Nobody
             case FoundMissing(who) => HolderAfter(history) == Holder(who)
    ensures Orderly(history + [e])
  {
    assert (history + [e])[..|history|] == history;
  }

  lemma StepInv(s: State, e: Event)
    requires Inv(s) && Enabled(false, s, e)
    ensures Inv(Step(s, e))
    ensures s.client && Step(s, e).client ==> Step(s, e).name == s.name
    ensures HolderAfter(s.history).Holder? && HolderAfter(Step(s, e).history) == Nobody <==> ToldMissing(s, e)
  {
    match e {
      case Continue(slot) =>
        if Slot(s, slot).Name? {
          OrderlySnoc(s.history, Granted(Slot(s, slot).who));
        }
      case ContinueCheck(exists_) =>
        if s.check.Ask? {
          OrderlySnoc(s.history, FoundMissing(s.name));
        }
      case Register(_, _) =>
      case BeginCheck =>
    }
  }

  lemma {:induction false} RunInv(s: State, events: seq<Event>)
    requires Inv(s)
    ensures var r := Run(false, s, events); r.Reached? ==> Inv(r.state)
    decreases |events|
  {
    if events == [] {
    } else if Enabled(false, s, events[0]) {
      StepInv(s, events[0]);
      RunInv(Step(s, events[0]), events[1..]);
    }
  }

  /** The run in which two overlapping registrations both read the parameter before either sets it. */
  function TwoGrants(): seq<Event> {
    [Register(false, 1), Register(true, 2), Continue(false), Continue(true)]
  }

  lemma TwoGrantsReached()
    ensures Run(true, Init(), TwoGrants()) == Reached(Init().(first := Set(1), second := Set(2)))
  {
    var s1 := Init().(first := Read(1));
    var s2 := s1.(second := Read(2));
    var s3 := s2.(first := Set(1));
    var es := TwoGrants();
    assert Run(true, Init(), es) == Run(true, s1, es[1..]);
    assert Run(true, s1, es[1..]) == Run(true, s2, es[1..][1..]);
    assert Run(true, s2, es[1..][1..]) == Run(true, s3, es[1..][1..][1..]);
    assert Run(true, s3, es[1..][1..][1..]) == Run(true, s3.(second := Set(2)), es[1..][1..][1..][1..]);
    assert es[1..][1..][1..][1..] == [];
  }

  /* ---------- What the check is told ---------- */

  /** The publishers whose service the check has been told is missing. */
  function Reported(overlap: bool, s: State, events: seq<Event>): seq<Publisher>
    decreases |events|
  {
    if events == [] || !Enabled(overlap, s, events[0]) then []
    else (if ToldMissing(s, events[0]) then [s.name] else [])
         + Reported(overlap, Step(s, events[0]), events[1..])
  }

  function MissingIn(history: seq<Entry>): seq<Publisher> {
    if history == [] then []
    else MissingIn(history[..|history| - 1])
         + match history[|history| - 1]
           case Granted(_) => []
           case FoundMissing(who) => [who]
  }

  lemma MissingStep(s: State, e: Event)
    ensures MissingIn(Step(s, e).history) == MissingIn(s.history) + (if ToldMissing(s, e) then [s.name] else [])
  {
    var history := Step(s, e).history;
    assert history != s.history ==> history[..|history| - 1] == s.history;
  }

  /** The history has a publisher down as missing whenever the check was told so, and only then. */
  lemma {:induction false} MissingReported(overlap: bool, s: State, events: seq<Event>)
    ensures var r := Run(overlap, s, events);
            r.Reached? ==> MissingIn(r.state.history) == MissingIn(s.history) + Reported(overlap, s, events)
    decreases |events|
  {
    if events == [] {
    } else if Enabled(overlap, s, events[0]) {
      MissingStep(s, events[0]);
      MissingReported(overlap, Step(s, events[0]), events[1..]);
      var now := if ToldMissing(s, events[0]) then [s.name] else [];
      var later := Reported(overlap, Step(s, events[0]), events[1..]);
      assert MissingIn(s.history) + now + later == MissingIn(s.history) + (now + later);
    }
  }

  /** As long as the check is not told that the service is missing, whoever has the viewer keeps it. */
  lemma {:induction false} HolderStays(s: State, events: seq<Event>, who: Publisher)
    requires Inv(s) && HolderAfter(s.history) == Holder(who) && Reported(false, s, events) == []
    ensures var r := Run(false, s, events);
            r.Reached? ==>
              HolderAfter(r.state.history) == Holder(who) && MissingIn(r.state.history) == MissingIn(s.history)
    decreases |events|
  {
    if events == [] {
    } else if Enabled(false, s, events[0]) {
      StepInv(s, events[0]);
      MissingStep(s, events[0]);
      HolderStays(Step(s, events[0]), events[1..], who);
    }
  }

  /** A check that finds the service of the publisher leaves everything as it was.  One that does not frees
      the viewer, so that the next registration gets it.  Without a publisher nothing is checked. */
  lemma CheckDecides(events: seq<Event>, later: bool, last: bool)
    requires Run(false, Init(), events).Reached?
    requires var s := Run(false, Init(), events).state; s.first.Idle? && s.second.Idle? && s.check.NoCheck?
    ensures var s := Run(false, Init(), events).state;
            var asked := Step(s, BeginCheck);
            if !s.client then asked == s
            else
              && Step(asked, ContinueCheck(true)) == s
              && var s' := Step(Step(Step(asked, ContinueCheck(false)), ContinueCheck(later)), ContinueCheck(last));
                 s'.check.NoCheck? && !s'.client && !s'.occupied && HolderAfter(s'.history) == Nobody
  {
    RunInv(Init(), events);
  }

  /** The handoff is exclusive in every run exactly if the callbacks of the registration do not
      overlap: then a grant and a check never get into each other's way, the viewer is granted
      again only after the check was told that the service of its holder is missing, and whenever both
      are at rest the viewer is marked as occupied if and only if there is a publisher to check. */
  lemma ExclusiveIffApart(overlap: bool)
    ensures !overlap <==> forall events :: Run(overlap, Init(), events).Reached? ==>
                                             && Exclusive(Run(overlap, Init(), events).state)
                                             && MissingIn(Run(overlap, Init(), events).state.history)
                                                == Reported(overlap, Init(), events)
  {
    if overlap {
      TwoGrantsReached();
      assert !Exclusive(Run(true, Init(), TwoGrants()).state);
    } else {
      forall events | Run(false, Init(), events).Reached?
        ensures Exclusive(Run(false, Init(), events).state)
        ensures MissingIn(Run(false, Init(), events).state.history) == Reported(false, Init(), events)
      {
        RunInv(Init(), events);
        MissingReported(false, Init(), events);
      }
    }
  }

  /** The name of the registered publisher does not change as long as there is a client for it. */
  lemma NameIsStable(events: seq<Event>, e: Event)
    requires Run(false, Init(), events).Reached? && Enabled(false, Run(false, Init(), events).state, e)
    ensures var s := Run(false, Init(), events).state;
            s.client && Step(s, e).client ==> Step(s, e).name == s.name
  {
    RunInv(Init(), events);
    StepInv(Run(false, Init(), events).state, e);
  }

  /** A publisher that registers while the viewer is occupied and nothing is under way is refused,
      and one that registers while it is free gets it, if nobody comes in between. */
  lemma RegistrationDecides(events: seq<Event>, who: Publisher)
    requires Run(false, Init(), events).Reached?
    requires var s := Run(false, Init(), events).state; s.first.Idle? && s.second.Idle? && s.check.NoCheck?
    ensures var s := Run(false, Init(), events).state;
            var once := Step(Step(s, Register(false, who)), Continue(false));
            if HolderAfter(s.history).Holder? then once == s
            else
              var s' := Step(Step(Step(once, Continue(false)), Continue(false)), Continue(false));
              s'.client && s'.name == who && s'.occupied && HolderAfter(s'.history) == Holder(who)
  {
    RunInv(Init(), events);
  }
}
