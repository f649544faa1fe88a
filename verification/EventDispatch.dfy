/** `event.dispatch`: which handlers an event is given to, and in which order. */
module EventDispatch {
  import opened Basics
  import opened EventHandlers

  /** An element on the way from the target, with the handlers to be given the event there. */
  datatype Group = Group(elem: nat, matches: seq<HandleObj>)

  datatype Delivery = Delivery(elem: nat, handler: HandleObj)

  /** What a handler does to the event: nothing, stop its propagation (also by returning false),
      or stop it immediately.  It stays the strongest of what has been done to it. */
  datatype Effect = Continue | Stop | StopImmediately

  function Strongest(a: Effect, b: Effect): Effect {
    if a.StopImmediately? || b.StopImmediately? then StopImmediately else if a.Stop? || b.Stop? then Stop else Continue
  }

  /** The parts of an event that decide which handlers may see it. */
  datatype Event = Event(exclusive: bool, namespaces: set<nat>)

  predicate Admits(e: Event, h: HandleObj) {
    || (!e.exclusive && e.namespaces == {})
    || (e.namespaces == {} && h.namespaces == {})
    || (e.namespaces != {} && e.namespaces <= h.namespaces)
  }

  /* ---------- Which handlers ---------- */

  predicate Chosen(h: HandleObj, elem: nat, fits: (nat, nat) -> bool) {
    h.selector.Some? && fits(elem, h.selector.value)
  }

  function MatchesAt(delegated: seq<HandleObj>, elem: nat, fits: (nat, nat) -> bool): seq<HandleObj> {
    if delegated == [] then []
    else (if Chosen(delegated[0], elem, fits) then [delegated[0]] else []) + MatchesAt(delegated[1..], elem, fits)
  }

  function GroupAt(elem: nat, matches: seq<HandleObj>): seq<Group> {
    if matches == [] then [] else [Group(elem, matches)]
  }

  function DelegatedGroups(delegated: seq<HandleObj>, path: seq<nat>, fits: (nat, nat) -> bool): seq<Group> {
    if path == [] then []
    else GroupAt(path[0], MatchesAt(delegated, path[0], fits)) + DelegatedGroups(delegated, path[1..], fits)
  }

  /** The groups for the live handlers: at each element on the way from the target the handlers
      with a selector that fits it, and at last the handlers without one. */
  function Groups(live: seq<HandleObj>, path: seq<nat>, self: nat, fits: (nat, nat) -> bool,
      blocked: bool): seq<Group> {
    (if blocked then [] else DelegatedGroups(Filter(live, HasSelector), path, fits))
    + GroupAt(self, Filter(live, NoSelector))
  }

  lemma {:induction false} MatchesSnoc(delegated: seq<HandleObj>, h: HandleObj, elem: nat, fits: (nat, nat) -> bool)
    ensures MatchesAt(delegated + [h], elem, fits)
         == MatchesAt(delegated, elem, fits) + (if Chosen(h, elem, fits) then [h] else [])
  {
    if delegated == [] {
      assert [h][1..] == [] && [] + [h] == [h];
    } else {
      MatchesSnoc(delegated[1..], h, elem, fits);
      assert (delegated + [h])[0] == delegated[0] && (delegated + [h])[1..] == delegated[1..] + [h];
      Assoc(if Chosen(delegated[0], elem, fits) then [delegated[0]] else [],
            MatchesAt(delegated[1..], elem, fits), if Chosen(h, elem, fits) then [h] else []);
    }
  }

  lemma {:induction false} NoneDelegated(path: seq<nat>, fits: (nat, nat) -> bool)
    ensures DelegatedGroups([], path, fits) == []
  {
    if path == [] {
    } else {
      NoneDelegated(path[1..], fits);
    }
  }

  lemma {:induction false} GroupsSnoc(delegated: seq<HandleObj>, path: seq<nat>, elem: nat, fits: (nat, nat) -> bool)
    ensures DelegatedGroups(delegated, path + [elem], fits)
         == DelegatedGroups(delegated, path, fits) + GroupAt(elem, MatchesAt(delegated, elem, fits))
  {
    if path == [] {
      assert [elem][1..] == [] && path + [elem] == [elem];
    } else {
      GroupsSnoc(delegated, path[1..], elem, fits);
      assert (path + [elem])[0] == path[0] && (path + [elem])[1..] == path[1..] + [elem];
      Assoc(GroupAt(path[0], MatchesAt(delegated, path[0], fits)), DelegatedGroups(delegated, path[1..], fits),
            GroupAt(elem, MatchesAt(delegated, elem, fits)));
    }
  }

  /** The first half of `dispatch`.  path goes from the target up to below the element itself, and
      blocked holds for a disabled target and for clicks with another than the first button. */
  method Collect(store: HandlerArray, path: seq<nat>, self: nat, fits: (nat, nat) -> bool, blocked: bool)
      returns (groups: seq<Group>)
    requires store.Valid()
    ensures groups == Groups(store.live, path, self, fits, blocked)
  {
    var count := store.delegateCount;
    ghost var delegated := Filter(store.live, HasSelector);
    assert store.handlers[..count] == delegated && store.handlers[count..] == Filter(store.live, NoSelector);
    groups := [];
    if count > 0 && !blocked {
      Partition(store.live);
      groups := CollectBelow(store.handlers, count, path, fits);
    } else {
      NoneDelegated(path, fits);
    }
    if |store.handlers| > count {
      groups := groups + [Group(self, store.handlers[count..])];
    }
  }

  /** The loop up from the target. */
  method CollectBelow(handlers: seq<HandleObj>, count: nat, path: seq<nat>, fits: (nat, nat) -> bool)
      returns (groups: seq<Group>)
    requires count <= |handlers| && forall i :: 0 <= i < count ==> handlers[i].selector.Some?
    ensures groups == DelegatedGroups(handlers[..count], path, fits)
  {
    groups := [];
    for k := 0 to |path|
      invariant groups == DelegatedGroups(handlers[..count], path[..k], fits)
    {
      assert path[..k + 1] == path[..k] + [path[k]];
      GroupsSnoc(handlers[..count], path[..k], path[k], fits);
      var matches := MatchesOf(handlers, count, path[k], fits);
      if matches != [] {
        groups := groups + [Group(path[k], matches)];
      }
    }
    assert path[..|path|] == path;
  }

  /** The handlers for one element.  Each selector is tried once and the answer is kept. */
  method MatchesOf(handlers: seq<HandleObj>, count: nat, elem: nat, fits: (nat, nat) -> bool)
      returns (matches: seq<HandleObj>)
    requires count <= |handlers| && forall i :: 0 <= i < count ==> handlers[i].selector.Some?
    ensures matches == MatchesAt(handlers[..count], elem, fits)
  {
    matches := [];
    var tried: map<nat, bool> := map[];
    for i := 0 to count
      invariant matches == MatchesAt(handlers[..i], elem, fits)
      invariant forall s :: s in tried ==> tried[s] == fits(elem, s)
    {
      assert handlers[..i + 1] == handlers[..i] + [handlers[i]];
      MatchesSnoc(handlers[..i], handlers[i], elem, fits);
      var selector := handlers[i].selector.value;
      if selector !in tried {
        tried := tried[selector := fits(elem, selector)];
      }
      if tried[selector] {
        matches := matches + [handlers[i]];
      }
    }
  }

  /* ---------- Giving them the event ---------- */

  /** Everything that would be delivered if no handler stopped the event. */
  function GroupDeliveries(e: Event, elem: nat, matches: seq<HandleObj>): seq<Delivery> {
    if matches == [] then []
    else (if Admits(e, matches[0]) then [Delivery(elem, matches[0])] else []) + GroupDeliveries(e, elem, matches[1..])
  }

  function AllDeliveries(e: Event, groups: seq<Group>): seq<Delivery> {
    if groups == [] then []
    else GroupDeliveries(e, groups[0].elem, groups[0].matches) + AllDeliveries(e, groups[1..])
  }

  /** The state of the event after n deliveries; effects tells what the n-th does. */
  function StateAfter(effects: nat -> Effect, n: nat): Effect {
    if n == 0 then Continue else Strongest(StateAfter(effects, n - 1), effects(n - 1))
  }

  lemma {:induction false} GroupDeliveriesSnoc(e: Event, elem: nat, matches: seq<HandleObj>, h: HandleObj)
    ensures GroupDeliveries(e, elem, matches + [h])
         == GroupDeliveries(e, elem, matches) + (if Admits(e, h) then [Delivery(elem, h)] else [])
  {
    if matches == [] {
      assert [h][1..] == [] && [] + [h] == [h];
    } else {
      GroupDeliveriesSnoc(e, elem, matches[1..], h);
      assert (matches + [h])[0] == matches[0] && (matches + [h])[1..] == matches[1..] + [h];
      Assoc(if Admits(e, matches[0]) then [Delivery(elem, matches[0])] else [],
            GroupDeliveries(e, elem, matches[1..]), if Admits(e, h) then [Delivery(elem, h)] else []);
    }
  }

  lemma {:induction false} AllDeliveriesSnoc(e: Event, groups: seq<Group>, g: Group)
    ensures AllDeliveries(e, groups + [g]) == AllDeliveries(e, groups) + GroupDeliveries(e, g.elem, g.matches)
  {
    if groups == [] {
      assert [g][1..] == [] && [] + [g] == [g];
      assert GroupDeliveries(e, g.elem, g.matches) + [] == GroupDeliveries(e, g.elem, g.matches);
    } else {
      AllDeliveriesSnoc(e, groups[1..], g);
      assert (groups + [g])[0] == groups[0] && (groups + [g])[1..] == groups[1..] + [g];
      Assoc(GroupDeliveries(e, groups[0].elem, groups[0].matches), AllDeliveries(e, groups[1..]),
            GroupDeliveries(e, g.elem, g.matches));
    }
  }

  lemma {:induction false} AllDeliveriesAppend(e: Event, a: seq<Group>, b: seq<Group>)
    ensures AllDeliveries(e, a + b) == AllDeliveries(e, a) + AllDeliveries(e, b)
  {
    if a == [] {
      assert a + b == b && [] + AllDeliveries(e, b) == AllDeliveries(e, b);
    } else {
      AllDeliveriesAppend(e, a[1..], b);
      assert (a + b)[0] == a[0] && (a + b)[1..] == a[1..] + b;
      Assoc(GroupDeliveries(e, a[0].elem, a[0].matches), AllDeliveries(e, a[1..]), AllDeliveries(e, b));
    }
  }

  lemma {:induction false} GroupElem(e: Event, elem: nat, matches: seq<HandleObj>)
    ensures forall d :: d in GroupDeliveries(e, elem, matches) ==> d.elem == elem && d.handler in matches
  {
    if matches == [] {
    } else {
      GroupElem(e, elem, matches[1..]);
    }
  }

  lemma {:induction false} AllElems(e: Event, groups: seq<Group>)
    ensures forall d :: d in AllDeliveries(e, groups) ==>
              exists i :: 0 <= i < |groups| && groups[i].elem == d.elem && d.handler in groups[i].matches
  {
    if groups == [] {
    } else {
      AllElems(e, groups[1..]);
      GroupElem(e, groups[0].elem, groups[0].matches);
      forall d | d in AllDeliveries(e, groups)
        ensures exists i :: 0 <= i < |groups| && groups[i].elem == d.elem && d.handler in groups[i].matches
      {
        if d in AllDeliveries(e, groups[1..]) {
          var i :| 0 <= i < |groups[1..]| && groups[1..][i].elem == d.elem && d.handler in groups[1..][i].matches;
          assert groups[i + 1] == groups[1..][i];
        } else {
          assert groups[0].elem == d.elem;
        }
      }
    }
  }

  /** After n deliveries there is another one, if no handler has stopped the event; if one has
      stopped its propagation, only at the same element; and if one has stopped it immediately,
      there is none. */
  predicate GoesOn(all: seq<Delivery>, effects: nat -> Effect, n: nat) {
    n < |all|
    && match StateAfter(effects, n) {
         case Continue => true
         case Stop => n > 0 && all[n].elem == all[n - 1].elem
         case StopImmediately => false
       }
  }

  ghost predicate WentOn(all: seq<Delivery>, effects: nat -> Effect, done: seq<Delivery>) {
    done <= all && forall n :: 0 <= n < |done| ==> GoesOn(all, effects, n)
  }

  ghost predicate Apart(groups: seq<Group>) {
    forall i, j :: 0 <= i < j < |groups| ==> groups[i].elem != groups[j].elem
  }

  /** The inner loop: the handlers at one element. */
  method DeliverGroup(e: Event, g: Group, effects: nat -> Effect, before: seq<Delivery>, ghost rest: seq<Delivery>)
      returns (done: seq<Delivery>, state: Effect)
    requires StateAfter(effects, |before|).Continue?
    requires WentOn(before + GroupDeliveries(e, g.elem, g.matches) + rest, effects, before)
    ensures WentOn(before + GroupDeliveries(e, g.elem, g.matches) + rest, effects, done)
    ensures state == StateAfter(effects, |done|)
    ensures state.StopImmediately? || done == before + GroupDeliveries(e, g.elem, g.matches)
  {
    done, state := before, Continue;
    ghost var given: seq<Delivery> := [];
    ghost var all := before + GroupDeliveries(e, g.elem, g.matches) + rest;
    var j := 0;
    assert g.matches[..0] == [] && before + [] == before;
    while j < |g.matches| && state != StopImmediately
      invariant j <= |g.matches| && given == GroupDeliveries(e, g.elem, g.matches[..j]) && done == before + given
      invariant state == StateAfter(effects, |done|) && (given == [] ==> state.Continue?)
      invariant WentOn(all, effects, done)
      decreases |g.matches| - j
    {
      ghost var was := given;
      given := GroupTurn(e, g, j);
      if Admits(e, g.matches[j]) {
        NextDelivery(e, g, effects, before, was, Delivery(g.elem, g.matches[j]), j, rest);
        state := Strongest(state, effects(|done|));
        done := done + [Delivery(g.elem, g.matches[j])];
      }
      j := j + 1;
    }
    assert g.matches[..|g.matches|] == g.matches;
  }

  lemma GroupTurn(e: Event, g: Group, j: nat) returns (given: seq<Delivery>)
    requires j < |g.matches|
    ensures given == GroupDeliveries(e, g.elem, g.matches[..j + 1])
    ensures given == GroupDeliveries(e, g.elem, g.matches[..j])
                     + (if Admits(e, g.matches[j]) then [Delivery(g.elem, g.matches[j])] else [])
  {
    assert g.matches[..j + 1] == g.matches[..j] + [g.matches[j]];
    GroupDeliveriesSnoc(e, g.elem, g.matches[..j], g.matches[j]);
    given := GroupDeliveries(e, g.elem, g.matches[..j + 1]);
  }

  lemma {:induction false} GroupStart(e: Event, elem: nat, matches: seq<HandleObj>, j: nat)
    requires j <= |matches|
    ensures GroupDeliveries(e, elem, matches[..j]) <= GroupDeliveries(e, elem, matches)
  {
    if j == 0 {
    } else {
      GroupStart(e, elem, matches[1..], j - 1);
      assert matches[..j][1..] == matches[1..][..j - 1];
    }
  }

  lemma NextDelivery(e: Event, g: Group, effects: nat -> Effect, before: seq<Delivery>, given: seq<Delivery>,
      d: Delivery,
                     j: nat, rest: seq<Delivery>)
    requires j < |g.matches| && given == GroupDeliveries(e, g.elem, g.matches[..j])
    requires d == Delivery(g.elem, g.matches[j]) && given + [d] == GroupDeliveries(e, g.elem, g.matches[..j + 1])
    requires !StateAfter(effects, |before + given|).StopImmediately?
    requires given == [] ==> StateAfter(effects, |before|).Continue?
    requires WentOn(before + GroupDeliveries(e, g.elem, g.matches) + rest, effects, before + given)
    ensures WentOn(before + GroupDeliveries(e, g.elem, g.matches) + rest, effects, before + given + [d])
  {
    var all, n := before + GroupDeliveries(e, g.elem, g.matches) + rest, |before + given|;
    GroupStart(e, g.elem, g.matches, j + 1);
    GroupElem(e, g.elem, g.matches[..j]);
    assert all[n] == d && before + given + [d] <= all;
    if given != [] {
      assert all[n - 1] == given[|given| - 1] && given[|given| - 1] in given;
    }
    assert GoesOn(all, effects, n);
  }

  /* ---------- Which deliveries are made ---------- */

  /** The m-th delivery keeps the n-th from being made. */
  predicate Prevents(all: seq<Delivery>, effects: nat -> Effect, m: nat, n: nat)
    requires m < n < |all|
  {
    effects(m).StopImmediately? || (effects(m).Stop? && all[n].elem != all[m].elem)
  }

  /** The deliveries made are the first ones of all there could be, up to the first that one of them
      prevents: a handler that stops the event immediately is the last one, and one that stops its
      propagation lets only handlers at its own element follow. */
  ghost predicate UpToStop(all: seq<Delivery>, effects: nat -> Effect, done: seq<Delivery>) {
    && done <= all
    && (forall m, n :: 0 <= m < n < |done| ==> !Prevents(all, effects, m, n))
    && (|done| < |all| ==> exists m :: 0 <= m < |done| && Prevents(all, effects, m, |done|))
  }

  lemma {:induction false} StateIs(effects: nat -> Effect, n: nat)
    ensures StateAfter(effects, n).StopImmediately? <==> exists m :: 0 <= m < n && effects(m).StopImmediately?
    ensures StateAfter(effects, n).Continue? <==> forall m :: 0 <= m < n ==> effects(m).Continue?
  {
    if n == 0 {
    } else {
      StateIs(effects, n - 1);
    }
  }

  /** Since the propagation was stopped all deliveries have been at one element. */
  lemma {:induction false} SameElem(all: seq<Delivery>, effects: nat -> Effect, m: nat, n: nat)
    requires m < n <= |all| && effects(m).Stop? && forall k :: 0 <= k < n ==> GoesOn(all, effects, k)
    ensures all[n - 1].elem == all[m].elem
  {
    if n == m + 1 {
    } else {
      SameElem(all, effects, m, n - 1);
      StateIs(effects, n - 1);
      assert GoesOn(all, effects, n - 1);
    }
  }

  lemma WentUpToStop(all: seq<Delivery>, effects: nat -> Effect, done: seq<Delivery>)
    requires WentOn(all, effects, done) && !GoesOn(all, effects, |done|)
    ensures UpToStop(all, effects, done)
  {
    forall m, n | 0 <= m < n < |done|
      ensures !Prevents(all, effects, m, n)
    {
      StateIs(effects, n);
      assert GoesOn(all, effects, n);
      if effects(m).Stop? {
        SameElem(all, effects, m, n + 1);
      }
    }
    if |done| < |all| {
      Prevented(all, effects, |done|);
    }
  }

  lemma Prevented(all: seq<Delivery>, effects: nat -> Effect, n: nat)
    requires n < |all| && !GoesOn(all, effects, n) && forall k :: 0 <= k < n ==> GoesOn(all, effects, k)
    ensures exists m :: 0 <= m < n && Prevents(all, effects, m, n)
  {
    StateIs(effects, n);
    if StateAfter(effects, n).StopImmediately? {
      var m :| 0 <= m < n && effects(m).StopImmediately?;
      assert Prevents(all, effects, m, n);
    } else {
      var m :| 0 <= m < n && !effects(m).Continue?;
      SameElem(all, effects, m, n);
      assert Prevents(all, effects, m, n);
    }
  }

  /** The second half of `dispatch`, over the groups that were collected before any handler ran.
      The deliveries are the first ones of all there could be, as far as they go on. */
  method Deliver(e: Event, groups: seq<Group>, effects: nat -> Effect) returns (done: seq<Delivery>)
    requires Apart(groups)
    ensures UpToStop(AllDeliveries(e, groups), effects, done)
  {
    done := [];
    var state, i := Continue, 0;
    ghost var all := AllDeliveries(e, groups);
    assert groups[..0] == [];
    while i < |groups| && state == Continue
      invariant i <= |groups| && state == StateAfter(effects, |done|) && WentOn(all, effects, done)
      invariant state.StopImmediately? || done == AllDeliveries(e, groups[..i])
      decreases |groups| - i
    {
      AllTurn(e, groups, i);
      done, state := DeliverGroup(e, groups[i], effects, done, AllDeliveries(e, groups[i + 1..]));
      i := i + 1;
    }
    if i == |groups| {
      assert groups[..i] == groups;
    } else {
      BetweenGroups(e, groups, i);
    }
    WentUpToStop(all, effects, done);
  }

  lemma AllTurn(e: Event, groups: seq<Group>, i: nat)
    requires i < |groups|
    ensures var given := GroupDeliveries(e, groups[i].elem, groups[i].matches);
            && AllDeliveries(e, groups) == AllDeliveries(e, groups[..i]) + given + AllDeliveries(e, groups[i + 1..])
            && AllDeliveries(e, groups[..i + 1]) == AllDeliveries(e, groups[..i]) + given
  {
    assert groups[..i + 1] == groups[..i] + [groups[i]];
    assert groups == groups[..i + 1] + groups[i + 1..];
    AllDeliveriesSnoc(e, groups[..i], groups[i]);
    AllDeliveriesAppend(e, groups[..i + 1], groups[i + 1..]);
  }

  /** The deliveries of the first i groups and those of the others are at different elements. */
  lemma BetweenGroups(e: Event, groups: seq<Group>, i: nat)
    requires Apart(groups) && i <= |groups|
    ensures var n, all := |AllDeliveries(e, groups[..i])|, AllDeliveries(e, groups);
            n <= |all| && (0 < n < |all| ==> all[n].elem != all[n - 1].elem)
  {
    var a, b := AllDeliveries(e, groups[..i]), AllDeliveries(e, groups[i..]);
    assert groups == groups[..i] + groups[i..];
    AllDeliveriesAppend(e, groups[..i], groups[i..]);
    AllElems(e, groups[..i]);
    AllElems(e, groups[i..]);
    if a != [] && b != [] {
      assert a[|a| - 1] in a && b[0] in b;
    }
  }

  /** `dispatch` */
  method Dispatch(store: HandlerArray, e: Event, path: seq<nat>, self: nat, fits: (nat, nat) -> bool, blocked: bool,
                  effects: nat -> Effect)
      returns (done: seq<Delivery>)
    requires store.Valid() && NoDuplicates(path + [self])
    ensures UpToStop(AllDeliveries(e, Groups(store.live, path, self, fits, blocked)), effects, done)
  {
    var groups := Collect(store, path, self, fits, blocked);
    GroupsApart(store.live, path, self, fits, blocked);
    done := Deliver(e, groups, effects);
  }

  lemma {:induction false} DelegatedElems(delegated: seq<HandleObj>, path: seq<nat>, fits: (nat, nat) -> bool)
    requires NoDuplicates(path)
    ensures var groups := DelegatedGroups(delegated, path, fits);
            Apart(groups) && forall i :: 0 <= i < |groups| ==> groups[i].elem in path
  {
    if path == [] {
    } else {
      DelegatedElems(delegated, path[1..], fits);
    }
  }

  lemma GroupsApart(live: seq<HandleObj>, path: seq<nat>, self: nat, fits: (nat, nat) -> bool, blocked: bool)
    requires NoDuplicates(path + [self])
    ensures Apart(Groups(live, path, self, fits, blocked))
  {
    assert forall i :: 0 <= i < |path| ==> path[i] == (path + [self])[i];
    assert (path + [self])[|path|] == self;
    DelegatedElems(Filter(live, HasSelector), path, fits);
  }

  lemma {:induction false} MatchesCount(delegated: seq<HandleObj>, elem: nat, fits: (nat, nat) -> bool, h: HandleObj)
    ensures multiset(MatchesAt(delegated, elem, fits))[h] == if Chosen(h, elem, fits) then multiset(delegated)[h] else 0
  {
    if delegated == [] {
    } else {
      MatchesCount(delegated[1..], elem, fits, h);
      SumCount(if Chosen(delegated[0], elem, fits) then [delegated[0]] else [],
               MatchesAt(delegated[1..], elem, fits), h);
      FirstCount(delegated, h);
    }
  }

  lemma {:induction false} GroupCount(e: Event, elem: nat, matches: seq<HandleObj>, d: Delivery)
    ensures multiset(GroupDeliveries(e, elem, matches))[d]
         == if d.elem == elem && Admits(e, d.handler) then multiset(matches)[d.handler] else 0
  {
    if matches == [] {
    } else {
      GroupCount(e, elem, matches[1..], d);
      SumCount(if Admits(e, matches[0]) then [Delivery(elem, matches[0])] else [],
               GroupDeliveries(e, elem, matches[1..]), d);
      FirstCount(matches, d.handler);
    }
  }

  /** How often a delivery is made below: once for every time that its handler is in the array, if the
      selector fits, and that its element is on the way. */
  lemma {:induction false} BelowCount(e: Event, delegated: seq<HandleObj>, path: seq<nat>, fits: (nat, nat) -> bool,
                                          d: Delivery)
    ensures multiset(AllDeliveries(e, DelegatedGroups(delegated, path, fits)))[d]
         == if Chosen(d.handler, d.elem, fits) && Admits(e, d.handler) then
              multiset(delegated)[d.handler] * multiset(path)[d.elem]
            else 0
  {
    if path == [] {
    } else {
      var matches, later := MatchesAt(delegated, path[0], fits), DelegatedGroups(delegated, path[1..], fits);
      BelowCount(e, delegated, path[1..], fits, d);
      MatchesCount(delegated, path[0], fits, d.handler);
      GroupCount(e, path[0], matches, d);
      AllDeliveriesAppend(e, GroupAt(path[0], matches), later);
      GroupAtDeliveries(e, path[0], matches);
      SumCount(GroupDeliveries(e, path[0], matches), AllDeliveries(e, later), d);
      OneLess(path, d.elem, multiset(delegated)[d.handler]);
    }
  }

  lemma OneLess(path: seq<nat>, elem: nat, n: nat)
    requires path != []
    ensures n * multiset(path)[elem] == (if path[0] == elem then n else 0) + n * multiset(path[1..])[elem]
  {
    FirstCount(path, elem);
  }

  lemma GroupAtDeliveries(e: Event, elem: nat, matches: seq<HandleObj>)
    ensures AllDeliveries(e, GroupAt(elem, matches)) == GroupDeliveries(e, elem, matches)
  {
    if matches != [] {
      AllDeliveriesSnoc(e, [], Group(elem, matches));
      assert [] + [Group(elem, matches)] == GroupAt(elem, matches);
      assert [] + GroupDeliveries(e, elem, matches) == GroupDeliveries(e, elem, matches);
    }
  }

  /* ---------- Who is given the event ---------- */

  /** The event is meant for the handlers that have all of its namespaces; an exclusive event without
      any, for those that have none. */
  predicate MeantFor(e: Event, h: HandleObj) {
    e.namespaces <= h.namespaces && (e.exclusive && e.namespaces == {} ==> h.namespaces == {})
  }

  lemma AdmitsMeant(e: Event, h: HandleObj)
    ensures Admits(e, h) <==> MeantFor(e, h)
  {
  }

  /** Delegated handlers come first: as often as a handler with a selector was added, it is delivered
      once at each element below that fits the selector, and nowhere else.  The handlers without a
      selector come last, each as often as it was added, at the element itself.  Only handlers that the
      event is meant for get it. */
  lemma DirectOnce(live: seq<HandleObj>, e: Event, path: seq<nat>, self: nat, fits: (nat, nat) -> bool, blocked: bool)
      returns (delegated: seq<Delivery>, direct: seq<Delivery>)
    requires NoDuplicates(path)
    ensures AllDeliveries(e, Groups(live, path, self, fits, blocked)) == delegated + direct
    ensures forall d: Delivery :: multiset(delegated)[d] ==
              if && !blocked && d.elem in path && MeantFor(e, d.handler)
                 && d.handler.selector.Some? && fits(d.elem, d.handler.selector.value)
              then multiset(live)[d.handler] else 0
    ensures forall d: Delivery :: multiset(direct)[d] ==
              if d.elem == self && MeantFor(e, d.handler) && d.handler.selector.None?
              then multiset(live)[d.handler] else 0
  {
    var first := if blocked then [] else DelegatedGroups(Filter(live, HasSelector), path, fits);
    var last := Filter(live, NoSelector);
    delegated, direct := AllDeliveries(e, first), GroupDeliveries(e, self, last);
    AllDeliveriesAppend(e, first, GroupAt(self, last));
    GroupAtDeliveries(e, self, last);
    forall d: Delivery
      ensures multiset(delegated)[d] ==
                if && !blocked && d.elem in path && MeantFor(e, d.handler)
                   && d.handler.selector.Some? && fits(d.elem, d.handler.selector.value)
                then multiset(live)[d.handler] else 0
    {
      if !blocked {
        BelowCount(e, Filter(live, HasSelector), path, fits, d);
        FilterCount(live, HasSelector, d.handler);
        OnWayOnce(path, d.elem);
        AdmitsMeant(e, d.handler);
      }
    }
    forall d: Delivery
      ensures multiset(direct)[d] ==
                if d.elem == self && MeantFor(e, d.handler) && d.handler.selector.None?
                then multiset(live)[d.handler] else 0
    {
      GroupCount(e, self, last, d);
      FilterCount(live, NoSelector, d.handler);
      AdmitsMeant(e, d.handler);
    }
  }

  lemma {:induction false} OnWayOnce(path: seq<nat>, elem: nat)
    requires NoDuplicates(path)
    ensures multiset(path)[elem] == if elem in path then 1 else 0
  {
    if path == [] {
    } else {
      OnWayOnce(path[1..], elem);
      OneLess(path, elem, 1);
      assert path == [path[0]] + path[1..] && path[0] !in path[1..];
    }
  }

  /* ---------- In which order ---------- */

  /** sub is made of the entries of s at these places, which go up. */
  ghost predicate From<T>(sub: seq<T>, s: seq<T>, at: seq<nat>) {
    && |at| == |sub|
    && (forall i :: 0 <= i < |at| ==> at[i] < |s| && s[at[i]] == sub[i])
    && (forall i, j :: 0 <= i < j < |at| ==> at[i] < at[j])
  }

  /** The places in the whole of the entries of the rest, with the first one before them if it is taken. */
  function Places(taken: bool, later: seq<nat>): seq<nat> {
    (if taken then [0] else []) + seq(|later|, i requires 0 <= i < |later| => later[i] + 1)
  }

  lemma FromCons<T>(first: T, taken: bool, sub: seq<T>, s: seq<T>, at: seq<nat>)
    requires From(sub, s, at)
    ensures From((if taken then [first] else []) + sub, [first] + s, Places(taken, at))
  {
  }

  lemma {:induction false} FilterFrom(s: seq<HandleObj>, t: Test) returns (at: seq<nat>)
    ensures From(Filter(s, t), s, at)
  {
    at := [];
    if s == [] {
    } else {
      at := FilterFrom(s[1..], t);
      FromCons(s[0], Passes(t, s[0]), Filter(s[1..], t), s[1..], at);
      assert [s[0]] + s[1..] == s;
      at := Places(Passes(t, s[0]), at);
    }
  }

  lemma {:induction false} MatchesFrom(s: seq<HandleObj>, elem: nat, fits: (nat, nat) -> bool) returns (at: seq<nat>)
    ensures From(MatchesAt(s, elem, fits), s, at)
  {
    at := [];
    if s == [] {
    } else {
      at := MatchesFrom(s[1..], elem, fits);
      FromCons(s[0], Chosen(s[0], elem, fits), MatchesAt(s[1..], elem, fits), s[1..], at);
      assert [s[0]] + s[1..] == s;
      at := Places(Chosen(s[0], elem, fits), at);
    }
  }

  function HandlersOf(ds: seq<Delivery>): seq<HandleObj> {
    seq(|ds|, i requires 0 <= i < |ds| => ds[i].handler)
  }

  lemma {:induction false} DeliveriesFrom(e: Event, elem: nat, s: seq<HandleObj>) returns (at: seq<nat>)
    ensures From(HandlersOf(GroupDeliveries(e, elem, s)), s, at)
    ensures forall i :: 0 <= i < |GroupDeliveries(e, elem, s)| ==> GroupDeliveries(e, elem, s)[i].elem == elem
  {
    at := [];
    if s == [] {
    } else {
      at := DeliveriesFrom(e, elem, s[1..]);
      var ds, taken := GroupDeliveries(e, elem, s[1..]), Admits(e, s[0]);
      FromCons(s[0], taken, HandlersOf(ds), s[1..], at);
      assert [s[0]] + s[1..] == s;
      assert HandlersOf(GroupDeliveries(e, elem, s)) == (if taken then [s[0]] else []) + HandlersOf(ds);
      at := Places(taken, at);
    }
  }

  lemma FromTrans<T>(a: seq<T>, b: seq<T>, c: seq<T>, ab: seq<nat>, bc: seq<nat>) returns (ac: seq<nat>)
    requires From(a, b, ab) && From(b, c, bc)
    ensures From(a, c, ac)
  {
    ac := seq(|ab|, i requires 0 <= i < |ab| => bc[ab[i]]);
  }

  /** Where a delivery comes from: an element on the way, and a handler among the live ones. */
  datatype Origin = Origin(step: nat, added: nat)

  predicate Earlier(a: Origin, b: Origin) {
    a.step < b.step || (a.step == b.step && a.added < b.added)
  }

  ghost predicate Ordered(ds: seq<Delivery>, live: seq<HandleObj>, path: seq<nat>, from: seq<Origin>) {
    && |from| == |ds|
    && (forall i :: 0 <= i < |ds| ==> from[i].step < |path| && from[i].added < |live|
                                      && ds[i] == Delivery(path[from[i].step], live[from[i].added]))
    && (forall i, j :: 0 <= i < j < |ds| ==> Earlier(from[i], from[j]))
  }

  lemma GroupOrdered(e: Event, live: seq<HandleObj>, elem: nat, s: seq<HandleObj>, at: seq<nat>)
      returns (from: seq<Origin>)
    requires From(s, live, at)
    ensures Ordered(GroupDeliveries(e, elem, s), live, [elem], from)
  {
    var at' := DeliveriesFrom(e, elem, s);
    var ds := GroupDeliveries(e, elem, s);
    at' := FromTrans(HandlersOf(ds), s, live, at', at);
    from := seq(|at'|, i requires 0 <= i < |at'| => Origin(0, at'[i]));
    forall i | 0 <= i < |ds|
      ensures ds[i] == Delivery(elem, live[from[i].added])
    {
      assert HandlersOf(ds)[i] == ds[i].handler;
    }
  }

  lemma OrderedAppend(a: seq<Delivery>, b: seq<Delivery>, live: seq<HandleObj>, elem: nat, path: seq<nat>,
                      first: seq<Origin>, later: seq<Origin>) returns (from: seq<Origin>)
    requires Ordered(a, live, [elem], first) && Ordered(b, live, path, later)
    ensures Ordered(a + b, live, [elem] + path, from)
  {
    var shifted := seq(|later|, i requires 0 <= i < |later| => Origin(later[i].step + 1, later[i].added));
    from := first + shifted;
  }

  lemma {:induction false} BelowOrdered(e: Event, live: seq<HandleObj>, delegated: seq<HandleObj>, at: seq<nat>,
                                        path: seq<nat>, fits: (nat, nat) -> bool) returns (from: seq<Origin>)
    requires From(delegated, live, at)
    ensures Ordered(AllDeliveries(e, DelegatedGroups(delegated, path, fits)), live, path, from)
    decreases |path|
  {
    from := [];
    if path == [] {
    } else {
      var matches := MatchesAt(delegated, path[0], fits);
      var here := MatchesFrom(delegated, path[0], fits);
      here := FromTrans(matches, delegated, live, here, at);
      var first := GroupOrdered(e, live, path[0], matches, here);
      from := BelowOrdered(e, live, delegated, at, path[1..], fits);
      var later := DelegatedGroups(delegated, path[1..], fits);
      from := OrderedAppend(GroupDeliveries(e, path[0], matches), AllDeliveries(e, later), live, path[0], path[1..],
                            first, from);
      assert [path[0]] + path[1..] == path;
      AllDeliveriesAppend(e, GroupAt(path[0], matches), later);
      GroupAtDeliveries(e, path[0], matches);
    }
  }

  /** The deliveries go up from the target to the element itself, and at each element they are in the
      order in which the handlers were added; the ones without a selector are the last at all. */
  lemma InOrder(live: seq<HandleObj>, e: Event, path: seq<nat>, self: nat, fits: (nat, nat) -> bool, blocked: bool)
      returns (delegated: seq<Delivery>, from: seq<Origin>, direct: seq<Delivery>, at: seq<nat>)
    ensures AllDeliveries(e, Groups(live, path, self, fits, blocked)) == delegated + direct
    ensures Ordered(delegated, live, path, from)
    ensures forall d :: d in delegated ==> d.handler.selector.Some?
    ensures From(HandlersOf(direct), live, at)
    ensures forall d :: d in direct ==> d.elem == self && d.handler.selector.None?
  {
    var first := if blocked then [] else DelegatedGroups(Filter(live, HasSelector), path, fits);
    var last := Filter(live, NoSelector);
    delegated, direct, from := AllDeliveries(e, first), GroupDeliveries(e, self, last), [];
    AllDeliveriesAppend(e, first, GroupAt(self, last));
    GroupAtDeliveries(e, self, last);
    if !blocked {
      var with := FilterFrom(live, HasSelector);
      from := BelowOrdered(e, live, Filter(live, HasSelector), with, path, fits);
    }
    at := FilterFrom(live, NoSelector);
    var direct' := DeliveriesFrom(e, self, last);
    at := FromTrans(HandlersOf(direct), last, live, direct', at);
    OnlySelected(live, e, path, self, fits, blocked);
  }

  lemma OnlySelected(live: seq<HandleObj>, e: Event, path: seq<nat>, self: nat, fits: (nat, nat) -> bool, blocked: bool)
    ensures var first := if blocked then [] else DelegatedGroups(Filter(live, HasSelector), path, fits);
            forall d :: d in AllDeliveries(e, first) ==> d.handler.selector.Some?
    ensures forall d :: d in GroupDeliveries(e, self, Filter(live, NoSelector)) ==>
              d.elem == self && d.handler.selector.None?
  {
    var first := if blocked then [] else DelegatedGroups(Filter(live, HasSelector), path, fits);
    forall d | d in AllDeliveries(e, first)
      ensures d.handler.selector.Some?
    {
      assert !blocked && multiset(AllDeliveries(e, first))[d] > 0;
      BelowCount(e, Filter(live, HasSelector), path, fits, d);
    }
    forall d | d in GroupDeliveries(e, self, Filter(live, NoSelector))
      ensures d.elem == self && d.handler.selector.None?
    {
      assert multiset(GroupDeliveries(e, self, Filter(live, NoSelector)))[d] > 0;
      GroupCount(e, self, Filter(live, NoSelector), d);
      FilterCount(live, NoSelector, d.handler);
    }
  }
}
