/** The handlers of one type of event on one element, and the dispatch of an event to them. */
module EventHandlers {
  import opened Basics

  /** What `event.add` keeps of a handler that is a plain function. */
  datatype HandleObj = HandleObj(origType: nat, guid: nat, selector: Option<nat>, namespaces: set<nat>, handler: nat)

  datatype SelectorQuery = AnySelector | Exactly(selector: nat) | AllDelegated

  /** What `event.remove` is asked to remove; mappedTypes holds when it goes through all types. */
  datatype Query = Query(mappedTypes: bool, origType: nat, guid: Option<nat>, namespaces: set<nat>,
      selector: SelectorQuery)

  predicate Matches(q: Query, h: HandleObj) {
    && (q.mappedTypes || q.origType == h.origType)
    && (q.guid.None? || q.guid.value == h.guid)
    && q.namespaces <= h.namespaces
    && match q.selector {
         case AnySelector => true
         case Exactly(s) => h.selector == Some(s)
         case AllDelegated => h.selector.Some?
       }
  }

  /* ---------- The arrangement ---------- */

  datatype Test = HasSelector | NoSelector | NotMatching(query: Query)

  predicate Passes(t: Test, h: HandleObj) {
    match t
    case HasSelector => h.selector.Some?
    case NoSelector => h.selector.None?
    case NotMatching(q) => !Matches(q, h)
  }

  function Filter(s: seq<HandleObj>, t: Test): (r: seq<HandleObj>)
    ensures |r| <= |s|
  {
    if s == [] then [] else (if Passes(t, s[0]) then [s[0]] else []) + Filter(s[1..], t)
  }

  /** The array for the handlers that are alive, given in the order in which they were added: first
      those with a selector, then those without, and otherwise in that order. */
  function Arranged(live: seq<HandleObj>): seq<HandleObj> {
    Filter(live, HasSelector) + Filter(live, NoSelector)
  }

  lemma {:induction false} FilterAppend(a: seq<HandleObj>, b: seq<HandleObj>, t: Test)
    ensures Filter(a + b, t) == Filter(a, t) + Filter(b, t)
  {
    if a == [] {
      assert a + b == b;
    } else {
      FilterAppend(a[1..], b, t);
      assert (a + b)[0] == a[0] && (a + b)[1..] == a[1..] + b;
      Assoc(if Passes(t, a[0]) then [a[0]] else [], Filter(a[1..], t), Filter(b, t));
    }
  }

  lemma {:induction false} FilterSwap(s: seq<HandleObj>, t: Test, u: Test)
    ensures Filter(Filter(s, t), u) == Filter(Filter(s, u), t)
  {
    if s == [] {
    } else {
      FilterSwap(s[1..], t, u);
      FilterAppend(if Passes(t, s[0]) then [s[0]] else [], Filter(s[1..], t), u);
      FilterAppend(if Passes(u, s[0]) then [s[0]] else [], Filter(s[1..], u), t);
    }
  }

  lemma {:induction false} FilterHolds(s: seq<HandleObj>, t: Test)
    ensures forall i :: 0 <= i < |Filter(s, t)| ==> Passes(t, Filter(s, t)[i])
  {
    if s == [] {
    } else {
      FilterHolds(s[1..], t);
    }
  }

  lemma {:induction false} FilterAll(s: seq<HandleObj>, t: Test)
    requires forall i :: 0 <= i < |s| ==> Passes(t, s[i])
    ensures Filter(s, t) == s
  {
    if s == [] {
    } else {
      FilterAll(s[1..], t);
    }
  }

  lemma {:induction false} BothParts(live: seq<HandleObj>)
    ensures multiset(Arranged(live)) == multiset(live)
  {
    if live == [] {
    } else {
      BothParts(live[1..]);
      assert live == [live[0]] + live[1..];
    }
  }

  /** The first entries of the array, as many as have a selector, are exactly those that have one;
      and the array holds every live handler, as often as it was added. */
  lemma Partition(live: seq<HandleObj>)
    ensures forall i :: 0 <= i < |Arranged(live)| ==>
              (Arranged(live)[i].selector.Some? <==> i < |Filter(live, HasSelector)|)
    ensures multiset(Arranged(live)) == multiset(live)
  {
    FilterHolds(live, HasSelector);
    FilterHolds(live, NoSelector);
    BothParts(live);
    var n := |Filter(live, HasSelector)|;
    forall i | 0 <= i < |Arranged(live)|
      ensures Arranged(live)[i].selector.Some? <==> i < n
    {
      if i < n {
        assert Passes(HasSelector, Filter(live, HasSelector)[i]);
      } else {
        assert Passes(NoSelector, Filter(live, NoSelector)[i - n]);
      }
    }
  }

  /** Removing from the array leaves the arrangement of the handlers that stay. */
  lemma RemovedArranged(live: seq<HandleObj>, q: Query)
    ensures Filter(Arranged(live), NotMatching(q)) == Arranged(Filter(live, NotMatching(q)))
  {
    FilterAppend(Filter(live, HasSelector), Filter(live, NoSelector), NotMatching(q));
    FilterSwap(live, HasSelector, NotMatching(q));
    FilterSwap(live, NoSelector, NotMatching(q));
  }

  lemma SumCount<T>(a: seq<T>, b: seq<T>, x: T)
    ensures multiset(a + b)[x] == multiset(a)[x] + multiset(b)[x]
  {
  }

  lemma FirstCount<T>(s: seq<T>, x: T)
    requires s != []
    ensures multiset(s)[x] == (if s[0] == x then 1 else 0) + multiset(s[1..])[x]
  {
    assert s == [s[0]] + s[1..];
    SumCount([s[0]], s[1..], x);
  }

  lemma {:induction false} FilterCount(s: seq<HandleObj>, t: Test, h: HandleObj)
    ensures multiset(Filter(s, t))[h] == if Passes(t, h) then multiset(s)[h] else 0
  {
    if s == [] {
    } else {
      FilterCount(s[1..], t, h);
      SumCount(if Passes(t, s[0]) then [s[0]] else [], Filter(s[1..], t), h);
      FirstCount(s, h);
    }
  }

  /** A handler stays when it differs from the query in one of the things that this asks for. */
  predicate Stays(q: Query, h: HandleObj) {
    || (!q.mappedTypes && h.origType != q.origType)
    || (q.guid.Some? && h.guid != q.guid.value)
    || (exists ns :: ns in q.namespaces && ns !in h.namespaces)
    || (q.selector.Exactly? && (h.selector.None? || h.selector.value != q.selector.selector))
    || (q.selector.AllDelegated? && h.selector.None?)
  }

  /** Of every handler, as many remain as there were if it stays, and none otherwise. */
  lemma RemovedExactly(live: seq<HandleObj>, q: Query)
    ensures forall h :: multiset(Filter(live, NotMatching(q)))[h] == if Stays(q, h) then multiset(live)[h] else 0
  {
    forall h
      ensures multiset(Filter(live, NotMatching(q)))[h] == if Stays(q, h) then multiset(live)[h] else 0
    {
      FilterCount(live, NotMatching(q), h);
    }
  }

  /** How many of the entries have a selector, counted in the array itself. */
  lemma DelegatedCount(live: seq<HandleObj>)
    ensures Filter(Arranged(live), HasSelector) == Filter(live, HasSelector)
  {
    var a, b := Filter(live, HasSelector), Filter(live, NoSelector);
    FilterHolds(live, HasSelector);
    FilterHolds(live, NoSelector);
    FilterAppend(a, b, HasSelector);
    FilterAll(a, HasSelector);
    FilterNone(b);
  }

  lemma {:induction false} FilterNone(s: seq<HandleObj>)
    requires forall i :: 0 <= i < |s| ==> Passes(NoSelector, s[i])
    ensures Filter(s, HasSelector) == []
  {
    if s == [] {
    } else {
      assert Passes(NoSelector, s[0]);
      assert forall i :: 0 <= i < |s[1..]| ==> s[1..][i] == s[i + 1];
      FilterNone(s[1..]);
    }
  }

  /* ---------- The array ---------- */

  class HandlerArray {
    var handlers: seq<HandleObj>
    var delegateCount: nat
    ghost var live: seq<HandleObj>

    ghost predicate Valid()
      reads this
    {
      handlers == Arranged(live) && delegateCount == |Filter(live, HasSelector)|
    }

    constructor ()
      ensures Valid() && live == []
    {
      handlers, delegateCount, live := [], 0, [];
    }

    /** `event.add` */
    method Add(h: HandleObj)
      requires Valid()
      modifies this
      ensures Valid() && live == old(live) + [h]
    {
      FilterAppend(live, [h], HasSelector);
      FilterAppend(live, [h], NoSelector);
      if h.selector.Some? {
        handlers := handlers[..delegateCount] + [h] + handlers[delegateCount..];
        delegateCount := delegateCount + 1;
      } else {
        handlers := handlers + [h];
      }
      live := live + [h];
    }

    /** `event.remove`.  When no handler is left the original drops the array, and the next `add`
        makes a new one: an empty array is as good as a new one, by Valid. */
    method Remove(q: Query)
      requires Valid()
      modifies this
      ensures Valid() && live == Filter(old(live), NotMatching(q))
      ensures handlers == [] ==> delegateCount == 0
    {
      ghost var was, t := handlers, NotMatching(q);
      ghost var p := 0;
      var i := 0;
      BeforeRemoval(live, t);
      while i < |handlers|
        invariant Halfway(was, p, t, handlers, i, delegateCount) && live == old(live)
        decreases |was| - p
      {
        RemoveTurn(was, p, t, handlers, i, delegateCount);
        var e := handlers[i];
        if Matches(q, e) {
          handlers := handlers[..i] + handlers[i + 1..];
          if e.selector.Some? {
            delegateCount := delegateCount - 1;
          }
        } else {
          i := i + 1;
        }
        p := p + 1;
      }
      AfterRemoval(live, p, q, handlers, i, delegateCount);
      live := Filter(live, t);
    }
  }

  /** The loop of `remove` at entry i, when it has seen p of the entries there were. */
  ghost predicate Halfway(was: seq<HandleObj>, p: nat, t: Test, handlers: seq<HandleObj>, i: nat, count: nat) {
    && p <= |was| && i == |Filter(was[..p], t)|
    && handlers == Filter(was[..p], t) + was[p..]
    && count == |Filter(handlers, HasSelector)|
  }

  lemma BeforeRemoval(live: seq<HandleObj>, t: Test)
    ensures Halfway(Arranged(live), 0, t, Arranged(live), 0, |Filter(live, HasSelector)|)
  {
    var was := Arranged(live);
    DelegatedCount(live);
    assert was[..0] == [] && was[0..] == was && [] + was == was;
  }

  lemma AfterRemoval(live: seq<HandleObj>, p: nat, q: Query, handlers: seq<HandleObj>, i: nat, count: nat)
    requires Halfway(Arranged(live), p, NotMatching(q), handlers, i, count) && i >= |handlers|
    ensures var stay := Filter(live, NotMatching(q));
            handlers == Arranged(stay) && count == |Filter(stay, HasSelector)|
  {
    AllSeen(Arranged(live), p, NotMatching(q), handlers, i, count);
    RemovedArranged(live, q);
    DelegatedCount(Filter(live, NotMatching(q)));
  }

  lemma RemoveTurn(was: seq<HandleObj>, p: nat, t: Test, handlers: seq<HandleObj>, i: nat, count: nat)
    requires Halfway(was, p, t, handlers, i, count) && i < |handlers|
    ensures p < |was|
    ensures if Passes(t, handlers[i]) then Halfway(was, p + 1, t, handlers, i + 1, count)
            else
              var n := if handlers[i].selector.Some? then count - 1 else count;
              n >= 0 && Halfway(was, p + 1, t, handlers[..i] + handlers[i + 1..], i, n)
  {
    KeptNext(was, p, t);
    WithoutOne(handlers, i, HasSelector);
  }

  lemma AllSeen(was: seq<HandleObj>, p: nat, t: Test, handlers: seq<HandleObj>, i: nat, count: nat)
    requires Halfway(was, p, t, handlers, i, count) && i >= |handlers|
    ensures handlers == Filter(was, t) && count == |Filter(handlers, HasSelector)|
  {
    assert was[..p] == was;
  }

  lemma KeptNext(was: seq<HandleObj>, p: nat, t: Test)
    requires p < |was|
    ensures var kept := Filter(was[..p], t); var now := kept + was[p..];
            && now[|kept|] == was[p]
            && Filter(was[..p + 1], t) == kept + (if Passes(t, was[p]) then [was[p]] else [])
            && (if Passes(t, was[p]) then now == Filter(was[..p + 1], t) + was[p + 1..]
                else now[..|kept|] + now[|kept| + 1..] == Filter(was[..p + 1], t) + was[p + 1..])
  {
    assert was[..p + 1] == was[..p] + [was[p]] && was[p..] == [was[p]] + was[p + 1..];
    FilterAppend(was[..p], [was[p]], t);
    assert [was[p]][1..] == [];
  }

  lemma WithoutOne(s: seq<HandleObj>, i: nat, t: Test)
    requires i < |s|
    ensures |Filter(s[..i] + s[i + 1..], t)| == |Filter(s, t)| - if Passes(t, s[i]) then 1 else 0
  {
    assert s == s[..i] + ([s[i]] + s[i + 1..]) && ([s[i]] + s[i + 1..])[1..] == s[i + 1..];
    FilterAppend(s[..i], [s[i]] + s[i + 1..], t);
    FilterAppend(s[..i], s[i + 1..], t);
  }
}
