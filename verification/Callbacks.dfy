/** The callback list of jQuery 1.7.1 (`b.Callbacks`).

    A list is re-entrant: while one of its functions runs, that function may add to, remove
    from, fire, lock or disable the very list it was called from.  The code copes by patching
    the index and the bound of the loop that is running.

    `View` describes the same list without any index: while a fire is under way the entries
    are split into those whose turn has come (`past`) and those still to be run (`todo`).
    The functions of this module say what each operation does to a view, and the methods of
    `CallbackList`, which keep the fields and the index arithmetic of the source, are proved
    to do exactly that.  */
module Callbacks {
  import opened Basics
  import opened Functions

  datatype Flags = Flags(once: bool, memory: bool, unique: bool, stopOnFalse: bool)

  /** What `memory` holds: nothing, the marker `true`, or a remembered call. */
  datatype Memory = Unset | Spent | Kept(call: Call)

  datatype View = View(
    alive: bool,                // false once the list has been disabled
    past: seq<Fn>,              // entries whose turn has come; the whole list when idle
    todo: seq<Fn>,              // entries the running fire has still to reach
    queue: Option<seq<Call>>,   // fires waiting for the running one; None once locked
    memory: Memory,
    firing: bool,
    current: Call,              // context and arguments of the running or last fire
    log: seq<Invocation>)       // everything invoked so far
  {
    function Entries(): seq<Fn> { past + todo }

    function Waiting(): nat { if queue.Some? then |queue.value| else 0 }
  }

  const NO_CALL := Call(0, [])

  function Fresh(): View {
    View(true, [], [], Some([]), Unset, false, NO_CALL, [])
  }

  /** What every operation keeps. */
  ghost predicate Inv(flags: Flags, v: View) {
    && (!v.alive ==> v.past == [] && v.todo == [] && v.queue.None? && !v.memory.Kept?)
    && (!v.firing ==> v.todo == [] && v.Waiting() == 0)
    && (flags.once ==> v.Waiting() == 0)
    && (v.memory.Kept? ==> flags.memory)
    && (v.firing && v.memory.Kept? ==> v.memory.call == v.current)
    && (v.firing && v.alive ==> !v.memory.Unset?)
    && (flags.unique ==> NoDuplicates(v.Entries()))
    && (flags.once && !v.firing && v.memory.Kept? ==> v.past == [])
  }

  /* ---------- What each operation does to a view ---------- */

  /** The entries that adding fns to a list really appends. */
  function Accepted(flags: Flags, entries: seq<Fn>, fns: seq<Fn>): (r: seq<Fn>)
    ensures !flags.unique ==> r == fns
    decreases |fns|
  {
    if fns == [] then []
    else if flags.unique && fns[0] in entries then Accepted(flags, entries, fns[1..])
    else [fns[0]] + Accepted(flags, entries + [fns[0]], fns[1..])
  }

  function Disabled(v: View): View {
    v.(alive := false, past := [], todo := [], queue := None, memory := Unset)
  }

  /** Starts a fire that passes over `past` and is going to run `todo`. */
  function StartFire(flags: Flags, v: View, past: seq<Fn>, todo: seq<Fn>, call: Call): View
    decreases v.Waiting(), 2
  {
    Proceed(flags, v.(past := past, todo := todo, current := call, firing := true,
                      memory := if flags.memory then Kept(call) else Spent))
  }

  /** Gives control to the next entry, or ends the fire. */
  function Proceed(flags: Flags, v: View): View
    decreases v.Waiting(), 1
  {
    if v.todo != [] then
      v.(past := v.past + [v.todo[0]], todo := v.todo[1..],
         log := v.log + [Invocation(v.todo[0], v.current)])
    else
      Finish(flags, v)
  }

  /** Ends the running fire and starts the next one that is waiting. */
  function Finish(flags: Flags, v: View): View
    decreases v.Waiting(), 0
  {
    var entries := v.Entries();
    var v' := v.(past := entries, todo := [], firing := false);
    if !v.alive then v'
    else if flags.once then
      if v.memory.Spent? then Disabled(v') else v'.(past := [])
    else if v.Waiting() > 0 then
      StartFire(flags, v'.(queue := Some(v.queue.value[1..])), [], entries, v.queue.value[0])
    else v'
  }

  /** `add`: appends to a running fire, or replays the remembered call on the new entries. */
  function Added(flags: Flags, v: View, fns: seq<Fn>): View {
    if !v.alive then v
    else
      var accepted := Accepted(flags, v.Entries(), fns);
      if v.firing then v.(todo := v.todo + accepted)
      else if v.memory.Kept? then StartFire(flags, v, v.past, accepted, v.memory.call)
      else v.(past := v.past + accepted)
  }

  /** `remove`: every occurrence goes, on whichever side of the running entry it is. */
  function Removed(v: View, fns: seq<Fn>): View
    decreases |fns|
  {
    if fns == [] then v
    else Removed(v.(past := Without(v.past, fns[0]), todo := Without(v.todo, fns[0])), fns[1..])
  }

  /** `lock`: no further fires; a list that remembers no call is disabled. */
  function Locked(v: View): View {
    if v.memory.Kept? then v.(queue := None) else Disabled(v)
  }

  /** `empty` of an idle list, which also revives a disabled one. */
  function Emptied(v: View): View
    requires !v.firing
  {
    v.(alive := true, past := [])
  }

  /** `fireWith` */
  function Fired(flags: Flags, v: View, call: Call): View {
    if v.queue.None? then v
    else if v.firing then
      if flags.once then v else v.(queue := Some(v.queue.value + [call]))
    else if flags.once && !v.memory.Unset? then v
    else StartFire(flags, v, [], v.Entries(), call)
  }

  /** The running entry returns; returnedFalse tells whether it returned `false`. */
  function Returned(flags: Flags, v: View, returnedFalse: bool): View {
    if !v.firing then v
    else if returnedFalse && flags.stopOnFalse then Finish(flags, v.(memory := Spent))
    else Proceed(flags, v)
  }

  /* ---------- Every operation keeps the invariant ---------- */

  lemma {:induction false} AcceptedNoDuplicates(flags: Flags, entries: seq<Fn>, fns: seq<Fn>)
    requires flags.unique && NoDuplicates(entries)
    ensures NoDuplicates(entries + Accepted(flags, entries, fns))
    decreases |fns|
  {
    if fns == [] {
      assert entries + [] == entries;
    } else if fns[0] in entries {
      AcceptedNoDuplicates(flags, entries, fns[1..]);
    } else {
      AcceptedNoDuplicates(flags, entries + [fns[0]], fns[1..]);
      var rest := Accepted(flags, entries + [fns[0]], fns[1..]);
      Assoc(entries, [fns[0]], rest);
    }
  }

  lemma {:induction false} AcceptedAppend(flags: Flags, entries: seq<Fn>, a: seq<Fn>, b: seq<Fn>)
    ensures Accepted(flags, entries, a + b)
         == Accepted(flags, entries, a) + Accepted(flags, entries + Accepted(flags, entries, a), b)
    decreases |a|
  {
    if a == [] {
      assert a + b == b;
      assert entries + [] == entries;
    } else {
      assert (a + b)[1..] == a[1..] + b;
      if flags.unique && a[0] in entries {
        AcceptedAppend(flags, entries, a[1..], b);
      } else {
        AcceptedAppend(flags, entries + [a[0]], a[1..], b);
        var rest := Accepted(flags, entries + [a[0]], a[1..]);
        Assoc(entries, [a[0]], rest);
      }
    }
  }

  /** Without "unique" everything is appended; under "unique" a function that is there already is left out,
      and any other is appended, which with AcceptedAppend says what becomes of several. */
  lemma AcceptedOne(flags: Flags, entries: seq<Fn>, fn: Fn)
    ensures Accepted(flags, entries, [fn]) == if flags.unique && fn in entries then [] else [fn]
    ensures Accepted(flags, entries, []) == []
  {
    assert [fn][1..] == [] && [fn] + [] == [fn];
  }

  /** Under "unique" exactly the functions that are new are appended, once each. */
  lemma {:induction false} AcceptedNew(flags: Flags, entries: seq<Fn>, fns: seq<Fn>, fn: Fn)
    requires flags.unique
    ensures Occurrences(Accepted(flags, entries, fns), fn) == if fn in fns && fn !in entries then 1 else 0
    decreases |fns|
  {
    if fns == [] {
    } else if fns[0] in entries {
      AcceptedNew(flags, entries, fns[1..], fn);
    } else {
      AcceptedNew(flags, entries + [fns[0]], fns[1..], fn);
    }
  }

  lemma {:induction false} ProceedInv(flags: Flags, v: View)
    requires Inv(flags, v) && v.firing
    ensures Inv(flags, Proceed(flags, v))
    decreases v.Waiting(), 1
  {
    if v.todo != [] {
      assert v.past + [v.todo[0]] + v.todo[1..] == v.past + v.todo;
    } else {
      FinishInv(flags, v);
    }
  }

  lemma {:induction false} FinishInv(flags: Flags, v: View)
    requires Inv(flags, v) && v.firing
    ensures Inv(flags, Finish(flags, v))
    decreases v.Waiting(), 0
  {
    assert v.Entries() + [] == v.Entries();
    if v.alive && !flags.once && v.Waiting() > 0 {
      var entries := v.Entries();
      var v' := v.(past := entries, todo := [], firing := false, queue := Some(v.queue.value[1..]));
      var call := v.queue.value[0];
      assert [] + entries == entries;
      ProceedInv(flags, v'.(past := [], todo := entries, current := call, firing := true,
                            memory := if flags.memory then Kept(call) else Spent));
    }
  }

  lemma {:induction false} StartFireInv(flags: Flags, v: View, past: seq<Fn>, todo: seq<Fn>, call: Call)
    requires Inv(flags, v) && v.alive
    requires flags.unique ==> NoDuplicates(past + todo)
    ensures Inv(flags, StartFire(flags, v, past, todo, call))
  {
    ProceedInv(flags, v.(past := past, todo := todo, current := call, firing := true,
                         memory := if flags.memory then Kept(call) else Spent));
  }

  /** The view from which a replay of the remembered call takes its first step. */
  function Replaying(flags: Flags, v: View, fns: seq<Fn>): View
    requires v.memory.Kept?
  {
    v.(todo := Accepted(flags, v.Entries(), fns), current := v.memory.call, firing := true)
  }

  lemma ReplayInv(flags: Flags, v: View, fns: seq<Fn>)
    requires Inv(flags, v) && v.alive && !v.firing && v.memory.Kept?
    ensures Inv(flags, Replaying(flags, v, fns))
    ensures Added(flags, v, fns) == Proceed(flags, Replaying(flags, v, fns))
  {
    if flags.unique {
      AcceptedNoDuplicates(flags, v.Entries(), fns);
      assert v.past == v.Entries();
    }
  }

  lemma AddedInv(flags: Flags, v: View, fns: seq<Fn>)
    requires Inv(flags, v)
    ensures Inv(flags, Added(flags, v, fns))
  {
    if v.alive {
      var accepted := Accepted(flags, v.Entries(), fns);
      if flags.unique {
        AcceptedNoDuplicates(flags, v.Entries(), fns);
      }
      Assoc(v.past, v.todo, accepted);
      if !v.firing {
        assert v.Entries() == v.past;
        if v.memory.Kept? {
          StartFireInv(flags, v, v.past, accepted, v.memory.call);
        }
      }
    }
  }

  lemma {:induction false} RemovedInv(flags: Flags, v: View, fns: seq<Fn>)
    requires Inv(flags, v)
    ensures Inv(flags, Removed(v, fns))
    decreases |fns|
  {
    if fns == [] {
    } else {
      var v' := v.(past := Without(v.past, fns[0]), todo := Without(v.todo, fns[0]));
      WithoutAppend(v.past, v.todo, fns[0]);
      if flags.unique {
        WithoutNoDuplicates(v.Entries(), fns[0]);
      }
      RemovedInv(flags, v', fns[1..]);
    }
  }

  lemma {:induction false} RemovedDead(v: View, fns: seq<Fn>)
    requires v.past == [] && v.todo == []
    ensures Removed(v, fns) == v
    decreases |fns|
  {
    if fns == [] {
    } else {
      RemovedDead(v, fns[1..]);
    }
  }

  lemma RemovedOne(flags: Flags, v: View, fn: Fn)
    requires Inv(flags, v)
    ensures Removed(v, [fn]) == v.(past := Without(v.past, fn), todo := Without(v.todo, fn))
    ensures Inv(flags, Removed(v, [fn]))
  {
    RemovedInv(flags, v, [fn]);
    assert [fn][1..] == [];
  }

  lemma EmptiedInv(flags: Flags, v: View)
    requires Inv(flags, v) && !v.firing
    ensures Inv(flags, Emptied(v))
  {
  }

  lemma LockedInv(flags: Flags, v: View)
    requires Inv(flags, v)
    ensures Inv(flags, v.(queue := None)) && Inv(flags, Disabled(v)) && Inv(flags, Locked(v))
  {
  }

  lemma FiredInv(flags: Flags, v: View, call: Call)
    requires Inv(flags, v)
    ensures Inv(flags, Fired(flags, v, call))
  {
    if v.queue.Some? && !v.firing && !(flags.once && !v.memory.Unset?) {
      assert [] + v.Entries() == v.Entries();
      StartFireInv(flags, v, [], v.Entries(), call);
    }
  }

  lemma ReturnedInv(flags: Flags, v: View, returnedFalse: bool)
    requires Inv(flags, v)
    ensures Inv(flags, Returned(flags, v, returnedFalse))
  {
    if v.firing {
      if returnedFalse && flags.stopOnFalse {
        FinishInv(flags, v.(memory := Spent));
      } else {
        ProceedInv(flags, v);
      }
    }
  }
}
