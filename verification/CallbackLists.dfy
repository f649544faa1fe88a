/** The closure that `b.Callbacks` returns, with the fields the source keeps and updates in
    place.  A field comment gives the name the variable has in the source.

    Invoking an entry hands control to arbitrary code, which may call any operation of the
    list again before it returns.  Each method therefore runs up to the next invocation and
    stops there with `firing` set; `Return` is the moment the invoked entry comes back, and
    continues the loop.  */
module CallbackLists {
  import opened Basics
  import opened Functions
  import opened Callbacks

  /** An argument of `add`: a function, a nested array of arguments, or anything else. */
  datatype Arg = FnArg(fn: Fn) | ArrayArg(items: seq<Arg>) | OtherArg

  /** The functions among the arguments, depth first, as `add` meets them. */
  function Flatten(args: seq<Arg>): seq<Fn> {
    if args == [] then [] else FlattenOne(args[0]) + Flatten(args[1..])
  }

  function FlattenOne(arg: Arg): seq<Fn> {
    match arg
    case FnArg(fn) => [fn]
    case ArrayArg(items) => Flatten(items)
    case OtherArg => []
  }

  lemma {:induction false} FlattenAppend(a: seq<Arg>, b: seq<Arg>)
    ensures Flatten(a + b) == Flatten(a) + Flatten(b)
    decreases |a|
  {
    if a == [] {
      assert a + b == b;
    } else {
      FlattenAppend(a[1..], b);
      assert (a + b)[0] == a[0] && (a + b)[1..] == a[1..] + b;
      Assoc(FlattenOne(a[0]), Flatten(a[1..]), Flatten(b));
    }
  }

  lemma FlattenSnoc(args: seq<Arg>, last: Arg)
    ensures Flatten(args + [last]) == Flatten(args) + FlattenOne(last)
  {
    FlattenAppend(args, [last]);
    assert [last][1..] == [] && FlattenOne(last) + [] == FlattenOne(last);
  }

  lemma {:induction false} FlattenFns(fns: seq<Fn>, args: seq<Arg>)
    requires |args| == |fns| && forall i :: 0 <= i < |fns| ==> args[i] == FnArg(fns[i])
    ensures Flatten(args) == fns
    decreases |fns|
  {
    if fns == [] {
    } else {
      FlattenFns(fns[1..], args[1..]);
    }
  }

  /** A nested array counts as its items in its place, and what is neither a function nor an array counts
      as nothing; with that any arguments come down to the functions in them. */
  lemma FlattenNested(before: seq<Arg>, items: seq<Arg>, after: seq<Arg>)
    ensures Flatten(before + [ArrayArg(items)] + after) == Flatten(before + items + after)
    ensures Flatten(before + [OtherArg] + after) == Flatten(before + after)
  {
    FlattenAppend(before + [ArrayArg(items)], after);
    FlattenSnoc(before, ArrayArg(items));
    FlattenAppend(before + items, after);
    FlattenAppend(before, items);
    FlattenAppend(before + [OtherArg], after);
    FlattenSnoc(before, OtherArg);
    FlattenAppend(before, after);
  }

  /** The effect of one more argument of `add`. */
  lemma PushStep(flags: Flags, was: seq<Fn>, args: seq<Arg>, i: nat)
    requires i < |args|
    ensures var before := was + Accepted(flags, was, Flatten(args[..i]));
            was + Accepted(flags, was, Flatten(args[..i + 1]))
            == before + Accepted(flags, before, FlattenOne(args[i]))
  {
    assert args[..i + 1] == args[..i] + [args[i]];
    FlattenSnoc(args[..i], args[i]);
    AcceptedAppend(flags, was, Flatten(args[..i]), FlattenOne(args[i]));
  }

  /** The list while fn is being taken out of it, when p of the original entries have been seen. */
  function Left(was: seq<Fn>, p: nat, fn: Fn): seq<Fn>
    requires p <= |was|
  {
    Without(was[..p], fn) + was[p..]
  }

  /** How many of the first k original entries are still in that list. */
  function LeftOf(was: seq<Fn>, k: nat, p: nat, fn: Fn): nat
    requires k <= |was| && p <= |was|
  {
    if p <= k then |Without(was[..p], fn)| + k - p else |Without(was[..k], fn)|
  }

  lemma LeftNext(was: seq<Fn>, k: nat, p: nat, fn: Fn)
    requires k <= |was| && p < |was|
    ensures var i, left := |Without(was[..p], fn)|, Left(was, p, fn);
            && i < |left| && left[i] == was[p]
            && (p < k <==> i < LeftOf(was, k, p, fn))
            && (if was[p] == fn then
                  && Left(was, p + 1, fn) == left[..i] + left[i + 1..]
                  && |Without(was[..p + 1], fn)| == i
                  && LeftOf(was, k, p + 1, fn) == LeftOf(was, k, p, fn) - (if p < k then 1 else 0)
                else
                  && Left(was, p + 1, fn) == left
                  && |Without(was[..p + 1], fn)| == i + 1
                  && LeftOf(was, k, p + 1, fn) == LeftOf(was, k, p, fn))
  {
    WithoutNext(was, p, fn);
    assert was[p..] == [was[p]] + was[p + 1..];
    Splice(Without(was[..p], fn), was[p], was[p + 1..]);
    LeftOfNext(was, k, p, fn);
  }

  lemma Splice(a: seq<Fn>, x: Fn, rest: seq<Fn>)
    ensures var s := a + ([x] + rest);
            s[|a|] == x && s[..|a|] + s[|a| + 1..] == a + rest && a + [x] + rest == s && a + [] + rest == a + rest
  {
  }

  lemma LeftOfNext(was: seq<Fn>, k: nat, p: nat, fn: Fn)
    requires k <= |was| && p < |was|
    ensures p < k <==> |Without(was[..p], fn)| < LeftOf(was, k, p, fn)
    ensures LeftOf(was, k, p + 1, fn)
         == if was[p] == fn && p < k then LeftOf(was, k, p, fn) - 1 else LeftOf(was, k, p, fn)
  {
    if p < k {
      WithoutNext(was, p, fn);
    } else {
      assert was[..p] == was[..k] + was[k..p];
      WithoutAppend(was[..k], was[k..p], fn);
    }
  }

  /** The loop of `remove` at entry i of the list, when it has seen p of the entries there were. */
  ghost predicate Removing(was: seq<Fn>, k: nat, p: nat, fn: Fn, list: seq<Fn>, i: nat) {
    k <= |was| && p <= |was| && i == |Without(was[..p], fn)| && list == Left(was, p, fn)
  }

  /** The bound and the index that a fire then needs which has gone through k of the original entries. */
  ghost predicate PlaceIn(was: seq<Fn>, k: nat, p: nat, fn: Fn, firingLength: int, firingIndex: int)
    requires k <= |was| && p <= |was|
  {
    firingLength == |Left(was, p, fn)| && firingIndex + 1 == LeftOf(was, k, p, fn)
  }

  lemma NothingSeen(was: seq<Fn>, k: nat, fn: Fn)
    requires k <= |was|
    ensures Removing(was, k, 0, fn, was, 0) && LeftOf(was, k, 0, fn) == k
  {
    assert was[..0] == [] && [] + was[0..] == was;
  }

  lemma AllSeen(was: seq<Fn>, k: nat, p: nat, fn: Fn, list: seq<Fn>, i: nat)
    requires Removing(was, k, p, fn, list, i)
    ensures i >= |list| ==> p == |was| && fn !in was[p..]
  {
  }

  lemma RemovingTurn(was: seq<Fn>, k: nat, p: nat, fn: Fn, list: seq<Fn>, i: nat, length: int, index: int)
    requires Removing(was, k, p, fn, list, i) && i < |list|
    ensures p < |was| && list[i] == was[p]
    ensures if list[i] == fn then Removing(was, k, p + 1, fn, list[..i] + list[i + 1..], i)
            else Removing(was, k, p + 1, fn, list, i + 1)
    ensures PlaceIn(was, k, p, fn, length, index) ==>
              && i <= length
              && if list[i] != fn then PlaceIn(was, k, p + 1, fn, length, index)
                 else PlaceIn(was, k, p + 1, fn, length - 1, if i <= index then index - 1 else index)
  {
    LeftNext(was, k, p, fn);
  }

  /** Nothing left to take out: both sides of the split have lost fn and nothing else. */
  lemma LeftDone(was: seq<Fn>, k: nat, p: nat, fn: Fn)
    requires k <= |was| && p <= |was| && fn !in was[p..]
    ensures var left, n := Left(was, p, fn), LeftOf(was, k, p, fn);
            n <= |left| && left[..n] == Without(was[..k], fn) && left[n..] == Without(was[k..], fn)
  {
    if p <= k {
      assert was[..k] == was[..p] + was[p..k] && was[p..] == was[p..k] + was[k..];
      LeftBefore(was[..p], was[p..k], was[k..], fn);
    } else {
      assert was[..p] == was[..k] + was[k..p] && was[k..] == was[k..p] + was[p..];
      LeftBehind(was[..k], was[k..p], was[p..], fn);
    }
  }

  lemma LeftBefore(a: seq<Fn>, b: seq<Fn>, c: seq<Fn>, fn: Fn)
    requires fn !in b + c
    ensures var left, n := Without(a, fn) + (b + c), |Without(a, fn)| + |b|;
            left[..n] == Without(a + b, fn) && left[n..] == Without(c, fn)
  {
    WithoutAppend(a, b, fn);
    WithoutAbsent(b, fn);
    WithoutAbsent(c, fn);
    Assoc(Without(a, fn), b, c);
  }

  lemma LeftBehind(a: seq<Fn>, b: seq<Fn>, c: seq<Fn>, fn: Fn)
    requires fn !in c
    ensures var left, n := Without(a + b, fn) + c, |Without(a, fn)|;
            n <= |left| && left[..n] == Without(a, fn) && left[n..] == Without(b + c, fn)
  {
    WithoutAppend(a, b, fn);
    WithoutAppend(b, c, fn);
    WithoutAbsent(c, fn);
    Assoc(Without(a, fn), Without(b, fn), c);
  }

  lemma PastOf(past: seq<Fn>, todo: seq<Fn>, accepted: seq<Fn>)
    ensures (past + todo + accepted)[..|past|] == past && (past + todo + accepted)[|past|..] == todo + accepted
    ensures past + [] + accepted == past + accepted && [] + accepted == accepted
  {
  }

  lemma LeftAll(was: seq<Fn>, p: nat, fn: Fn)
    requires p <= |was| && fn !in was[p..]
    ensures Left(was, p, fn) == Without(was, fn)
  {
    assert was == was[..p] + was[p..];
    WithoutAppend(was[..p], was[p..], fn);
    WithoutAbsent(was[p..], fn);
  }

  lemma {:induction false} AtMostOnce(s: seq<Fn>, fn: Fn)
    requires NoDuplicates(s)
    ensures |s| <= |Without(s, fn)| + 1
  {
    if s == [] {
    } else {
      AtMostOnce(s[1..], fn);
      if s[0] == fn {
        assert fn !in s[1..];
        WithoutAbsent(s[1..], fn);
      }
    }
  }

  lemma {:induction false} Present(s: seq<Fn>, fn: Fn)
    requires fn in s
    ensures |Without(s, fn)| < |s|
  {
    if s[0] != fn {
      assert s == [s[0]] + s[1..];
      Present(s[1..], fn);
    }
  }

  lemma OnlyOnce(was: seq<Fn>, p: nat)
    requires 0 < p <= |was| && |was| <= |Without(was, was[p - 1])| + 1
    ensures was[p - 1] !in was[p..]
  {
    var fn := was[p - 1];
    assert was == was[..p] + was[p..];
    WithoutAppend(was[..p], was[p..], fn);
    assert was[..p][p - 1] == fn;
    Present(was[..p], fn);
    if fn in was[p..] {
      Present(was[p..], fn);
    }
  }

  class CallbackList {
    const flags: Flags                // bw
    var list: Option<seq<Fn>>         // bB
    var queue: Option<seq<Call>>      // bC
    var memory: Memory                // bx
    var firing: bool                  // by
    var firingStart: nat              // bv
    var firingLength: int             // bz
    var firingIndex: int              // bA
    var current: Call                 // bG and bF, the arguments of the running fire
    var log: seq<Invocation>          // every apply, in order

    ghost predicate Valid()
      reads this
    {
      && firingStart == 0
      && IndexValid()
      && Inv(flags, View())
    }

    /** The bound of the running loop is the length of the list, and the index never leaves it. */
    ghost predicate IndexValid()
      reads this
    {
      firing && list.Some? ==> firingLength == |list.value| && -1 <= firingIndex < firingLength
    }

    ghost function View(): View
      reads this
      requires IndexValid()
    {
      if list.None? then
        Callbacks.View.View(false, [], [], queue, memory, firing, current, log)
      else if firing then
        Callbacks.View.View(true, list.value[..firingIndex + 1], list.value[firingIndex + 1..],
                            queue, memory, true, current, log)
      else
        Callbacks.View.View(true, list.value, [], queue, memory, false, current, log)
    }

    constructor (flags: Flags)
      ensures Valid() && this.flags == flags && View() == Fresh()
    {
      this.flags := flags;
      list := Some([]);
      queue := Some([]);
      memory := Unset;
      firing := false;
      firingStart := 0;
      firingLength := 0;
      firingIndex := 0;
      current := NO_CALL;
      log := [];
    }

    /** `has` */
    method Has(fn: Fn) returns (found: bool)
      ensures found <==> list.Some? && fn in list.value
    {
      if list.Some? {
        for i := 0 to |list.value|
          invariant fn !in list.value[..i]
        {
          if fn == list.value[i] {
            return true;
          }
        }
      }
      return false;
    }

    /** The inner `add` (bE): pushes the functions found in args, skipping the ones that are
        already there when the list is unique. */
    method PushAll(args: seq<Arg>)
      requires list.Some?
      modifies this`list
      ensures list == Some(old(list.value) + Accepted(flags, old(list.value), Flatten(args)))
      decreases args
    {
      ghost var was := list.value;
      assert was + [] == was;
      for i := 0 to |args|
        invariant list == Some(was + Accepted(flags, was, Flatten(args[..i])))
      {
        ghost var before := list.value;
        PushStep(flags, was, args, i);
        match args[i] {
          case ArrayArg(items) =>
            PushAll(items);
          case FnArg(fn) =>
            assert [fn][1..] == [];
            var skip := false;
            if flags.unique {
              skip := Has(fn);
            }
            if !skip {
              list := Some(list.value + [fn]);
            }
          case OtherArg =>
        }
        assert list.value == before + Accepted(flags, before, FlattenOne(args[i]));
      }
      assert args[..|args|] == args;
    }

    /** Between two fires: the next call has left the queue and the list is not marked as firing. */
    ghost predicate TakenFromQueue()
      reads this
      requires IndexValid()
    {
      && !flags.once && !firing && list.Some? && queue.Some?
      && Inv(flags, View().(memory := Spent, firing := true))
    }

    /** `fireWith`.  The memory may hold a call just taken from the queue, which the fire
        that follows overwrites. */
    method FireWith(call: Call)
      requires firingStart == 0 && IndexValid()
      requires Inv(flags, View()) || TakenFromQueue()
      modifies this
      ensures Valid() && View() == Fired(flags, old(View()), call)
      decreases View().Waiting(), 3
    {
      ghost var v := View();
      if firing {
        FiredInv(flags, v, call);
      }
      if queue.Some? {
        if firing {
          if !flags.once {
            queue := Some(queue.value + [call]);
          }
        } else if !(flags.once && !memory.Unset?) {
          assert v.Entries() == list.value == list.value[0..] && list.value[..0] == [];
          assert [] + v.Entries() == v.Entries();
          Fire(call);
        }
      }
    }

    /** The view from which a fire that begins at firingStart takes its first step. */
    ghost function Starting(call: Call): View
      reads this
      requires list.Some? && firingStart <= |list.value|
    {
      Callbacks.View.View(true, list.value[..firingStart], list.value[firingStart..], queue,
                          if flags.memory then Kept(call) else Spent, true, call, log)
    }

    /** The inner `fire` (e). */
    method Fire(call: Call)
      requires list.Some? && !firing && firingStart <= |list.value|
      requires Inv(flags, Starting(call))
      modifies this
      ensures Valid()
      ensures View() == Callbacks.Proceed(flags, old(Starting(call)))
      decreases View().Waiting(), 2
    {
      current := call;
      memory := if flags.memory then Kept(call) else Spent;
      firing := true;
      firingIndex := firingStart;
      firingStart := 0;
      firingLength := |list.value|;
      Loop();
    }

    /** The view of a list whose loop has gone through the first k entries. */
    ghost function ViewAt(k: int): View
      reads this
      requires list.Some? ==> 0 <= k <= |list.value|
    {
      if list.None? then
        Callbacks.View.View(false, [], [], queue, memory, firing, current, log)
      else
        Callbacks.View.View(true, list.value[..k], list.value[k..], queue, memory, firing, current, log)
    }

    /** The test of the loop in `fire`: invokes the next entry, or ends the fire. */
    method Loop()
      requires firing && firingStart == 0
      requires list.Some? ==> firingLength == |list.value| && 0 <= firingIndex <= firingLength
      requires Inv(flags, ViewAt(firingIndex))
      modifies this
      ensures Valid() && View() == Proceed(flags, old(ViewAt(firingIndex)))
      decreases if queue.Some? then |queue.value| else 0, 1
    {
      ghost var v := ViewAt(firingIndex);
      ProceedInv(flags, v);
      if list.Some? && firingIndex < firingLength {
        log := log + [Invocation(list.value[firingIndex], current)];
        assert v.past + [v.todo[0]] == list.value[..firingIndex + 1];
        assert v.todo[1..] == list.value[firingIndex + 1..];
      } else {
        Finish(firingIndex);
      }
    }

    /** What `fire` does after its loop. */
    method Finish(ghost k: int)
      requires firing && firingStart == 0
      requires list.Some? ==> 0 <= k <= |list.value|
      requires Inv(flags, ViewAt(k))
      modifies this
      ensures Valid() && View() == Callbacks.Finish(flags, old(ViewAt(k)))
      decreases if queue.Some? then |queue.value| else 0, 0
    {
      ghost var v := ViewAt(k);
      FinishInv(flags, v);
      assert list.Some? ==> v.Entries() == list.value;
      firing := false;
      if list.Some? {
        if !flags.once {
          if queue.Some? && |queue.value| > 0 {
            var next := queue.value[0];
            memory := Kept(next);
            queue := Some(queue.value[1..]);
            assert View().Entries() == list.value == v.Entries();
            FireWith(next);
          }
        } else if memory == Spent {
          Disable();
        } else {
          list := Some([]);
        }
      }
    }

    /** The entry that is running returns, and the loop goes on from its increment. */
    method Return(returnedFalse: bool)
      requires Valid() && firing
      modifies this
      ensures Valid() && View() == Returned(flags, old(View()), returnedFalse)
    {
      if returnedFalse && flags.stopOnFalse {
        memory := Spent;
        Finish(firingIndex + 1);
      } else {
        firingIndex := firingIndex + 1;
        Loop();
      }
    }

    /** `add` */
    method Add(args: seq<Arg>)
      requires Valid()
      modifies this
      ensures Valid() && View() == Added(flags, old(View()), Flatten(args))
    {
      ghost var v := View();
      if list.Some? {
        var length := |list.value|;
        assert v.Entries() == list.value;
        PushAll(args);
        Appended(length, v, Flatten(args));
      }
    }

    /** The second half of `add`: the functions fns have been pushed behind the entries of v. */
    method Appended(length: nat, ghost v: View, ghost fns: seq<Fn>)
      requires Inv(flags, v) && v.alive && firingStart == 0
      requires list == Some(v.Entries() + Accepted(flags, v.Entries(), fns)) && length == |v.Entries()|
      requires v == Callbacks.View.View(true, v.past, v.todo, queue, memory, firing, current, log)
      requires firing ==> |v.past| == firingIndex + 1 >= 0
      requires firing ==> firingIndex < |v.Entries()|
      modifies this
      ensures Valid() && View() == Added(flags, v, fns)
    {
      ghost var accepted := Accepted(flags, v.Entries(), fns);
      if firing {
        Extend(v, fns);
      } else if memory.Kept? {
        Replay(length, v, fns);
      } else {
        assert View() == Added(flags, v, fns);
        AddedInv(flags, v, fns);
      }
    }

    /** A running fire takes the new entries in. */
    method Extend(ghost v: View, ghost fns: seq<Fn>)
      requires Inv(flags, v) && v.alive && firingStart == 0 && firing
      requires list == Some(v.Entries() + Accepted(flags, v.Entries(), fns))
      requires v == Callbacks.View.View(true, v.past, v.todo, queue, memory, firing, current, log)
      requires |v.past| == firingIndex + 1 >= 0 && firingIndex < |v.Entries()|
      modifies this`firingLength
      ensures Valid() && View() == Added(flags, v, fns)
    {
      firingLength := |list.value|;
      PastOf(v.past, v.todo, Accepted(flags, v.Entries(), fns));
      assert View() == Added(flags, v, fns);
      AddedInv(flags, v, fns);
    }

    /** An idle list that remembers a call runs just the new entries with it. */
    method Replay(length: nat, ghost v: View, ghost fns: seq<Fn>)
      requires Inv(flags, v) && v.alive && firingStart == 0 && !firing && memory.Kept?
      requires list == Some(v.Entries() + Accepted(flags, v.Entries(), fns)) && length == |v.Entries()|
      requires v == Callbacks.View.View(true, v.past, v.todo, queue, memory, firing, current, log)
      modifies this
      ensures Valid() && View() == Added(flags, v, fns)
    {
      firingStart := length;
      PastOf(v.past, [], Accepted(flags, v.Entries(), fns));
      ReplayInv(flags, v, fns);
      assert Starting(memory.call) == Replaying(flags, v, fns);
      Fire(memory.call);
    }

    /** `remove` */
    method Remove(fns: seq<Fn>)
      requires Valid()
      modifies this`list, this`firingLength, this`firingIndex
      ensures Valid() && View() == Removed(old(View()), fns)
    {
      ghost var v := View();
      if list.Some? {
        for a := 0 to |fns|
          invariant Valid() && list.Some?
          invariant Removed(View(), fns[a..]) == Removed(v, fns)
        {
          RemovedInv(flags, View(), [fns[a]]);
          RemoveOne(fns[a]);
          assert fns[a..][1..] == fns[a + 1..];
        }
      } else {
        RemovedDead(v, fns);
      }
    }

    /** One function of `remove`. */
    method RemoveOne(fn: Fn)
      requires Valid() && list.Some?
      modifies this`list, this`firingLength, this`firingIndex
      ensures Valid() && list.Some?
      ensures View() == Removed(old(View()), [fn])
    {
      ghost var v := View();
      ghost var was := list.value;
      ghost var k := if firing then firingIndex + 1 else |was|;
      assert v.Entries() == was;
      if flags.unique {
        AtMostOnce(was, fn);
      }
      ghost var p := TakeOut(fn, k);
      LeftDone(was, k, p, fn);
      LeftAll(was, p, fn);
      assert firing ==> v.past == was[..k] && v.todo == was[k..];
      assert View() == v.(past := Without(v.past, fn), todo := Without(v.todo, fn));
      RemovedOne(flags, v, fn);
    }

    /** The inner loop of `remove`: takes one function out, patching the running loop, which has
        gone through k entries.  The entries from the p-th on held no further occurrence. */
    method TakeOut(fn: Fn, ghost k: nat) returns (ghost p: nat)
      requires list.Some? && IndexValid()
      requires k == if firing then firingIndex + 1 else |list.value|
      requires flags.unique ==> |list.value| <= |Without(list.value, fn)| + 1
      modifies this`list, this`firingLength, this`firingIndex
      ensures p <= |old(list.value)| && fn !in old(list.value)[p..]
      ensures list == Some(Left(old(list.value), p, fn))
      ensures firing ==> PlaceIn(old(list.value), k, p, fn, firingLength, firingIndex)
    {
      ghost var was := list.value;
      p := 0;
      NothingSeen(was, k, fn);
      var i := 0;
      while i < |list.value|
        invariant list.Some? && Removing(was, k, p, fn, list.value, i)
        invariant firing ==> PlaceIn(was, k, p, fn, firingLength, firingIndex)
        decreases |was| - p
      {
        RemovingTurn(was, k, p, fn, list.value, i, firingLength, firingIndex);
        p := p + 1;
        if fn == list.value[i] {
          CutOut(i);
          if flags.unique {
            OnlyOnce(was, p);
            break;
          }
        } else {
          i := i + 1;
        }
      }
      AllSeen(was, k, p, fn, list.value, i);
    }

    /** One entry is spliced out; a running loop that covers it has its bound and index patched. */
    method CutOut(i: nat)
      requires list.Some? && i < |list.value|
      modifies this`list, this`firingLength, this`firingIndex
      ensures list == Some(old(list.value)[..i] + old(list.value)[i + 1..])
      ensures var covered := firing && i <= old(firingLength);
              && firingLength == old(firingLength) - (if covered then 1 else 0)
              && firingIndex == old(firingIndex) - (if covered && i <= old(firingIndex) then 1 else 0)
    {
      if firing {
        if i <= firingLength {
          firingLength := firingLength - 1;
          if i <= firingIndex {
            firingIndex := firingIndex - 1;
          }
        }
      }
      list := Some(list.value[..i] + list.value[i + 1..]);
    }

    /** `empty`.  An idle list is emptied, which also revives a disabled one.  While a fire is
        under way the bound of its loop is left as it was: if the running entry returns before
        anything is added, the loop reads behind the end of the list exactly when entries were
        still to be run. */
    method Empty()
      requires Valid()
      modifies this`list
      ensures list == Some([])
      ensures !firing ==> Valid() && View() == Emptied(old(View()))
      ensures firing && old(list.Some?) ==> (LoopReadsBehindEnd() <==> old(View()).todo != [])
    {
      list := Some([]);
    }

    /** If the running entry returns now, the loop test passes but there is no entry to invoke. */
    ghost predicate LoopReadsBehindEnd()
      reads this
    {
      firing && list.Some? && |list.value| <= firingIndex + 1 < firingLength
    }

    /** `disable` */
    method Disable()
      requires firingStart == 0
      modifies this`list, this`queue, this`memory
      ensures IndexValid() && list.None? && queue.None? && memory.Unset?
      ensures old(IndexValid()) ==> View() == Disabled(old(View()))
      ensures old(Valid()) ==> Valid()
    {
      list := None;
      queue := None;
      memory := Unset;
    }

    /** `lock` */
    method Lock()
      requires Valid()
      modifies this`list, this`queue, this`memory
      ensures Valid() && View() == Locked(old(View()))
    {
      ghost var v := View();
      LockedInv(flags, v);
      queue := None;
      assert View() == v.(queue := None);
      if memory.Unset? || memory.Spent? {
        Disable();
        assert View() == Disabled(v);
      }
    }

    /** `fired` */
    method HasFired() returns (fired: bool)
      ensures fired <==> !memory.Unset?
    {
      fired := !memory.Unset?;
    }
  }
}
