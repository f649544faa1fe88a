/** The values that flow through the callback machinery: the functions that can sit in a
    callback list, the context and arguments of one call, and the record of an invocation. */
module Functions {
  import opened Basics

  /** The two ways in which a Deferred can settle. */
  datatype Outcome = Resolved | Rejected

  /** A function held by a callback list.  `User` stands for arbitrary code; the others are
      the closures that Deferred and when install themselves. */
  datatype Fn =
    | User(id: nat)
    | SetState(outcome: Outcome)
    | DisableOther(outcome: Outcome)
    | LockProgress(outcome: Outcome)
    | WhenDone(index: nat)
    | WhenFail(index: nat)
    | WhenProgress(index: nat)

  /** An argument value: opaque, or the array that a multi-argument call is collected into. */
  datatype Value = Undefined | Atom(id: nat) | Tuple(items: seq<Value>)

  /** The context and the arguments of one fire. */
  datatype Call = Call(context: nat, args: seq<Value>)

  /** One `apply`: the function and the context and arguments it was given. */
  datatype Invocation = Invocation(fn: Fn, call: Call)

  /** The functions invoked, in order. */
  function Fns(log: seq<Invocation>): (fns: seq<Fn>)
    ensures |fns| == |log|
    ensures forall i :: 0 <= i < |log| ==> fns[i] == log[i].fn
  {
    seq(|log|, i requires 0 <= i < |log| => log[i].fn)
  }

  /** s without any occurrence of x. */
  function Without<T(==)>(s: seq<T>, x: T): (r: seq<T>)
    ensures |r| <= |s|
  {
    if s == [] then [] else (if s[0] == x then [] else [s[0]]) + Without(s[1..], x)
  }

  lemma {:induction false} WithoutMember<T>(s: seq<T>, x: T, y: T)
    ensures y in Without(s, x) <==> y in s && y != x
  {
    if s == [] {
    } else {
      WithoutMember(s[1..], x, y);
      assert s == [s[0]] + s[1..];
    }
  }

  lemma {:induction false} WithoutAppend<T>(a: seq<T>, b: seq<T>, x: T)
    ensures Without(a + b, x) == Without(a, x) + Without(b, x)
  {
    if a == [] {
      assert a + b == b;
    } else {
      WithoutAppend(a[1..], b, x);
      assert (a + b)[0] == a[0] && (a + b)[1..] == a[1..] + b;
      Assoc(if a[0] == x then [] else [a[0]], Without(a[1..], x), Without(b, x));
    }
  }

  lemma WithoutNext<T>(s: seq<T>, p: nat, x: T)
    requires p < |s|
    ensures Without(s[..p + 1], x) == Without(s[..p], x) + (if s[p] == x then [] else [s[p]])
  {
    assert s[..p + 1] == s[..p] + [s[p]];
    WithoutAppend(s[..p], [s[p]], x);
  }

  lemma {:induction false} WithoutAbsent<T>(s: seq<T>, x: T)
    requires x !in s
    ensures Without(s, x) == s
  {
    if s == [] {
    } else {
      WithoutAbsent(s[1..], x);
    }
  }

  lemma {:induction false} WithoutNoDuplicates<T(!new)>(s: seq<T>, x: T)
    requires NoDuplicates(s)
    ensures NoDuplicates(Without(s, x))
  {
    if s == [] {
    } else {
      WithoutNoDuplicates(s[1..], x);
      assert s[0] !in s[1..];
      WithoutMember(s[1..], x, s[0]);
    }
  }

  /** The members of s that are in keep, in order. */
  function Only(s: seq<Fn>, keep: set<Fn>): seq<Fn> {
    if s == [] then [] else (if s[0] in keep then [s[0]] else []) + Only(s[1..], keep)
  }

  lemma {:induction false} OnlyAppend(a: seq<Fn>, b: seq<Fn>, keep: set<Fn>)
    ensures Only(a + b, keep) == Only(a, keep) + Only(b, keep)
  {
    if a == [] {
      assert a + b == b;
    } else {
      OnlyAppend(a[1..], b, keep);
      assert (a + b)[0] == a[0] && (a + b)[1..] == a[1..] + b;
      Assoc(if a[0] in keep then [a[0]] else [], Only(a[1..], keep), Only(b, keep));
    }
  }

  /** Taking out a function that is not kept leaves the kept ones as they are. */
  lemma {:induction false} OnlyWithout(s: seq<Fn>, keep: set<Fn>, x: Fn)
    requires x !in keep
    ensures Only(Without(s, x), keep) == Only(s, keep)
  {
    if s == [] {
    } else {
      OnlyWithout(s[1..], keep, x);
      OnlyAppend(if s[0] == x then [] else [s[0]], Without(s[1..], x), keep);
    }
  }

  /** The calls that fn was invoked with, in order. */
  function Received(log: seq<Invocation>, fn: Fn): seq<Call> {
    if log == [] then []
    else Received(log[..|log| - 1], fn)
         + (if log[|log| - 1].fn == fn then [log[|log| - 1].call] else [])
  }

  lemma ReceivedSnoc(log: seq<Invocation>, next: Invocation, fn: Fn)
    ensures Received(log + [next], fn) == Received(log, fn) + (if next.fn == fn then [next.call] else [])
  {
    assert (log + [next])[..|log|] == log;
  }

  /** How often x occurs in s. */
  function Occurrences(s: seq<Fn>, x: Fn): nat {
    if s == [] then 0 else (if s[0] == x then 1 else 0) + Occurrences(s[1..], x)
  }

  lemma {:induction false} OccurrencesAppend(a: seq<Fn>, b: seq<Fn>, x: Fn)
    ensures Occurrences(a + b, x) == Occurrences(a, x) + Occurrences(b, x)
  {
    if a == [] {
      assert a + b == b;
    } else {
      OccurrencesAppend(a[1..], b, x);
      assert (a + b)[1..] == a[1..] + b;
    }
  }

  lemma {:induction false} OccurrencesWithout(s: seq<Fn>, y: Fn, x: Fn)
    ensures Occurrences(Without(s, y), x) == if x == y then 0 else Occurrences(s, x)
  {
    if s == [] {
    } else {
      OccurrencesWithout(s[1..], y, x);
      OccurrencesAppend(if s[0] == y then [] else [s[0]], Without(s[1..], y), x);
    }
  }

  lemma {:induction false} OccursIn(s: seq<Fn>, x: Fn)
    ensures x in s <==> Occurrences(s, x) > 0
  {
    if s == [] {
    } else {
      OccursIn(s[1..], x);
      assert s == [s[0]] + s[1..];
    }
  }
}
