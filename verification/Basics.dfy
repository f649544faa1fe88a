/** Options, and small facts about sequences. */
module Basics {

  datatype Option<+T> = None | Some(value: T)

  ghost predicate NoDuplicates<T(!new)>(s: seq<T>) {
    forall i, j :: 0 <= i < j < |s| ==> s[i] != s[j]
  }

  lemma Assoc<T>(a: seq<T>, b: seq<T>, c: seq<T>)
    ensures a + b + c == a + (b + c)
  {
  }

  /** Moving the first element of b to the end of a. */
  lemma Shift<T>(a: seq<T>, b: seq<T>)
    requires b != []
    ensures a + b == a + [b[0]] + b[1..]
  {
  }

  /** If r followed by due is the part of a from k on, r is the part that ends |due| earlier. */
  lemma SliceOf<T>(a: seq<T>, b: seq<T>, k: nat, r: seq<T>, due: seq<T>)
    requires k <= |a| && r + due == a[k..]
    ensures k <= |a| - |due| && r == (a + b)[k..|a| - |due|]
  {
    assert r == (r + due)[..|r|];
    assert |r + due| == |a| - k;
  }
}
