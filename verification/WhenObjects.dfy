/** The variables that the handlers of one call of `when` share.  Each handler is proved to do to
    them what `Whens` says it does. */
module WhenObjects {
  import opened Basics
  import opened Functions
  import opened DeferredObjects
  import D = Deferreds
  import opened Whens

  class WhenCall {
    const master: DeferredObject        // bC
    var counter: int                    // bw
    var values: seq<Value>              // bx
    const progressValues: array<Value>  // bB

    ghost predicate Valid()
      reads this, master, master.done, master.fail, master.progress
    {
      master.Valid() && |values| == progressValues.Length
    }

    /** The world, where the rest of it is as given. */
    ghost function View(deferreds: seq<D.Deferred>, inputs: seq<Input>): World
      reads this, master, master.done, master.fail, master.progress, progressValues
      requires Valid()
    {
      World(deferreds, inputs, master.View(), counter, values, progressValues[..])
    }

    /** The variables as `when` sets them up, before it looks at its arguments. */
    constructor (deferreds: seq<D.Deferred>, inputs: seq<Input>)
      ensures Valid() && View(deferreds, inputs) == Before(deferreds, inputs)
    {
      master := new DeferredObject();
      counter := |inputs|;
      values := seq(|inputs|, i requires 0 <= i < |inputs| => if inputs[i].Plain? then inputs[i].value else Undefined);
      progressValues := new Value[|inputs|](_ => Undefined);
      new;
      assert progressValues[..] == seq(|inputs|, _ => Undefined);
    }

    /** The handler on the done list of input i. */
    method Done(i: nat, call: Call, ghost deferreds: seq<D.Deferred>, ghost inputs: seq<Input>, ghost op: D.Op)
      requires Valid() && i < |values| && OnList(op, Resolved)
      modifies this, master, master.done, master.fail, master.progress
      ensures Valid()
      ensures View(deferreds, inputs) == React(old(View(deferreds, inputs)), op, Invocation(WhenDone(i), call))
      ensures |values| == |old(values)| && StandsFor(values[i], call.args) && counter == old(counter) - 1
      ensures forall j :: 0 <= j < |values| && j != i ==> values[j] == old(values)[j]
    {
      values := values[i := Collect(call.args)];
      counter := counter - 1;
      if counter == 0 {
        master.Settle(Resolved, Call(MASTER, values));
      }
    }

    /** The handler on the fail lists: the master's own `reject`. */
    method Fail(i: nat, call: Call, ghost deferreds: seq<D.Deferred>, ghost inputs: seq<Input>, ghost op: D.Op)
      requires Valid() && OnList(op, Rejected)
      modifies master, master.done, master.fail, master.progress
      ensures Valid()
      ensures View(deferreds, inputs) == React(old(View(deferreds, inputs)), op, Invocation(WhenFail(i), call))
    {
      master.Settle(Rejected, call);
    }

    /** The handler on the progress list of input i.  The notification hands over the array. */
    method Progress(i: nat, call: Call, ghost deferreds: seq<D.Deferred>, ghost inputs: seq<Input>, ghost op: D.Op)
      requires Valid() && i < progressValues.Length && OnProgress(op)
      modifies progressValues, master.progress
      ensures Valid()
      ensures View(deferreds, inputs) == React(old(View(deferreds, inputs)), op, Invocation(WhenProgress(i), call))
      ensures StandsFor(progressValues[i], call.args)
      ensures forall j :: 0 <= j < progressValues.Length && j != i ==> progressValues[j] == old(progressValues[j])
    {
      progressValues[i] := Collect(call.args);
      master.Notify(SHARED);
    }

    /** A turn of the loop over the arguments for a plain value. */
    method TakePlain(i: nat, ghost deferreds: seq<D.Deferred>, ghost inputs: seq<Input>)
      requires Valid() && InputsValid(View(deferreds, inputs)) && i < |inputs| && inputs[i].Plain?
      modifies this`counter
      ensures Valid() && View(deferreds, inputs) == Take(old(View(deferreds, inputs)), i)
    {
      counter := counter - 1;
    }

    /** The end of the loop: nothing to wait for resolves the master at once. */
    method Start(ghost deferreds: seq<D.Deferred>, ghost inputs: seq<Input>)
      requires Valid()
      modifies master, master.done, master.fail, master.progress
      ensures Valid()
      ensures var w := old(View(deferreds, inputs));
              View(deferreds, inputs) == if w.counter == 0 then ResolveMaster(w) else w
    {
      if counter == 0 {
        master.Settle(Resolved, Call(MASTER, values));
      }
    }
  }
}
