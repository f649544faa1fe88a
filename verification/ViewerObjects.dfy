/** The display manager and the command queue as objects, run by one thread: the loop of
    `removeDisplay`, and the loop of `processQueue` with the pushes of the producers coming in
    between.  `CommandQueue.dfy` has the same loop step by step, interleaved with the producers. */
module ViewerObjects {
  import opened Basics
  import opened Displays

  class DisplayManager {
    var displays: seq<Display>
    var fixedFrame: Text
    var frameRate: nat

    /** The frame and the rate that rviz begins with are its own. */
    constructor (fixedFrame: Text, frameRate: nat)
      ensures View() == Manager([], fixedFrame, frameRate)
    {
      displays := [];
      this.fixedFrame, this.frameRate := fixedFrame, frameRate;
    }

    function View(): Manager
      reads this
    {
      Manager(displays, fixedFrame, frameRate)
    }

    /** `removeDisplay`: the first display of that name is taken out of the group and deleted. */
    method RemoveDisplay(name: Text) returns (ok: bool)
      modifies this`displays
      ensures displays == RemoveFirst(old(displays), name) && ok
    {
      var numDisplays := |displays|;
      var i := 0;
      while i < numDisplays
        invariant 0 <= i <= numDisplays == |displays| && displays == old(displays)
        invariant forall j :: 0 <= j < i ==> displays[j].name != name
      {
        if displays[i].name == name {
          FirstAt(displays, name, i);
          displays := displays[..i] + displays[i + 1..];
          return true;
        }
        i := i + 1;
      }
      NoneAt(displays, name);
      return true;
    }

    /** `addDisplay`, up to its call of `ros::spinOnce`. */
    method AddDisplay(command: Command)
      requires command.fields.AddDisplayFields?
      modifies this`displays
      ensures displays == old(displays) + [NewDisplay(command.fields)]
    {
      displays := displays + [NewDisplay(command.fields)];
    }

    /** The branches of `processQueue`. */
    method Execute(command: Command)
      requires WellTagged(command)
      modifies this
      ensures View() == Apply(old(View()), command)
    {
      if command.typeString == AddTag {
        AddDisplay(command);
      } else if command.typeString == RemoveTag {
        var _ := RemoveDisplay(command.fields.name);
      } else if command.typeString == FixedFrameTag {
        fixedFrame := command.fields.fixedFrame;
      } else if command.typeString == FrameRateTag {
        frameRate := command.fields.frameRate;
      }
    }
  }

  /** The commands of the first n batches, in order. */
  function Joined(batches: seq<seq<Command>>, n: nat): seq<Command>
    requires n <= |batches|
  {
    if n == 0 then [] else Joined(batches, n - 1) + batches[n - 1]
  }

  predicate BatchesTagged(batches: seq<seq<Command>>) {
    forall i :: 0 <= i < |batches| ==> AllTagged(batches[i])
  }

  lemma {:induction false} JoinedTagged(batches: seq<seq<Command>>, n: nat)
    requires n <= |batches| && BatchesTagged(batches)
    ensures AllTagged(Joined(batches, n))
  {
    if n == 0 {
    } else {
      JoinedTagged(batches, n - 1);
    }
  }

  lemma {:induction false} JoinedMonotone(batches: seq<seq<Command>>, n: nat, m: nat)
    requires n <= m <= |batches|
    ensures |Joined(batches, n)| <= |Joined(batches, m)|
  {
    if n < m {
      JoinedMonotone(batches, n, m - 1);
    }
  }

  /** One turn of the loop keeps account of the commands: applied and queued are what there was and
      what has arrived. */
  lemma TurnAccount(q0: seq<Command>, arrived: seq<Command>, applied: seq<Command>, queue: seq<Command>,
      batch: seq<Command>)
    requires queue != [] && q0 + arrived == applied + queue
    ensures q0 + (arrived + batch) == applied + [queue[0]] + (queue + batch)[1..]
    ensures batch == [] ==> arrived + batch == arrived && queue + batch == queue
  {
    Assoc(q0, arrived, batch);
    Assoc(applied, queue, batch);
    Shift(applied, queue + batch);
  }

  class CommandQueueOwner {
    var queue: seq<Command>
    const manager: DisplayManager

    constructor (manager: DisplayManager)
      ensures queue == [] && this.manager == manager
    {
      queue := [];
      this.manager := manager;
    }

    /** `addToQueue` */
    method AddToQueue(command: Command)
      modifies this`queue
      ensures queue == old(queue) + [command]
    {
      queue := queue + [command];
    }

    /** What the producers push during one turn of the loop. */
    method Arrive(batch: seq<Command>)
      modifies this`queue
      ensures queue == old(queue) + batch
    {
      for i := 0 to |batch|
        invariant queue == old(queue) + batch[..i]
      {
        AddToQueue(batch[i]);
        assert batch[..i + 1] == batch[..i] + [batch[i]];
      }
      assert batch[..|batch|] == batch;
    }

    /** `processQueue`.  The producers, among them the callbacks that run inside `spinOnce`, push
        the commands arrivals[i] during the i-th turn of the loop.  The loop applies what is in
        the queue and what arrives while it runs, in the order of the pushes; it ends after
        exactly one turn for each of these commands, and leaves the queue empty. */
    method ProcessQueue(arrivals: seq<seq<Command>>) returns (turns: nat)
      requires AllTagged(queue) && BatchesTagged(arrivals)
      modifies this`queue, manager
      ensures queue == []
      ensures var n := if turns < |arrivals| then turns else |arrivals|;
              var processed := old(queue) + Joined(arrivals, n);
              && turns == |processed|
              && AllTagged(processed)
              && manager.View() == ApplyAll(old(manager.View()), processed)
    {
      ghost var m0, q0 := manager.View(), queue;
      ghost var applied: seq<Command> := [];
      ghost var n := 0;
      turns := 0;
      while |queue| > 0
        invariant n == (if turns < |arrivals| then turns else |arrivals|) && turns == |applied|
        invariant q0 + Joined(arrivals, n) == applied + queue
        invariant AllTagged(applied) && AllTagged(queue)
        invariant manager.View() == ApplyAll(m0, applied)
        decreases |q0| + |Joined(arrivals, |arrivals|)| - |applied|
      {
        var comm := queue[0];
        ghost var batch := if turns < |arrivals| then arrivals[turns] else [];
        ApplyAllSnoc(m0, applied, comm);
        TurnAccount(q0, Joined(arrivals, n), applied, queue, batch);
        manager.Execute(comm);
        if turns < |arrivals| {
          Arrive(arrivals[turns]);
          n := n + 1;
        }
        queue := queue[1..];
        applied := applied + [comm];
        turns := turns + 1;
        JoinedMonotone(arrivals, n, |arrivals|);
      }
      assert applied + [] == applied;
    }
  }
}
