/** The commands of the viewer and what the display manager does with them. */
module Displays {

  /** The strings of the viewer, which are only ever compared with each other: the literals in its
      code, and all others. */
  datatype Text = Empty | MarkerArray | Axes | RvizMarkerArray | RvizAxes | TheMarkers | MarkerArrayMessage
      | Other(id: nat)

  /** The tag that the constructor of a command class puts into `typeString`. */
  datatype Tag = Untagged | AddTag | RemoveTag | FixedFrameTag | FrameRateTag | ScreenshotTag

  /** A command object: its tag, and the fields of its own class. */
  datatype Command = Command(typeString: Tag, fields: Fields)

  datatype Fields =
    | AddDisplayFields(name: Text, displayType: Text, topic: Text, topicType: Text, frame: Text)
    | RemoveDisplayFields(name: Text)
    | SetFixedFrameFields(fixedFrame: Text)
    | SetFrameRateFields(frameRate: nat)
    | TakeScreenshotFields(filename: Text)

  function AddDisplayCommand(name: Text, displayType: Text, topic: Text, topicType: Text, frame: Text): Command {
    Command(AddTag, AddDisplayFields(name, displayType, topic, topicType, frame))
  }

  function RemoveDisplayCommand(name: Text): Command {
    Command(RemoveTag, RemoveDisplayFields(name))
  }

  function SetFixedFrameCommand(frame: Text): Command {
    Command(FixedFrameTag, SetFixedFrameFields(frame))
  }

  /** The signed 16-bit number of the message becomes an unsigned 32-bit one. */
  function SetFrameRateCommand(rate: int): Command {
    Command(FrameRateTag, SetFrameRateFields(rate % 0x1_0000_0000))
  }

  /** The tag tells the class of the object, so that a downcast guided by it is correct. */
  predicate WellTagged(c: Command) {
    && (c.typeString == AddTag ==> c.fields.AddDisplayFields?)
    && (c.typeString == RemoveTag ==> c.fields.RemoveDisplayFields?)
    && (c.typeString == FixedFrameTag ==> c.fields.SetFixedFrameFields?)
    && (c.typeString == FrameRateTag ==> c.fields.SetFrameRateFields?)
  }

  datatype Display = Display(name: Text, displayType: Text, topic: Text, topicType: Text, frame: Text)

  datatype Manager = Manager(displays: seq<Display>, fixedFrame: Text, frameRate: nat)

  /** The new display: the topic is set only when both of its parts are given, and the frame only
      for axes. */
  function NewDisplay(f: Fields): Display
    requires f.AddDisplayFields?
  {
    var withTopic := f.topic != Empty && f.topicType != Empty;
    Display(f.name, f.displayType, if withTopic then f.topic else Empty, if withTopic then f.topicType else Empty,
            if f.displayType == RvizAxes then f.frame else Empty)
  }

  /** The displays without the first one of the given name. */
  function RemoveFirst(displays: seq<Display>, name: Text): seq<Display> {
    if displays == [] then []
    else if displays[0].name == name then displays[1..]
    else [displays[0]] + RemoveFirst(displays[1..], name)
  }

  /** Removal takes exactly the first match: the displays before it and behind it stay, in order. */
  lemma {:induction false} FirstAt(displays: seq<Display>, name: Text, i: nat)
    requires i < |displays| && displays[i].name == name
    requires forall j :: 0 <= j < i ==> displays[j].name != name
    ensures RemoveFirst(displays, name) == displays[..i] + displays[i + 1..]
  {
    if i == 0 {
    } else {
      FirstAt(displays[1..], name, i - 1);
    }
  }

  lemma {:induction false} RemovedFrom(displays: seq<Display>, name: Text)
    ensures forall d :: d in RemoveFirst(displays, name) ==> d in displays
  {
    if displays == [] {
    } else {
      RemovedFrom(displays[1..], name);
    }
  }

  /** Without a match nothing changes. */
  lemma {:induction false} NoneAt(displays: seq<Display>, name: Text)
    requires forall j :: 0 <= j < |displays| ==> displays[j].name != name
    ensures RemoveFirst(displays, name) == displays
  {
    if displays == [] {
    } else {
      NoneAt(displays[1..], name);
    }
  }

  /** One command, applied. */
  function Apply(m: Manager, c: Command): Manager
    requires WellTagged(c)
  {
    if c.typeString.AddTag? then m.(displays := m.displays + [NewDisplay(c.fields)])
    else if c.typeString == RemoveTag then m.(displays := RemoveFirst(m.displays, c.fields.name))
    else if c.typeString == FixedFrameTag then m.(fixedFrame := c.fields.fixedFrame)
    else if c.typeString == FrameRateTag then m.(frameRate := c.fields.frameRate)
    else m
  }

  predicate AllTagged(cs: seq<Command>) {
    forall i :: 0 <= i < |cs| ==> WellTagged(cs[i])
  }

  function ApplyAll(m: Manager, cs: seq<Command>): Manager
    requires AllTagged(cs)
  {
    if cs == [] then m else Apply(ApplyAll(m, cs[..|cs| - 1]), cs[|cs| - 1])
  }

  lemma ApplyAllSnoc(m: Manager, cs: seq<Command>, c: Command)
    requires AllTagged(cs) && WellTagged(c)
    ensures AllTagged(cs + [c]) && ApplyAll(m, cs + [c]) == Apply(ApplyAll(m, cs), c)
  {
    assert (cs + [c])[..|cs|] == cs;
  }

  /** A command that adds a display puts one at the end that has its name and its type; its topic and the
      type of the topic's messages, each in its place, if both are given; and its frame if it is for axes. */
  lemma AddedLast(m: Manager, c: Command)
    requires WellTagged(c) && c.typeString == AddTag
    ensures var m' := Apply(m, c);
            && |m'.displays| == |m.displays| + 1 && m'.displays[..|m.displays|] == m.displays
            && m'.fixedFrame == m.fixedFrame && m'.frameRate == m.frameRate
            && var d, f := m'.displays[|m.displays|], c.fields;
               && d.name == f.name && d.displayType == f.displayType
               && (if f.topic != Empty && f.topicType != Empty then d.topic == f.topic && d.topicType == f.topicType
                   else d.topic == Empty && d.topicType == Empty)
               && d.frame == if f.displayType == RvizAxes then f.frame else Empty
  {
  }

  predicate SetsRate(c: Command) {
    c.typeString == FrameRateTag
  }

  /** The frame rate is that of the last command that sets one, and is left alone if none does. */
  lemma {:induction false} LastRate(m: Manager, cs: seq<Command>)
    requires AllTagged(cs)
    ensures forall i :: 0 <= i < |cs| && SetsRate(cs[i]) && (forall j :: i < j < |cs| ==> !SetsRate(cs[j])) ==>
              ApplyAll(m, cs).frameRate == cs[i].fields.frameRate
    ensures (forall i :: 0 <= i < |cs| ==> !SetsRate(cs[i])) ==> ApplyAll(m, cs).frameRate == m.frameRate
  {
    if cs == [] {
    } else {
      LastRate(m, cs[..|cs| - 1]);
    }
  }

  /* ---------- How many displays have a name ---------- */

  function Count(displays: seq<Display>, name: Text): nat {
    if displays == [] then 0
    else Count(displays[..|displays| - 1], name) + (if displays[|displays| - 1].name == name then 1 else 0)
  }

  lemma {:induction false} CountCons(d: Display, displays: seq<Display>, name: Text)
    ensures Count([d] + displays, name) == (if d.name == name then 1 else 0) + Count(displays, name)
  {
    var all := [d] + displays;
    if displays == [] {
      assert all[..0] == [];
    } else {
      CountCons(d, displays[..|displays| - 1], name);
      assert all[..|all| - 1] == [d] + displays[..|displays| - 1];
    }
  }

  /** Removal takes one display of that name away, if there is one, and no other. */
  lemma {:induction false} RemoveFirstCount(displays: seq<Display>, removed: Text, name: Text)
    ensures Count(RemoveFirst(displays, removed), name)
         == if name == removed && Count(displays, name) > 0 then Count(displays, name) - 1 else Count(displays, name)
  {
    if displays == [] {
    } else {
      CountCons(displays[0], displays[1..], name);
      assert [displays[0]] + displays[1..] == displays;
      if displays[0].name != removed {
        RemoveFirstCount(displays[1..], removed, name);
        CountCons(displays[0], RemoveFirst(displays[1..], removed), name);
      }
    }
  }

  lemma CountApply(m: Manager, c: Command, name: Text)
    requires WellTagged(c)
    ensures var before, after := Count(m.displays, name), Count(Apply(m, c).displays, name);
            after == if Effect(c, name) < 0 && before == 0 then 0 else before + Effect(c, name)
  {
    if c.typeString == AddTag {
      var d := NewDisplay(c.fields);
      assert (m.displays + [d])[..|m.displays|] == m.displays;
    } else if c.typeString == RemoveTag {
      RemoveFirstCount(m.displays, c.fields.name, name);
    }
  }

  /** What a command contributes to the number of displays of that name. */
  function Effect(c: Command, name: Text): int
    requires WellTagged(c)
  {
    if c.typeString == AddTag && c.fields.name == name then 1
    else if c.typeString == RemoveTag && c.fields.name == name then -1
    else 0
  }

  /** Adds less removes. */
  function Net(cs: seq<Command>, name: Text): int
    requires AllTagged(cs)
  {
    if cs == [] then 0 else Net(cs[..|cs| - 1], name) + Effect(cs[|cs| - 1], name)
  }

  lemma {:induction false} NetAppend(a: seq<Command>, b: seq<Command>, name: Text)
    requires AllTagged(a) && AllTagged(b)
    ensures AllTagged(a + b) && Net(a + b, name) == Net(a, name) + Net(b, name)
  {
    if b == [] {
      assert a + b == a;
    } else {
      NetAppend(a, b[..|b| - 1], name);
      assert (a + b)[..|a + b| - 1] == a + b[..|b| - 1];
    }
  }

  lemma CountLawStep(m: Manager, cs: seq<Command>, name: Text)
    requires cs != [] && AllTagged(cs)
    requires var front := cs[..|cs| - 1];
             Count(ApplyAll(m, front).displays, name)
             == Max(Count(m.displays, name) + Net(front, name), BestSuffix(front, name))
    ensures Count(ApplyAll(m, cs).displays, name)
         == Max(Count(m.displays, name) + Net(cs, name), BestSuffix(cs, name))
  {
    var front, last := cs[..|cs| - 1], cs[|cs| - 1];
    CountApply(ApplyAll(m, front), last, name);
    OneMore(Count(m.displays, name), Net(front, name), BestSuffix(front, name), Effect(last, name));
  }

  lemma OneMore(count: nat, net: int, best: nat, effect: int)
    requires -1 <= effect <= 1
    ensures var before := Max(count + net, best);
            Max(count + (net + effect), Max(0, best + effect))
            == if effect < 0 && before == 0 then 0 else before + effect
  {
  }

  function Max(a: int, b: int): int {
    if a < b then b else a
  }

  /** The largest net effect of a suffix, the empty one included. */
  function BestSuffix(cs: seq<Command>, name: Text): nat
    requires AllTagged(cs)
  {
    if cs == [] then 0 else Max(0, BestSuffix(cs[..|cs| - 1], name) + Effect(cs[|cs| - 1], name))
  }

  lemma NetFrom(cs: seq<Command>, i: nat, name: Text)
    requires AllTagged(cs) && i < |cs|
    ensures Net(cs[i..], name) == Net(cs[..|cs| - 1][i..], name) + Effect(cs[|cs| - 1], name)
  {
    var suffix := cs[i..];
    assert suffix[|suffix| - 1] == cs[|cs| - 1] && suffix[..|suffix| - 1] == cs[..|cs| - 1][i..];
  }

  /** BestSuffix is what its name says: no suffix does better, and one does as well. */
  lemma {:induction false} BestSuffixIsMaximum(cs: seq<Command>, name: Text) returns (at: nat)
    requires AllTagged(cs)
    ensures forall i :: 0 <= i <= |cs| ==> Net(cs[i..], name) <= BestSuffix(cs, name)
    ensures at <= |cs| && Net(cs[at..], name) == BestSuffix(cs, name)
  {
    if cs == [] {
      at := 0;
    } else {
      var n := |cs| - 1;
      var front, last := cs[..n], cs[n];
      at := BestSuffixIsMaximum(front, name);
      assert BestSuffix(cs, name) == Max(0, BestSuffix(front, name) + Effect(last, name));
      forall i | 0 <= i <= n
        ensures Net(cs[i..], name) == Net(front[i..], name) + Effect(last, name)
      {
        NetFrom(cs, i, name);
      }
      assert cs[|cs|..] == [];
      if BestSuffix(front, name) + Effect(last, name) < 0 {
        at := |cs|;
      }
    }
  }

  /** The count law: for any name and any commands, the number of displays of that name afterwards
      is the larger of the old number plus adds less removes, and the largest adds less removes
      over all suffixes of the commands. */
  lemma {:induction false} CountLaw(m: Manager, cs: seq<Command>, name: Text)
    requires AllTagged(cs)
    ensures Count(ApplyAll(m, cs).displays, name)
         == Max(Count(m.displays, name) + Net(cs, name), BestSuffix(cs, name))
  {
    if cs == [] {
    } else {
      CountLaw(m, cs[..|cs| - 1], name);
      CountLawStep(m, cs, name);
    }
  }
}
