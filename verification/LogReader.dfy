/** The reader of a log: `parseParticles` and `parseStates`. */
module LogReader {
  import opened Basics
  import opened ParticleLog
  import opened StateLines
  import opened StateReader
  import opened TextStreams

  /** How many particles the player wants of a block, and how its state space normalizes a state. */
  datatype Player = Player(particleSize: nat, normalize: seq<int> -> seq<int>)

  predicate HasStep(line: Line) {
    exists i :: 0 <= i < |line| && line[i].step
  }

  predicate HasFinal(line: Line) {
    exists i :: 0 <= i < |line| && line[i].final
  }

  predicate HasBegin(line: Line) {
    exists i :: 0 <= i < |line| && line[i].begin
  }

  /** `find` looks at the whole line. */
  lemma FoundAnywhere(before: Line, word: Word, after: Line)
    ensures HasStep(before + [word] + after) <==> word.step || HasStep(before) || HasStep(after)
    ensures HasFinal(before + [word] + after) <==> word.final || HasFinal(before) || HasFinal(after)
    ensures HasBegin(before + [word] + after) <==> word.begin || HasBegin(before) || HasBegin(after)
  {
    var line, n := before + [word] + after, |before|;
    assert line[n] == word;
    assert forall i :: 0 <= i < n ==> line[i] == before[i];
    assert forall i :: 0 <= i < |after| ==> line[n + 1 + i] == after[i];
    assert forall i :: n < i < |line| ==> line[i] == after[i - n - 1];
  }

  /* ---------- What the reader makes of a text ---------- */

  /** A time slice: its state, and all the particles of its block. */
  datatype Entry = Entry(state: LoadedState, block: Option<seq<Component>>)

  /** The ways to end: with the slices; in a loop that never ends, for want of words; with an access
      outside of a vector, when particles come before any slice or are fewer than wanted; and with the
      use of a state that is not there. */
  datatype Outcome = Parsed(entries: seq<Entry>) | Starves | BlockFirst | TooFew | NoState {
    predicate Faulty() {
      BlockFirst? || TooFew? || NoState?
    }
  }

  /** The inner loop of `parseStates` with the line s. */
  function Lines(src: Source, s: Line, entries: seq<Entry>, player: Player): Outcome
    requires src.Valid()
    decreases src.Measure(), 1
  {
    if HasStep(s) || HasFinal(s) then
      var (line, src1) := GetLine(src, s);
      AtMarker(LoadText(Texts(line), player.normalize), src1, line, entries, player)
    else if HasBegin(s) then
      var block := Block(src.rest);
      if entries == [] then BlockFirst
      else if block.Starved? then Starves
      else if player.particleSize > |block.value| then TooFew
      else NextLine(Source(block.rest, block.rest == []), s, WithBlock(entries, block.value), player)
    else NextLine(src, s, entries, player)
  }

  /** The line after a marker has been taken, and its state loaded. */
  function AtMarker(load: Load, src: Source, line: Line, entries: seq<Entry>, player: Player): Outcome
    requires src.Valid()
    decreases src.Measure(), 0
  {
    match load
    case Hangs => Starves
    case NullState => NoState
    case Loaded(state) =>
      var (s2, src2) := GetLine(src, line);
      if src2.eof then Parsed(entries + [Entry(state, None)])
      else Lines(src2, s2, entries + [Entry(state, None)], player)
  }

  function NextLine(src: Source, s: Line, entries: seq<Entry>, player: Player): Outcome
    requires src.Valid()
    decreases src.Measure(), 0
  {
    if src.eof then Parsed(entries)
    else
      var (s2, src2) := GetLine(src, s);
      Lines(src2, s2, entries, player)
  }

  function WithBlock(entries: seq<Entry>, block: seq<Component>): (r: seq<Entry>)
    requires entries != []
    ensures |r| == |entries|
  {
    entries[|entries| - 1 := entries[|entries| - 1].(block := Some(block))]
  }

  /** What may be kept of a block: particleSize of its particles, in any order. */
  ghost predicate Selected(particles: seq<Component>, block: seq<Component>, particleSize: nat) {
    |particles| == particleSize && multiset(particles) <= multiset(block)
  }

  datatype TimeSlice = TimeSlice(state: LoadedState, components: seq<Component>)

  ghost predicate Reads(slices: seq<TimeSlice>, entries: seq<Entry>, particleSize: nat) {
    && |slices| == |entries|
    && forall i :: 0 <= i < |slices| ==>
         slices[i].state == entries[i].state
         && if entries[i].block.Some? then Selected(slices[i].components, entries[i].block.value, particleSize)
            else slices[i].components == []
  }

  /* ---------- parseParticles ---------- */

  /** The numbers up to "w:". */
  method ReadValues(stream: TextStream) returns (values: seq<int>)
    requires stream.Valid() && ValuesUntilWeight(stream.rest).Got?
    modifies stream
    ensures stream.Valid() && ValuesUntilWeight(old(stream.rest)) == Got(values, stream.rest)
  {
    values := [];
    ghost var whole := ValuesUntilWeight(stream.rest);
    while true
      invariant stream.Valid() && ValuesUntilWeight(stream.rest).Got?
      invariant values + ValuesUntilWeight(stream.rest).value == whole.value
      invariant ValuesUntilWeight(stream.rest).rest == whole.rest
      decreases |stream.rest|
    {
      var s := stream.Next();
      if s.weight {
        assert values + [] == values;
        break;
      }
      values := values + [s.value];
    }
  }

  method ReadComponent(stream: TextStream) returns (component: Component)
    requires stream.Valid() && OneParticle(stream.rest).Got?
    modifies stream
    ensures stream.Valid() && OneParticle(old(stream.rest)) == Got(component, stream.rest)
  {
    var stateValues := ReadValues(stream);
    var weight := stream.Next();
    var end := stream.Next();
    var s := stream.Next();
    component := Component(stateValues, None);
    if s.userData {
      var previous := ReadValues(stream);
      component := component.(previous := Some(previous));
      LineTaken(stream.rest);
      var line := stream.ReadLine([]);
    }
  }

  /** `parseParticles`, with the numbers that `random_shuffle` draws, from the one at `drawn` on.  Where
      the block has fewer particles than wanted the selection would leave the vector; the method then
      says so. */
  method ParseParticles(stream: TextStream, particleSize: nat, draws: nat -> nat, drawn0: nat)
      returns (particles: seq<Component>, outside: bool, drawn: nat)
    requires stream.Valid() && Block(stream.rest).Got?
    modifies stream
    ensures stream.rest == Block(old(stream.rest)).rest && stream.eof == (stream.rest == [])
    ensures outside <==> particleSize > |Block(old(stream.rest)).value|
    ensures !outside ==> Selected(particles, Block(old(stream.rest)).value, particleSize)
    ensures drawn == drawn0 + Draws(|Block(old(stream.rest)).value|)
  {
    var components := ReadComponents(stream);
    components, drawn := Shuffle(components, draws, drawn0);
    particles, outside := Take(components, particleSize);
    if !outside {
      TakeIsPart(components, particleSize);
    }
  }

  /** The outer loop: all particles of the block. */
  method ReadComponents(stream: TextStream) returns (components: seq<Component>)
    requires stream.Valid() && Block(stream.rest).Got?
    modifies stream
    ensures Block(old(stream.rest)) == Got(components, stream.rest) && stream.eof == (stream.rest == [])
  {
    components := [];
    ghost var whole := Block(stream.rest);
    while true
      invariant stream.Valid() && Block(stream.rest).Got?
      invariant components + Block(stream.rest).value == whole.value
      invariant Block(stream.rest).rest == whole.rest
      decreases |stream.rest|
    {
      var s := stream.Next();
      if s.particles {
        assert components + [] == components;
        break;
      }
      var component := ReadComponent(stream);
      Assoc(components, [component], Block(stream.rest).value);
      components := components + [component];
    }
  }

  /** How many numbers it takes to shuffle so many. */
  function Draws(size: nat): nat {
    if size == 0 then 0 else size - 1
  }

  function Swapped<T>(r: seq<T>, a: nat, b: nat): (r': seq<T>)
    requires a < |r| && b < |r|
    ensures |r'| == |r|
  {
    r[a := r[b]][b := r[a]]
  }

  /** The remainder of a number drawn, for one of n places. */
  function Place(x: nat, n: nat): (j: nat)
    requires 0 < n
    ensures j < n && (x < n ==> j == x)
  {
    if x < n then x else Place(x - n, n)
  }

  /** The first n entries have been shuffled: each in turn has changed places with one drawn from those up
      to it, each time with the next number. */
  function Mixed<T>(s: seq<T>, draws: nat -> nat, drawn: nat, n: nat): (r: seq<T>)
    requires n <= |s|
    ensures |r| == |s|
  {
    if n <= 1 then s
    else
      Swapped(Mixed(s, draws, drawn, n - 1), n - 1, Place(draws(drawn + n - 2), n))
  }

  lemma SwapKeeps<T>(r: seq<T>, a: nat, b: nat)
    requires a < |r| && b < |r|
    ensures multiset(Swapped(r, a, b)) == multiset(r)
  {
    var half := r[a := r[b]];
    assert multiset(half) == multiset(r) - multiset{r[a]} + multiset{r[b]};
    assert half[b] == r[b];
  }

  lemma SwapTwice<T>(r: seq<T>, a: nat, b: nat)
    requires a < |r| && b < |r|
    ensures Swapped(Swapped(r, a, b), a, b) == r
  {
  }

  lemma SwapBelow<T>(r: seq<T>, n: nat, a: nat, b: nat)
    requires a < n <= |r| && b < n
    ensures Swapped(r, a, b)[..n] == Swapped(r[..n], a, b) && Swapped(r, a, b)[n..] == r[n..]
  {
  }

  lemma {:induction false} MixedKeeps<T>(s: seq<T>, draws: nat -> nat, drawn: nat, n: nat)
    requires n <= |s|
    ensures multiset(Mixed(s, draws, drawn, n)) == multiset(s)
  {
    if 1 < n {
      MixedKeeps(s, draws, drawn, n - 1);
      SwapKeeps(Mixed(s, draws, drawn, n - 1), n - 1, Place(draws(drawn + n - 2), n));
    }
  }

  lemma {:induction false} MixedSame<T>(s: seq<T>, draws: nat -> nat, draws': nat -> nat, drawn: nat, n: nat)
    requires n <= |s| && forall x: nat :: x + 2 <= drawn + n ==> draws(x) == draws'(x)
    ensures Mixed(s, draws, drawn, n) == Mixed(s, draws', drawn, n)
  {
    if 1 < n {
      MixedSame(s, draws, draws', drawn, n - 1);
    }
  }

  /** The numbers may be such that any order comes out. */
  lemma AnyOrder<T>(s: seq<T>, t: seq<T>, drawn: nat) returns (draws: nat -> nat)
    requires multiset(s) == multiset(t)
    ensures Mixed(s, draws, drawn, |s|) == t
  {
    assert |s| == |multiset(s)| == |multiset(t)| == |t|;
    assert s[..|s|] == s && t[..|s|] == t;
    draws := AnyOrderOf(s, t, drawn, |s|);
  }

  lemma {:induction false} AnyOrderOf<T>(s: seq<T>, t: seq<T>, drawn: nat, n: nat) returns (draws: nat -> nat)
    requires n <= |s| == |t| && s[n..] == t[n..] && multiset(s[..n]) == multiset(t[..n])
    ensures Mixed(s, draws, drawn, n) == t
    decreases n
  {
    draws := _ => 0;
    if n <= 1 {
      OnlyOrder(s, t, n);
    } else {
      var j := PutBack(s, t, n);
      var u := Swapped(t, n - 1, j);
      var before := AnyOrderOf(s, u, drawn, n - 1);
      draws := Redrawn(before, drawn + n - 2, j);
      LastSwap(s, t, before, drawn, n, j);
    }
  }

  function Redrawn(draws: nat -> nat, at: nat, j: nat): (r: nat -> nat)
    ensures r(at) == j && forall x: nat :: x != at ==> r(x) == draws(x)
  {
    x => if x == at then j else draws(x)
  }

  lemma LastSwap<T>(s: seq<T>, t: seq<T>, before: nat -> nat, drawn: nat, n: nat, j: nat)
    requires 1 < n <= |s| == |t| && j < n && Mixed(s, before, drawn, n - 1) == Swapped(t, n - 1, j)
    ensures Mixed(s, Redrawn(before, drawn + n - 2, j), drawn, n) == t
  {
    MixedSame(s, Redrawn(before, drawn + n - 2, j), before, drawn, n - 1);
    SwapTwice(t, n - 1, j);
  }

  lemma OnlyOrder<T>(s: seq<T>, t: seq<T>, n: nat)
    requires n <= 1 && n <= |s| == |t| && s[n..] == t[n..] && multiset(s[..n]) == multiset(t[..n])
    ensures s == t
  {
    if n == 1 {
      assert s[..1] == [s[0]] && t[..1] == [t[0]];
      assert s[0] in multiset(t[..1]);
    }
    assert s == s[..n] + s[n..] && t == t[..n] + t[n..];
  }

  /** The order before the last change of places, which brings entry n - 1 to its place j. */
  lemma PutBack<T>(s: seq<T>, t: seq<T>, n: nat) returns (j: nat)
    requires 1 < n <= |s| == |t| && s[n..] == t[n..] && multiset(s[..n]) == multiset(t[..n])
    ensures j < n && s[n - 1..] == Swapped(t, n - 1, j)[n - 1..]
    ensures multiset(s[..n - 1]) == multiset(Swapped(t, n - 1, j)[..n - 1])
  {
    j := PlaceOf(s[..n], t[..n]);
    var u := Swapped(t, n - 1, j);
    SwapBelow(t, n, n - 1, j);
    SwapKeeps(t[..n], n - 1, j);
    assert u[n - 1] == s[n - 1];
    TailsAgree(s, u, n);
    DropLast(s[..n], u[..n]);
    assert s[..n][..n - 1] == s[..n - 1] && u[..n][..n - 1] == u[..n - 1];
  }

  lemma TailsAgree<T>(s: seq<T>, u: seq<T>, n: nat)
    requires 0 < n <= |s| == |u| && s[n..] == u[n..] && s[n - 1] == u[n - 1]
    ensures s[n - 1..] == u[n - 1..]
  {
    assert s[n - 1..] == [s[n - 1]] + s[n..] && u[n - 1..] == [u[n - 1]] + u[n..];
  }

  lemma PlaceOf<T>(s: seq<T>, t: seq<T>) returns (j: nat)
    requires s != [] && multiset(s) == multiset(t)
    ensures j < |t| && t[j] == s[|s| - 1]
  {
    assert s[|s| - 1] in multiset(t);
    j :| 0 <= j < |t| && t[j] == s[|s| - 1];
  }

  lemma DropLast<T>(s: seq<T>, u: seq<T>)
    requires s != [] && u != [] && s[|s| - 1] == u[|u| - 1] && multiset(s) == multiset(u)
    ensures multiset(s[..|s| - 1]) == multiset(u[..|u| - 1])
  {
    LastApart(s);
    LastApart(u);
  }

  lemma LastApart<T>(s: seq<T>)
    requires s != []
    ensures multiset(s[..|s| - 1]) == multiset(s) - multiset{s[|s| - 1]}
  {
    assert s == s[..|s| - 1] + [s[|s| - 1]];
  }

  lemma MixedNext<T>(s: seq<T>, draws: nat -> nat, drawn: nat, i: nat)
    requires 1 <= i < |s|
    ensures Mixed(s, draws, drawn, i + 1)
         == Swapped(Mixed(s, draws, drawn, i), i, Place(draws(drawn + i - 1), i + 1))
  {
  }

  /** `random_shuffle` */
  method Shuffle<T>(components: seq<T>, draws: nat -> nat, drawn0: nat) returns (shuffled: seq<T>, drawn: nat)
    ensures shuffled == Mixed(components, draws, drawn0, |components|)
    ensures |shuffled| == |components| && multiset(shuffled) == multiset(components)
    ensures drawn == drawn0 + Draws(|components|)
  {
    shuffled, drawn := components, drawn0;
    var i := 1;
    while i < |shuffled|
      invariant 1 <= i <= Draws(|components|) + 1 && drawn == drawn0 + i - 1 && |shuffled| == |components|
      invariant i <= |components| ==> shuffled == Mixed(components, draws, drawn0, i)
    {
      MixedNext(components, draws, drawn0, i);
      shuffled := Swapped(shuffled, i, Place(draws(drawn), i + 1));
      i, drawn := i + 1, drawn + 1;
    }
    MixedKeeps(components, draws, drawn0, |components|);
  }

  method Take<T>(components: seq<T>, particleSize: nat) returns (particles: seq<T>, outside: bool)
    ensures outside <==> particleSize > |components|
    ensures !outside ==> particles == components[..particleSize]
  {
    particles, outside := [], false;
    var i := 0;
    while i != particleSize
      invariant 0 <= i <= particleSize && i <= |components| && particles == components[..i]
    {
      if i == |components| {
        outside := true;
        break;
      }
      particles := particles + [components[i]];
      i := i + 1;
    }
  }

  lemma TakeIsPart<T>(s: seq<T>, n: nat)
    requires n <= |s|
    ensures multiset(s[..n]) <= multiset(s)
  {
    assert s == s[..n] + s[n..];
  }

  /* ---------- parseStates ---------- */

  /** `parseStates`.  fault holds where the original would leave a vector, or use a state that is not
      there. */
  method ParseStates(stream: TextStream, player: Player, draws: nat -> nat)
      returns (slices: seq<TimeSlice>, fault: bool)
    requires stream.Valid() && !stream.eof && !Lines(stream.View(), [], [], player).Starves?
    modifies stream
    ensures var outcome := Lines(old(stream.View()), [], [], player);
            && (fault <==> outcome.Faulty())
            && (outcome.Parsed? ==> Reads(slices, outcome.entries, player.particleSize))
  {
    ghost var outcome := Lines(stream.View(), [], [], player);
    ghost var entries: seq<Entry> := [];
    var s: Line := [];
    var drawn := 0;
    slices, fault := [], false;
    while !stream.eof
      invariant stream.Valid() && Reads(slices, entries, player.particleSize) && !fault
      invariant outcome == if stream.eof then Parsed(entries) else Lines(stream.View(), s, entries, player)
      decreases stream.View().Measure()
    {
      var breaking;
      s, slices, fault, breaking, drawn, entries := ToMarker(stream, player, draws, drawn, s, slices, entries);
      if fault || breaking {
        break;
      }
      s, slices, fault, entries := TakeState(stream, player, s, slices, entries);
      if fault {
        break;
      }
    }
  }

  /** Behind a marker: the line with the state, and the next one. */
  method TakeState(stream: TextStream, player: Player, s0: Line, slices0: seq<TimeSlice>, ghost entries0: seq<Entry>)
      returns (s: Line, slices: seq<TimeSlice>, fault: bool, ghost entries: seq<Entry>)
    requires stream.Valid() && (HasStep(s0) || HasFinal(s0)) && Reads(slices0, entries0, player.particleSize)
    requires !Lines(stream.View(), s0, entries0, player).Starves?
    modifies stream
    ensures stream.Valid() && Reads(slices, entries, player.particleSize)
    ensures var outcome := Lines(old(stream.View()), s0, entries0, player);
            if fault then outcome.NoState?
            else outcome == if stream.eof then Parsed(entries) else Lines(stream.View(), s, entries, player)
    ensures stream.View().Measure() <= old(stream.View().Measure())
    ensures !stream.eof ==> stream.View().Measure() < old(stream.View().Measure())
  {
    s := stream.ReadLine(s0);
    var robotState := LoadState(s, player.normalize);
    slices, fault, entries := slices0, robotState.None?, entries0;
    if !fault {
      slices := slices + [TimeSlice(robotState.value, [])];
      entries := entries + [Entry(robotState.value, None)];
      s := stream.ReadLine(s);
    }
  }

  /** The inner loop: on to the next marker, or to the end. */
  method ToMarker(stream: TextStream, player: Player, draws: nat -> nat, drawn0: nat, s0: Line,
                  slices0: seq<TimeSlice>, ghost entries0: seq<Entry>)
      returns (s: Line, slices: seq<TimeSlice>, fault: bool, breaking: bool, drawn: nat, ghost entries: seq<Entry>)
    requires stream.Valid() && !stream.eof && Reads(slices0, entries0, player.particleSize)
    requires !Lines(stream.View(), s0, entries0, player).Starves?
    modifies stream
    ensures stream.Valid() && stream.View().Measure() <= old(stream.View().Measure())
    ensures Reads(slices, entries, player.particleSize)
    ensures var outcome := Lines(old(stream.View()), s0, entries0, player);
            if fault then outcome.Faulty()
            else if breaking then outcome == Parsed(entries)
            else (HasStep(s) || HasFinal(s)) && outcome == Lines(stream.View(), s, entries, player)
                 && (stream.View().Measure() < old(stream.View().Measure()) || !stream.eof)
  {
    ghost var outcome := Lines(stream.View(), s0, entries0, player);
    s, slices, fault, breaking, drawn, entries := s0, slices0, false, false, drawn0, entries0;
    while !HasStep(s) && !HasFinal(s)
      invariant stream.Valid() && Reads(slices, entries, player.particleSize)
      invariant outcome == Lines(stream.View(), s, entries, player)
      invariant stream.View().Measure() <= old(stream.View().Measure())
      invariant stream.eof ==> stream.View().Measure() < old(stream.View().Measure())
      decreases stream.View().Measure()
    {
      if HasBegin(s) {
        slices, fault, drawn, entries := TakeBlock(stream, player, draws, drawn, s, slices, entries);
        if fault {
          return;
        }
      }
      if stream.eof {
        breaking := true;
        return;
      }
      s := stream.ReadLine(s);
    }
  }

  /** At "PARTICLES BEGIN": the block goes into the last slice. */
  method TakeBlock(stream: TextStream, player: Player, draws: nat -> nat, drawn0: nat, ghost s: Line,
                   slices0: seq<TimeSlice>, ghost entries0: seq<Entry>)
      returns (slices: seq<TimeSlice>, fault: bool, drawn: nat, ghost entries: seq<Entry>)
    requires stream.Valid() && HasBegin(s) && !HasStep(s) && !HasFinal(s)
    requires Reads(slices0, entries0, player.particleSize) && !Lines(stream.View(), s, entries0, player).Starves?
    modifies stream
    ensures stream.Valid() && stream.View().Measure() <= old(stream.View().Measure())
    ensures Reads(slices, entries, player.particleSize)
    ensures var outcome := Lines(old(stream.View()), s, entries0, player);
            if fault then outcome.BlockFirst? || outcome.TooFew?
            else outcome == NextLine(stream.View(), s, entries, player)
                 && stream.View().Measure() < old(stream.View().Measure())
  {
    slices, fault, drawn, entries := slices0, slices0 == [], drawn0, entries0;
    if !fault {
      ghost var block := Block(stream.rest).value;
      var components;
      components, fault, drawn := ParseParticles(stream, player.particleSize, draws, drawn0);
      if !fault {
        slices := slices[|slices| - 1 := slices[|slices| - 1].(components := components)];
        entries := WithBlock(entries, block);
      }
    }
  }
}
