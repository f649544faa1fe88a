/** The particles of a log: how the simulator writes them and how the player reads them back.
    The text is a sequence of words and line ends. */
module ParticleLog {

  import opened Basics

  /** All that the player and the loading of states ever look at in a word: the texts they search for,
      and the number the word is read as, 0 if it is not a number. */
  datatype Word = Word(
    step: bool,           // "t =", found in a line at the word where it starts
    final: bool,          // "FINAL_STATE_BEGIN"
    begin: bool,          // "PARTICLES BEGIN", likewise
    particles: bool,      // "PARTICLES"
    weight: bool,         // "w:"
    userData: bool,       // "USER_DATA_BEGIN"
    userDataEnd: bool,    // "USER_DATA_END"
    prefix: bool,         // "S:"
    isNull: bool,         // "NULL"
    subStates: bool,      // "SUBSTATES_BEGIN"
    subStatesEnd: bool,   // "SUBSTATES_END"
    subState: bool,       // "SS_BEGIN"
    subStateEnd: bool,    // "SS_END"
    value: int)

  datatype Item = Text(word: Word) | NewLine

  /** What a read takes from the text: a value and the text after it, or nothing because the
      words have run out, after which the loops of the player never end. */
  datatype Read<+T> = Starved | Got(value: T, rest: seq<Item>) {
    predicate IsFailure() {
      Starved?
    }

    function PropagateFailure<U>(): Read<U>
      requires Starved?
    {
      Starved
    }

    function Extract(): (T, seq<Item>)
      requires Got?
    {
      (value, rest)
    }
  }

  /** A particle as the player keeps it. */
  datatype Component = Component(particle: seq<int>, previous: Option<seq<int>>)

  /* ---------- Reading ---------- */

  /** `is >> s` passes over line ends. */
  function NextWord(text: seq<Item>): (r: Read<Word>)
    ensures r.Got? ==> |r.rest| < |text|
  {
    if text == [] then Starved
    else if text[0].NewLine? then NextWord(text[1..])
    else Got(text[0].word, text[1..])
  }

  /** The numbers up to a word with "w:" in it. */
  function ValuesUntilWeight(text: seq<Item>): (r: Read<seq<int>>)
    ensures r.Got? ==> |r.rest| < |text|
    decreases |text|
  {
    var (w, rest) :- NextWord(text);
    if w.weight then Got([], rest)
    else
      var (later, after) :- ValuesUntilWeight(rest);
      Got([w.value] + later, after)
  }

  /** What `getline` leaves. */
  function AfterLine(text: seq<Item>): (rest: seq<Item>)
    ensures |rest| <= |text|
  {
    if text == [] then [] else if text[0].NewLine? then text[1..] else AfterLine(text[1..])
  }

  /** One particle, whose first word has been taken already. */
  function OneParticle(text: seq<Item>): (r: Read<Component>)
    ensures r.Got? ==> |r.rest| < |text|
  {
    var (values, rest) :- ValuesUntilWeight(text);
    var (_, rest) :- NextWord(rest);
    var (_, rest) :- NextWord(rest);
    var (w, rest) :- NextWord(rest);
    if w.userData then
      var (previous, rest) :- ValuesUntilWeight(rest);
      Got(Component(values, Some(previous)), AfterLine(rest))
    else
      Got(Component(values, None), rest)
  }

  /** All particles up to a word with "PARTICLES" in it. */
  function Block(text: seq<Item>): (r: Read<seq<Component>>)
    ensures r.Got? ==> |r.rest| < |text|
    decreases |text|
  {
    var (w, rest) :- NextWord(text);
    if w.particles then Got([], rest)
    else
      var (component, rest) :- OneParticle(rest);
      var (later, rest) :- Block(rest);
      Got([component] + later, rest)
  }

  /* ---------- Writing ---------- */

  datatype State = State(values: seq<int>, weight: int)

  /** A belief particle: its state, the substates on the way to it, and the previous state its
      user data prints, if it prints any. */
  datatype Particle = Particle(state: State, subStates: seq<seq<int>>, previous: Option<State>)

  const PLAIN := Word(false, false, false, false, false, false, false, false, false, false, false, false, false, 0)

  function Number(v: int): Item {
    Text(PLAIN.(value := v))
  }

  const OTHER := Text(PLAIN)
  const WEIGHT := Text(PLAIN.(weight := true))
  const USER_DATA_BEGIN := Text(PLAIN.(userData := true))
  const USER_DATA_END := Text(PLAIN.(userDataEnd := true))
  const SUBSTATES_BEGIN := Text(PLAIN.(subStates := true))
  const SUBSTATES_END := Text(PLAIN.(subStatesEnd := true))
  const SS_BEGIN := Text(PLAIN.(subState := true))
  const SS_END := Text(PLAIN.(subStateEnd := true))
  const PARTICLES := Text(PLAIN.(particles := true))

  function Numbers(values: seq<int>): (items: seq<Item>)
    ensures |items| == |values|
  {
    seq(|values|, i requires 0 <= i < |values| => Number(values[i]))
  }

  /** `VectorState::print` */
  function Printed(s: State): seq<Item> {
    Numbers(s.values) + [WEIGHT, Number(s.weight)]
  }

  /** A substate is cut to one entry less than the state has; the bound is unsigned, so an empty
      state cuts nothing. */
  function Kept(vector: seq<int>, stateSize: nat): seq<int> {
    if stateSize == 0 || |vector| < stateSize then vector else vector[..stateSize - 1]
  }

  function SubStateText(subStates: seq<seq<int>>, stateSize: nat): seq<Item> {
    if subStates == [] then []
    else [SS_BEGIN] + (Numbers(Kept(subStates[0], stateSize)) + ([SS_END] + SubStateText(subStates[1..], stateSize)))
  }

  /** SUBSTATES_BEGIN, the substates, SUBSTATES_END, if there are any. */
  function AllSubStates(subStates: seq<seq<int>>, stateSize: nat): seq<Item> {
    if subStates == [] then [] else [SUBSTATES_BEGIN] + (SubStateText(subStates, stateSize) + [SUBSTATES_END])
  }

  function UserData(p: Particle): seq<Item> {
    if p.previous.Some? then Printed(p.previous.value) else []
  }

  /** What follows "END", with the line end. */
  function LineEnd(p: Particle): seq<Item> {
    AllSubStates(p.subStates, |p.state.values|) + ([USER_DATA_BEGIN] + (UserData(p) + [USER_DATA_END, NewLine]))
  }

  /** `VectorState::serialize` with the prefix p, and the line end after it. */
  function Serialized(p: Particle): seq<Item> {
    [OTHER] + (Printed(p.state) + ([OTHER] + LineEnd(p)))
  }

  /** `serializeBeliefParticles` after its first line, up to the last one. */
  function Written(ps: seq<Particle>): seq<Item> {
    if ps == [] then [] else Serialized(ps[0]) + Written(ps[1..])
  }

  /** What a reader should make of it. */
  function Meant(p: Particle): Component {
    Component(p.state.values, if p.previous.Some? then Some(p.previous.value.values) else None)
  }

  function AllMeant(ps: seq<Particle>): (cs: seq<Component>)
    ensures |cs| == |ps|
  {
    seq(|ps|, i requires 0 <= i < |ps| => Meant(ps[i]))
  }

  /* ---------- The round trip ---------- */

  predicate WithoutWeight(text: seq<Item>) {
    forall i :: 0 <= i < |text| && text[i].Text? ==> !text[i].word.weight
  }

  /** The numbers read from a text without "w:". */
  function WordValues(text: seq<Item>): seq<int> {
    if text == [] then []
    else (if text[0].Text? then [text[0].word.value] else []) + WordValues(text[1..])
  }

  lemma {:induction false} WordValuesAppend(a: seq<Item>, b: seq<Item>)
    ensures WordValues(a + b) == WordValues(a) + WordValues(b)
  {
    if a == [] {
      assert a + b == b;
    } else {
      WordValuesAppend(a[1..], b);
      assert (a + b)[0] == a[0] && (a + b)[1..] == a[1..] + b;
      var first := if a[0].Text? then [a[0].word.value] else [];
      assert first + (WordValues(a[1..]) + WordValues(b)) == first + WordValues(a[1..]) + WordValues(b);
    }
  }

  lemma {:induction false} NumbersRead(values: seq<int>)
    ensures WordValues(Numbers(values)) == values && WithoutWeight(Numbers(values))
  {
    if values == [] {
    } else {
      NumbersRead(values[1..]);
      assert Numbers(values)[1..] == Numbers(values[1..]);
    }
  }

  lemma {:induction false} ReadsUpToWeight(text: seq<Item>, rest: seq<Item>)
    requires WithoutWeight(text)
    ensures ValuesUntilWeight(text + [WEIGHT] + rest) == Got(WordValues(text), rest)
  {
    var all := text + [WEIGHT] + rest;
    if text == [] {
      assert all[1..] == rest;
    } else {
      ReadsUpToWeight(text[1..], rest);
      assert all[0] == text[0] && all[1..] == text[1..] + [WEIGHT] + rest;
      if text[0].NewLine? {
        assert NextWord(all) == NextWord(all[1..]);
        assert [] + WordValues(text[1..]) == WordValues(text[1..]);
        assert ValuesUntilWeight(all) == ValuesUntilWeight(all[1..]);
      } else {
        assert NextWord(all) == Got(text[0].word, all[1..]);
      }
    }
  }

  lemma PrintedRead(s: State, rest: seq<Item>)
    ensures ValuesUntilWeight(Printed(s) + rest) == Got(s.values, [Number(s.weight)] + rest)
  {
    NumbersRead(s.values);
    ReadsUpToWeight(Numbers(s.values), [Number(s.weight)] + rest);
    assert Printed(s) + rest == Numbers(s.values) + [WEIGHT] + ([Number(s.weight)] + rest);
  }

  lemma WordTaken(item: Item, rest: seq<Item>)
    requires item.Text?
    ensures NextWord([item] + rest) == Got(item.word, rest)
  {
    assert ([item] + rest)[1..] == rest;
  }

  function Opened(p: Particle, text: seq<Item>): seq<Item> {
    Printed(p.state) + ([OTHER] + (LineEnd(p) + text))
  }

  lemma Regroup(a: seq<Item>, b: seq<Item>, c: seq<Item>)
    ensures [OTHER] + (a + ([OTHER] + b)) + c == [OTHER] + (a + ([OTHER] + (b + c)))
  {
  }

  /** The prefix is taken, the state and the weight come back, and the word after "END" decides. */
  lemma Opening(p: Particle, text: seq<Item>)
    ensures NextWord(Serialized(p) + text) == Got(PLAIN, Opened(p, text))
    ensures ValuesUntilWeight(Opened(p, text))
            == Got(p.state.values, [Number(p.state.weight)] + ([OTHER] + (LineEnd(p) + text)))
  {
    PrintedRead(p.state, [OTHER] + (LineEnd(p) + text));
    Regroup(Printed(p.state), LineEnd(p), text);
    WordTaken(OTHER, Opened(p, text));
  }

  lemma Decided(p: Particle, text: seq<Item>, item: Item, rest: seq<Item>)
    requires item.Text? && LineEnd(p) + text == [item] + rest
    ensures OneParticle(Opened(p, text)) ==
            if item.word.userData then
              var r := ValuesUntilWeight(rest);
              if r.Got? then Got(Component(p.state.values, Some(r.value)), AfterLine(r.rest)) else Starved
            else Got(Component(p.state.values, None), rest)
  {
    Opening(p, text);
    WordTaken(Number(p.state.weight), [OTHER] + (LineEnd(p) + text));
    WordTaken(OTHER, (LineEnd(p) + text));
    WordTaken(item, rest);
  }

  lemma LineLeft(weight: int, text: seq<Item>)
    ensures AfterLine([Number(weight)] + ([USER_DATA_END, NewLine] + text)) == text
  {
    var line := [Number(weight)] + ([USER_DATA_END, NewLine] + text);
    assert line[1..] == [USER_DATA_END, NewLine] + text;
    assert line[1..][1..] == [NewLine] + text;
    assert line[1..][1..][1..] == text;
    assert AfterLine(line[1..][1..]) == text;
  }

  /** A particle without substates whose user data prints its previous state comes back whole. */
  lemma GoodParticle(p: Particle, text: seq<Item>)
    requires p.subStates == [] && p.previous.Some?
    ensures OneParticle(Opened(p, text)) == Got(Meant(p), text)
  {
    var previous := p.previous.value;
    var line := [USER_DATA_END, NewLine] + text;
    assert LineEnd(p) + text == [USER_DATA_BEGIN] + (Printed(previous) + line);
    Decided(p, text, USER_DATA_BEGIN, Printed(previous) + line);
    PrintedRead(previous, line);
    LineLeft(previous.weight, text);
  }

  /** Without substates, whatever follows "USER_DATA_BEGIN" is taken for a previous state. */
  lemma NothingPrinted(p: Particle, text: seq<Item>)
    requires p.subStates == []
    ensures var r := OneParticle(Opened(p, text)); r.Got? ==> r.value.previous.Some?
  {
    var rest := UserData(p) + [USER_DATA_END, NewLine] + text;
    assert LineEnd(p) + text == [USER_DATA_BEGIN] + rest;
    Decided(p, text, USER_DATA_BEGIN, rest);
  }

  /** What is left of the line of a particle with substates when the reader takes it for done. */
  function Remainder(p: Particle, text: seq<Item>): seq<Item> {
    SubStateText(p.subStates, |p.state.values|) + [SUBSTATES_END, USER_DATA_BEGIN] + UserData(p)
        + [USER_DATA_END, NewLine] + text
  }

  lemma LineEndShape(sub: seq<Item>, userData: seq<Item>, text: seq<Item>)
    ensures ([SUBSTATES_BEGIN] + (sub + [SUBSTATES_END]))
            + ([USER_DATA_BEGIN] + (userData + [USER_DATA_END, NewLine])) + text
         == [SUBSTATES_BEGIN] + (sub + [SUBSTATES_END, USER_DATA_BEGIN] + userData + [USER_DATA_END, NewLine] + text)
  {
  }

  /** With substates the previous state is not looked for. */
  lemma SubStatesPrinted(p: Particle, text: seq<Item>)
    requires p.subStates != []
    ensures OneParticle(Opened(p, text)) == Got(Component(p.state.values, None), Remainder(p, text))
  {
    LineEndShape(SubStateText(p.subStates, |p.state.values|), UserData(p), text);
    Decided(p, text, SUBSTATES_BEGIN, Remainder(p, text));
  }

  lemma {:induction false} SubStateTextPlain(subStates: seq<seq<int>>, stateSize: nat)
    ensures WithoutWeight(SubStateText(subStates, stateSize))
    ensures subStates != [] ==>
            SubStateText(subStates, stateSize) != [] && SubStateText(subStates, stateSize)[0] == SS_BEGIN
  {
    if subStates == [] {
    } else {
      SubStateTextPlain(subStates[1..], stateSize);
    }
  }

  lemma SwallowShape(junk: seq<Item>, numbers: seq<Item>, weight: Item, lineEnd: seq<Item>, text: seq<Item>)
    ensures junk + ([OTHER] + ((numbers + [WEIGHT, weight]) + ([OTHER] + lineEnd))) + text
         == (junk + [OTHER] + numbers) + [WEIGHT] + ([weight] + ([OTHER] + (lineEnd + text)))
  {
  }

  /** Text without "w:" in front of a written particle is read as part of it. */
  lemma Swallowed(junk: seq<Item>, q: Particle, text: seq<Item>)
    requires WithoutWeight(junk)
    ensures var r := OneParticle(junk + Serialized(q) + text); r.Got? ==> |r.value.particle| > |q.state.values|
  {
    var numbers, rest := Numbers(q.state.values), [Number(q.state.weight)] + ([OTHER] + (LineEnd(q) + text));
    SwallowShape(junk, numbers, Number(q.state.weight), LineEnd(q), text);
    NumbersRead(q.state.values);
    ReadsUpToWeight(junk + [OTHER] + numbers, rest);
    WordValuesAppend(junk + [OTHER], numbers);
    WordValuesAppend(junk, [OTHER]);
    assert WordValues([OTHER]) == [0];
  }

  lemma RemainderShape(sub: seq<Item>, text: seq<Item>)
    requires sub != [] && sub[0] == SS_BEGIN
    ensures sub + [SUBSTATES_END, USER_DATA_BEGIN] + [] + [USER_DATA_END, NewLine] + text
         == [SS_BEGIN] + (sub[1..] + [SUBSTATES_END, USER_DATA_BEGIN, USER_DATA_END, NewLine] + text)
  {
  }

  lemma WrittenStep(ps: seq<Particle>, tail: seq<Item>)
    requires ps != []
    ensures Written(ps) + [PARTICLES] + tail == Serialized(ps[0]) + (Written(ps[1..]) + [PARTICLES] + tail)
  {
    Assoc(Serialized(ps[0]), Written(ps[1..]), [PARTICLES]);
    Assoc(Serialized(ps[0]), Written(ps[1..]) + [PARTICLES], tail);
  }

  lemma AllMeantStep(ps: seq<Particle>)
    requires ps != []
    ensures AllMeant(ps) == [Meant(ps[0])] + AllMeant(ps[1..])
  {
  }

  /** After a particle with substates and nothing printed, the text is not read as the particles
      that were written in it. */
  lemma Derailed(p: Particle, later: seq<Particle>, tail: seq<Item>)
    requires p.subStates != [] && p.previous.None?
    ensures Block(Remainder(p, Written(later) + [PARTICLES] + tail)) != Got(AllMeant(later), tail)
  {
    var sub := SubStateText(p.subStates, |p.state.values|);
    var text := Written(later) + [PARTICLES] + tail;
    var junk := sub[1..] + [SUBSTATES_END, USER_DATA_BEGIN, USER_DATA_END, NewLine];
    SubStateTextPlain(p.subStates, |p.state.values|);
    RemainderShape(sub, text);
    JunkRead(junk, later, tail);
  }

  lemma JunkRead(junk: seq<Item>, later: seq<Particle>, tail: seq<Item>)
    requires WithoutWeight(junk)
    ensures Block([SS_BEGIN] + (junk + (Written(later) + [PARTICLES] + tail))) != Got(AllMeant(later), tail)
  {
    WordTaken(SS_BEGIN, junk + (Written(later) + [PARTICLES] + tail));
    if later != [] {
      WrittenStep(later, tail);
      AllMeantStep(later);
      JunkBefore(junk, later[0], Written(later[1..]) + [PARTICLES] + tail, AllMeant(later[1..]), tail);
    }
  }

  lemma JunkBefore(junk: seq<Item>, q: Particle, behind: seq<Item>, cs: seq<Component>, tail: seq<Item>)
    requires WithoutWeight(junk)
    ensures Block([SS_BEGIN] + (junk + (Serialized(q) + behind))) != Got([Meant(q)] + cs, tail)
  {
    Assoc(junk, Serialized(q), behind);
    Swallowed(junk, q, behind);
    FirstParticle(junk + Serialized(q) + behind, Meant(q), cs, tail);
  }

  lemma FirstParticle(text: seq<Item>, c: Component, cs: seq<Component>, tail: seq<Item>)
    requires OneParticle(text).Got? ==> OneParticle(text).value != c
    ensures Block([SS_BEGIN] + text) != Got([c] + cs, tail)
  {
    WordTaken(SS_BEGIN, text);
    var r := OneParticle(text);
    if r.Got? && Block(r.rest).Got? {
      FirstDiffers(r.value, Block(r.rest).value, c, cs);
    }
  }

  predicate Readable(p: Particle) {
    p.subStates == [] && p.previous.Some?
  }

  lemma BlockStep(p: Particle, text: seq<Item>)
    ensures Block(Serialized(p) + text) ==
            var r := OneParticle(Opened(p, text));
            if r.Starved? then Starved
            else
              var later := Block(r.rest);
              if later.Starved? then Starved else Got([r.value] + later.value, later.rest)
  {
    Opening(p, text);
  }

  lemma FirstDiffers(c: Component, cs: seq<Component>, d: Component, ds: seq<Component>)
    ensures [c] + cs == [d] + ds <==> c == d && cs == ds
  {
    if [c] + cs == [d] + ds {
      assert ([c] + cs)[0] == ([d] + ds)[0];
      assert ([c] + cs)[1..] == ([d] + ds)[1..];
    }
  }

  /** The player reads back exactly what was written if and only if every particle has its previous
      state printed and no substates. */
  lemma {:induction false} RoundTripExactly(ps: seq<Particle>, tail: seq<Item>)
    ensures Block(Written(ps) + [PARTICLES] + tail) == Got(AllMeant(ps), tail)
            <==> forall i :: 0 <= i < |ps| ==> Readable(ps[i])
  {
    if ps == [] {
      assert Written(ps) + [PARTICLES] + tail == [PARTICLES] + tail;
      WordTaken(PARTICLES, tail);
    } else {
      WrittenStep(ps, tail);
      AllMeantStep(ps);
      Readables(ps);
      RoundTripExactly(ps[1..], tail);
      OneMore(ps[0], ps[1..], tail);
    }
  }

  lemma OneMore(p: Particle, later: seq<Particle>, tail: seq<Item>)
    ensures var text := Written(later) + [PARTICLES] + tail;
            Block(Serialized(p) + text) == Got([Meant(p)] + AllMeant(later), tail)
            <==> Readable(p) && Block(text) == Got(AllMeant(later), tail)
  {
    var text := Written(later) + [PARTICLES] + tail;
    BlockStep(p, text);
    var r := OneParticle(Opened(p, text));
    if r.Got? && Block(r.rest).Got? {
      FirstDiffers(r.value, Block(r.rest).value, Meant(p), AllMeant(later));
    }
    if Readable(p) {
      GoodParticle(p, text);
    } else if p.subStates == [] {
      NothingPrinted(p, text);
    } else {
      SubStatesPrinted(p, text);
      if p.previous.None? {
        Derailed(p, later, tail);
      }
    }
  }

  lemma Readables(ps: seq<Particle>)
    requires ps != []
    ensures (forall i :: 0 <= i < |ps| ==> Readable(ps[i]))
            <==> Readable(ps[0]) && forall i :: 0 <= i < |ps[1..]| ==> Readable(ps[1..][i])
  {
    if Readable(ps[0]) && forall i :: 0 <= i < |ps[1..]| ==> Readable(ps[1..][i]) {
      forall i | 0 <= i < |ps|
        ensures Readable(ps[i])
      {
        assert i > 0 ==> ps[i] == ps[1..][i - 1];
      }
    }
    if forall i :: 0 <= i < |ps| ==> Readable(ps[i]) {
      forall i | 0 <= i < |ps[1..]|
        ensures Readable(ps[1..][i])
      {
        assert ps[1..][i] == ps[i + 1];
      }
    }
  }
}
