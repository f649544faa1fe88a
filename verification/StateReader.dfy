/** The loading of a state from its line, `loadState` of the two serializers. */
module StateReader {
  import opened Basics
  import opened ParticleLog
  import opened StateLines
  import opened TextStreams

  /** The words taken so far and those from s on are what the loop takes as a whole. */
  ghost predicate Reading(stop: Word -> bool, words: seq<Word>, s: Word, text: seq<Item>,
                          whole: Read<(seq<Word>, Word)>)
  {
    var left := WordsUntil(stop, s, text);
    left.Got? && whole == Got((words + left.value.0, left.value.1), left.rest)
  }

  lemma ReadingTurn(stop: Word -> bool, words: seq<Word>, s: Word, text: seq<Item>, whole: Read<(seq<Word>, Word)>)
    requires Reading(stop, words, s, text, whole) && !stop(s)
    ensures var next := NextWord(text);
            next.Got? && Reading(stop, words + [s], next.value, next.rest, whole)
  {
    var next := NextWord(text);
    Assoc(words, [s], WordsUntil(stop, next.value, next.rest).value.0);
  }

  /** The words from s on up to one at which the loop stops. */
  method ReadUntil(stream: TextStream, stop: Word -> bool, s0: Word) returns (words: seq<Word>, s: Word)
    requires stream.Valid() && WordsUntil(stop, s0, stream.rest).Got?
    modifies stream
    ensures stream.Valid() && WordsUntil(stop, s0, old(stream.rest)) == Got((words, s), stream.rest)
  {
    words, s := [], s0;
    ghost var whole := WordsUntil(stop, s0, stream.rest);
    assert [] + whole.value.0 == whole.value.0;
    while !stop(s)
      invariant stream.Valid() && Reading(stop, words, s, stream.rest, whole)
      decreases |stream.rest|
    {
      ReadingTurn(stop, words, s, stream.rest, whole);
      words := words + [s];
      s := stream.Next();
    }
    assert words + [] == words;
  }

  /** The words as numbers. */
  method ReadNumbers(strings: seq<Word>) returns (stateValues: seq<int>)
    ensures stateValues == ValuesOf(strings)
  {
    stateValues := [];
    for i := 0 to |strings|
      invariant stateValues == ValuesOf(strings)[..i]
    {
      stateValues := stateValues + [strings[i].value];
    }
  }

  /** `VectorSerializer::loadState` */
  method LoadVector(stream: TextStream) returns (state: Option<State>)
    requires stream.Valid() && Vector(stream.rest).Got?
    modifies stream
    ensures stream.Valid() && Vector(old(stream.rest)) == Got(state, stream.rest)
  {
    var s := stream.Shift(PLAIN);
    if s.prefix {
      s := stream.Shift(s);
    }
    if s.isNull {
      return None;
    }
    var strings;
    strings, s := ReadUntil(stream, AT_WEIGHT, s);
    s := stream.Shift(s);
    var stateValues := ReadNumbers(strings);
    state := Some(State(stateValues, s.value));
  }

  /** The loop over the substates. */
  method ReadSubStates(stream: TextStream, s0: Word, normalize: seq<int> -> seq<int>)
      returns (subStates: seq<seq<int>>, s: Word)
    requires stream.Valid() && SubStates(s0, stream.rest, normalize).Got?
    modifies stream
    ensures stream.Valid() && SubStates(s0, old(stream.rest), normalize) == Got((subStates, s), stream.rest)
  {
    subStates, s := [], s0;
    ghost var whole := SubStates(s0, stream.rest, normalize);
    while !s.subStatesEnd
      invariant stream.Valid() && SubStates(s, stream.rest, normalize).Got?
      invariant subStates + SubStates(s, stream.rest, normalize).value.0 == whole.value.0
      invariant SubStates(s, stream.rest, normalize).value.1 == whole.value.1
      invariant SubStates(s, stream.rest, normalize).rest == whole.rest
      decreases |stream.rest|
    {
      s := stream.Next();
      if s.subState {
        s := stream.Shift(s);
        var words;
        words, s := ReadUntil(stream, AT_SUBSTATE_END, s);
        Assoc(subStates, [normalize(ValuesOf(words))], SubStates(s, stream.rest, normalize).value.0);
        subStates := subStates + [normalize(ValuesOf(words))];
      }
    }
    assert subStates + [] == subStates;
  }

  /** The words handed to the loading of user data. */
  method ReadUserData(stream: TextStream, s0: Word) returns (handed: seq<Word>)
    requires stream.Valid() && WordsUntil(AT_USER_DATA_END, s0, stream.rest).Got?
    modifies stream
    ensures stream.Valid() && handed == HandedOver(WordsUntil(AT_USER_DATA_END, s0, old(stream.rest)).value)
  {
    handed := [];
    var s := s0;
    ghost var whole := HandedOver(WordsUntil(AT_USER_DATA_END, s0, stream.rest).value);
    while !s.userDataEnd
      invariant stream.Valid() && WordsUntil(AT_USER_DATA_END, s, stream.rest).Got?
      invariant whole == handed + HandedOver(WordsUntil(AT_USER_DATA_END, s, stream.rest).value)
      decreases |stream.rest|
    {
      ghost var was := s;
      s := stream.Next();
      ghost var later := WordsUntil(AT_USER_DATA_END, s, stream.rest).value;
      HandedNext(was, s, later);
      Assoc(handed, [s], HandedOver(later));
      handed := handed + [s];
    }
    assert handed + [] == handed;
  }

  lemma HandedNext(was: Word, s: Word, later: (seq<Word>, Word))
    requires later.0 == [] ==> later.1 == s
    requires later.0 != [] ==> later.0[0] == s
    ensures HandedOver(([was] + later.0, later.1)) == [s] + HandedOver(later)
  {
    assert ([was] + later.0)[1..] == later.0;
  }

  /** `RobotImplSerializer::loadState`: None where it would use a state that is not there. */
  method LoadState(line: Line, normalize: seq<int> -> seq<int>) returns (state: Option<LoadedState>)
    requires !LoadText(Texts(line), normalize).Hangs?
    ensures match LoadText(Texts(line), normalize)
            case NullState => state.None?
            case Loaded(value) => state == Some(value)
  {
    var stream := new TextStream(Texts(line));
    var vector := LoadVector(stream);
    var s := stream.Shift(PLAIN);
    s := stream.Shift(s);
    var subStates := [];
    if s.subStates {
      subStates, s := ReadSubStates(stream, s, normalize);
    }
    var userData: Option<seq<Word>> := None;
    if s.userData {
      var handed := ReadUserData(stream, s);
      userData := Some(handed);
    }
    state := if vector.None? then None else Some(LoadedState(vector.value, subStates, userData));
  }
}
