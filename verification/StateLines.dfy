/** The line of a log that holds the state at a step: how it is written, and how the player loads it. */
module StateLines {
  import opened Basics
  import opened ParticleLog

  /* ---------- Writing ---------- */

  /** A state with what is written after it: its substates, and the words of its user data. */
  datatype FullState = FullState(state: State, subStates: seq<seq<int>>, userData: seq<Word>)

  const NULL := Text(PLAIN.(isNull := true))
  const STATE_PREFIX := Text(PLAIN.(prefix := true))

  function Texts(words: seq<Word>): (items: seq<Item>)
    ensures |items| == |words|
  {
    seq(|words|, i requires 0 <= i < |words| => Text(words[i]))
  }

  function UserDataText(userData: seq<Word>): seq<Item> {
    [USER_DATA_BEGIN] + (Texts(userData) + [USER_DATA_END])
  }

  /** `VectorState::serialize` with the prefix S. */
  function StateText(s: FullState): seq<Item> {
    [STATE_PREFIX]
        + (Printed(s.state) + ([OTHER] + (AllSubStates(s.subStates, |s.state.values|) + UserDataText(s.userData))))
  }

  /* ---------- Loading ---------- */

  /** What is loaded: userData are the words handed to the loading of user data, if it comes to that. */
  datatype LoadedState = LoadedState(state: State, subStates: seq<seq<int>>, userData: Option<seq<Word>>)

  /** Loading may also never end, for want of words, or use a state that is not there. */
  datatype Load = Hangs | NullState | Loaded(value: LoadedState)

  /** `is >> s`, which leaves s as it was when the words have run out. */
  function Shifted(s: Word, text: seq<Item>): (r: (Word, seq<Item>))
    ensures |r.1| <= |text|
  {
    var next := NextWord(text);
    if next.Got? then (next.value, next.rest) else (s, [])
  }

  /** The words from s on up to one at which the loop stops, and that one. */
  function WordsUntil(stop: Word -> bool, s: Word, text: seq<Item>): (r: Read<(seq<Word>, Word)>)
    ensures r.Got? ==> |r.rest| <= |text|
    ensures r.Got? ==> if stop(s) then r.value == ([], s) else r.value.0 != [] && r.value.0[0] == s
    decreases |text|
  {
    if stop(s) then Got(([], s), text)
    else
      var (w, rest) :- NextWord(text);
      var (later, rest) :- WordsUntil(stop, w, rest);
      Got(([s] + later.0, later.1), rest)
  }

  function ValuesOf(words: seq<Word>): (values: seq<int>)
    ensures |values| == |words|
  {
    seq(|words|, i requires 0 <= i < |words| => words[i].value)
  }

  const AT_WEIGHT := (w: Word) => w.weight
  const AT_SUBSTATE_END := (w: Word) => w.subStateEnd
  const AT_USER_DATA_END := (w: Word) => w.userDataEnd

  /** The loop over the substates, and the word that ended it. */
  function SubStates(s: Word, text: seq<Item>, normalize: seq<int> -> seq<int>): (r: Read<(seq<seq<int>>, Word)>)
    ensures r.Got? ==> |r.rest| <= |text|
    decreases |text|
  {
    if s.subStatesEnd then Got(([], s), text)
    else
      var (w, rest) :- NextWord(text);
      if w.subState then
        var (first, rest) := Shifted(w, rest);
        var (words, rest) :- WordsUntil(AT_SUBSTATE_END, first, rest);
        var (later, rest) :- SubStates(words.1, rest, normalize);
        Got(([normalize(ValuesOf(words.0))] + later.0, later.1), rest)
      else SubStates(w, rest, normalize)
  }

  /** `VectorSerializer::loadState`: None for "NULL". */
  function Vector(text: seq<Item>): Read<Option<State>> {
    var (s, rest) := Shifted(PLAIN, text);
    var (s, rest) := if s.prefix then Shifted(s, rest) else (s, rest);
    if s.isNull then Got(None, rest)
    else
      var (words, rest) :- WordsUntil(AT_WEIGHT, s, rest);
      var (w, rest) := Shifted(words.1, rest);
      Got(Some(State(ValuesOf(words.0), w.value)), rest)
  }

  /** `RobotImplSerializer::loadState`. */
  function LoadText(text: seq<Item>, normalize: seq<int> -> seq<int>): Load {
    var vector := Vector(text);
    if vector.Starved? then Hangs
    else
      var (s, rest) := Shifted(PLAIN, vector.rest);
      var (s, rest) := Shifted(s, rest);
      if s.subStates then
        var subStates := SubStates(s, rest, normalize);
        if subStates.Starved? then Hangs
        else WithUserData(vector.value, subStates.value.0, subStates.value.1, subStates.rest)
      else WithUserData(vector.value, [], s, rest)
  }

  function WithUserData(state: Option<State>, subStates: seq<seq<int>>, s: Word, text: seq<Item>): Load {
    var userData := if s.userData then WordsUntil(AT_USER_DATA_END, s, text) else Got(([], s), text);
    if userData.Starved? then Hangs
    else if state.None? then NullState
    else Loaded(LoadedState(state.value, subStates, if s.userData then Some(HandedOver(userData.value)) else None))
  }

  /** The word that the loop begins with is not handed over, but the one that ends it is. */
  function HandedOver(words: (seq<Word>, Word)): seq<Word> {
    if words.0 == [] then [] else words.0[1..] + [words.1]
  }

  /* ---------- The round trip ---------- */

  lemma {:induction false} WordsRead(stop: Word -> bool, s: Word, words: seq<Word>, e: Word, rest: seq<Item>)
    requires !stop(s) && stop(e) && forall i :: 0 <= i < |words| ==> !stop(words[i])
    ensures WordsUntil(stop, s, Texts(words) + ([Text(e)] + rest)) == Got(([s] + words, e), rest)
    decreases |words|
  {
    var text := Texts(words) + ([Text(e)] + rest);
    if words == [] {
      assert text == [Text(e)] + rest;
      WordTaken(Text(e), rest);
    } else {
      assert text == [Text(words[0])] + (Texts(words[1..]) + ([Text(e)] + rest));
      WordTaken(Text(words[0]), Texts(words[1..]) + ([Text(e)] + rest));
      WordsRead(stop, words[0], words[1..], e, rest);
      assert [words[0]] + words[1..] == words;
    }
  }

  /** A loop that reads one word ahead takes all words up to the one that stops it. */
  lemma AheadRead(stop: Word -> bool, s: Word, words: seq<Word>, e: Word, rest: seq<Item>)
    requires stop(e) && forall i :: 0 <= i < |words| ==> !stop(words[i])
    ensures var (first, left) := Shifted(s, Texts(words) + ([Text(e)] + rest));
            && first == (if words == [] then e else words[0])
            && WordsUntil(stop, first, left) == Got((words, e), rest)
  {
    var text := Texts(words) + ([Text(e)] + rest);
    if words == [] {
      assert text == [Text(e)] + rest;
      WordTaken(Text(e), rest);
    } else {
      assert text == [Text(words[0])] + (Texts(words[1..]) + ([Text(e)] + rest));
      WordTaken(Text(words[0]), Texts(words[1..]) + ([Text(e)] + rest));
      WordsRead(stop, words[0], words[1..], e, rest);
      assert [words[0]] + words[1..] == words;
    }
  }

  function NumberWords(values: seq<int>): (words: seq<Word>)
    ensures |words| == |values|
  {
    seq(|values|, i requires 0 <= i < |values| => PLAIN.(value := values[i]))
  }

  lemma NumbersAreWords(values: seq<int>)
    ensures Numbers(values) == Texts(NumberWords(values)) && ValuesOf(NumberWords(values)) == values
  {
  }

  /** The state and its weight are loaded from what was printed. */
  lemma VectorBack(s: State, rest: seq<Item>)
    ensures Vector([STATE_PREFIX] + (Printed(s) + rest)) == Got(Some(s), rest)
  {
    var numbers, behind := Numbers(s.values), [Number(s.weight)] + rest;
    assert Printed(s) + rest == numbers + ([WEIGHT] + behind);
    WordTaken(STATE_PREFIX, Printed(s) + rest);
    NumbersAreWords(s.values);
    AheadRead(AT_WEIGHT, STATE_PREFIX.word, NumberWords(s.values), WEIGHT.word, behind);
    WordTaken(Number(s.weight), rest);
  }

  /** So they are without the prefix. */
  lemma WithoutPrefix(s: State, rest: seq<Item>)
    ensures Vector(Printed(s) + rest) == Got(Some(s), rest)
  {
    var numbers, behind := Numbers(s.values), [Number(s.weight)] + rest;
    assert Printed(s) + rest == numbers + ([WEIGHT] + behind);
    NumbersAreWords(s.values);
    AheadRead(AT_WEIGHT, PLAIN, NumberWords(s.values), WEIGHT.word, behind);
    WordTaken(Number(s.weight), rest);
  }

  /** "NULL", with the prefix or without it, gives no state, and that is used unless the loading never ends. */
  lemma NullIsUsed(prefix: bool, rest: seq<Item>, normalize: seq<int> -> seq<int>)
    ensures var text := (if prefix then [STATE_PREFIX] else []) + ([NULL] + rest);
            && Vector(text) == Got(None, rest)
            && !LoadText(text, normalize).Loaded?
            && (rest == [] ==> LoadText(text, normalize).NullState?)
  {
    var text := (if prefix then [STATE_PREFIX] else []) + ([NULL] + rest);
    if prefix {
      WordTaken(STATE_PREFIX, [NULL] + rest);
    } else {
      assert text == [NULL] + rest;
    }
    WordTaken(NULL, rest);
  }

  /** The substates as they come back: cut on writing, and normalized on loading. */
  function Back(subStates: seq<seq<int>>, stateSize: nat, normalize: seq<int> -> seq<int>): (r: seq<seq<int>>)
    ensures |r| == |subStates|
  {
    seq(|subStates|, i requires 0 <= i < |subStates| => normalize(Kept(subStates[i], stateSize)))
  }

  lemma {:induction false} SubStatesBack(s: Word, subStates: seq<seq<int>>, stateSize: nat, rest: seq<Item>,
                                         normalize: seq<int> -> seq<int>)
    requires !s.subStatesEnd
    ensures SubStates(s, SubStateText(subStates, stateSize) + ([SUBSTATES_END] + rest), normalize)
         == Got((Back(subStates, stateSize, normalize), SUBSTATES_END.word), rest)
    decreases |subStates|
  {
    if subStates == [] {
      assert [] + ([SUBSTATES_END] + rest) == [SUBSTATES_END] + rest;
      WordTaken(SUBSTATES_END, rest);
    } else {
      var kept := Kept(subStates[0], stateSize);
      var behind := SubStateText(subStates[1..], stateSize) + ([SUBSTATES_END] + rest);
      SubStateShape(Numbers(kept), SubStateText(subStates[1..], stateSize), [SUBSTATES_END] + rest);
      WordTaken(SS_BEGIN, Numbers(kept) + ([SS_END] + behind));
      NumbersAreWords(kept);
      AheadRead(AT_SUBSTATE_END, SS_BEGIN.word, NumberWords(kept), SS_END.word, behind);
      SubStatesBack(SS_END.word, subStates[1..], stateSize, rest, normalize);
      assert Back(subStates, stateSize, normalize) == [normalize(kept)] + Back(subStates[1..], stateSize, normalize);
    }
  }

  lemma SubStateShape(numbers: seq<Item>, later: seq<Item>, rest: seq<Item>)
    ensures [SS_BEGIN] + (numbers + ([SS_END] + later)) + rest == [SS_BEGIN] + (numbers + ([SS_END] + (later + rest)))
  {
  }

  /** The words up to the first one with "USER_DATA_END". */
  function UpToEnd(words: seq<Word>): seq<Word> {
    if words == [] then [] else [words[0]] + if words[0].userDataEnd then [] else UpToEnd(words[1..])
  }

  lemma {:induction false} UserDataBack(s: Word, words: seq<Word>, e: Word)
    requires !s.userDataEnd && e.userDataEnd
    ensures var r := WordsUntil(AT_USER_DATA_END, s, Texts(words + [e]));
            && r.Got? && r.value.0 != [] && HandedOver(r.value) == UpToEnd(words + [e])
    decreases |words|
  {
    var all := words + [e];
    assert Texts(all) == [Text(all[0])] + Texts(all[1..]);
    WordTaken(Text(all[0]), Texts(all[1..]));
    if words == [] || words[0].userDataEnd {
    } else {
      UserDataBack(words[0], words[1..], e);
      assert all[1..] == words[1..] + [e];
      var r := WordsUntil(AT_USER_DATA_END, words[0], Texts(all[1..]));
      assert r.value.0[0] == words[0];
      assert ([s] + r.value.0)[1..] == [words[0]] + r.value.0[1..];
    }
  }

  lemma RestShape(subStates: seq<seq<int>>, stateSize: nat, userData: seq<Item>)
    requires subStates != []
    ensures AllSubStates(subStates, stateSize) + userData
         == [SUBSTATES_BEGIN] + (SubStateText(subStates, stateSize) + ([SUBSTATES_END] + userData))
  {
  }

  /** After the state itself. */
  lemma RestBack(s: FullState, normalize: seq<int> -> seq<int>)
    ensures var (w, rest) := Shifted(OTHER.word,
            AllSubStates(s.subStates, |s.state.values|) + UserDataText(s.userData));
            if s.subStates == [] then
              w == USER_DATA_BEGIN.word && rest == Texts(s.userData + [USER_DATA_END.word])
            else
              && w == SUBSTATES_BEGIN.word
              && SubStates(w, rest, normalize)
                 == Got((Back(s.subStates, |s.state.values|, normalize), SUBSTATES_END.word),
                                                      UserDataText(s.userData))
  {
    var n := |s.state.values|;
    if s.subStates == [] {
      assert [] + UserDataText(s.userData) == UserDataText(s.userData);
      WordTaken(USER_DATA_BEGIN, Texts(s.userData) + [USER_DATA_END]);
      assert Texts(s.userData + [USER_DATA_END.word]) == Texts(s.userData) + [USER_DATA_END];
    } else {
      var behind := UserDataText(s.userData);
      RestShape(s.subStates, n, behind);
      WordTaken(SUBSTATES_BEGIN, SubStateText(s.subStates, n) + ([SUBSTATES_END] + behind));
      SubStatesBack(SUBSTATES_BEGIN.word, s.subStates, n, behind, normalize);
    }
  }

  /** What comes back of a state that was written: its values and its weight do; its substates come back cut
      and normalized; and its user data are looked for only if it has no substates, up to the first
      "USER_DATA_END". */
  function Returning(s: FullState, normalize: seq<int> -> seq<int>): LoadedState {
    LoadedState(s.state, Back(s.subStates, |s.state.values|, normalize),
                if s.subStates == [] then Some(UpToEnd(s.userData + [USER_DATA_END.word])) else None)
  }

  lemma StateBack(s: FullState, normalize: seq<int> -> seq<int>)
    ensures LoadText(StateText(s), normalize) == Loaded(Returning(s, normalize))
  {
    var rest := AllSubStates(s.subStates, |s.state.values|) + UserDataText(s.userData);
    VectorBack(s.state, [OTHER] + rest);
    WordTaken(OTHER, rest);
    RestBack(s, normalize);
    UserDataBack(USER_DATA_BEGIN.word, s.userData, USER_DATA_END.word);
  }

  lemma {:induction false} UpToEndExactly(words: seq<Word>, e: Word)
    requires e.userDataEnd
    ensures UpToEnd(words + [e]) == words + [e] <==> forall i :: 0 <= i < |words| ==> !words[i].userDataEnd
  {
    if words == [] {
    } else {
      assert (words + [e])[1..] == words[1..] + [e];
      UpToEndExactly(words[1..], e);
      assert words == [words[0]] + words[1..];
      if !words[0].userDataEnd && UpToEnd(words + [e]) == words + [e] {
        assert UpToEnd(words[1..] + [e]) == UpToEnd(words + [e])[1..] == words[1..] + [e];
      }
      assert (forall i :: 0 <= i < |words| ==> !words[i].userDataEnd) <==>
             !words[0].userDataEnd && forall i :: 0 <= i < |words[1..]| ==> !words[1..][i].userDataEnd by {
        assert forall i :: 0 < i < |words| ==> words[i] == words[1..][i - 1];
      }
    }
  }

  /** A state is loaded as it was written if and only if it has no substates and the text that ends
      its user data is not among them. */
  lemma StateRoundTrip(s: FullState, normalize: seq<int> -> seq<int>)
    ensures LoadText(StateText(s), normalize)
            == Loaded(LoadedState(s.state, s.subStates, Some(s.userData + [USER_DATA_END.word])))
            <==> s.subStates == [] && forall i :: 0 <= i < |s.userData| ==> !s.userData[i].userDataEnd
  {
    StateBack(s, normalize);
    UpToEndExactly(s.userData, USER_DATA_END.word);
  }

  /** What comes back of a substate are its first entries: all of them if it is shorter than the state, or the
      state is empty, and else one less than the state has. */
  lemma CutAtTheEnd(subStates: seq<seq<int>>, stateSize: nat, normalize: seq<int> -> seq<int>, i: nat)
      returns (n: nat)
    requires i < |subStates|
    ensures n <= |subStates[i]| && Back(subStates, stateSize, normalize)[i] == normalize(subStates[i][..n])
    ensures if stateSize == 0 || |subStates[i]| < stateSize then n == |subStates[i]| else n == stateSize - 1
  {
    n := |Kept(subStates[i], stateSize)|;
    assert Kept(subStates[i], stateSize) == subStates[i][..n];
  }

  /** A state space that is not normalized. */
  const AS_IT_IS := (values: seq<int>) => values

  /** There a substate comes back whole if and only if it is shorter than the state, or the state is
      empty. */
  lemma SubStateRoundTrip(subStates: seq<seq<int>>, stateSize: nat)
    ensures Back(subStates, stateSize, AS_IT_IS) == subStates
            <==> forall i :: 0 <= i < |subStates| ==> stateSize == 0 || |subStates[i]| < stateSize
  {
    var back := Back(subStates, stateSize, AS_IT_IS);
    if i :| 0 <= i < |subStates| && stateSize > 0 && |subStates[i]| >= stateSize {
      assert |back[i]| < |subStates[i]|;
    }
  }

  /* ---------- As a line ---------- */

  predicate AllText(items: seq<Item>) {
    forall i :: 0 <= i < |items| ==> items[i].Text?
  }

  lemma {:induction false} SubStatesAreText(subStates: seq<seq<int>>, stateSize: nat)
    ensures AllText(SubStateText(subStates, stateSize))
  {
    if subStates == [] {
    } else {
      SubStatesAreText(subStates[1..], stateSize);
    }
  }

  /** The words of the line. */
  function StateLine(s: FullState): (line: seq<Word>)
    ensures Texts(line) == StateText(s)
  {
    SubStatesAreText(s.subStates, |s.state.values|);
    var text := StateText(s);
    assert AllText(text);
    seq(|text|, i requires 0 <= i < |text| && AllText(text) => text[i].word)
  }
}
