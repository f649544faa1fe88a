/** A log as the simulator writes it, and what the player reads from it. */
module Logs {
  import opened Basics
  import opened ParticleLog
  import opened StateLines
  import opened TextStreams
  import opened LogReader
  import Playback

  datatype Chunk = Other(line: Line) | Belief(particles: seq<Particle>)

  datatype Step = Step(marker: Line, state: FullState, chunks: seq<Chunk>)

  function LineText(line: Line): seq<Item> {
    Texts(line) + [NewLine]
  }

  const BEGIN := [PLAIN.(begin := true, particles := true), PLAIN]

  /** "PARTICLES BEGIN", the particles, "PARTICLES END". */
  function ChunkText(chunk: Chunk): seq<Item> {
    if chunk.Other? then LineText(chunk.line)
    else LineText(BEGIN) + (Written(chunk.particles) + [PARTICLES] + [OTHER, NewLine])
  }

  function ChunksText(chunks: seq<Chunk>): seq<Item> {
    if chunks == [] then [] else ChunkText(chunks[0]) + ChunksText(chunks[1..])
  }

  function StepsText(steps: seq<Step>): seq<Item> {
    if steps == [] then []
    else StepText(steps[0]) + StepsText(steps[1..])
  }

  function StepText(step: Step): seq<Item> {
    LineText(step.marker) + (LineText(StateLine(step.state)) + ChunksText(step.chunks))
  }

  predicate Unmarked(line: Line) {
    !HasStep(line) && !HasFinal(line) && !HasBegin(line)
  }

  /** Only the markers mark a step, and every belief can be read back. */
  predicate ReadableChunk(chunk: Chunk) {
    if chunk.Other? then Unmarked(chunk.line)
    else forall i :: 0 <= i < |chunk.particles| ==> Readable(chunk.particles[i])
  }

  /** A belief that has fewer particles than the player wants. */
  predicate TooSmall(chunk: Chunk, player: Player) {
    chunk.Belief? && |chunk.particles| < player.particleSize
  }

  predicate GoodChunk(chunk: Chunk, player: Player) {
    ReadableChunk(chunk) && !TooSmall(chunk, player)
  }

  predicate GoodChunks(chunks: seq<Chunk>, player: Player) {
    forall i :: 0 <= i < |chunks| ==> GoodChunk(chunks[i], player)
  }

  predicate GoodStep(step: Step, player: Player) {
    (HasStep(step.marker) || HasFinal(step.marker)) && GoodChunks(step.chunks, player)
  }

  predicate GoodSteps(steps: seq<Step>, player: Player) {
    forall i :: 0 <= i < |steps| ==> GoodStep(steps[i], player)
  }

  predicate GoodLog(preamble: seq<Line>, steps: seq<Step>, player: Player) {
    (forall i :: 0 <= i < |preamble| ==> Unmarked(preamble[i])) && GoodSteps(steps, player)
  }

  /** The entries with the last one holding the last belief among the chunks, if there is one. */
  function WithChunks(entries: seq<Entry>, chunks: seq<Chunk>): (r: seq<Entry>)
    requires entries != []
    ensures |r| == |entries|
    decreases |chunks|
  {
    if chunks == [] then entries
    else
      WithChunks(WithChunk(entries, chunks[0]), chunks[1..])
  }

  function WithChunk(entries: seq<Entry>, chunk: Chunk): (r: seq<Entry>)
    requires entries != []
    ensures |r| == |entries|
  {
    if chunk.Other? then entries else WithBlock(entries, AllMeant(chunk.particles))
  }

  function LastBelief(chunks: seq<Chunk>): Option<seq<Component>> {
    if chunks == [] then None
    else if chunks[|chunks| - 1].Belief? then Some(AllMeant(chunks[|chunks| - 1].particles))
    else LastBelief(chunks[..|chunks| - 1])
  }

  function EntryOf(step: Step, player: Player): Entry {
    Entry(Returning(step.state, player.normalize), LastBelief(step.chunks))
  }

  function EntriesOf(steps: seq<Step>, player: Player): (r: seq<Entry>)
    ensures |r| == |steps|
  {
    seq(|steps|, i requires 0 <= i < |steps| => EntryOf(steps[i], player))
  }

  lemma {:induction false} LineBack(line: Line, text: seq<Item>)
    ensures LineOf(LineText(line) + text) == line && AfterLine(LineText(line) + text) == text
            && Ended(LineText(line) + text)
  {
    var all := LineText(line) + text;
    if line == [] {
      assert all == [NewLine] + text;
      assert all[1..] == text;
    } else {
      LineBack(line[1..], text);
      assert all[1..] == LineText(line[1..]) + text;
    }
  }

  /** The text goes on with an unmarked line. */
  lemma PassLine(line: Line, text: seq<Item>, s: Line, entries: seq<Entry>, player: Player)
    requires Unmarked(line)
    ensures NextLine(Source(LineText(line) + text, false), s, entries, player)
         == NextLine(Source(text, false), line, entries, player)
  {
    LineBack(line, text);
  }

  /** What the string held before does not matter while there is text. */
  lemma AnyString(text: seq<Item>, s: Line, s': Line, entries: seq<Entry>, player: Player)
    ensures NextLine(Source(text, false), s, entries, player)
            == NextLine(Source(text, false), s', entries, player)
  {
  }

  lemma BeginMarks()
    ensures HasBegin(BEGIN) && !HasStep(BEGIN) && !HasFinal(BEGIN)
  {
    assert BEGIN[0].begin;
  }

  /** A line with "PARTICLES BEGIN", and a block after it, which may be too small. */
  lemma PassBlock(text: seq<Item>, after: seq<Item>, block: seq<Component>, s: Line, entries: seq<Entry>,
      player: Player)
    requires entries != [] && after != []
    requires Block(text) == Got(block, after)
    ensures NextLine(Source(LineText(BEGIN) + text, false), s, entries, player)
         == if player.particleSize > |block| then TooFew
            else NextLine(Source(after, false), BEGIN, WithBlock(entries, block), player)
  {
    LineBack(BEGIN, text);
    BeginMarks();
  }

  lemma PassBelief(particles: seq<Particle>, text: seq<Item>, s: Line, entries: seq<Entry>, player: Player)
    requires entries != [] && GoodChunk(Belief(particles), player)
    ensures NextLine(Source(ChunkText(Belief(particles)) + text, false), s, entries, player)
         == NextLine(Source(text, false), s, WithBlock(entries, AllMeant(particles)), player)
  {
    var after := [OTHER, NewLine] + text;
    var entries' := WithBlock(entries, AllMeant(particles));
    BeliefShape(particles, text);
    RoundTripExactly(particles, after);
    PassBlock(Written(particles) + [PARTICLES] + after, after, AllMeant(particles), s, entries, player);
    BlockEnd(text, s, entries', player);
  }

  /** The rest of the line with "PARTICLES END". */
  lemma BlockEnd(text: seq<Item>, s: Line, entries: seq<Entry>, player: Player)
    ensures NextLine(Source([OTHER, NewLine] + text, false), BEGIN, entries, player)
         == NextLine(Source(text, false), s, entries, player)
  {
    assert [OTHER, NewLine] + text == LineText([PLAIN]) + text;
    PassLine([PLAIN], text, BEGIN, entries, player);
    AnyString(text, [PLAIN], s, entries, player);
  }

  lemma BeliefShape(particles: seq<Particle>, text: seq<Item>)
    ensures ChunkText(Belief(particles)) + text
         == LineText(BEGIN) + (Written(particles) + [PARTICLES] + ([OTHER, NewLine] + text))
  {
    Assoc(Written(particles) + [PARTICLES], [OTHER, NewLine], text);
    Assoc(LineText(BEGIN), Written(particles) + [PARTICLES] + [OTHER, NewLine], text);
  }

  lemma {:induction false} PassChunks(chunks: seq<Chunk>, text: seq<Item>, s: Line, entries: seq<Entry>,
      player: Player)
    requires entries != [] && GoodChunks(chunks, player)
    ensures NextLine(Source(ChunksText(chunks) + text, false), s, entries, player)
         == NextLine(Source(text, false), s, WithChunks(entries, chunks), player)
  {
    if chunks == [] {
      assert [] + text == text;
    } else {
      PassFirst(chunks, text, s, entries, player);
      PassChunks(chunks[1..], text, s, WithChunk(entries, chunks[0]), player);
    }
  }

  lemma PassFirst(chunks: seq<Chunk>, text: seq<Item>, s: Line, entries: seq<Entry>, player: Player)
    requires entries != [] && chunks != [] && GoodChunk(chunks[0], player)
    ensures NextLine(Source(ChunksText(chunks) + text, false), s, entries, player)
         == NextLine(Source(ChunksText(chunks[1..]) + text, false), s, WithChunk(entries, chunks[0]), player)
  {
    Assoc(ChunkText(chunks[0]), ChunksText(chunks[1..]), text);
    PassChunk(chunks[0], ChunksText(chunks[1..]) + text, s, entries, player);
  }

  lemma PassChunk(chunk: Chunk, text: seq<Item>, s: Line, entries: seq<Entry>, player: Player)
    requires entries != [] && GoodChunk(chunk, player)
    ensures NextLine(Source(ChunkText(chunk) + text, false), s, entries, player)
         == NextLine(Source(text, false), s, WithChunk(entries, chunk), player)
  {
    if chunk.Other? {
      PassLine(chunk.line, text, s, entries, player);
      AnyString(text, chunk.line, s, entries, player);
    } else {
      PassBelief(chunk.particles, text, s, entries, player);
    }
  }

  lemma {:induction false} ChunksLast(entries: seq<Entry>, chunks: seq<Chunk>)
    requires entries != []
    ensures WithChunks(entries, chunks)
         == if LastBelief(chunks).Some? then WithBlock(entries, LastBelief(chunks).value) else entries
    decreases |chunks|
  {
    if chunks == [] {
    } else {
      ChunksLast(entries, chunks[..|chunks| - 1]);
      ChunksSplit(entries, chunks);
    }
  }

  lemma {:induction false} ChunksSplit(entries: seq<Entry>, chunks: seq<Chunk>)
    requires entries != [] && chunks != []
    ensures WithChunks(entries, chunks)
            == WithChunks(WithChunks(entries, chunks[..|chunks| - 1]), [chunks[|chunks| - 1]])
    decreases |chunks|
  {
    var most := chunks[..|chunks| - 1];
    if |chunks| > 1 {
      ChunksSplit(WithChunk(entries, chunks[0]), chunks[1..]);
      assert chunks[1..][..|chunks| - 2] == most[1..];
    }
  }

  predicate Closed(text: seq<Item>) {
    text == [] || Ended(text)
  }

  lemma AtEnd(s: Line, entries: seq<Entry>, player: Player)
    ensures NextLine(Source([], false), s, entries, player) == Parsed(entries)
  {
    assert GetLine(Source([], false), s) == ([], Source([], true));
    assert Lines(Source([], true), [], entries, player) == NextLine(Source([], true), [], entries, player);
  }

  /** A marker, and whatever line follows it. */
  lemma MarkerTaken(marker: Line, line: Line, text: seq<Item>, s: Line, entries: seq<Entry>, player: Player)
    requires HasStep(marker) || HasFinal(marker)
    ensures NextLine(Source(LineText(marker) + (LineText(line) + text), false), s, entries, player)
         == AtMarker(LoadText(Texts(line), player.normalize), Source(text, false), line, entries, player)
  {
    LineBack(marker, LineText(line) + text);
    LineBack(line, text);
  }

  lemma StateTaken(state: LoadedState, line: Line, text: seq<Item>, entries: seq<Entry>, player: Player)
    requires Closed(text)
    ensures AtMarker(Loaded(state), Source(text, false), line, entries, player)
         == NextLine(Source(text, false), line, entries + [Entry(state, None)], player)
  {
    if text == [] {
      AtEnd(line, entries + [Entry(state, None)], player);
    }
  }

  lemma PassMarker(step: Step, text: seq<Item>, s: Line, entries: seq<Entry>, player: Player)
    requires HasStep(step.marker) || HasFinal(step.marker)
    requires Closed(text)
    ensures NextLine(Source(LineText(step.marker) + (LineText(StateLine(step.state)) + text), false), s, entries,
            player)
         == NextLine(Source(text, false), s, entries + [Entry(Returning(step.state, player.normalize), None)], player)
  {
    var line, state := StateLine(step.state), Returning(step.state, player.normalize);
    MarkerTaken(step.marker, line, text, s, entries, player);
    StateBack(step.state, player.normalize);
    StateTaken(state, line, text, entries, player);
    AnyString(text, line, s, entries + [Entry(state, None)], player);
  }

  lemma {:induction false} EndedAppend(a: seq<Item>, b: seq<Item>)
    ensures Ended(a) || Ended(b) ==> Ended(a + b)
  {
    if a == [] {
      assert a + b == b;
    } else {
      EndedAppend(a[1..], b);
      assert (a + b)[1..] == a[1..] + b;
    }
  }

  lemma {:induction false} ChunksClosed(chunks: seq<Chunk>, text: seq<Item>)
    requires Closed(text)
    ensures Closed(ChunksText(chunks) + text)
  {
    if chunks == [] {
      assert [] + text == text;
    } else {
      var chunk, line := chunks[0], if chunks[0].Other? then chunks[0].line else BEGIN;
      LineBack(line, []);
      assert LineText(line) + [] == LineText(line);
      EndedAppend(LineText(line),
                  if chunk.Other? then [] else Written(chunk.particles) + [PARTICLES] + [OTHER, NewLine]);
      EndedAppend(ChunkText(chunk), ChunksText(chunks[1..]));
      EndedAppend(ChunksText(chunks), text);
    }
  }

  lemma StepShape(step: Step, text: seq<Item>)
    ensures StepText(step) + text
         == LineText(step.marker) + (LineText(StateLine(step.state)) + (ChunksText(step.chunks) + text))
  {
    Assoc(LineText(StateLine(step.state)), ChunksText(step.chunks), text);
    Assoc(LineText(step.marker), LineText(StateLine(step.state)) + ChunksText(step.chunks), text);
  }

  lemma {:induction false} StepsClosed(steps: seq<Step>, text: seq<Item>)
    requires Closed(text)
    ensures Closed(StepsText(steps) + text)
  {
    if steps == [] {
      assert [] + text == text;
    } else {
      Assoc(StepText(steps[0]), StepsText(steps[1..]), text);
      StepShape(steps[0], StepsText(steps[1..]) + text);
      LineBack(steps[0].marker,
               LineText(StateLine(steps[0].state)) + (ChunksText(steps[0].chunks) + (StepsText(steps[1..]) + text)));
    }
  }

  lemma {:induction false} PassSteps(steps: seq<Step>, text: seq<Item>, s: Line, entries: seq<Entry>, player: Player)
    requires GoodSteps(steps, player) && Closed(text)
    ensures NextLine(Source(StepsText(steps) + text, false), s, entries, player)
         == NextLine(Source(text, false), s, entries + EntriesOf(steps, player), player)
  {
    if steps == [] {
      assert [] + text == text && entries + [] == entries;
    } else {
      var behind := StepsText(steps[1..]) + text;
      Assoc(StepText(steps[0]), StepsText(steps[1..]), text);
      StepsClosed(steps[1..], text);
      PassStep(steps[0], behind, s, entries, player);
      PassSteps(steps[1..], text, s, entries + [EntryOf(steps[0], player)], player);
      EntriesFirst(entries, steps, player);
    }
  }

  lemma EntriesFirst(entries: seq<Entry>, steps: seq<Step>, player: Player)
    requires steps != []
    ensures entries + EntriesOf(steps, player)
         == entries + [EntryOf(steps[0], player)] + EntriesOf(steps[1..], player)
  {
    assert EntriesOf(steps, player) == [EntryOf(steps[0], player)] + EntriesOf(steps[1..], player);
    Assoc(entries, [EntryOf(steps[0], player)], EntriesOf(steps[1..], player));
  }

  lemma PassStep(step: Step, text: seq<Item>, s: Line, entries: seq<Entry>, player: Player)
    requires GoodStep(step, player) && Closed(text)
    ensures NextLine(Source(StepText(step) + text, false), s, entries, player)
         == NextLine(Source(text, false), s, entries + [EntryOf(step, player)], player)
  {
    var entries' := entries + [Entry(Returning(step.state, player.normalize), None)];
    StepShape(step, text);
    ChunksClosed(step.chunks, text);
    PassMarker(step, ChunksText(step.chunks) + text, s, entries, player);
    PassChunks(step.chunks, text, s, entries', player);
    StepEntry(step, entries, player);
  }

  lemma StepEntry(step: Step, entries: seq<Entry>, player: Player)
    ensures WithChunks(entries + [Entry(Returning(step.state, player.normalize), None)], step.chunks)
         == entries + [EntryOf(step, player)]
  {
    ChunksLast(entries + [Entry(Returning(step.state, player.normalize), None)], step.chunks);
  }

  /** A log with any unmarked lines in front and good steps is read as one slice a step, in order,
      each with what comes back of its state and the particles of its own last belief. */
  lemma WholeLog(preamble: seq<Line>, steps: seq<Step>, player: Player)
    requires GoodLog(preamble, steps, player)
    ensures Lines(Source(LinesText(preamble) + StepsText(steps), false), [], [], player)
            == Parsed(EntriesOf(steps, player))
  {
    PassPreamble(preamble, StepsText(steps), [], player);
    assert StepsText(steps) + [] == StepsText(steps);
    PassSteps(steps, [], [], [], player);
    AtEnd([], [] + EntriesOf(steps, player), player);
    assert [] + EntriesOf(steps, player) == EntriesOf(steps, player);
  }

  /** What the player makes of the next marker and the line behind it, after such a log. */
  lemma NextStep(preamble: seq<Line>, steps: seq<Step>, marker: Line, line: Line, text: seq<Item>, player: Player)
    requires GoodLog(preamble, steps, player) && (HasStep(marker) || HasFinal(marker))
    ensures Lines(Source(LinesText(preamble)
                         + (StepsText(steps) + (LineText(marker) + (LineText(line) + text))), false),
                  [], [], player)
         == AtMarker(LoadText(Texts(line), player.normalize), Source(text, false), line,
                     EntriesOf(steps, player), player)
  {
    var rest := LineText(marker) + (LineText(line) + text);
    LineBack(marker, LineText(line) + text);
    PassPreamble(preamble, StepsText(steps) + rest, [], player);
    PassSteps(steps, rest, [], [], player);
    assert [] + EntriesOf(steps, player) == EntriesOf(steps, player);
    MarkerTaken(marker, line, text, [], EntriesOf(steps, player), player);
  }

  /** If the log comes to a step that has no state, and so an empty line in its place, the player
      never gets through it. */
  lemma StepWithoutState(preamble: seq<Line>, steps: seq<Step>, marker: Line, text: seq<Item>, player: Player)
    requires GoodLog(preamble, steps, player) && (HasStep(marker) || HasFinal(marker))
    ensures Lines(Source(LinesText(preamble)
                         + (StepsText(steps) + (LineText(marker) + (LineText([]) + text))), false),
                  [], [], player).Starves?
  {
    NextStep(preamble, steps, marker, [], text, player);
    assert LoadText(Texts([]), player.normalize).Hangs?;
  }

  /** If it comes to a step whose state is "NULL", the player uses a state that is not there. */
  lemma StepWithNull(preamble: seq<Line>, steps: seq<Step>, marker: Line, prefix: bool, text: seq<Item>, player: Player)
    requires GoodLog(preamble, steps, player) && (HasStep(marker) || HasFinal(marker))
    ensures Lines(Source(LinesText(preamble)
                         + (StepsText(steps) + (LineText(marker) + (LineText(NullLine(prefix)) + text))), false),
                  [], [], player).NoState?
  {
    NextStep(preamble, steps, marker, NullLine(prefix), text, player);
    NullLoads(prefix, player.normalize);
  }

  function NullLine(prefix: bool): Line {
    (if prefix then [STATE_PREFIX.word] else []) + [NULL.word]
  }

  lemma NullLoads(prefix: bool, normalize: seq<int> -> seq<int>)
    ensures LoadText(Texts(NullLine(prefix)), normalize).NullState?
  {
    NullIsUsed(prefix, [], normalize);
    assert Texts(NullLine(prefix)) == (if prefix then [STATE_PREFIX] else []) + ([NULL] + []);
  }

  /* ---------- Beliefs that are too small ---------- */

  predicate ReadableChunks(chunks: seq<Chunk>) {
    forall i :: 0 <= i < |chunks| ==> ReadableChunk(chunks[i])
  }

  predicate ReadableStep(step: Step) {
    (HasStep(step.marker) || HasFinal(step.marker)) && ReadableChunks(step.chunks)
  }

  predicate ReadableSteps(steps: seq<Step>) {
    forall i :: 0 <= i < |steps| ==> ReadableStep(steps[i])
  }

  ghost predicate HasTooSmall(steps: seq<Step>, player: Player) {
    exists i, j :: 0 <= i < |steps| && 0 <= j < |steps[i].chunks| && TooSmall(steps[i].chunks[j], player)
  }

  lemma FewBlock(chunk: Chunk, text: seq<Item>, s: Line, entries: seq<Entry>, player: Player)
    requires entries != [] && ReadableChunk(chunk) && TooSmall(chunk, player)
    ensures NextLine(Source(ChunkText(chunk) + text, false), s, entries, player).TooFew?
  {
    var particles, after := chunk.particles, [OTHER, NewLine] + text;
    BeliefShape(particles, text);
    RoundTripExactly(particles, after);
    PassBlock(Written(particles) + [PARTICLES] + after, after, AllMeant(particles), s, entries, player);
  }

  lemma {:induction false} FewChunks(chunks: seq<Chunk>, j: nat, text: seq<Item>, s: Line, entries: seq<Entry>,
                                     player: Player)
    requires entries != [] && ReadableChunks(chunks)
    requires j < |chunks| && TooSmall(chunks[j], player)
    ensures NextLine(Source(ChunksText(chunks) + text, false), s, entries, player).TooFew?
  {
    if TooSmall(chunks[0], player) {
      Assoc(ChunkText(chunks[0]), ChunksText(chunks[1..]), text);
      FewBlock(chunks[0], ChunksText(chunks[1..]) + text, s, entries, player);
    } else {
      assert chunks[1..][j - 1] == chunks[j];
      PassFirst(chunks, text, s, entries, player);
      FewChunks(chunks[1..], j - 1, text, s, WithChunk(entries, chunks[0]), player);
    }
  }

  lemma FewStep(step: Step, j: nat, text: seq<Item>, s: Line, entries: seq<Entry>, player: Player)
    requires ReadableStep(step) && Closed(text)
    requires j < |step.chunks| && TooSmall(step.chunks[j], player)
    ensures NextLine(Source(StepText(step) + text, false), s, entries, player).TooFew?
  {
    StepShape(step, text);
    ChunksClosed(step.chunks, text);
    PassMarker(step, ChunksText(step.chunks) + text, s, entries, player);
    FewChunks(step.chunks, j, text, s, entries + [Entry(Returning(step.state, player.normalize), None)], player);
  }

  lemma {:induction false} FewSteps(steps: seq<Step>, i: nat, j: nat, s: Line, entries: seq<Entry>, player: Player)
    requires ReadableSteps(steps)
    requires i < |steps| && j < |steps[i].chunks| && TooSmall(steps[i].chunks[j], player)
    ensures NextLine(Source(StepsText(steps), false), s, entries, player).TooFew?
  {
    var first, later := steps[0], steps[1..];
    StepsClosedToEnd(later);
    if k :| 0 <= k < |first.chunks| && TooSmall(first.chunks[k], player) {
      FewStep(first, k, StepsText(later), s, entries, player);
    } else {
      assert later[i - 1] == steps[i];
      PassStep(first, StepsText(later), s, entries, player);
      FewSteps(later, i - 1, j, s, entries + [EntryOf(first, player)], player);
    }
  }

  lemma StepsClosedToEnd(steps: seq<Step>)
    ensures Closed(StepsText(steps))
  {
    StepsClosed(steps, []);
    assert StepsText(steps) + [] == StepsText(steps);
  }

  /** Of a log whose beliefs can be read back, whatever their size: the player reads outside of a vector exactly
      if one of them has fewer particles than it wants, and otherwise gets one slice a step. */
  lemma TooFewExactly(preamble: seq<Line>, steps: seq<Step>, player: Player)
    requires (forall i :: 0 <= i < |preamble| ==> Unmarked(preamble[i])) && ReadableSteps(steps)
    ensures var outcome := Lines(Source(LinesText(preamble) + StepsText(steps), false), [], [], player);
            if HasTooSmall(steps, player) then outcome.TooFew? else outcome == Parsed(EntriesOf(steps, player))
  {
    if HasTooSmall(steps, player) {
      var i, j :| 0 <= i < |steps| && 0 <= j < |steps[i].chunks| && TooSmall(steps[i].chunks[j], player);
      PassPreamble(preamble, StepsText(steps), [], player);
      FewSteps(steps, i, j, [], [], player);
    } else {
      forall i | 0 <= i < |steps|
        ensures GoodStep(steps[i], player)
      {
        assert ReadableStep(steps[i]);
      }
      WholeLog(preamble, steps, player);
    }
  }

  /** A belief in front of the first step is put outside of a vector, too. */
  lemma BeliefFirst(preamble: seq<Line>, particles: seq<Particle>, text: seq<Item>, player: Player)
    requires forall i :: 0 <= i < |preamble| ==> Unmarked(preamble[i])
    ensures Lines(Source(LinesText(preamble) + (ChunkText(Belief(particles)) + text), false),
                  [], [], player).BlockFirst?
  {
    PassPreamble(preamble, ChunkText(Belief(particles)) + text, [], player);
    BeliefShape(particles, text);
    LineBack(BEGIN, Written(particles) + [PARTICLES] + ([OTHER, NewLine] + text));
    BeginMarks();
  }

  function LinesText(lines: seq<Line>): seq<Item> {
    if lines == [] then [] else LineText(lines[0]) + LinesText(lines[1..])
  }

  lemma {:induction false} PassPreamble(lines: seq<Line>, text: seq<Item>, s: Line, player: Player)
    requires forall i :: 0 <= i < |lines| ==> Unmarked(lines[i])
    ensures NextLine(Source(LinesText(lines) + text, false), s, [], player)
         == NextLine(Source(text, false), s, [], player)
  {
    if lines == [] {
      assert [] + text == text;
    } else {
      var behind := LinesText(lines[1..]) + text;
      Assoc(LineText(lines[0]), LinesText(lines[1..]), text);
      PassLine(lines[0], behind, s, [], player);
      AnyString(behind, lines[0], s, [], player);
      PassPreamble(lines[1..], text, s, player);
    }
  }

  /* ---------- From the log to the frames ---------- */

  /** What a slice should be for a step. */
  ghost predicate SliceFor(slice: TimeSlice, step: Step, player: Player) {
    && slice.state == Returning(step.state, player.normalize)
    && match LastBelief(step.chunks) {
         case None => slice.components == []
         case Some(block) => Selected(slice.components, block, player.particleSize)
       }
  }

  /** Reading a log that was written in this way gives one slice for each step. */
  method ReadLog(preamble: seq<Line>, steps: seq<Step>, player: Player, draws: nat -> nat)
      returns (slices: seq<TimeSlice>)
    requires GoodLog(preamble, steps, player)
    ensures |slices| == |steps|
    ensures forall i :: 0 <= i < |steps| ==> SliceFor(slices[i], steps[i], player)
    ensures forall i :: 0 <= i < |steps| ==> Playback.Whole(slices[i].components)
  {
    var stream := new TextStream(LinesText(preamble) + StepsText(steps));
    WholeLog(preamble, steps, player);
    var fault;
    slices, fault := ParseStates(stream, player, draws);
    forall i | 0 <= i < |steps|
      ensures SliceFor(slices[i], steps[i], player)
      ensures Playback.Whole(slices[i].components)
    {
      assert EntriesOf(steps, player)[i] == EntryOf(steps[i], player);
      BeliefWhole(steps[i].chunks, player);
      if LastBelief(steps[i].chunks).Some? {
        SelectedWhole(slices[i].components, LastBelief(steps[i].chunks).value, player.particleSize);
      }
    }
  }

  lemma {:induction false} BeliefWhole(chunks: seq<Chunk>, player: Player)
    requires GoodChunks(chunks, player)
    ensures LastBelief(chunks).Some? ==> Playback.Whole(LastBelief(chunks).value)
    decreases |chunks|
  {
    if chunks == [] {
    } else {
      var last := chunks[|chunks| - 1];
      assert GoodChunk(last, player);
      if last.Belief? {
        assert forall i :: 0 <= i < |last.particles| ==> Readable(last.particles[i]);
      } else {
        BeliefWhole(chunks[..|chunks| - 1], player);
      }
    }
  }

  lemma SelectedWhole(particles: seq<Component>, block: seq<Component>, particleSize: nat)
    requires Selected(particles, block, particleSize) && Playback.Whole(block)
    ensures Playback.Whole(particles)
  {
    forall j | 0 <= j < |particles|
      ensures particles[j].previous.Some?
    {
      assert particles[j] in multiset(particles);
      assert particles[j] in multiset(block);
      var k :| 0 <= k < |block| && block[k] == particles[j];
    }
  }

  /** The slices as they are played. */
  function Loads(slices: seq<TimeSlice>): (loaded: seq<Playback.TimeSlice>)
    ensures |loaded| == |slices|
  {
    seq(|slices|, i requires 0 <= i < |slices| =>
      Playback.TimeSlice(slices[i].state.state.values, slices[i].state.subStates, slices[i].components))
  }

  /** The player on such a log never misses a previous state; unless it is made to skip on from the
      last step it comes to the end of the log; and without skips it shows for each step as many
      frames as the step has substates, or one more if these are fewer than two. */
  method PlayLog(preamble: seq<Line>, steps: seq<Step>, player: Player, draws: nat -> nat, skips: seq<bool>,
                 saving: bool)
      returns (frames: seq<Playback.Frame>, screenshots: seq<nat>, end: Playback.End)
    requires GoodLog(preamble, steps, player)
    ensures !end.NullState? && (end.Overrun? <==> exists q :: Playback.SkipsLast(|steps|, skips, q))
    ensures skips == [] ==> end.Finished? && |frames| == FramesFor(steps)
    ensures screenshots == Playback.Numbers(saving, 0, |frames|)
  {
    var slices := ReadLog(preamble, steps, player, draws);
    var loaded := Loads(slices);
    frames, screenshots, end := Playback.PlayTimeSlices(loaded, player.particleSize, skips, saving);
    Playback.PlaysVisits(loaded, player.particleSize, skips, 0, 0);
    Playback.OverrunExactly(|steps|, skips);
    ghost var v := Playback.VisitsFrom(|steps|, 0, 0, skips);
    assert !Playback.Stops(loaded, v.indices, player.particleSize);
    if skips == [] {
      Playback.NothingSkipped(|steps|, 0, 0, []);
      Playback.FramesCounted(loaded, v.indices, player.particleSize);
      CountsSteps(loaded, steps, v.indices);
    }
  }

  /** The frames for the steps. */
  function FramesFor(steps: seq<Step>): nat {
    if steps == [] then 0
    else
      var n := |steps[0].state.subStates|;
      (if n >= 2 then n else n + 1) + FramesFor(steps[1..])
  }

  lemma {:induction false} CountsSteps(loaded: seq<Playback.TimeSlice>, steps: seq<Step>, indices: seq<nat>)
    requires |indices| == |steps| <= |loaded|
    requires forall k :: 0 <= k < |indices| ==>
               indices[k] == |loaded| - |steps| + k && |loaded[indices[k]].subStates| == |steps[k].state.subStates|
    ensures Playback.FrameCount(loaded, indices) == FramesFor(steps)
  {
    if steps == [] {
    } else {
      assert forall k :: 0 <= k < |indices[1..]| ==> indices[1..][k] == indices[k + 1] && steps[1..][k] == steps[k + 1];
      CountsSteps(loaded, steps[1..], indices[1..]);
    }
  }
}
