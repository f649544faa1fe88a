/** The playback of a log: the loops over time slices and substates, the numbers of the
    screenshots, and their file names. */
module Playback {

  import opened Basics
  import ParticleLog

  type Configuration = seq<int>

  /** One particle and the state it came from, which the reader does not always find. */
  type Component = ParticleLog.Component

  datatype TimeSlice = TimeSlice(state: Configuration, subStates: seq<Configuration>, components: seq<Component>)

  /** A particle as it is drawn: on the way from its previous state, or where it is. */
  datatype Drawn = Between(previous: Configuration, particle: Configuration, t: real) | At(particle: Configuration)

  /** One update of the viewer. */
  datatype Frame = Frame(state: Configuration, particles: seq<Drawn>)

  const UNSIGNED := 0x1_0000_0000

  /* ---------- What is shown ---------- */

  /** How many substates of a slice are shown: all but the last one, unless there is only one. */
  function Shown(n: nat): nat {
    if n <= 1 then n else n - 1
  }

  predicate Whole(components: seq<Component>) {
    forall j :: 0 <= j < |components| ==> components[j].previous.Some?
  }

  /** The loop over the substates of slice i interpolates from a previous state that is not there. */
  predicate Breaks(slices: seq<TimeSlice>, i: nat, particleSize: nat)
    requires i < |slices|
  {
    && slices[i].subStates != []
    && i > 0 && |slices[i - 1].components| == particleSize
    && !Whole(slices[i - 1].components)
  }

  function Interpolated(components: seq<Component>, t: real): (particles: seq<Drawn>)
    requires Whole(components)
    ensures |particles| == |components|
  {
    seq(|components|, j requires 0 <= j < |components| =>
      Between(components[j].previous.value, components[j].particle, t))
  }

  /** The particles while a slice is under way; none at all unless the slice before it has exactly
      particleSize of them, all with their previous states. */
  function Moving(slices: seq<TimeSlice>, i: nat, particleSize: nat, t: real): seq<Drawn>
    requires i < |slices|
  {
    if i > 0 && |slices[i - 1].components| == particleSize && Whole(slices[i - 1].components) then
      Interpolated(slices[i - 1].components, t)
    else []
  }

  function Resting(slices: seq<TimeSlice>, i: nat): seq<Drawn>
    requires i < |slices|
  {
    if i > 0 then seq(|slices[i - 1].components|, j requires 0 <= j < |slices[i - 1].components| =>
                    At(slices[i - 1].components[j].particle))
    else []
  }

  /** How far along its slice the k-th of n substates is. */
  function Time(k: nat, n: nat): (t: real)
    requires n > 0
    ensures k < n ==> 0.0 <= t < 1.0
  {
    k as real / n as real
  }

  /** The k-th substate of a slice with n of them is shown at the time k / n. */
  function SubFrame(slices: seq<TimeSlice>, i: nat, particleSize: nat, k: nat): Frame
    requires i < |slices| && k < |slices[i].subStates|
  {
    Frame(slices[i].subStates[k], Moving(slices, i, particleSize, Time(k, |slices[i].subStates|)))
  }

  /** The first m substates. */
  function SubFrames(slices: seq<TimeSlice>, i: nat, particleSize: nat, m: nat): (frames: seq<Frame>)
    requires i < |slices| && m <= |slices[i].subStates|
    ensures |frames| == m
  {
    seq(m, k requires 0 <= k < m => SubFrame(slices, i, particleSize, k))
  }

  /** The frames of one slice: its substates, and then its state. */
  function SliceFrames(slices: seq<TimeSlice>, i: nat, particleSize: nat): seq<Frame>
    requires i < |slices|
  {
    SubFrames(slices, i, particleSize, Shown(|slices[i].subStates|)) + [Frame(slices[i].state, Resting(slices, i))]
  }

  /** The slices that are played when the answers at the prompts are skips (no prompt is a no),
      and whether the loop runs past the end. */
  datatype Visits = Visits(indices: seq<nat>, overrun: bool)

  predicate Skips(skips: seq<bool>, prompt: nat) {
    prompt < |skips| && skips[prompt]
  }

  function VisitsFrom(size: nat, i: nat, prompt: nat, skips: seq<bool>): Visits
    requires i <= size + 1
    decreases size + 1 - i
  {
    if i == size then Visits([], false)
    else if i > size then Visits([], true)
    else
      var later := VisitsFrom(size, if Skips(skips, prompt) then i + 2 else i + 1, prompt + 1, skips);
      Visits([i] + later.indices, later.overrun)
  }

  predicate AllBelow(indices: seq<nat>, n: nat) {
    forall k :: 0 <= k < |indices| ==> indices[k] < n
  }

  /** One of the slices is one that breaks. */
  predicate Stops(slices: seq<TimeSlice>, indices: seq<nat>, particleSize: nat)
    requires AllBelow(indices, |slices|)
  {
    exists k :: 0 <= k < |indices| && Breaks(slices, indices[k], particleSize)
  }

  /** The frames of the slices, up to the first one that breaks. */
  function FramesOf(slices: seq<TimeSlice>, indices: seq<nat>, particleSize: nat): seq<Frame>
    requires AllBelow(indices, |slices|)
  {
    if indices == [] || Breaks(slices, indices[0], particleSize) then []
    else SliceFrames(slices, indices[0], particleSize) + FramesOf(slices, indices[1..], particleSize)
  }

  lemma FramesStep(slices: seq<TimeSlice>, left: seq<nat>, particleSize: nat, shown: seq<Frame>)
    requires left != [] && AllBelow(left, |slices|) && !Breaks(slices, left[0], particleSize)
    ensures AllBelow(left[1..], |slices|)
    ensures shown + FramesOf(slices, left, particleSize)
         == shown + SliceFrames(slices, left[0], particleSize) + FramesOf(slices, left[1..], particleSize)
    ensures Stops(slices, left, particleSize) <==> Stops(slices, left[1..], particleSize)
  {
    assert AllBelow(left[1..], |slices|);
    assert forall k :: 0 <= k < |left[1..]| ==> left[1..][k] == left[k + 1];
    if Stops(slices, left, particleSize) {
      var k :| 0 <= k < |left| && Breaks(slices, left[k], particleSize);
      assert Breaks(slices, left[1..][k - 1], particleSize);
    }
  }

  lemma {:induction false} VisitsInRange(size: nat, i: nat, prompt: nat, skips: seq<bool>)
    requires i <= size + 1
    ensures AllBelow(VisitsFrom(size, i, prompt, skips).indices, size)
    decreases size + 1 - i
  {
    if i >= size {
    } else {
      VisitsInRange(size, if Skips(skips, prompt) then i + 2 else i + 1, prompt + 1, skips);
    }
  }

  /** How the playback ends: with the last slice; with an access behind it, when the loop variable
      has jumped over its bound; or with the use of a previous state that is not there. */
  datatype End = Finished | Overrun | NullState

  datatype Played = Played(frames: seq<Frame>, end: End)

  /** What the loop over the slices does from slice i and the given prompt on. */
  function PlayedFrom(slices: seq<TimeSlice>, particleSize: nat, skips: seq<bool>, i: nat, prompt: nat): Played
    requires i <= |slices| + 1
    decreases |slices| + 1 - i
  {
    if i == |slices| then Played([], Finished)
    else if i > |slices| then Played([], Overrun)
    else if Breaks(slices, i, particleSize) then Played([], NullState)
    else
      var later := PlayedFrom(slices, particleSize, skips, if Skips(skips, prompt) then i + 2 else i + 1, prompt + 1);
      Played(SliceFrames(slices, i, particleSize) + later.frames, later.end)
  }

  function After(frames: seq<Frame>, later: Played): Played {
    Played(frames + later.frames, later.end)
  }

  /** It plays the slices that are visited, up to the first one that breaks. */
  lemma {:induction false} PlaysVisits(slices: seq<TimeSlice>, particleSize: nat, skips: seq<bool>, i: nat, prompt: nat)
    requires i <= |slices| + 1
    ensures var v := VisitsFrom(|slices|, i, prompt, skips);
            && AllBelow(v.indices, |slices|)
            && PlayedFrom(slices, particleSize, skips, i, prompt)
               == Played(FramesOf(slices, v.indices, particleSize),
                         if Stops(slices, v.indices, particleSize) then NullState
                         else if v.overrun then Overrun else Finished)
    decreases |slices| + 1 - i
  {
    var v := VisitsFrom(|slices|, i, prompt, skips);
    VisitsInRange(|slices|, i, prompt, skips);
    if i >= |slices| {
    } else if Breaks(slices, i, particleSize) {
      assert Breaks(slices, v.indices[0], particleSize);
    } else {
      PlaysVisits(slices, particleSize, skips, if Skips(skips, prompt) then i + 2 else i + 1, prompt + 1);
      FramesStep(slices, v.indices, particleSize, []);
    }
  }

  /* ---------- Numbers ---------- */

  /** The frame counter is an unsigned int. */
  function Number(k: nat): nat {
    k % UNSIGNED
  }

  lemma NextNumber(k: nat)
    ensures (Number(k) + 1) % UNSIGNED == Number(k + 1)
  {
    var q, r := k / UNSIGNED, k % UNSIGNED;
    assert k + 1 == q * UNSIGNED + (r + 1);
  }

  /** The numbers from + 1, from + 2, and so on, one for each of n frames if they are saved. */
  function Numbers(saving: bool, from: nat, n: nat): (numbers: seq<nat>)
    ensures |numbers| == if saving then n else 0
  {
    if saving then seq<nat>(n, k requires 0 <= k < n => Number(from + k + 1)) else []
  }

  lemma NumbersAppend(saving: bool, from: nat, m: nat, n: nat)
    ensures Numbers(saving, from, m) + Numbers(saving, from + m, n) == Numbers(saving, from, m + n)
  {
  }

  lemma TimeStep(k: nat, n: nat)
    requires n > 0
    ensures Time(0, n) == 0.0 && Time(k, n) + 1.0 / n as real == Time(k + 1, n)
  {
  }

  /* ---------- The loops ---------- */

  /** `playTimeSlices`.  Prompts come only with user input, which is what skips stands for.  Where
      the original would go wrong the method stops and says so.  screenshots holds the numbers given
      to `grabScreenshot`. */
  method PlayTimeSlices(slices: seq<TimeSlice>, particleSize: nat, skips: seq<bool>, saving: bool)
      returns (frames: seq<Frame>, screenshots: seq<nat>, end: End)
    ensures Played(frames, end) == PlayedFrom(slices, particleSize, skips, 0, 0)
    ensures screenshots == Numbers(saving, 0, |frames|)
  {
    frames, screenshots, end := [], [], Finished;
    var counter, i, prompt := 0, 0, 0;
    NothingPlayed(slices, particleSize, skips, saving);
    while i != |slices|
      invariant 0 <= i <= |slices| && end == Finished
      invariant SoFar(slices, particleSize, skips, saving, i, prompt, frames, screenshots, counter)
      decreases |slices| - i
    {
      var sliceFrames, sliceShots, broken;
      sliceFrames, sliceShots, counter, broken := PlaySlice(slices, i, particleSize, saving, counter, |frames|);
      if broken {
        end := NullState;
        break;
      }
      SliceTurn(slices, particleSize, skips, saving, i, prompt, frames, screenshots);
      frames, screenshots := frames + sliceFrames, screenshots + sliceShots;
      if Skips(skips, prompt) {
        i := i + 1;
      }
      i, prompt := i + 1, prompt + 1;
      if i > |slices| {
        end := Overrun;
        break;
      }
    }
    PlayedAll(slices, particleSize, skips, saving, i, prompt, frames, screenshots, counter);
  }

  /** What there is after some slices: the frames, what is saved, and the number of the last frame. */
  ghost predicate SoFar(slices: seq<TimeSlice>, particleSize: nat, skips: seq<bool>, saving: bool, i: nat, prompt: nat,
                        frames: seq<Frame>, screenshots: seq<nat>, counter: nat)
    requires i <= |slices| + 1
  {
    && PlayedFrom(slices, particleSize, skips, 0, 0)
       == After(frames, PlayedFrom(slices, particleSize, skips, i, prompt))
    && screenshots == Numbers(saving, 0, |frames|)
    && counter == Number(|frames|)
  }

  lemma NothingPlayed(slices: seq<TimeSlice>, particleSize: nat, skips: seq<bool>, saving: bool)
    ensures SoFar(slices, particleSize, skips, saving, 0, 0, [], [], 0)
  {
    var whole := PlayedFrom(slices, particleSize, skips, 0, 0);
    assert [] + whole.frames == whole.frames;
  }

  lemma SliceTurn(slices: seq<TimeSlice>, particleSize: nat, skips: seq<bool>, saving: bool, i: nat, prompt: nat,
                  frames: seq<Frame>, screenshots: seq<nat>)
    requires i < |slices| && !Breaks(slices, i, particleSize)
    requires SoFar(slices, particleSize, skips, saving, i, prompt, frames, screenshots, Number(|frames|))
    ensures var more := SliceFrames(slices, i, particleSize);
            SoFar(slices, particleSize, skips, saving, if Skips(skips, prompt) then i + 2 else i + 1, prompt + 1,
                  frames + more, screenshots + Numbers(saving, |frames|, |more|), Number(|frames| + |more|))
  {
    var more := SliceFrames(slices, i, particleSize);
    var later := PlayedFrom(slices, particleSize, skips, if Skips(skips, prompt) then i + 2 else i + 1, prompt + 1);
    Assoc(frames, more, later.frames);
    NumbersAppend(saving, 0, |frames|, |more|);
  }

  lemma PlayedAll(slices: seq<TimeSlice>, particleSize: nat, skips: seq<bool>, saving: bool, i: nat, prompt: nat,
                  frames: seq<Frame>, screenshots: seq<nat>, counter: nat)
    requires i <= |slices| + 1 && (i < |slices| ==> Breaks(slices, i, particleSize))
    requires SoFar(slices, particleSize, skips, saving, i, prompt, frames, screenshots, counter)
    ensures PlayedFrom(slices, particleSize, skips, 0, 0)
         == Played(frames, if i < |slices| then NullState else if i == |slices| then Finished else Overrun)
  {
    assert frames + [] == frames;
  }

  /** The body of the loop over the slices. */
  method PlaySlice(slices: seq<TimeSlice>, i: nat, particleSize: nat, saving: bool, counter0: nat, ghost total: nat)
      returns (frames: seq<Frame>, screenshots: seq<nat>, counter: nat, broken: bool)
    requires i < |slices| && counter0 == Number(total)
    ensures broken == Breaks(slices, i, particleSize)
    ensures frames == if broken then [] else SliceFrames(slices, i, particleSize)
    ensures counter == Number(total + |frames|)
    ensures screenshots == Numbers(saving, total, |frames|)
  {
    frames, screenshots, counter, broken := PlaySubStates(slices, i, particleSize, saving, counter0, total);
    if broken {
      return;
    }
    var finalParticles := [];
    if i > 0 {
      finalParticles := Settle(slices[i - 1].components);
    }
    assert finalParticles == Resting(slices, i);
    NextNumber(total + |frames|);
    NumbersAppend(saving, total, |frames|, 1);
    frames := frames + [Frame(slices[i].state, finalParticles)];
    counter := (counter + 1) % UNSIGNED;
    if saving {
      screenshots := screenshots + [counter];
    }
  }

  /** The loop over the substates of a slice. */
  method PlaySubStates(slices: seq<TimeSlice>, i: nat, particleSize: nat, saving: bool, counter0: nat, ghost total: nat)
      returns (frames: seq<Frame>, screenshots: seq<nat>, counter: nat, broken: bool)
    requires i < |slices| && counter0 == Number(total)
    ensures broken == Breaks(slices, i, particleSize)
    ensures frames == SubFrames(slices, i, particleSize, if broken then 0 else Shown(|slices[i].subStates|))
    ensures counter == Number(total + |frames|)
    ensures screenshots == Numbers(saving, total, |frames|)
  {
    var n := |slices[i].subStates|;
    frames, screenshots, counter, broken := [], [], counter0, false;
    var t, counter2 := 0.0, 0;
    var tDelta := if n == 0 then 0.0 else 1.0 / n as real;
    if n > 0 {
      TimeStep(0, n);
    }
    while counter2 < n
      invariant 0 <= counter2 <= Shown(n) && (counter2 == Shown(n) ==> counter2 == n)
      invariant counter2 > 0 ==> !Breaks(slices, i, particleSize)
      invariant t == if n == 0 then 0.0 else Time(counter2, n)
      invariant Playing(slices, i, particleSize, saving, total, counter2, frames, screenshots, counter) && !broken
    {
      var frame;
      frame, broken := PlaySubState(slices, i, particleSize, counter2, t);
      if broken {
        return;
      }
      PlayTurn(slices, i, particleSize, saving, total, counter2, frames, screenshots, counter);
      frames := frames + [frame];
      counter := (counter + 1) % UNSIGNED;
      TimeStep(counter2, n);
      t := t + tDelta;
      if saving {
        screenshots := screenshots + [counter];
      }
      counter2 := counter2 + 1;
      if counter2 == n - 1 {
        break;
      }
    }
  }

  /** The variables of that loop when counter2 of the substates have been shown. */
  ghost predicate Playing(slices: seq<TimeSlice>, i: nat, particleSize: nat, saving: bool, total: nat, counter2: nat,
                          frames: seq<Frame>, screenshots: seq<nat>, counter: nat)
    requires i < |slices| && counter2 <= |slices[i].subStates|
  {
    && frames == SubFrames(slices, i, particleSize, counter2)
    && screenshots == Numbers(saving, total, counter2)
    && counter == Number(total + counter2)
  }

  lemma PlayTurn(slices: seq<TimeSlice>, i: nat, particleSize: nat, saving: bool, total: nat, counter2: nat,
                 frames: seq<Frame>, screenshots: seq<nat>, counter: nat)
    requires i < |slices| && counter2 < |slices[i].subStates|
    requires Playing(slices, i, particleSize, saving, total, counter2, frames, screenshots, counter)
    ensures var next := (counter + 1) % UNSIGNED;
            Playing(slices, i, particleSize, saving, total, counter2 + 1,
                frames + [SubFrame(slices, i, particleSize, counter2)],
                    if saving then screenshots + [next] else screenshots, next)
  {
    NextNumber(total + counter2);
    NumbersAppend(saving, total, counter2, 1);
  }

  /** One turn of that loop: the frame it shows. */
  method PlaySubState(slices: seq<TimeSlice>, i: nat, particleSize: nat, k: nat, t: real)
      returns (frame: Frame, broken: bool)
    requires i < |slices| && k < |slices[i].subStates| && t == Time(k, |slices[i].subStates|)
    ensures broken == Breaks(slices, i, particleSize)
    ensures !broken ==> frame == SubFrame(slices, i, particleSize, k)
  {
    var particles := [];
    broken := false;
    if i > 0 && |slices[i - 1].components| == particleSize {
      particles, broken := Interpolate(slices[i - 1].components, t);
    }
    frame := Frame(slices[i].subStates[k], particles);
  }

  method Interpolate(components: seq<Component>, t: real) returns (particles: seq<Drawn>, broken: bool)
    ensures broken == !Whole(components)
    ensures !broken ==> particles == Interpolated(components, t)
  {
    particles, broken := [], false;
    for j := 0 to |components|
      invariant |particles| == j && Whole(components[..j])
      invariant forall l :: 0 <= l < j ==>
                particles[l] == Between(components[l].previous.value, components[l].particle, t)
    {
      if components[j].previous.None? {
        return particles, true;
      }
      particles := particles + [Between(components[j].previous.value, components[j].particle, t)];
      assert components[..j + 1] == components[..j] + [components[j]];
    }
    assert components[..|components|] == components;
  }

  method Settle(components: seq<Component>) returns (particles: seq<Drawn>)
    ensures particles == seq(|components|, j requires 0 <= j < |components| => At(components[j].particle))
  {
    particles := [];
    for j := 0 to |components|
      invariant |particles| == j
      invariant forall l :: 0 <= l < j ==> particles[l] == At(components[l].particle)
    {
      particles := particles + [At(components[j].particle)];
    }
  }

  /* ---------- What this amounts to ---------- */

  /** The particles are on the straight way from where they were to where they are, at the time t. */
  predicate OnTheWay(particles: seq<Drawn>, components: seq<Component>, t: real) {
    && |particles| == |components|
    && forall j :: 0 <= j < |particles| ==>
         && components[j].previous.Some?
         && particles[j].Between?
         && particles[j].previous == components[j].previous.value
         && particles[j].particle == components[j].particle
         && particles[j].t == t
  }

  predicate Arrived(particles: seq<Drawn>, components: seq<Component>) {
    && |particles| == |components|
    && forall j :: 0 <= j < |particles| ==> particles[j].At? && particles[j].particle == components[j].particle
  }

  /** A slice with n substates takes n frames, or n + 1 when n is 0 or 1.  The k-th substate is drawn
      at k / n, which lies in [0, 1); unless the slice breaks, the particles move there exactly when
      the slice before it has particleSize of them, each from its previous state to itself, and the
      frame after the substates shows the state with all particles of the slice before where they end up. */
  lemma SliceAccount(slices: seq<TimeSlice>, i: nat, particleSize: nat)
    requires i < |slices| && !Breaks(slices, i, particleSize)
    ensures var n := |slices[i].subStates|;
            var frames := SliceFrames(slices, i, particleSize);
            && |frames| == (if n >= 2 then n else n + 1)
            && frames[|frames| - 1].state == slices[i].state
            && Arrived(frames[|frames| - 1].particles, if i > 0 then slices[i - 1].components else [])
            && forall k :: 0 <= k < |frames| - 1 ==>
                 && frames[k].state == slices[i].subStates[k]
                 && 0.0 <= k as real / n as real < 1.0
                 && (if i > 0 && |slices[i - 1].components| == particleSize then
                       OnTheWay(frames[k].particles, slices[i - 1].components, k as real / n as real)
                     else frames[k].particles == [])
  {
    var n, frames := |slices[i].subStates|, SliceFrames(slices, i, particleSize);
    forall k | 0 <= k < |frames| - 1
      ensures 0.0 <= k as real / n as real < 1.0
      ensures frames[k] == SubFrame(slices, i, particleSize, k)
    {
      assert Time(k, n) == k as real / n as real;
    }
  }

  /** A visited slice breaks if it has substates, and the slice before it has just as many particles as
      are wanted, one of which has no previous state. */
  predicate MissesPrevious(slices: seq<TimeSlice>, i: nat, particleSize: nat, j: nat) {
    && 0 < i < |slices| && |slices[i].subStates| > 0
    && |slices[i - 1].components| == particleSize
    && j < particleSize && slices[i - 1].components[j].previous.None?
  }

  /** The playback uses a previous state that is not there exactly if this is so for one of the slices
      visited. */
  lemma NullStateExactly(slices: seq<TimeSlice>, particleSize: nat, skips: seq<bool>)
    ensures PlayedFrom(slices, particleSize, skips, 0, 0).end.NullState?
       <==> exists k, j :: 0 <= k < |VisitsFrom(|slices|, 0, 0, skips).indices| && 0 <= j
                           && MissesPrevious(slices, VisitsFrom(|slices|, 0, 0, skips).indices[k], particleSize, j)
  {
    var indices := VisitsFrom(|slices|, 0, 0, skips).indices;
    PlaysVisits(slices, particleSize, skips, 0, 0);
    if Stops(slices, indices, particleSize) {
      var k :| 0 <= k < |indices| && Breaks(slices, indices[k], particleSize);
      var j :| 0 <= j < particleSize && slices[indices[k] - 1].components[j].previous.None?;
      assert MissesPrevious(slices, indices[k], particleSize, j);
    }
    if k, j :| 0 <= k < |indices| && 0 <= j && MissesPrevious(slices, indices[k], particleSize, j) {
      assert Breaks(slices, indices[k], particleSize);
    }
  }

  /** The slice that is played at the p-th prompt, if the playback gets there. */
  function Position(skips: seq<bool>, p: nat): (i: nat)
    ensures i >= p
  {
    if p == 0 then 0 else Position(skips, p - 1) + (if Skips(skips, p - 1) then 2 else 1)
  }

  /** The slices played are the ones at these positions. */
  lemma {:induction false} VisitsAreAt(size: nat, p: nat, skips: seq<bool>, j: nat)
    requires Position(skips, p) <= size + 1 && j < |VisitsFrom(size, Position(skips, p), p, skips).indices|
    ensures VisitsFrom(size, Position(skips, p), p, skips).indices[j] == Position(skips, p + j)
    decreases j
  {
    if j == 0 {
    } else {
      VisitsAreAt(size, p + 1, skips, j - 1);
    }
  }

  /** The last slice is played at the q-th prompt and skipped on. */
  predicate SkipsLast(size: nat, skips: seq<bool>, q: nat) {
    Position(skips, q) == size - 1 && Skips(skips, q)
  }

  lemma {:induction false} PositionGrows(skips: seq<bool>, p: nat, q: nat)
    requires p <= q
    ensures Position(skips, p) + (q - p) <= Position(skips, q)
  {
    if p == q {
    } else {
      PositionGrows(skips, p, q - 1);
    }
  }

  /** The loop misses its bound exactly when the answers make it skip at the last slice. */
  lemma OverrunExactly(size: nat, skips: seq<bool>)
    ensures VisitsFrom(size, 0, 0, skips).overrun <==> exists q :: SkipsLast(size, skips, q)
  {
    OverrunFrom(size, 0, skips);
  }

  lemma {:induction false} OverrunFrom(size: nat, p: nat, skips: seq<bool>)
    requires Position(skips, p) <= size
    ensures VisitsFrom(size, Position(skips, p), p, skips).overrun <==> exists q :: q >= p && SkipsLast(size, skips, q)
    decreases size - Position(skips, p)
  {
    var i := Position(skips, p);
    if i == size {
      forall q | q >= p
        ensures !SkipsLast(size, skips, q)
      {
        PositionGrows(skips, p, q);
      }
    } else if i == size - 1 {
      if !Skips(skips, p) {
        forall q | q >= p
          ensures !SkipsLast(size, skips, q)
        {
          PositionGrows(skips, p, q);
        }
      } else {
        assert SkipsLast(size, skips, p);
      }
    } else {
      OverrunFrom(size, p + 1, skips);
      assert !SkipsLast(size, skips, p);
    }
  }

  /** Without skips every slice that is left is played, once and in order. */
  lemma {:induction false} NothingSkipped(size: nat, i: nat, prompt: nat, skips: seq<bool>)
    requires i <= size && forall q :: prompt <= q < |skips| ==> !skips[q]
    ensures VisitsFrom(size, i, prompt, skips)
         == Visits(seq<nat>(size - i, k requires 0 <= k < size - i => i + k), false)
    decreases size - i
  {
    if i == size {
    } else {
      NothingSkipped(size, i + 1, prompt + 1, skips);
    }
  }

  /** With one skip, at the prompt p, the slice after the one played there is the only one left out. */
  lemma {:induction false} OneSkip(size: nat, p: nat, skips: seq<bool>)
    requires p < size - 1 && p < |skips| && forall q :: 0 <= q < |skips| ==> (skips[q] <==> q == p)
    ensures var v := VisitsFrom(size, 0, 0, skips);
            && !v.overrun && |v.indices| == size - 1
            && forall k :: 0 <= k < size - 1 ==> v.indices[k] == if k <= p then k else k + 1
  {
    SkipLeft(size, 0, p, skips);
  }

  lemma {:induction false} SkipLeft(size: nat, i: nat, p: nat, skips: seq<bool>)
    requires i <= p < size - 1 && p < |skips| && forall q :: 0 <= q < |skips| ==> (skips[q] <==> q == p)
    ensures var v := VisitsFrom(size, i, i, skips);
            && !v.overrun && |v.indices| == size - 1 - i
            && forall k :: 0 <= k < size - 1 - i ==> v.indices[k] == if i + k <= p then i + k else i + k + 1
    decreases p - i
  {
    if i == p {
      NothingSkipped(size, p + 2, p + 1, skips);
    } else {
      SkipLeft(size, i + 1, p, skips);
    }
  }

  /** How many frames a list of slices takes. */
  function FrameCount(slices: seq<TimeSlice>, indices: seq<nat>): nat
    requires AllBelow(indices, |slices|)
  {
    if indices == [] then 0
    else
      var n := |slices[indices[0]].subStates|;
      (if n >= 2 then n else n + 1) + FrameCount(slices, indices[1..])
  }

  lemma {:induction false} FramesCounted(slices: seq<TimeSlice>, indices: seq<nat>, particleSize: nat)
    requires AllBelow(indices, |slices|) && !Stops(slices, indices, particleSize)
    ensures |FramesOf(slices, indices, particleSize)| == FrameCount(slices, indices)
  {
    if indices == [] {
    } else {
      FramesStep(slices, indices, particleSize, []);
      FramesCounted(slices, indices[1..], particleSize);
    }
  }

  /** The numbers of n saved screenshots are 1 to n without a gap exactly when the counter does
      not wrap, and all different exactly when there are no more than it has values. */
  lemma NumbersDistinct(n: nat)
    ensures (forall k :: 0 <= k < n ==> Numbers(true, 0, n)[k] == k + 1) <==> n < UNSIGNED
    ensures (forall j, k :: 0 <= j < k < n ==> Numbers(true, 0, n)[j] != Numbers(true, 0, n)[k]) <==> n <= UNSIGNED
  {
    var s := Numbers(true, 0, n);
    if n >= UNSIGNED {
      assert s[UNSIGNED - 1] == 0;
    }
    if n > UNSIGNED {
      assert s[UNSIGNED] == 1 == s[0];
    }
  }
}
