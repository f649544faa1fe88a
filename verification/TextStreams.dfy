/** The text that the player reads, word by word or line by line. */
module TextStreams {
  import opened Basics
  import opened ParticleLog
  import opened StateLines

  /* ---------- Lines ---------- */

  type Line = seq<Word>

  /** The text that is left and whether the end has been met. */
  datatype Source = Source(rest: seq<Item>, eof: bool) {
    ghost predicate Valid() {
      eof ==> rest == []
    }

    function Measure(): nat {
      |rest| + if eof then 0 else 1
    }
  }

  function LineOf(text: seq<Item>): Line {
    if text == [] || text[0].NewLine? then [] else [text[0].word] + LineOf(text[1..])
  }

  function Ended(text: seq<Item>): bool {
    text != [] && (text[0].NewLine? || Ended(text[1..]))
  }

  lemma {:induction false} LineTaken(text: seq<Item>)
    ensures Ended(text) ==> |AfterLine(text)| < |text|
    ensures !Ended(text) ==> AfterLine(text) == []
  {
    if text == [] {
    } else if text[0].Text? {
      LineTaken(text[1..]);
    }
  }

  /** `getline`: once the end has been met it leaves the string as it was, and a line that is not
      ended meets the end. */
  function GetLine(src: Source, s: Line): (r: (Line, Source))
    requires src.Valid()
    ensures r.1.Valid() && (!src.eof ==> r.1.Measure() < src.Measure())
  {
    LineTaken(src.rest);
    if src.eof then (s, src)
    else (LineOf(src.rest), Source(AfterLine(src.rest), !Ended(src.rest)))
  }

  lemma {:induction false} LineEnds(line: Line, rest: seq<Item>)
    ensures LineOf(Texts(line) + ([NewLine] + rest)) == line && AfterLine(Texts(line) + ([NewLine] + rest)) == rest
    ensures Ended(Texts(line) + ([NewLine] + rest))
    ensures LineOf(Texts(line)) == line && AfterLine(Texts(line)) == [] && !Ended(Texts(line))
  {
    var text := Texts(line) + ([NewLine] + rest);
    if line == [] {
      assert text == [NewLine] + rest && text[1..] == rest;
    } else {
      LineEnds(line[1..], rest);
      assert Texts(line)[1..] == Texts(line[1..]);
      assert text[1..] == Texts(line[1..]) + ([NewLine] + rest);
    }
  }

  /** A line that is ended is taken with its end.  One that is not is taken too, and the end of the text
      met; after that there are no lines any more, and the string stays. */
  lemma EveryLine(line: Line, rest: seq<Item>, s: Line)
    ensures GetLine(Source(Texts(line) + ([NewLine] + rest), false), s) == (line, Source(rest, false))
    ensures GetLine(Source(Texts(line), false), s) == (line, Source([], true))
    ensures GetLine(Source([], true), s) == (s, Source([], true))
  {
    LineEnds(line, rest);
  }

  /* ---------- The stream ---------- */

  class TextStream {
    var rest: seq<Item>
    var eof: bool

    ghost predicate Valid()
      reads this
    {
      View().Valid()
    }

    ghost function View(): Source
      reads this
    {
      Source(rest, eof)
    }

    constructor (text: seq<Item>)
      ensures Valid() && View() == Source(text, false)
    {
      rest, eof := text, false;
    }

    /** `is >> s`, where a word is left. */
    method Next() returns (w: Word)
      requires NextWord(rest).Got? && Valid()
      modifies this
      ensures NextWord(old(rest)) == Got(w, rest) && eof == (rest == [])
    {
      while rest[0].NewLine?
        invariant rest != [] && NextWord(rest) == NextWord(old(rest))
        decreases |rest|
      {
        rest := rest[1..];
      }
      w, rest := rest[0].word, rest[1..];
      eof := rest == [];
    }

    /** `getline(is, s)` */
    method ReadLine(s: Line) returns (line: Line)
      requires Valid()
      modifies this
      ensures Valid() && (line, View()) == GetLine(old(View()), s)
    {
      if eof {
        return s;
      }
      line := [];
      while rest != [] && rest[0].Text?
        invariant !eof && line + LineOf(rest) == LineOf(old(rest))
        invariant AfterLine(rest) == AfterLine(old(rest)) && Ended(rest) == Ended(old(rest))
        decreases |rest|
      {
        Assoc(line, [rest[0].word], LineOf(rest[1..]));
        line := line + [rest[0].word];
        rest := rest[1..];
      }
      assert LineOf(rest) == [] && line + [] == line;
      if rest == [] {
        eof := true;
      } else {
        rest := rest[1..];
      }
    }

    /** `is >> s`, where perhaps no word is left; then s stays as it was. */
    method Shift(s: Word) returns (w: Word)
      requires Valid()
      modifies this
      ensures Valid() && (w, rest) == Shifted(s, old(rest))
    {
      while rest != [] && rest[0].NewLine?
        invariant Valid() && NextWord(rest) == NextWord(old(rest))
        decreases |rest|
      {
        rest := rest[1..];
      }
      if rest == [] {
        eof := true;
        return s;
      }
      w, rest := rest[0].word, rest[1..];
      eof := rest == [];
    }
  }
}
