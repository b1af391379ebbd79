/** LRC files: timed lyric lines as text, and reading them back. */
module Lrc {
  import opened Wrappers
  import opened Schema
  import opened LyricsText

  const OPEN: CodeUnit := 0x5B
  const CLOSE: CodeUnit := 0x5D
  const COLON: CodeUnit := 0x3A
  const DOT: CodeUnit := 0x2E
  const LESS: CodeUnit := 0x3C
  const ZERO: CodeUnit := 0x30

  const MAX_CENTISECONDS := 100 * 60 * 100

  // ----- printing

  function TwoDigits(n: nat): (r: Text)
    requires n < 100
    ensures |r| == 2
  {
    [ZERO + (n / 10) as CodeUnit, ZERO + (n % 10) as CodeUnit]
  }

  function Timestamp(centiseconds: nat): (r: Text)
    requires centiseconds < MAX_CENTISECONDS
    ensures |r| == 10
  {
    [OPEN] + TwoDigits(centiseconds / 6000) + [COLON] + TwoDigits(centiseconds / 100 % 60)
    + [DOT] + TwoDigits(centiseconds % 100) + [CLOSE]
  }

  /** A document line, and the sample it starts at if it is matched. */
  datatype SungLine = SungLine(text: Text, start: Option<nat>)

  function Onset(line: SungLine, sampleRate: nat): Option<nat>
    requires sampleRate > 0
  {
    if line.start == None then None else Some(line.start.value * 100 / sampleRate)
  }

  /** The onset of a line lies between those of all lines around it, printed or not. */
  predicate Monotonic(lines: seq<SungLine>, index: nat, onset: nat, sampleRate: nat)
    requires sampleRate > 0
  {
    forall other :: 0 <= other < |lines| && other != index && Onset(lines[other], sampleRate).Some? ==>
      if other < index then Onset(lines[other], sampleRate).value < onset
        else Onset(lines[other], sampleRate).value > onset
  }

  predicate Printable(text: Text) {
    !Blank(text) && !HasControl(text) && !(text != [] && text[0] == OPEN)
  }

  predicate Emits(lines: seq<SungLine>, index: nat, sampleRate: nat)
    requires sampleRate > 0 && index < |lines|
  {
    var onset := Onset(lines[index], sampleRate);
    && onset.Some?
    && Printable(lines[index].text)
    && onset.value < MAX_CENTISECONDS
    && Monotonic(lines, index, onset.value, sampleRate)
  }

  datatype Stamped = Stamped(centiseconds: nat, text: Text, start: nat)

  function Emitted(lines: seq<SungLine>, n: nat, sampleRate: nat): (r: seq<Stamped>)
    requires sampleRate > 0 && n <= |lines|
  {
    if n == 0 then []
    else
      Emitted(lines, n - 1, sampleRate)
      + if Emits(lines, n - 1, sampleRate)
        then [Stamped(Onset(lines[n - 1], sampleRate).value, lines[n - 1].text, lines[n - 1].start.value)] else []
  }

  lemma {:induction false} EmittedLineIsALine(lines: seq<SungLine>, n: nat, sampleRate: nat, line: Stamped)
    returns (index: nat)
    requires sampleRate > 0 && n <= |lines| && line in Emitted(lines, n, sampleRate)
    ensures index < n && Emits(lines, index, sampleRate)
    ensures line == Stamped(Onset(lines[index], sampleRate).value, lines[index].text, lines[index].start.value)
  {
    if line in Emitted(lines, n - 1, sampleRate) {
      index := EmittedLineIsALine(lines, n - 1, sampleRate, line);
    } else {
      index := n - 1;
    }
  }

  ghost predicate Increasing(lines: seq<Stamped>) {
    forall i, j :: 0 <= i < j < |lines| ==>
      lines[i].centiseconds < lines[j].centiseconds && lines[i].start < lines[j].start
  }

  lemma LaterOnsetStartsLater(a: nat, b: nat, sampleRate: nat)
    requires sampleRate > 0 && a * 100 / sampleRate < b * 100 / sampleRate
    ensures a < b
  {
    if b <= a {
      assert b * 100 <= a * 100;
      DivisionKeepsOrder(b * 100, a * 100, sampleRate);
      assert false;
    }
  }

  lemma DivisionKeepsOrder(a: nat, b: nat, d: nat)
    requires d > 0 && a <= b
    ensures a / d <= b / d
  {
    var p, q := a / d, b / d;
    assert p * d <= a && b < (q + 1) * d;
    CancelFactor(p, q + 1, d);
  }

  lemma CancelFactor(a: nat, b: nat, d: nat)
    requires a * d < b * d
    ensures a < b
  {
  }

  /** Printed stamps strictly increase. */
  lemma {:induction false} StampsIncrease(lines: seq<SungLine>, n: nat, sampleRate: nat)
    requires sampleRate > 0 && n <= |lines|
    ensures Increasing(Emitted(lines, n, sampleRate))
  {
    if n > 0 {
      StampsIncrease(lines, n - 1, sampleRate);
      var before := Emitted(lines, n - 1, sampleRate);
      if Emits(lines, n - 1, sampleRate) {
        forall i | 0 <= i < |before|
          ensures before[i].centiseconds < Onset(lines[n - 1], sampleRate).value
                  && before[i].start < lines[n - 1].start.value
        {
          var index := EmittedLineIsALine(lines, n - 1, sampleRate, before[i]);
          LaterOnsetStartsLater(before[i].start, lines[n - 1].start.value, sampleRate);
        }
      }
    }
  }

  function PrintLine(line: Stamped): Text
    requires line.centiseconds < MAX_CENTISECONDS
  {
    Timestamp(line.centiseconds) + line.text
  }

  ghost predicate AllPrintable(lines: seq<Stamped>) {
    forall line :: line in lines ==> line.centiseconds < MAX_CENTISECONDS && Printable(line.text)
  }

  lemma EmittedArePrintable(lines: seq<SungLine>, sampleRate: nat)
    requires sampleRate > 0
    ensures AllPrintable(Emitted(lines, |lines|, sampleRate))
  {
    forall line | line in Emitted(lines, |lines|, sampleRate)
      ensures line.centiseconds < MAX_CENTISECONDS && Printable(line.text)
    {
      var _ := EmittedLineIsALine(lines, |lines|, sampleRate, line);
    }
  }

  function PrintLines(lines: seq<Stamped>): (r: seq<Text>)
    requires AllPrintable(lines)
    ensures |r| == |lines| && forall i :: 0 <= i < |r| ==> r[i] == PrintLine(lines[i])
  {
    seq(|lines|, i requires 0 <= i < |lines| => PrintLine(lines[i]))
  }

  /** A title for the header: control characters and closing brackets are left out. */
  function SafeTitle(title: Text): Text {
    if title == [] then []
    else (if IsControl(title[0]) || title[0] == CLOSE then [] else [title[0]]) + SafeTitle(title[1..])
  }

  function Header(title: Text): seq<Text> {
    if SafeTitle(title) == [] then [] else [[OPEN, 0x74, 0x69, COLON] + SafeTitle(title) + [CLOSE]]
  }

  function PrintFile(title: Text, lines: seq<Stamped>): Text
    requires AllPrintable(lines)
  {
    JoinLines(Header(title) + PrintLines(lines)) + [LF]
  }

  datatype Projection = LrcText(text: Text) | NoLineTiming | NoEmittableLines

  method ProjectLrc(lines: seq<SungLine>, title: Text, sampleRate: nat) returns (r: Projection)
    requires sampleRate > 0
    ensures AllPrintable(Emitted(lines, |lines|, sampleRate))
    ensures r == if forall line :: line in lines ==> line.start == None then NoLineTiming
                 else if Emitted(lines, |lines|, sampleRate) == [] then NoEmittableLines
                 else LrcText(PrintFile(title, Emitted(lines, |lines|, sampleRate)))
  {
    EmittedArePrintable(lines, sampleRate);
    if forall line :: line in lines ==> line.start == None {
      return NoLineTiming;
    }
    var emitted: seq<Text> := [];
    ghost var stamped := [];
    for index := 0 to |lines|
      invariant stamped == Emitted(lines, index, sampleRate) && AllPrintable(stamped)
      invariant emitted == PrintLines(stamped)
    {
      if Emits(lines, index, sampleRate) {
        var onset := Onset(lines[index], sampleRate).value;
        stamped := stamped + [Stamped(onset, lines[index].text, lines[index].start.value)];
        emitted := emitted + [Timestamp(onset) + lines[index].text];
      }
    }
    if emitted == [] {
      return NoEmittableLines;
    }
    r := LrcText(JoinLines(Header(title) + emitted) + [LF]);
  }
}
