/** Lyrics as UTF-16 code units: white space, line breaks, splitting into lines and joining them. */
module LyricsText {
  import opened Sequences
  import opened Schema

  const TAB: CodeUnit := 0x09
  const LF: CodeUnit := 0x0A
  const CR: CodeUnit := 0x0D

  predicate IsBreak(u: CodeUnit) { u == LF || u == CR }

  /** Line separator and paragraph separator end a line for a pattern, but do not split a text. */
  predicate IsSeparator(u: CodeUnit) { u == 0x2028 || u == 0x2029 }

  /** What trimming removes. */
  predicate IsSpace(u: CodeUnit) {
    || 0x09 <= u <= 0x0D || u == 0x20 || u == 0xA0 || u == 0x1680 || 0x2000 <= u <= 0x200A
    || IsSeparator(u) || u == 0x202F || u == 0x205F || u == 0x3000 || u == 0xFEFF
  }

  predicate Blank(text: Text) { forall i :: 0 <= i < |text| ==> IsSpace(text[i]) }

  predicate IsControl(u: CodeUnit) { (u < 0x20 && u != TAB) || u == 0x7F }

  predicate HasControl(text: Text) { exists i :: 0 <= i < |text| && IsControl(text[i]) }

  predicate NoReturn(text: Text) { forall i :: 0 <= i < |text| ==> text[i] != CR }

  /** A text on one line. */
  predicate OneLine(text: Text) { forall i :: 0 <= i < |text| ==> !IsBreak(text[i]) }

  /** Where the line that starts at an offset ends. */
  function LineEnd(text: Text, at: nat): (end: nat)
    requires at <= |text|
    ensures at <= end <= |text| && (end < |text| ==> IsBreak(text[end]))
    decreases |text| - at
  {
    if at == |text| || IsBreak(text[at]) then at else LineEnd(text, at + 1)
  }

  /** CR and LF together are one line break. */
  function NextLine(text: Text, end: nat): (next: nat)
    requires end < |text|
    ensures end < next <= |text|
  {
    end + if end + 1 < |text| && text[end] == CR && text[end + 1] == LF then 2 else 1
  }

  /** The lines from an offset on. */
  function SplitFrom(text: Text, at: nat): (lines: seq<Text>)
    requires at <= |text|
    ensures lines != []
    decreases |text| - at
  {
    var end := LineEnd(text, at);
    [text[at..end]] + if end == |text| then [] else SplitFrom(text, NextLine(text, end))
  }

  function SplitLines(text: Text): (lines: seq<Text>)
    ensures lines != []
  {
    SplitFrom(text, 0)
  }

  function JoinLines(lines: seq<Text>): Text {
    if lines == [] then []
    else if |lines| == 1 then lines[0]
    else lines[0] + [LF] + JoinLines(lines[1..])
  }

  lemma {:induction false} LineEndsAfter(text: Text, at: nat, end: nat)
    requires at <= end <= |text| && OneLine(text[at..end]) && (end < |text| ==> IsBreak(text[end]))
    ensures LineEnd(text, at) == end
    decreases end - at
  {
    if at < end {
      assert text[at..end][0] == text[at];
      assert text[at + 1..end] == text[at..end][1..];
      LineEndsAfter(text, at + 1, end);
    }
  }

  lemma {:induction false} LineEndShifts(prefix: Text, text: Text, at: nat)
    requires at <= |text|
    ensures LineEnd(prefix + text, |prefix| + at) == |prefix| + LineEnd(text, at)
    decreases |text| - at
  {
    if at < |text| && !IsBreak(text[at]) {
      LineEndShifts(prefix, text, at + 1);
    }
  }

  /** Splitting from an offset does not look at what lies before it. */
  lemma {:induction false} SplitShifts(prefix: Text, text: Text, at: nat)
    requires at <= |text|
    ensures SplitFrom(prefix + text, |prefix| + at) == SplitFrom(text, at)
    decreases |text| - at
  {
    var end := LineEnd(text, at);
    LineEndShifts(prefix, text, at);
    assert (prefix + text)[|prefix| + at..|prefix| + end] == text[at..end];
    if end < |text| {
      assert NextLine(prefix + text, |prefix| + end) == |prefix| + NextLine(text, end);
      SplitShifts(prefix, text, NextLine(text, end));
    }
  }

  lemma SplitFirst(line: Text, rest: Text)
    requires OneLine(line)
    ensures SplitLines(line + [LF] + rest) == [line] + SplitLines(rest)
  {
    var text := line + [LF] + rest;
    assert text[0..|line|] == line;
    LineEndsAfter(text, 0, |line|);
    SplitShifts(line + [LF], rest, 0);
  }

  /** Splitting undoes joining. */
  lemma {:induction false} SplitUndoesJoin(lines: seq<Text>)
    requires lines != [] && forall line :: line in lines ==> OneLine(line)
    ensures SplitLines(JoinLines(lines)) == lines
  {
    if |lines| == 1 {
      assert lines[0][0..|lines[0]|] == lines[0];
      LineEndsAfter(lines[0], 0, |lines[0]|);
    } else {
      SplitUndoesJoin(lines[1..]);
      SplitFirst(lines[0], JoinLines(lines[1..]));
    }
  }

  /** A break after the last line adds an empty line. */
  lemma {:induction false} JoinThenBreak(lines: seq<Text>)
    requires lines != []
    ensures JoinLines(lines) + [LF] == JoinLines(lines + [[]])
  {
    if |lines| == 1 {
      assert (lines + [[]])[1..] == [[]];
      assert lines[0] + [LF] == lines[0] + [LF] + [];
    } else {
      JoinThenBreak(lines[1..]);
      assert (lines + [[]])[1..] == lines[1..] + [[]];
      Associate(lines[0] + [LF], JoinLines(lines[1..]), [LF]);
    }
  }
}
