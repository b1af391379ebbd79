/** How subtitle files write times and cues, and that they are read as what they say. */
module SubtitleTimes {
  import opened Wrappers
  import opened Sequences
  import opened Schema
  import opened LyricsText
  import opened Lrc
  import opened LrcImport
  import opened SubtitleFile
  import LrcRoundTrip

  const HOUR := 3600000

  function ThreeDigits(n: nat): (r: Text)
    requires n < 1000
    ensures |r| == 3
  {
    [ZERO + (n / 100) as CodeUnit] + TwoDigits(n % 100)
  }

  /** `mm:ss,fff`, or with a dot. */
  function WriteMinutes(milliseconds: nat, mark: CodeUnit): (r: Text)
    requires milliseconds < HOUR
    ensures |r| == 9
  {
    TwoDigits(milliseconds / 60000) + [COLON] + TwoDigits(milliseconds / 1000 % 60) + [mark]
      + ThreeDigits(milliseconds % 1000)
  }

  /** `hh:mm:ss,fff`; the hours may be left out when there are none. */
  function WriteClock(milliseconds: nat, mark: CodeUnit, short: bool): (r: Text)
    requires milliseconds < 100 * HOUR && (short ==> milliseconds < HOUR)
    ensures 9 <= |r|
  {
    if short then WriteMinutes(milliseconds, mark)
    else TwoDigits(milliseconds / HOUR) + [COLON] + WriteMinutes(milliseconds % HOUR, mark)
  }

  predicate IsMark(mark: CodeUnit) { mark == DOT || mark == COMMA }

  lemma ThreeDigitsRead(n: nat, text: Text, at: nat)
    requires n < 1000 && at + 3 <= |text| && text[at..at + 3] == ThreeDigits(n)
    ensures DigitRun(text, at, 3) == 3 && Number(text, at, 3) == n
  {
    assert text[at] == ThreeDigits(n)[0] && text[at + 1] == ThreeDigits(n)[1] && text[at + 2] == ThreeDigits(n)[2];
    assert DigitRun(text, at + 2, 1) == 1 + DigitRun(text, at + 3, 0);
    assert DigitRun(text, at + 1, 2) == 1 + DigitRun(text, at + 2, 1);
    assert Number(text, at, 1) == Number(text, at, 0) * 10 + DigitValue(text[at]);
    assert Number(text, at, 2) == Number(text, at, 1) * 10 + DigitValue(text[at + 1]);
  }

  lemma TwoDigitsRead(n: nat, text: Text, at: nat)
    requires n < 100 && at + 2 <= |text| && text[at..at + 2] == TwoDigits(n)
    ensures DigitRun(text, at, 2) == 2 && Number(text, at, 2) == n && DigitValue(text[at]) == n / 10
  {
    LrcRoundTrip.DigitsRead(n, text, at);
    assert text[at] == TwoDigits(n)[0];
    assert DigitRun(text, at + 1, 1) == 1 + DigitRun(text, at + 2, 0);
  }

  lemma PartsInLine(line: Text, at: nat, minutes: Text, seconds: Text, mark: CodeUnit, rest: Text)
    requires |minutes| == |seconds| == 2 && |rest| == 3 && at + 9 <= |line|
    requires line[at..at + 9] == minutes + [COLON] + seconds + [mark] + rest
    ensures line[at..at + 2] == minutes && line[at + 2] == COLON
    ensures line[at + 3..at + 5] == seconds && line[at + 5] == mark && line[at + 6..at + 9] == rest
  {
    var written := line[at..at + 9];
    assert written[2] == COLON && written[5] == mark;
    assert written[0..2] == minutes && written[3..5] == seconds && written[6..9] == rest;
    SliceOfSlice(line, at, at + 9, 0, 2);
    SliceOfSlice(line, at, at + 9, 3, 5);
    SliceOfSlice(line, at, at + 9, 6, 9);
  }

  lemma MinuteParts(milliseconds: nat)
    ensures (milliseconds / 60000 * 60 + milliseconds / 1000 % 60) * 1000 + milliseconds % 1000 == milliseconds
  {
    var seconds := milliseconds / 1000;
    assert milliseconds == seconds * 1000 + milliseconds % 1000;
    assert milliseconds / 60000 == seconds / 60;
  }

  lemma MinutesAreRead(line: Text, at: nat, milliseconds: nat, mark: CodeUnit, hours: nat)
    requires milliseconds < HOUR && IsMark(mark) && at + 9 <= |line|
             && line[at..at + 9] == WriteMinutes(milliseconds, mark)
    ensures ParseMinutes(line, at, hours) == Some(Clock(hours * HOUR + milliseconds, at + 9))
  {
    var minutes, seconds := milliseconds / 60000, milliseconds / 1000 % 60;
    PartsInLine(line, at, TwoDigits(minutes), TwoDigits(seconds), mark, ThreeDigits(milliseconds % 1000));
    TwoDigitsRead(minutes, line, at);
    TwoDigitsRead(seconds, line, at + 3);
    ThreeDigitsRead(milliseconds % 1000, line, at + 6);
    MinuteParts(milliseconds);
  }

  /** A time is read as what it says, with hours or without, after a dot or a comma. */
  lemma ClockIsRead(line: Text, at: nat, milliseconds: nat, mark: CodeUnit, short: bool)
    requires milliseconds < 100 * HOUR && (short ==> milliseconds < HOUR) && IsMark(mark)
    requires var written := WriteClock(milliseconds, mark, short);
             at + |written| <= |line| && line[at..at + |written|] == written
    ensures ParseClock(line, at) == Some(Clock(milliseconds, at + |WriteClock(milliseconds, mark, short)|))
  {
    if short {
      ShortClockIsRead(line, at, milliseconds, mark);
    } else {
      LongClockIsRead(line, at, milliseconds / HOUR, milliseconds % HOUR, mark);
    }
  }

  lemma HoursInLine(line: Text, at: nat, hours: Text, rest: Text)
    requires |hours| == 2 && |rest| == 9 && at + 12 <= |line| && line[at..at + 12] == hours + [COLON] + rest
    ensures line[at..at + 2] == hours && line[at + 2] == COLON && line[at + 3..at + 12] == rest
  {
    var written := line[at..at + 12];
    assert written[2] == COLON && written[0..2] == hours && written[3..12] == rest;
    SliceOfSlice(line, at, at + 12, 0, 2);
    SliceOfSlice(line, at, at + 12, 3, 12);
  }

  lemma LongClockIsRead(line: Text, at: nat, hours: nat, rest: nat, mark: CodeUnit)
    requires hours < 100 && rest < HOUR && IsMark(mark) && at + 12 <= |line|
    requires line[at..at + 12] == TwoDigits(hours) + [COLON] + WriteMinutes(rest, mark)
    ensures ParseClock(line, at) == Some(Clock(hours * HOUR + rest, at + 12))
  {
    HoursInLine(line, at, TwoDigits(hours), WriteMinutes(rest, mark));
    LrcRoundTrip.DigitsRead(hours, line, at);
    LrcRoundTrip.TwoDigitRun(line, at, |line| - at);
    MinutesAreRead(line, at + 3, rest, mark, hours);
  }

  /** The minutes of a short time look like hours, but no second colon follows. */
  lemma ShortClockIsRead(line: Text, at: nat, milliseconds: nat, mark: CodeUnit)
    requires milliseconds < HOUR && IsMark(mark) && at + 9 <= |line|
             && line[at..at + 9] == WriteMinutes(milliseconds, mark)
    ensures ParseClock(line, at) == Some(Clock(milliseconds, at + 9))
  {
    PartsInLine(line, at, TwoDigits(milliseconds / 60000), TwoDigits(milliseconds / 1000 % 60), mark,
                ThreeDigits(milliseconds % 1000));
    LrcRoundTrip.DigitsRead(milliseconds / 60000, line, at);
    LrcRoundTrip.TwoDigitRun(line, at, |line| - at);
    MinutesAreRead(line, at, milliseconds, mark, 0);
    assert ParseMinutes(line, at + 3, Number(line, at, 2)) == None;
  }

  /** A time line is read as its two times, whatever settings follow. */
  lemma TimesAreRead(start: nat, end: nat, mark: CodeUnit, short: bool, settings: Text)
    requires start < 100 * HOUR && end < 100 * HOUR && (short ==> start < HOUR && end < HOUR) && IsMark(mark)
             && IsSettings(settings)
    ensures ParseTimes(WriteClock(start, mark, short) + ARROW + WriteClock(end, mark, short) + settings)
            == Some(Times(start, end))
  {
    var first, second := WriteClock(start, mark, short), WriteClock(end, mark, short);
    var line := first + ARROW + second + settings;
    TimesInLine(first, second, settings, line);
    ClockIsRead(line, 0, start, mark, short);
    ClockIsRead(line, |first| + |ARROW|, end, mark, short);
  }

  lemma TimesInLine(first: Text, second: Text, settings: Text, line: Text)
    requires line == first + ARROW + second + settings
    ensures line[0..|first|] == first && ArrowAt(line, |first|)
    ensures line[|first| + |ARROW|..|first| + |ARROW| + |second|] == second
            && line[|first| + |ARROW| + |second|..] == settings
  {
  }

  /** A block with a time line and lines of text, with or without a line before, is the cue it says. */
  lemma CueIsRead(name: Option<Text>, times: Text, lines: seq<Text>, sampleRate: nat)
    requires OneLine(times) && ParseTimes(times).Some?
    requires lines != [] && forall line :: line in lines ==> OneLine(line)
    requires name.Some? ==> OneLine(name.value) && !HasArrow(name.value)
    requires var block := JoinLines((if name.Some? then [name.value] else []) + [times] + lines);
             !Blank(block) && !StartsWith(block, WEBVTT) && !StartsWith(block, NOTE)
    ensures var block := JoinLines((if name.Some? then [name.value] else []) + [times] + lines);
            var read := ParseTimes(times).value;
            ReadBlock(block, sampleRate)
            == CueBlock(RoundedSample(read.start, sampleRate), RoundedSample(read.end, sampleRate),
                        PlainText(JoinLines(lines)))
  {
    var all := (if name.Some? then [name.value] else []) + [times] + lines;
    SplitUndoesJoin(all);
    assert ArrowAt(times, ParseClock(times, 0).value.end);
    var cue := if HasArrow(all[0]) then all else all[1..];
    assert cue == [times] + lines && cue[1..] == lines;
  }
}
