/** What the time in front of an LRC line says, and the sample it stands for. */
module LrcTimes {
  import opened Wrappers
  import opened Schema
  import opened LyricsText
  import opened Lrc
  import opened LrcImport

  predicate AllDigits(text: Text) { forall i :: 0 <= i < |text| ==> 0x30 <= text[i] <= 0x39 }

  /** The value of one to three digits. */
  function ShortNumber(text: Text): nat
    requires AllDigits(text) && 0 < |text| <= 3
  {
    var a := text[0] as int - 0x30;
    if |text| == 1 then a
    else if |text| == 2 then 10 * a + (text[1] as int - 0x30)
    else 100 * a + 10 * (text[1] as int - 0x30) + (text[2] as int - 0x30)
  }

  /** Minutes, seconds and a fraction of up to three digits; a shorter fraction counts tenths or hundredths. */
  datatype Clock = Clock(minutes: Text, seconds: Text, fraction: Text)

  predicate ProperClock(clock: Clock) {
    && AllDigits(clock.minutes) && 0 < |clock.minutes| <= 3
    && AllDigits(clock.seconds) && |clock.seconds| == 2 && clock.seconds[0] <= 0x35
    && AllDigits(clock.fraction) && |clock.fraction| <= 3
  }

  function FractionMilliseconds(fraction: Text): nat
    requires AllDigits(fraction) && |fraction| <= 3
  {
    if fraction == [] then 0
    else if |fraction| == 1 then 100 * ShortNumber(fraction)
    else if |fraction| == 2 then 10 * ShortNumber(fraction)
    else ShortNumber(fraction)
  }

  function ClockMilliseconds(clock: Clock): nat
    requires ProperClock(clock)
  {
    60000 * ShortNumber(clock.minutes) + 1000 * ShortNumber(clock.seconds) + FractionMilliseconds(clock.fraction)
  }

  predicate IsPoint(mark: CodeUnit) { mark == DOT || mark == COLON }

  /** `[minutes:seconds]` or `[minutes:seconds.fraction]`, and the words behind it. */
  function Written(clock: Clock, mark: CodeUnit, words: Text): Text {
    [OPEN] + clock.minutes + [COLON] + clock.seconds
    + (if clock.fraction == [] then [] else [mark] + clock.fraction) + [CLOSE] + words
  }

  lemma {:induction false} RunIsCounted(text: Text, at: nat, count: nat, most: nat)
    requires at + count < |text| && count <= most && !IsDigit(text[at + count])
    requires forall i :: at <= i < at + count ==> IsDigit(text[i])
    ensures DigitRun(text, at, most) == count
    decreases count
  {
    if count > 0 {
      RunIsCounted(text, at + 1, count - 1, most - 1);
    }
  }

  lemma NumberIsRead(text: Text, at: nat, digits: Text)
    requires AllDigits(digits) && 0 < |digits| <= 3 && at + |digits| <= |text| && text[at..at + |digits|] == digits
    ensures forall i :: at <= i < at + |digits| ==> IsDigit(text[i])
    ensures Number(text, at, |digits|) == ShortNumber(digits)
  {
    forall i | 0 <= i < |digits|
      ensures text[at + i] == digits[i]
    {
      assert text[at..at + |digits|][i] == text[at + i];
    }
    assert forall i :: at <= i < at + |digits| ==> text[i] == digits[i - at];
    assert Number(text, at, 1) == Number(text, at, 0) * 10 + DigitValue(text[at]);
    if |digits| >= 2 {
      assert Number(text, at, 2) == Number(text, at, 1) * 10 + DigitValue(text[at + 1]);
    }
  }

  /** Where the parts of a written line stand. */
  ghost predicate HasParts(line: Text, clock: Clock, mark: CodeUnit, words: Text) {
    var at, digits := 2 + |clock.minutes|, |clock.fraction|;
    && |line| > at + 2 && line[0] == OPEN && line[1..1 + |clock.minutes|] == clock.minutes
    && line[at - 1] == COLON && line[at..at + 2] == clock.seconds
    && (digits == 0 ==> line[at + 2] == CLOSE && line[at + 3..] == words)
    && (digits != 0 ==>
          && |line| > at + 3 + digits && line[at + 2] == mark && line[at + 3..at + 3 + digits] == clock.fraction
          && line[at + 3 + digits] == CLOSE && line[at + 4 + digits..] == words)
  }

  lemma Parts(clock: Clock, mark: CodeUnit, words: Text)
    requires ProperClock(clock)
    ensures HasParts(Written(clock, mark, words), clock, mark, words)
  {
    var m, s, f := |clock.minutes|, clock.seconds, if clock.fraction == [] then [] else [mark] + clock.fraction;
    var line := Written(clock, mark, words);
    assert line == [OPEN] + clock.minutes + [COLON] + s + f + [CLOSE] + words;
    assert line[1 + m] == COLON;
    if clock.fraction != [] {
      assert line[4 + m] == f[0];
      assert line[5 + m..5 + m + |clock.fraction|] == f[1..];
    }
  }

  /** A time is read as what it says, with one, two or three digits of minutes and of a fraction, or without one. */
  lemma StampIsRead(clock: Clock, mark: CodeUnit, words: Text)
    requires ProperClock(clock) && IsPoint(mark)
    ensures ParseStamp(Written(clock, mark, words)) == Some(Stamp(ClockMilliseconds(clock), words))
  {
    Parts(clock, mark, words);
    PartsAreRead(Written(clock, mark, words), clock, mark, words);
  }

  lemma PartsAreRead(line: Text, clock: Clock, mark: CodeUnit, words: Text)
    requires ProperClock(clock) && IsPoint(mark) && HasParts(line, clock, mark, words)
    ensures ParseStamp(line) == Some(Stamp(ClockMilliseconds(clock), words))
  {
    FractionOfParts(line, clock, mark, words);
    HeadOfParts(line, clock, mark, words, Some(Stamp(ClockMilliseconds(clock), words)));
  }

  lemma HeadOfParts(line: Text, clock: Clock, mark: CodeUnit, words: Text, read: Option<Stamp>)
    requires ProperClock(clock) && IsPoint(mark) && HasParts(line, clock, mark, words)
             && ParseFraction(line, 4 + |clock.minutes|, WholeSeconds(clock)) == read
    ensures ParseStamp(line) == read
  {
    HeadIsRead(line, clock.minutes, clock.seconds);
  }

  function WholeSeconds(clock: Clock): nat
    requires ProperClock(clock)
  {
    ShortNumber(clock.minutes) * 60 + ShortNumber(clock.seconds)
  }

  lemma FractionOfParts(line: Text, clock: Clock, mark: CodeUnit, words: Text)
    requires ProperClock(clock) && IsPoint(mark) && HasParts(line, clock, mark, words)
    ensures ParseFraction(line, 4 + |clock.minutes|, WholeSeconds(clock))
            == Some(Stamp(WholeSeconds(clock) * 1000 + FractionMilliseconds(clock.fraction), words))
  {
    FractionIsRead(line, 4 + |clock.minutes|, WholeSeconds(clock), mark, clock.fraction, words);
  }

  lemma HeadIsRead(line: Text, minutes: Text, seconds: Text)
    requires AllDigits(minutes) && 0 < |minutes| <= 3
    requires AllDigits(seconds) && |seconds| == 2 && seconds[0] <= 0x35
    requires var at := 2 + |minutes|;
             && |line| > at + 2 && line[0] == OPEN && line[1..1 + |minutes|] == minutes
             && line[at - 1] == COLON && line[at..at + 2] == seconds && !IsDigit(line[at + 2])
    ensures ParseStamp(line)
            == ParseFraction(line, 4 + |minutes|, ShortNumber(minutes) * 60 + ShortNumber(seconds))
  {
    var at := 2 + |minutes|;
    NumberIsRead(line, 1, minutes);
    RunIsCounted(line, 1, |minutes|, 3);
    NumberIsRead(line, at, seconds);
    RunIsCounted(line, at, 2, 2);
    assert line[at] == line[at..at + 2][0];
  }

  lemma FractionIsRead(line: Text, at: nat, seconds: nat, mark: CodeUnit, fraction: Text, words: Text)
    requires AllDigits(fraction) && |fraction| <= 3 && IsPoint(mark) && at < |line|
    requires fraction == [] ==> line[at] == CLOSE && line[at + 1..] == words
    requires fraction != [] ==>
               && |line| > at + 1 + |fraction| && line[at] == mark
               && line[at + 1..at + 1 + |fraction|] == fraction
               && line[at + 1 + |fraction|] == CLOSE && line[at + 2 + |fraction|..] == words
    ensures ParseFraction(line, at, seconds) == Some(Stamp(seconds * 1000 + FractionMilliseconds(fraction), words))
  {
    if fraction != [] {
      NumberIsRead(line, at + 1, fraction);
      RunIsCounted(line, at + 1, |fraction|, 3);
    }
  }

  ghost predicate IsWritten(line: Text, clock: Clock, mark: CodeUnit, words: Text) {
    ProperClock(clock) && IsPoint(mark) && line == Written(clock, mark, words)
  }

  /** Nothing else is taken for a time. */
  lemma OnlyTimesAreRead(line: Text) returns (clock: Clock, mark: CodeUnit, words: Text)
    requires ParseStamp(line).Some?
    ensures IsWritten(line, clock, mark, words)
  {
    var m, s, seconds := OnlyHeadsAreRead(line);
    var f;
    f, mark, words := OnlyFractionsAreRead(line, 4 + |m|, seconds);
    clock := Clock(m, s, f);
    Joined(line, |m|, m, s, if f == [] then [] else [mark] + f, words);
  }

  lemma OnlyHeadsAreRead(line: Text) returns (minutes: Text, seconds: Text, whole: nat)
    requires ParseStamp(line).Some?
    ensures AllDigits(minutes) && 0 < |minutes| <= 3 && AllDigits(seconds) && |seconds| == 2 && seconds[0] <= 0x35
    ensures |line| >= 4 + |minutes| && line[0] == OPEN && minutes == line[1..1 + |minutes|]
            && line[1 + |minutes|] == COLON && seconds == line[2 + |minutes|..4 + |minutes|]
    ensures ParseFraction(line, 4 + |minutes|, whole).Some?
  {
    var n := DigitRun(line, 1, 3);
    whole := Number(line, 1, n) * 60 + Number(line, 2 + n, 2);
    minutes, seconds := line[1..1 + n], line[2 + n..4 + n];
    DigitsOf(line, 1, n);
    DigitsOf(line, 2 + n, 2);
    assert seconds[0] == line[2 + n];
  }

  lemma DigitsOf(line: Text, at: nat, count: nat)
    requires at + count <= |line| && forall i :: at <= i < at + count ==> IsDigit(line[i])
    ensures AllDigits(line[at..at + count])
  {
  }

  lemma Joined(line: Text, minutes: nat, m: Text, s: Text, f: Text, words: Text)
    requires |line| >= 4 + minutes && line[0] == OPEN && m == line[1..1 + minutes] && line[1 + minutes] == COLON
    requires s == line[2 + minutes..4 + minutes] && line[4 + minutes..] == f + [CLOSE] + words
    ensures line == [OPEN] + m + [COLON] + s + f + [CLOSE] + words
  {
    assert line == [OPEN] + m + [COLON] + s + line[4 + minutes..];
  }

  lemma OnlyFractionsAreRead(line: Text, at: nat, seconds: nat) returns (fraction: Text, mark: CodeUnit, words: Text)
    requires at <= |line| && ParseFraction(line, at, seconds).Some?
    ensures AllDigits(fraction) && |fraction| <= 3 && IsPoint(mark)
    ensures line[at..] == (if fraction == [] then [] else [mark] + fraction) + [CLOSE] + words
  {
    if line[at] == CLOSE {
      fraction, mark, words := [], DOT, line[at + 1..];
    } else {
      var digits := DigitRun(line, at + 1, 3);
      fraction, mark, words := line[at + 1..at + 1 + digits], line[at], line[at + 2 + digits..];
    }
  }

  // ----- samples

  /** The sample of a time is the nearest one, and of two equally near the later. */
  lemma SampleIsNearest(milliseconds: nat, sampleRate: nat, sample: nat)
    ensures sample == RoundedSample(milliseconds, sampleRate)
            <==> 2 * milliseconds * sampleRate - 1000 < 2000 * sample <= 2 * milliseconds * sampleRate + 1000
  {
    var doubled := 2 * milliseconds * sampleRate;
    var rounded := (doubled + 1000) / 2000;
    assert 2000 * rounded <= doubled + 1000 < 2000 * rounded + 2000;
  }

  /** A line with a time starts at the sample nearest to it, and has the words behind the time. */
  lemma LineIsRead(clock: Clock, mark: CodeUnit, words: Text, sampleRate: nat)
    requires ProperClock(clock) && IsPoint(mark)
    ensures var read := ReadLine(Written(clock, mark, words), sampleRate);
            && (read.Ok? <==> !HasSeparator(words) && !HasTag(words))
            && (read.Ok? ==>
                  && read.value.text == words
                  && 2 * ClockMilliseconds(clock) * sampleRate - 1000 < 2000 * read.value.startSample
                  && 2000 * read.value.startSample <= 2 * ClockMilliseconds(clock) * sampleRate + 1000)
  {
    StampIsRead(clock, mark, words);
    SampleIsNearest(ClockMilliseconds(clock), sampleRate, RoundedSample(ClockMilliseconds(clock), sampleRate));
  }

  /** A line is refused without a time, with a break or separator in its words, or with a time among them. */
  lemma LineIsRefused(line: Text, sampleRate: nat)
    ensures ReadLine(line, sampleRate).Err? <==>
            forall clock, mark, words :: IsWritten(line, clock, mark, words) ==> HasSeparator(words) || HasTag(words)
  {
    if ParseStamp(line).Some? {
      var clock, mark, words := OnlyTimesAreRead(line);
      StampIsRead(clock, mark, words);
    }
    forall clock, mark, words | IsWritten(line, clock, mark, words)
      ensures ParseStamp(line) == Some(Stamp(ClockMilliseconds(clock), words))
    {
      StampIsRead(clock, mark, words);
    }
  }

  // ----- spans

  /** The cues of a file are its lines, other than blank and header lines, in order. */
  ghost predicate CuesOf(lines: seq<Text>, sampleRate: nat, cues: seq<Cue>) {
    if lines == [] then cues == []
    else
      var init, line := lines[..|lines| - 1], lines[|lines| - 1];
      if Blank(line) || IsHeader(line) then CuesOf(init, sampleRate, cues)
      else cues != [] && CuesOf(init, sampleRate, cues[..|cues| - 1])
           && ReadLine(line, sampleRate) == Ok(cues[|cues| - 1])
  }

  lemma {:induction false} CuesAreLines(lines: seq<Text>, sampleRate: nat)
    ensures ReadCues(lines, sampleRate).Ok? ==> CuesOf(lines, sampleRate, ReadCues(lines, sampleRate).value)
    ensures ReadCues(lines, sampleRate).Err?
            <==> exists i :: 0 <= i < |lines| && !Skipped(lines[i]) && ReadLine(lines[i], sampleRate).Err?
  {
    if lines != [] {
      var n := |lines| - 1;
      CuesAreLines(lines[..n], sampleRate);
      assert lines == lines[..n] + [lines[n]];
      assert forall i :: 0 <= i < n ==> lines[i] == lines[..n][i];
      if ReadCues(lines, sampleRate).Ok? && !Skipped(lines[n]) {
        var cues := ReadCues(lines, sampleRate).value;
        assert cues[..|cues| - 1] == ReadCues(lines[..n], sampleRate).value;
      }
    }
  }

  /** The span of the k-th cue with words starts where the cue does and lasts to the next cue, blank or not. */
  ghost predicate Lasts(span: Option<Span>, cues: seq<Cue>, index: nat, duration: nat)
    requires index < |cues|
  {
    && span.Some? && span.value.startSample == cues[index].startSample
    && span.value.endSample == if index == |cues| - 1 then duration else cues[index + 1].startSample
  }

  ghost predicate WithWords(cues: seq<Cue>, indices: seq<nat>) {
    && (forall k :: 0 <= k < |indices| ==> indices[k] < |cues| && !Blank(cues[indices[k]].text))
    && (forall j, k :: 0 <= j < k < |indices| ==> indices[j] < indices[k])
    && (forall i :: 0 <= i < |cues| && !Blank(cues[i].text) ==> i in indices)
  }

  ghost predicate AllLast(spans: seq<Option<Span>>, cues: seq<Cue>, indices: seq<nat>, duration: nat) {
    && |spans| == |indices|
    && forall k :: 0 <= k < |spans| ==> indices[k] < |cues| && Lasts(spans[k], cues, indices[k], duration)
  }

  lemma {:induction false} SpansLast(cues: seq<Cue>, n: nat, duration: nat) returns (indices: seq<nat>)
    requires n <= |cues|
    ensures WithWords(cues[..n], indices) && AllLast(CueSpans(cues, n, duration), cues, indices, duration)
  {
    if n == 0 {
      indices := [];
    } else {
      var before := SpansLast(cues, n - 1, duration);
      indices := before + if Blank(cues[n - 1].text) then [] else [n - 1];
      OneMore(cues, n, before, indices);
      OneMoreLasts(CueSpans(cues, n - 1, duration), cues, n, before, duration);
    }
  }

  lemma OneMore(cues: seq<Cue>, n: nat, before: seq<nat>, indices: seq<nat>)
    requires 0 < n <= |cues| && WithWords(cues[..n - 1], before)
    requires indices == before + if Blank(cues[n - 1].text) then [] else [n - 1]
    ensures WithWords(cues[..n], indices)
  {
    forall i | 0 <= i < n && !Blank(cues[..n][i].text)
      ensures i in indices
    {
      assert i < n - 1 ==> cues[..n - 1][i] == cues[i] && i in before;
    }
    forall k | 0 <= k < |before|
      ensures before[k] < n - 1 && indices[k] == before[k] && cues[..n][before[k]] == cues[..n - 1][before[k]]
    {
    }
  }

  lemma OneMoreLasts(spans: seq<Option<Span>>, cues: seq<Cue>, n: nat, before: seq<nat>, duration: nat)
    requires 0 < n <= |cues| && AllLast(spans, cues, before, duration)
    ensures AllLast(spans + [Some(Span(cues[n - 1].startSample, EndOfCue(cues, n - 1, duration)))], cues,
                    before + [n - 1], duration)
    ensures AllLast(spans + [], cues, before + [], duration)
  {
    assert spans + [] == spans && before + [] == before;
  }

  /** Each cue starts before the next, and the last no later than the end, where only a blank one may start. */
  ghost predicate Follows(cues: seq<Cue>, duration: nat) {
    && cues != [] && (forall i, j :: 0 <= i < j < |cues| ==> cues[i].startSample < cues[j].startSample)
    && var last := cues[|cues| - 1];
       last.startSample <= duration && (last.startSample == duration ==> Blank(last.text))
  }

  /** What an LRC file is refused for, and the spans of its cues with words. */
  lemma LrcFileIsRead(text: Text, sampleRate: nat, duration: nat) returns (cues: seq<Cue>, indices: seq<nat>)
    ensures var lines := SplitLines(text);
            ReadLrc(text, sampleRate, duration).Ok? <==>
            && (forall i :: 0 <= i < |lines| && !Skipped(lines[i]) ==> ReadLine(lines[i], sampleRate).Ok?)
            && CuesOf(lines, sampleRate, cues) && Follows(cues, duration)
    ensures ReadLrc(text, sampleRate, duration).Ok? ==>
              var read := ReadLrc(text, sampleRate, duration).value;
              && read.text == JoinLines(CueTexts(cues)) && WithWords(cues, indices)
              && AllLast(read.timings, cues, indices, duration)
  {
    var lines := SplitLines(text);
    CuesAreLines(lines, sampleRate);
    cues, indices := [], [];
    if ReadCues(lines, sampleRate).Ok? {
      cues := ReadCues(lines, sampleRate).value;
      indices := SpansLast(cues, |cues|, duration);
      assert cues[..|cues|] == cues;
      FitsFollow(cues, duration);
    }
  }

  lemma {:induction false} StartsRise(cues: seq<Cue>, i: nat, j: nat, duration: nat)
    requires i < j < |cues| && forall index :: 0 <= index < |cues| ==> CueFits(cues, index, duration)
    ensures cues[i].startSample < cues[j].startSample
    decreases j
  {
    assert CueFits(cues, j - 1, duration);
    if i < j - 1 {
      StartsRise(cues, i, j - 1, duration);
    }
  }

  lemma FitsFollow(cues: seq<Cue>, duration: nat)
    ensures TimeCues(cues, duration).Ok? <==> Follows(cues, duration)
  {
    if cues != [] {
      if Follows(cues, duration) {
        forall index | 0 <= index < |cues|
          ensures CueFits(cues, index, duration)
        {
        }
      }
      if forall index :: 0 <= index < |cues| ==> CueFits(cues, index, duration) {
        forall i, j | 0 <= i < j < |cues|
          ensures cues[i].startSample < cues[j].startSample
        {
          StartsRise(cues, i, j, duration);
        }
        assert CueFits(cues, |cues| - 1, duration);
      }
    }
  }
}
