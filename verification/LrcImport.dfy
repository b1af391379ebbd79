/** Reading LRC files, and what survives printing one and reading it back. */
module LrcImport {
  import opened Wrappers
  import opened Schema
  import opened LyricsText
  import opened Lrc

  // ----- one line

  predicate IsDigit(u: CodeUnit) { ZERO <= u <= ZERO + 9 }

  function DigitValue(u: CodeUnit): nat
    requires IsDigit(u)
  {
    u as int - ZERO as int
  }

  /** The number of digits at a position, counted no further than a limit. */
  function DigitRun(text: Text, at: nat, most: nat): (n: nat)
    requires at <= |text|
    ensures n <= most && at + n <= |text| && forall i :: at <= i < at + n ==> IsDigit(text[i])
    decreases most
  {
    if most == 0 || at == |text| || !IsDigit(text[at]) then 0 else 1 + DigitRun(text, at + 1, most - 1)
  }

  function Number(text: Text, at: nat, count: nat): nat
    requires at + count <= |text| && forall i :: at <= i < at + count ==> IsDigit(text[i])
  {
    if count == 0 then 0 else Number(text, at, count - 1) * 10 + DigitValue(text[at + count - 1])
  }

  /** A time in milliseconds, and the text after it. */
  datatype Stamp = Stamp(milliseconds: nat, rest: Text)

  /** `[m:ss]` with up to three digits of minutes, and up to three of a fraction after a dot or a colon. */
  function ParseStamp(line: Text): Option<Stamp> {
    if line == [] || line[0] != OPEN then None
    else
      var minutes := DigitRun(line, 1, 3);
      if minutes == 0 || 1 + minutes == |line| || line[1 + minutes] != COLON then None
      else
        var at := 2 + minutes;
        if DigitRun(line, at, 2) != 2 || DigitValue(line[at]) > 5 then None
        else ParseFraction(line, at + 2, Number(line, 1, minutes) * 60 + Number(line, at, 2))
  }

  function ParseFraction(line: Text, at: nat, seconds: nat): Option<Stamp>
    requires at <= |line|
  {
    if at == |line| then None
    else if line[at] == CLOSE then Some(Stamp(seconds * 1000, line[at + 1..]))
    else if line[at] != DOT && line[at] != COLON then None
    else
      var digits := DigitRun(line, at + 1, 3);
      var end := at + 1 + digits;
      if digits == 0 || end == |line| || line[end] != CLOSE then None
      else
        var fraction := Number(line, at + 1, digits);
        var milliseconds := if digits == 1 then fraction * 100 else if digits == 2 then fraction * 10 else fraction;
        Some(Stamp(seconds * 1000 + milliseconds, line[end + 1..]))
  }

  predicate HasSeparator(text: Text) {
    exists i :: 0 <= i < |text| && (IsSeparator(text[i]) || IsBreak(text[i]))
  }

  /** A word time such as `<0:12` or `[0:12` in the middle of a line. */
  predicate TagAt(text: Text, at: nat)
    requires at < |text|
  {
    && (text[at] == OPEN || text[at] == LESS)
    && var minutes := DigitRun(text, at + 1, 3);
       minutes > 0 && at + 1 + minutes < |text| && text[at + 1 + minutes] == COLON
       && DigitRun(text, at + 2 + minutes, 2) == 2
  }

  predicate HasTag(text: Text) { exists at :: 0 <= at < |text| && TagAt(text, at) }

  /** ar, al, ti, au, by, re, ve, length */
  const TAGS: seq<Text> := [
    [0x61, 0x72], [0x61, 0x6C], [0x74, 0x69], [0x61, 0x75], [0x62, 0x79], [0x72, 0x65], [0x76, 0x65],
    [0x6C, 0x65, 0x6E, 0x67, 0x74, 0x68]]

  predicate OpensWith(line: Text, tag: Text) {
    var open := [OPEN] + tag + [COLON];
    && open <= line && |open| < |line| && line[|line| - 1] == CLOSE
    && forall i :: |open| <= i < |line| - 1 ==> line[i] != CLOSE
  }

  predicate IsHeader(line: Text) {
    exists k :: 0 <= k < |TAGS| && OpensWith(line, TAGS[k])
  }

  // ----- the file

  datatype Cue = Cue(text: Text, startSample: nat)
  datatype Span = Span(startSample: nat, endSample: nat)
  datatype Imported = Imported(text: Text, timings: seq<Option<Span>>)

  /** Half a sample rounds up. */
  function RoundedSample(milliseconds: nat, sampleRate: nat): nat {
    (2 * milliseconds * sampleRate + 1000) / 2000
  }

  predicate Skipped(line: Text) { Blank(line) || IsHeader(line) }

  function ReadLine(line: Text, sampleRate: nat): Result<Cue> {
    var stamp := ParseStamp(line);
    if stamp == None || HasSeparator(stamp.value.rest) || HasTag(stamp.value.rest) then Err
    else Ok(Cue(stamp.value.rest, RoundedSample(stamp.value.milliseconds, sampleRate)))
  }

  function ReadCues(lines: seq<Text>, sampleRate: nat): Result<seq<Cue>> {
    if lines == [] then Ok([])
    else
      var before := ReadCues(lines[..|lines| - 1], sampleRate);
      var line := lines[|lines| - 1];
      if before.Err? || Skipped(line) then before
      else
        var cue := ReadLine(line, sampleRate);
        if cue.Err? then Err else Ok(before.value + [cue.value])
  }

  function EndOfCue(cues: seq<Cue>, index: nat, duration: nat): nat
    requires index < |cues|
  {
    if index + 1 < |cues| then cues[index + 1].startSample else duration
  }

  predicate CueFits(cues: seq<Cue>, index: nat, duration: nat)
    requires index < |cues|
  {
    var cue, end := cues[index], EndOfCue(cues, index, duration);
    var terminal := index == |cues| - 1 && Blank(cue.text) && cue.startSample == duration;
    (terminal || cue.startSample < end) && end <= duration
  }

  function CueTexts(cues: seq<Cue>): (r: seq<Text>)
    ensures |r| == |cues| && forall i :: 0 <= i < |r| ==> r[i] == cues[i].text
  {
    seq(|cues|, i requires 0 <= i < |cues| => cues[i].text)
  }

  /** The spans of the cues with words. */
  function CueSpans(cues: seq<Cue>, n: nat, duration: nat): seq<Option<Span>>
    requires n <= |cues|
  {
    if n == 0 then []
    else
      CueSpans(cues, n - 1, duration)
      + if Blank(cues[n - 1].text) then []
        else [Some(Span(cues[n - 1].startSample, EndOfCue(cues, n - 1, duration)))]
  }

  function TimeCues(cues: seq<Cue>, duration: nat): Result<Imported> {
    if cues == [] || exists index :: 0 <= index < |cues| && !CueFits(cues, index, duration) then Err
    else Ok(Imported(JoinLines(CueTexts(cues)), CueSpans(cues, |cues|, duration)))
  }

  function ReadLrc(text: Text, sampleRate: nat, duration: nat): Result<Imported> {
    var cues := ReadCues(SplitLines(text), sampleRate);
    if cues.Err? then Err else TimeCues(cues.value, duration)
  }

  method CollectCues(lines: seq<Text>, sampleRate: nat) returns (r: Result<seq<Cue>>)
    ensures r == ReadCues(lines, sampleRate)
  {
    var cues: seq<Cue> := [];
    for n := 0 to |lines|
      invariant ReadCues(lines[..n], sampleRate) == Ok(cues)
    {
      assert lines[..n + 1][..n] == lines[..n];
      if !Skipped(lines[n]) {
        var cue := ReadLine(lines[n], sampleRate);
        if cue.Err? {
          ErrorsStay(lines, n + 1, sampleRate);
          return Err;
        }
        cues := cues + [cue.value];
      }
    }
    assert lines[..|lines|] == lines;
    r := Ok(cues);
  }

  method ImportLrc(text: Text, sampleRate: nat, duration: nat) returns (r: Result<Imported>)
    ensures r == ReadLrc(text, sampleRate, duration)
  {
    var cues := CollectCues(SplitLines(text), sampleRate);
    if cues.Err? || cues.value == [] {
      return Err;
    }
    r := AssignSpans(cues.value, duration);
  }

  lemma {:induction false} ErrorsStay(lines: seq<Text>, n: nat, sampleRate: nat)
    requires n <= |lines| && ReadCues(lines[..n], sampleRate).Err?
    ensures ReadCues(lines, sampleRate).Err?
    decreases |lines|
  {
    if n < |lines| {
      var init := lines[..|lines| - 1];
      assert init[..n] == lines[..n];
      ErrorsStay(init, n, sampleRate);
    } else {
      assert lines[..n] == lines;
    }
  }

  method AssignSpans(cues: seq<Cue>, duration: nat) returns (r: Result<Imported>)
    requires cues != []
    ensures r == TimeCues(cues, duration)
  {
    var timings := [];
    for index := 0 to |cues|
      invariant timings == CueSpans(cues, index, duration)
      invariant forall i :: 0 <= i < index ==> CueFits(cues, i, duration)
    {
      if !CueFits(cues, index, duration) {
        return Err;
      }
      if !Blank(cues[index].text) {
        timings := timings + [Some(Span(cues[index].startSample, EndOfCue(cues, index, duration)))];
      }
    }
    r := Ok(Imported(JoinLines(CueTexts(cues)), timings));
  }
}
