/** Which lines are taken for the time line of a subtitle cue: exactly two written times and settings. */
module SubtitleClocks {
  import opened Wrappers
  import opened Sequences
  import opened Schema
  import opened Lrc
  import opened LrcImport
  import opened SubtitleFile
  import opened LrcTimes

  /** Hours of two or more digits may be written; minutes and seconds have two digits, the fraction three. */
  datatype ClockText = ClockText(hours: Option<Text>, minutes: Text, seconds: Text, mark: CodeUnit, fraction: Text)

  predicate SixtyAtMost(digits: Text) { AllDigits(digits) && |digits| == 2 && digits[0] <= 0x35 }

  predicate ProperClockText(clock: ClockText) {
    && (clock.hours.Some? ==> AllDigits(clock.hours.value) && |clock.hours.value| >= 2)
    && SixtyAtMost(clock.minutes) && SixtyAtMost(clock.seconds)
    && AllDigits(clock.fraction) && |clock.fraction| == 3
    && (clock.mark == 0x2E || clock.mark == 0x2C)
  }

  function MinutesText(clock: ClockText): Text {
    clock.minutes + [0x3A] + clock.seconds + [clock.mark] + clock.fraction
  }

  function ClockWritten(clock: ClockText): Text {
    (if clock.hours.Some? then clock.hours.value + [0x3A] else []) + MinutesText(clock)
  }

  function WholeNumber(digits: Text): nat
    requires AllDigits(digits)
  {
    if digits == [] then 0 else WholeNumber(digits[..|digits| - 1]) * 10 + (digits[|digits| - 1] as int - 0x30)
  }

  function ClockValue(clock: ClockText): nat
    requires ProperClockText(clock)
  {
    var hours := if clock.hours.Some? then WholeNumber(clock.hours.value) else 0;
    3600000 * hours + 60000 * ShortNumber(clock.minutes) + 1000 * ShortNumber(clock.seconds)
    + ShortNumber(clock.fraction)
  }

  lemma {:induction false} WholeNumberIs(line: Text, at: nat, n: nat)
    requires at + n <= |line| && forall i :: at <= i < at + n ==> IsDigit(line[i])
    ensures AllDigits(line[at..at + n]) && Number(line, at, n) == WholeNumber(line[at..at + n])
  {
    DigitsOf(line, at, n);
    if n > 0 {
      WholeNumberIs(line, at, n - 1);
      assert line[at..at + n][..n - 1] == line[at..at + n - 1];
    }
  }

  lemma {:induction false} FullRun(line: Text, at: nat, n: nat)
    requires at + n <= |line| && forall i :: at <= i < at + n ==> IsDigit(line[i])
    ensures DigitRun(line, at, n) == n
    decreases n
  {
    if n > 0 {
      FullRun(line, at + 1, n - 1);
    }
  }

  // ----- minutes, seconds and fraction

  /** The parts of a time without hours stand at a position. */
  ghost predicate PartsAt(line: Text, at: nat, minutes: Text, seconds: Text, mark: CodeUnit, fraction: Text) {
    && at + 9 <= |line| && line[at..at + 2] == minutes && line[at + 2] == COLON && line[at + 3..at + 5] == seconds
    && line[at + 5] == mark && line[at + 6..at + 9] == fraction
  }

  lemma PartsAreWritten(line: Text, at: nat, minutes: Text, seconds: Text, mark: CodeUnit, fraction: Text)
    requires |minutes| == |seconds| == 2 && |fraction| == 3 && at + 9 <= |line|
    ensures PartsAt(line, at, minutes, seconds, mark, fraction)
            <==> line[at..at + 9] == minutes + [0x3A] + seconds + [mark] + fraction
  {
    var all, whole := minutes + [0x3A] + seconds + [mark] + fraction, line[at..at + 9];
    assert all[..2] == minutes && all[2] == 0x3A && all[3..5] == seconds && all[5] == mark && all[6..] == fraction;
    SliceOfSlice(line, at, at + 9, 0, 2);
    SliceOfSlice(line, at, at + 9, 3, 5);
    SliceOfSlice(line, at, at + 9, 6, 9);
    assert whole[..2] == whole[0..2] && whole[6..] == whole[6..9];
    assert whole[2] == line[at + 2] && whole[5] == line[at + 5];
    if PartsAt(line, at, minutes, seconds, mark, fraction) {
      assert whole == whole[..2] + [whole[2]] + whole[3..5] + [whole[5]] + whole[6..];
    }
  }

  lemma MinutesAreParsed(line: Text, at: nat, clock: ClockText, hours: nat)
    requires ProperClockText(clock)
             && PartsAt(line, at, clock.minutes, clock.seconds, clock.mark, clock.fraction)
    ensures ParseMinutes(line, at, hours)
            == Some(SubtitleFile.Clock(3600000 * hours + 60000 * ShortNumber(clock.minutes)
                                       + 1000 * ShortNumber(clock.seconds) + ShortNumber(clock.fraction), at + 9))
  {
    LrcTimes.NumberIsRead(line, at, clock.minutes);
    LrcTimes.NumberIsRead(line, at + 3, clock.seconds);
    LrcTimes.NumberIsRead(line, at + 6, clock.fraction);
    FullRun(line, at, 2);
    FullRun(line, at + 3, 2);
    FullRun(line, at + 6, 3);
    assert line[at] == clock.minutes[0] && line[at + 3] == clock.seconds[0];
  }

  lemma OnlyMinutesAreParsed(line: Text, at: nat, hours: nat, written: Option<Text>) returns (clock: ClockText)
    requires at <= |line| && ParseMinutes(line, at, hours).Some?
    requires written.Some? ==> AllDigits(written.value) && |written.value| >= 2
    ensures clock.hours == written && ProperClockText(clock)
            && PartsAt(line, at, clock.minutes, clock.seconds, clock.mark, clock.fraction)
  {
    DigitsOf(line, at, 2);
    DigitsOf(line, at + 3, 2);
    DigitsOf(line, at + 6, 3);
    clock := ClockText(written, line[at..at + 2], line[at + 3..at + 5], line[at + 5], line[at + 6..at + 9]);
    assert clock.minutes[0] == line[at] && clock.seconds[0] == line[at + 3];
  }

  // ----- a whole time

  ghost predicate ClockAt(line: Text, at: nat, clock: ClockText) {
    at + |ClockWritten(clock)| <= |line| && line[at..at + |ClockWritten(clock)|] == ClockWritten(clock)
  }

  ghost predicate HoursAt(line: Text, at: nat, clock: ClockText, n: nat) {
    && clock.hours.Some? && n == |clock.hours.value| && at + n + 10 <= |line|
    && line[at..at + n] == clock.hours.value && line[at + n] == COLON
    && PartsAt(line, at + n + 1, clock.minutes, clock.seconds, clock.mark, clock.fraction)
  }

  lemma HoursStand(line: Text, at: nat, clock: ClockText)
    requires ProperClockText(clock) && clock.hours.Some? && at + |clock.hours.value| + 10 <= |line|
    ensures ClockAt(line, at, clock) <==> HoursAt(line, at, clock, |clock.hours.value|)
  {
    var n := |clock.hours.value|;
    PartsAreWritten(line, at + n + 1, clock.minutes, clock.seconds, clock.mark, clock.fraction);
    ThreeParts(line, at, clock.hours.value, MinutesText(clock));
    WrittenLength(clock);
  }

  lemma WrittenLength(clock: ClockText)
    requires ProperClockText(clock) && clock.hours.Some?
    ensures |ClockWritten(clock)| == |clock.hours.value| + 10
  {
  }

  lemma ThreeParts(line: Text, at: nat, first: Text, rest: Text)
    requires at + |first| + 1 + |rest| <= |line|
    ensures var n, end := at + |first|, at + |first| + 1 + |rest|;
            line[at..end] == first + [0x3A] + rest
            <==> line[at..n] == first && line[n] == 0x3A && line[n + 1..end] == rest
  {
    var n, end, all := at + |first|, at + |first| + 1 + |rest|, first + [0x3A] + rest;
    assert all[..|first|] == first && all[|first|] == 0x3A && all[|first| + 1..] == rest;
    var whole := line[at..end];
    assert whole[..|first|] == line[at..n] && whole[|first|] == line[n] && whole[|first| + 1..] == line[n + 1..end];
    assert whole == whole[..|first|] + [whole[|first|]] + whole[|first| + 1..];
  }

  lemma NoHoursStand(line: Text, at: nat, clock: ClockText)
    requires ProperClockText(clock) && clock.hours == None && at + 9 <= |line|
    ensures ClockAt(line, at, clock)
            <==> PartsAt(line, at, clock.minutes, clock.seconds, clock.mark, clock.fraction)
  {
    PartsAreWritten(line, at, clock.minutes, clock.seconds, clock.mark, clock.fraction);
    assert ClockWritten(clock) == [] + MinutesText(clock) == MinutesText(clock);
  }

  /** A written time is read as its value, however many digits its hours have. */
  lemma ClockIsParsed(line: Text, at: nat, clock: ClockText)
    requires ProperClockText(clock) && ClockAt(line, at, clock)
    ensures ParseClock(line, at) == Some(SubtitleFile.Clock(ClockValue(clock), at + |ClockWritten(clock)|))
  {
    if clock.hours.Some? {
      HoursAreParsed(line, at, clock);
    } else {
      NoHoursAreParsed(line, at, clock);
    }
  }

  lemma DigitsStand(line: Text, at: nat, digits: Text)
    requires AllDigits(digits) && at + |digits| <= |line| && line[at..at + |digits|] == digits
    ensures forall i :: at <= i < at + |digits| ==> IsDigit(line[i])
  {
    forall i | at <= i < at + |digits|
      ensures IsDigit(line[i])
    {
      assert line[i] == line[at..at + |digits|][i - at];
    }
  }

  lemma HoursAreParsed(line: Text, at: nat, clock: ClockText)
    requires ProperClockText(clock) && ClockAt(line, at, clock) && clock.hours.Some?
    ensures ParseClock(line, at) == Some(SubtitleFile.Clock(ClockValue(clock), at + |ClockWritten(clock)|))
  {
    WrittenLength(clock);
    WrittenLength(clock);
    HoursStand(line, at, clock);
    StandingHoursAreParsed(line, at, clock, |clock.hours.value|);
  }

  lemma StandingHoursAreParsed(line: Text, at: nat, clock: ClockText, n: nat)
    requires ProperClockText(clock) && HoursAt(line, at, clock, n)
    ensures ParseClock(line, at) == Some(SubtitleFile.Clock(ClockValue(clock), at + n + 10))
  {
    DigitsStand(line, at, clock.hours.value);
    RunIsCounted(line, at, n, |line| - at);
    WholeNumberIs(line, at, n);
    MinutesAreParsed(line, at + n + 1, clock, WholeNumber(clock.hours.value));
    HoursComeFirst(line, at, n, SubtitleFile.Clock(ClockValue(clock), at + n + 10));
  }

  lemma HoursComeFirst(line: Text, at: nat, n: nat, read: SubtitleFile.Clock)
    requires at + n < |line| && n >= 2 && DigitRun(line, at, |line| - at) == n && line[at + n] == COLON
    requires ParseMinutes(line, at + n + 1, Number(line, at, n)) == Some(read)
    ensures ParseClock(line, at) == Some(read)
  {
  }

  lemma NoHoursAreParsed(line: Text, at: nat, clock: ClockText)
    requires ProperClockText(clock) && ClockAt(line, at, clock) && clock.hours == None
    ensures ParseClock(line, at) == Some(SubtitleFile.Clock(ClockValue(clock), at + 9))
  {
    NoHoursStand(line, at, clock);
    DigitsStand(line, at, clock.minutes);
    RunIsCounted(line, at, 2, |line| - at);
    MinutesAreParsed(line, at, clock, 0);
    assert ParseMinutes(line, at + 3, Number(line, at, 2)) == None;
  }

  /** Nothing else is read as a time. */
  lemma OnlyClocksAreParsed(line: Text, at: nat) returns (clock: ClockText)
    requires at <= |line| && ParseClock(line, at).Some?
    ensures ProperClockText(clock) && ClockAt(line, at, clock)
  {
    var n := DigitRun(line, at, |line| - at);
    if n >= 2 && at + n < |line| && line[at + n] == COLON
       && ParseMinutes(line, at + n + 1, Number(line, at, n)).Some? {
      DigitsOf(line, at, n);
      clock := OnlyMinutesAreParsed(line, at + n + 1, Number(line, at, n), Some(line[at..at + n]));
      HoursStand(line, at, clock);
    } else {
      clock := OnlyMinutesAreParsed(line, at, 0, None);
      NoHoursStand(line, at, clock);
    }
  }

  /** A time is written from one position to another. */
  ghost predicate IsClock(line: Text, at: nat, value: nat, end: nat) {
    exists clock :: ProperClockText(clock) && ClockAt(line, at, clock) && ClockValue(clock) == value
      && end == at + |ClockWritten(clock)|
  }

  lemma ReadIsAClock(line: Text, at: nat, read: SubtitleFile.Clock)
    requires at <= |line| && ParseClock(line, at) == Some(read)
    ensures IsClock(line, at, read.milliseconds, read.end)
  {
    var clock := OnlyClocksAreParsed(line, at);
    ClockIsParsed(line, at, clock);
  }

  /** A time is read exactly where one is written. */
  lemma ClocksAreRead(line: Text, at: nat, value: nat, end: nat)
    requires at <= |line|
    ensures ParseClock(line, at) == Some(SubtitleFile.Clock(value, end)) <==> IsClock(line, at, value, end)
  {
    if ParseClock(line, at) == Some(SubtitleFile.Clock(value, end)) {
      ReadIsAClock(line, at, SubtitleFile.Clock(value, end));
    }
    if clock :| ProperClockText(clock) && ClockAt(line, at, clock) && ClockValue(clock) == value
                && end == at + |ClockWritten(clock)| {
      ClockIsParsed(line, at, clock);
    }
  }

  // ----- the time line

  /** Nothing, or a space or tab and a rest that stays on the line. */
  ghost predicate ProperSettings(settings: Text) {
    settings != [] ==>
      && (settings[0] == 0x20 || settings[0] == 0x09)
      && forall i :: 0 <= i < |settings| ==> settings[i] !in {0x0A, 0x0D, 0x2028, 0x2029}
  }

  lemma SettingsAre(settings: Text)
    ensures IsSettings(settings) <==> ProperSettings(settings)
  {
  }

  /** A time, an arrow between spaces, another time, and settings. */
  ghost predicate IsTimeLine(line: Text, times: Times, n: nat, m: nat) {
    && n + 5 <= m <= |line|
    && IsClock(line, 0, times.start, n) && line[n..n + 5] == [0x20, 0x2D, 0x2D, 0x3E, 0x20]
    && IsClock(line, n + 5, times.end, m) && ProperSettings(line[m..])
  }

  lemma TimesFrom(line: Text, start: SubtitleFile.Clock, end: SubtitleFile.Clock)
    requires ParseClock(line, 0) == Some(start) && ArrowAt(line, start.end)
             && ParseClock(line, start.end + |ARROW|) == Some(end) && IsSettings(line[end.end..])
    ensures ParseTimes(line) == Some(Times(start.milliseconds, end.milliseconds))
  {
  }

  lemma TimesTo(line: Text) returns (start: SubtitleFile.Clock, end: SubtitleFile.Clock)
    requires ParseTimes(line).Some?
    ensures ParseClock(line, 0) == Some(start) && ArrowAt(line, start.end)
            && ParseClock(line, start.end + |ARROW|) == Some(end) && IsSettings(line[end.end..])
    ensures ParseTimes(line) == Some(Times(start.milliseconds, end.milliseconds))
  {
    start := ParseClock(line, 0).value;
    end := ParseClock(line, start.end + |ARROW|).value;
  }

  /** A line is read as two times exactly when it writes them, with an arrow between and only settings behind them. */
  lemma TimeLinesAreRead(line: Text, times: Times)
    ensures ParseTimes(line) == Some(times) <==> exists n: nat, m: nat :: IsTimeLine(line, times, n, m)
  {
    if ParseTimes(line) == Some(times) {
      ReadIsATimeLine(line, times);
    }
    if n: nat, m: nat :| IsTimeLine(line, times, n, m) {
      TimeLineIsRead(line, times, n, m);
    }
  }

  lemma ReadIsATimeLine(line: Text, times: Times)
    requires ParseTimes(line) == Some(times)
    ensures exists n: nat, m: nat :: IsTimeLine(line, times, n, m)
  {
    var start, end := TimesTo(line);
    ArrowStands(line, start.end);
    TimesStand(line, start, end);
  }

  lemma ArrowStands(line: Text, at: nat)
    requires at <= |line| && ArrowAt(line, at)
    ensures at + 5 <= |line| && line[at..at + 5] == [0x20, 0x2D, 0x2D, 0x3E, 0x20]
  {
  }

  lemma TimesStand(line: Text, start: SubtitleFile.Clock, end: SubtitleFile.Clock)
    requires start.end + 5 <= end.end <= |line| && line[start.end..start.end + 5] == [0x20, 0x2D, 0x2D, 0x3E, 0x20]
    requires ParseClock(line, 0) == Some(start) && ParseClock(line, start.end + 5) == Some(end)
    requires IsSettings(line[end.end..])
    ensures IsTimeLine(line, Times(start.milliseconds, end.milliseconds), start.end, end.end)
  {
    ReadIsAClock(line, 0, start);
    ReadIsAClock(line, start.end + 5, end);
    SettingsAre(line[end.end..]);
  }

  lemma TimeLineIsRead(line: Text, times: Times, n: nat, m: nat)
    requires IsTimeLine(line, times, n, m)
    ensures ParseTimes(line) == Some(times)
  {
    ClocksAreRead(line, 0, times.start, n);
    ClocksAreRead(line, n + 5, times.end, m);
    SettingsAre(line[m..]);
    TimesFrom(line, SubtitleFile.Clock(times.start, n), SubtitleFile.Clock(times.end, m));
  }
}
