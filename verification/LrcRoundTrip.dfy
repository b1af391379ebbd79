/** Printing lyrics as LRC and reading them back: what comes back, exactly when, and how much earlier. */
module LrcRoundTrip {
  import opened Wrappers
  import opened Sequences
  import opened Schema
  import opened Invariants
  import opened ProjectRules
  import opened LeadSheetRows
  import opened LeadSheetTracks
  import opened LyricsText
  import opened Lrc
  import opened LrcImport

  // ----- one line

  lemma DigitsRead(n: nat, text: Text, at: nat)
    requires n < 100 && at + 2 <= |text| && text[at..at + 2] == TwoDigits(n)
    ensures IsDigit(text[at]) && IsDigit(text[at + 1])
    ensures Number(text, at, 2) == n
  {
    assert text[at] == TwoDigits(n)[0] && text[at + 1] == TwoDigits(n)[1];
    assert Number(text, at, 1) == Number(text, at, 0) * 10 + DigitValue(text[at]);
  }

  lemma TwoDigitRun(text: Text, at: nat, most: nat)
    requires at + 2 < |text| && IsDigit(text[at]) && IsDigit(text[at + 1]) && !IsDigit(text[at + 2]) && most >= 2
    ensures DigitRun(text, at, most) == 2
  {
    assert DigitRun(text, at + 1, most - 1) == 1 + DigitRun(text, at + 2, most - 2);
  }

  lemma ClockParts(centiseconds: nat)
    requires centiseconds < MAX_CENTISECONDS
    ensures centiseconds / 6000 < 100
    ensures (centiseconds / 6000 * 60 + centiseconds / 100 % 60) * 1000 + centiseconds % 100 * 10 == centiseconds * 10
  {
    var wholeSeconds := centiseconds / 100;
    assert centiseconds == wholeSeconds * 100 + centiseconds % 100;
    assert centiseconds / 6000 == wholeSeconds / 60;
  }

  /** A printed stamp is read as the same time, with the same text after it. */
  lemma StampReadsBack(centiseconds: nat, text: Text)
    requires centiseconds < MAX_CENTISECONDS
    ensures ParseStamp(Timestamp(centiseconds) + text) == Some(Stamp(centiseconds * 10, text))
  {
    var line := Timestamp(centiseconds) + text;
    var minutes, seconds, fraction := centiseconds / 6000, centiseconds / 100 % 60, centiseconds % 100;
    ClockParts(centiseconds);
    assert line[1..3] == TwoDigits(minutes);
    assert line[4..6] == TwoDigits(seconds);
    assert line[7..9] == TwoDigits(fraction);
    DigitsRead(minutes, line, 1);
    DigitsRead(seconds, line, 4);
    DigitsRead(fraction, line, 7);
    assert line[3] == COLON && line[6] == DOT && line[9] == CLOSE;
    TwoDigitRun(line, 1, 3);
    TwoDigitRun(line, 4, 2);
    TwoDigitRun(line, 7, 3);
    assert line[10..] == text;
    FractionReadsBack(line, minutes * 60 + seconds, fraction, text);
  }

  lemma FractionReadsBack(line: Text, seconds: nat, fraction: nat, text: Text)
    requires |line| > 9 && line[6] == DOT && line[9] == CLOSE && line[10..] == text
    requires DigitRun(line, 7, 3) == 2 && Number(line, 7, 2) == fraction
    ensures ParseFraction(line, 6, seconds) == Some(Stamp(seconds * 1000 + fraction * 10, text))
  {
  }

  lemma PrintedLineIsNotSkipped(line: Stamped)
    requires line.centiseconds < MAX_CENTISECONDS
    ensures !Skipped(PrintLine(line))
  {
    var printed := PrintLine(line);
    assert printed[0] == OPEN && !IsSpace(printed[0]);
    assert printed[1] == TwoDigits(line.centiseconds / 6000)[0];
    forall k | 0 <= k < |TAGS|
      ensures !OpensWith(printed, TAGS[k])
    {
      var open := [OPEN] + TAGS[k] + [COLON];
      assert open[1] == TAGS[k][0];
      assert printed[1] != open[1];
    }
  }

  /** The sample a printed line starts at when it is read back. */
  function Reread(line: Stamped, sampleRate: nat): nat {
    (line.centiseconds * sampleRate + 50) / 100
  }

  lemma RereadIsRounded(line: Stamped, sampleRate: nat)
    ensures RoundedSample(line.centiseconds * 10, sampleRate) == Reread(line, sampleRate)
  {
    var product := line.centiseconds * sampleRate;
    assert 2 * (line.centiseconds * 10) * sampleRate == 20 * product;
    assert (20 * product + 1000) / 2000 == (product + 50) / 100;
  }

  predicate PlainText(text: Text) { !HasSeparator(text) && !HasTag(text) }

  lemma LineReadsBack(line: Stamped, sampleRate: nat)
    requires line.centiseconds < MAX_CENTISECONDS
    ensures ReadLine(PrintLine(line), sampleRate)
            == if PlainText(line.text) then Ok(Cue(line.text, Reread(line, sampleRate))) else Err
  {
    StampReadsBack(line.centiseconds, line.text);
    RereadIsRounded(line, sampleRate);
  }

  // ----- the whole file

  lemma {:induction false} SafeTitleIsSafe(title: Text)
    ensures forall i :: 0 <= i < |SafeTitle(title)| ==> !IsControl(SafeTitle(title)[i]) && SafeTitle(title)[i] != CLOSE
  {
    if title != [] {
      SafeTitleIsSafe(title[1..]);
    }
  }

  lemma HeaderIsSkipped(title: Text, line: Text)
    requires line in Header(title)
    ensures OneLine(line) && Skipped(line)
  {
    var safe := SafeTitle(title);
    SafeTitleIsSafe(title);
    var open := [OPEN] + TAGS[2] + [COLON];
    assert line == open + safe + [CLOSE];
    assert line[..|open|] == open;
    forall i | |open| <= i < |line| - 1
      ensures line[i] != CLOSE
    {
      assert line[i] == safe[i - |open|];
    }
    assert OpensWith(line, TAGS[2]);
  }

  lemma PrintedLineIsOneLine(line: Stamped)
    requires line.centiseconds < MAX_CENTISECONDS && !HasControl(line.text)
    ensures OneLine(PrintLine(line))
  {
    var stamp := Timestamp(line.centiseconds);
    forall i | 0 <= i < |PrintLine(line)|
      ensures !IsBreak(PrintLine(line)[i])
    {
      if i >= |stamp| {
        assert PrintLine(line)[i] == line.text[i - |stamp|];
        assert !IsControl(line.text[i - |stamp|]);
      } else {
        StampIsOneLine(line.centiseconds);
        assert PrintLine(line)[i] == stamp[i];
      }
    }
  }

  lemma StampIsOneLine(centiseconds: nat)
    requires centiseconds < MAX_CENTISECONDS
    ensures OneLine(Timestamp(centiseconds))
  {
  }

  lemma FileSplits(title: Text, lines: seq<Stamped>)
    requires AllPrintable(lines) && lines != []
    ensures SplitLines(PrintFile(title, lines)) == Header(title) + PrintLines(lines) + [[]]
  {
    var all := Header(title) + PrintLines(lines);
    JoinThenBreak(all);
    forall line | line in all + [[]]
      ensures OneLine(line)
    {
      if line in Header(title) {
        HeaderIsSkipped(title, line);
      } else if line in PrintLines(lines) {
        var k :| 0 <= k < |lines| && PrintLines(lines)[k] == line;
        assert lines[k] in lines;
        PrintedLineIsOneLine(lines[k]);
      }
    }
    SplitUndoesJoin(all + [[]]);
  }

  function RereadCues(lines: seq<Stamped>, sampleRate: nat): (r: seq<Cue>)
    ensures |r| == |lines| && forall i :: 0 <= i < |r| ==> r[i] == Cue(lines[i].text, Reread(lines[i], sampleRate))
  {
    seq(|lines|, i requires 0 <= i < |lines| => Cue(lines[i].text, Reread(lines[i], sampleRate)))
  }

  ghost predicate Plain(lines: seq<Stamped>) {
    forall line :: line in lines ==> PlainText(line.text)
  }

  lemma ReadCuesSnoc(lines: seq<Text>, line: Text, sampleRate: nat)
    ensures ReadCues(lines + [line], sampleRate)
            == var before := ReadCues(lines, sampleRate);
               if before.Err? || Skipped(line) then before
               else
                 var cue := ReadLine(line, sampleRate);
                 if cue.Err? then Err else Ok(before.value + [cue.value])
  {
    assert (lines + [line])[..|lines|] == lines;
  }

  lemma HeaderHasNoCues(title: Text, sampleRate: nat)
    ensures ReadCues(Header(title), sampleRate) == Ok([])
  {
    if SafeTitle(title) != [] {
      HeaderIsSkipped(title, Header(title)[0]);
      ReadCuesSnoc([], Header(title)[0], sampleRate);
      assert [] + [Header(title)[0]] == Header(title);
    }
  }

  /** What reading has found so far, when the file is a printed one. */
  ghost function Found(lines: seq<Stamped>, sampleRate: nat): Result<seq<Cue>> {
    if Plain(lines) then Ok(RereadCues(lines, sampleRate)) else Err
  }

  lemma FoundSnoc(lines: seq<Stamped>, line: Stamped, sampleRate: nat)
    ensures Found(lines + [line], sampleRate)
            == if Plain(lines) && PlainText(line.text)
               then Ok(RereadCues(lines, sampleRate) + [Cue(line.text, Reread(line, sampleRate))]) else Err
  {
    assert line in lines + [line];
    assert forall earlier :: earlier in lines ==> earlier in lines + [line];
    assert RereadCues(lines + [line], sampleRate)
        == RereadCues(lines, sampleRate) + [Cue(line.text, Reread(line, sampleRate))];
  }

  lemma OneMoreReadsBack(before: seq<Text>, lines: seq<Stamped>, line: Stamped, sampleRate: nat)
    requires line.centiseconds < MAX_CENTISECONDS
    requires ReadCues(before, sampleRate) == Found(lines, sampleRate)
    ensures ReadCues(before + [PrintLine(line)], sampleRate) == Found(lines + [line], sampleRate)
  {
    ReadCuesSnoc(before, PrintLine(line), sampleRate);
    PrintedLineIsNotSkipped(line);
    LineReadsBack(line, sampleRate);
    FoundSnoc(lines, line, sampleRate);
  }

  lemma {:induction false} PrintedLinesReadBack(title: Text, lines: seq<Stamped>, sampleRate: nat)
    requires AllPrintable(lines)
    ensures ReadCues(Header(title) + PrintLines(lines), sampleRate) == Found(lines, sampleRate)
    decreases |lines|
  {
    if lines == [] {
      HeaderHasNoCues(title, sampleRate);
      assert Header(title) + PrintLines(lines) == Header(title);
    } else {
      var init, last, before := LastLineApart(Header(title), lines);
      PrintedLinesReadBack(title, init, sampleRate);
      OneMoreReadsBack(before, init, last, sampleRate);
    }
  }

  lemma LastLineApart(header: seq<Text>, lines: seq<Stamped>)
    returns (init: seq<Stamped>, last: Stamped, before: seq<Text>)
    requires AllPrintable(lines) && lines != []
    ensures lines == init + [last] && AllPrintable(init) && last.centiseconds < MAX_CENTISECONDS
    ensures before == header + PrintLines(init) && header + PrintLines(lines) == before + [PrintLine(last)]
  {
    init, last := lines[..|lines| - 1], lines[|lines| - 1];
    assert last in lines && lines == init + [last];
    before := header + PrintLines(init);
    PrintLinesSnoc(init, last);
    Associate(header, PrintLines(init), [PrintLine(last)]);
  }

  lemma PrintLinesSnoc(lines: seq<Stamped>, line: Stamped)
    requires AllPrintable(lines + [line]) && AllPrintable(lines) && line.centiseconds < MAX_CENTISECONDS
    ensures PrintLines(lines + [line]) == PrintLines(lines) + [PrintLine(line)]
  {
  }

  lemma FileReadsBack(title: Text, lines: seq<Stamped>, sampleRate: nat)
    requires AllPrintable(lines) && lines != []
    ensures ReadCues(SplitLines(PrintFile(title, lines)), sampleRate) == Found(lines, sampleRate)
  {
    FileSplits(title, lines);
    PrintedLinesReadBack(title, lines, sampleRate);
    ReadCuesSnoc(Header(title) + PrintLines(lines), [], sampleRate);
  }

  // ----- times

  /** Lines as they are printed: stamped with the hundredths of a second their samples fall in. */
  ghost predicate StampedFrom(lines: seq<Stamped>, sampleRate: nat) {
    sampleRate > 0 && forall line :: line in lines ==> line.centiseconds == line.start * 100 / sampleRate
  }

  ghost predicate RereadIncreases(lines: seq<Stamped>, sampleRate: nat) {
    forall i, j :: 0 <= i && j == i + 1 < |lines| ==> Reread(lines[i], sampleRate) < Reread(lines[j], sampleRate)
  }

  /** A line never comes back later, and less than a hundredth of a second and half a sample earlier. */
  lemma RereadIsClose(line: Stamped, sampleRate: nat)
    requires sampleRate > 0 && line.centiseconds == line.start * 100 / sampleRate
    ensures Reread(line, sampleRate) == line.start - (line.start * 100 % sampleRate + 49) / 100
    ensures Reread(line, sampleRate) <= line.start
    ensures 200 * (line.start - Reread(line, sampleRate)) < 2 * sampleRate + 100
  {
    var product, rest := line.centiseconds * sampleRate, line.start * 100 % sampleRate;
    assert line.start * 100 == product + rest;
    assert product + 50 == 100 * (line.start - (rest + 49) / 100) + (99 - (rest + 49) % 100);
  }

  /** Below 51 samples a second nothing is lost; from 100 on, different stamps stay different samples. */
  lemma RereadIncreasesAtUsualRates(lines: seq<Stamped>, sampleRate: nat)
    requires StampedFrom(lines, sampleRate) && Increasing(lines) && (sampleRate <= 50 || sampleRate >= 100)
    ensures RereadIncreases(lines, sampleRate)
    ensures sampleRate <= 50 ==> forall line :: line in lines ==> Reread(line, sampleRate) == line.start
  {
    forall line | line in lines && sampleRate <= 50
      ensures Reread(line, sampleRate) == line.start
    {
      RereadIsClose(line, sampleRate);
    }
    forall i, j | 0 <= i && j == i + 1 < |lines|
      ensures Reread(lines[i], sampleRate) < Reread(lines[j], sampleRate)
    {
      assert lines[i] in lines && lines[j] in lines;
      if sampleRate >= 100 {
        ProductStep(lines[i].centiseconds, lines[j].centiseconds, sampleRate);
      }
    }
  }

  lemma ProductStep(a: nat, b: nat, sampleRate: nat)
    requires a < b && sampleRate >= 100
    ensures (a * sampleRate + 50) / 100 < (b * sampleRate + 50) / 100
  {
    assert b * sampleRate >= (a + 1) * sampleRate;
    assert b * sampleRate >= a * sampleRate + 100;
  }

  /** Every sample comes back as itself. */
  ghost predicate NeverEarly(sampleRate: nat)
    requires sampleRate > 0
  {
    forall start: nat :: start * 100 % sampleRate <= 50
  }

  ghost predicate AlwaysIncreases(sampleRate: nat) {
    forall lines :: StampedFrom(lines, sampleRate) && Increasing(lines) ==> RereadIncreases(lines, sampleRate)
  }

  function StampedAt(start: nat, sampleRate: nat): Stamped
    requires sampleRate > 0
  {
    Stamped(start * 100 / sampleRate, [0x61], start)
  }

  /** Below 100 samples a second the stamps of different samples differ. */
  lemma NextStampIsLater(start: nat, sampleRate: nat)
    requires 0 < sampleRate < 100
    ensures start * 100 / sampleRate < (start + 1) * 100 / sampleRate
  {
    var stamp := start * 100 / sampleRate;
    assert (stamp + 1) * sampleRate <= start * 100 + sampleRate <= (start + 1) * 100;
    AtLeast((start + 1) * 100, sampleRate, stamp + 1);
  }

  lemma AtLeast(n: nat, d: nat, q: nat)
    requires d > 0 && q * d <= n
    ensures q <= n / d
  {
    TimesKeepsOrder(n / d + 1, q, d);
    assert n < (n / d + 1) * d;
  }

  lemma TimesKeepsOrder(a: nat, b: nat, d: nat)
    ensures a <= b ==> a * d <= b * d
  {
  }

  /** The first sample that comes back early comes back as the one before it. */
  lemma {:induction false} FirstEarlySample(start: nat, sampleRate: nat) returns (first: nat)
    requires 50 < sampleRate < 100 && start * 100 % sampleRate > 50
    ensures first * 100 % sampleRate <= 50 && (first + 1) * 100 % sampleRate > 50
  {
    if (start - 1) * 100 % sampleRate <= 50 {
      first := start - 1;
    } else {
      first := FirstEarlySample(start - 1, sampleRate);
    }
  }

  lemma EarlySamplesCollide(start: nat, sampleRate: nat) returns (lines: seq<Stamped>)
    requires 50 < sampleRate < 100 && start * 100 % sampleRate > 50
    ensures StampedFrom(lines, sampleRate) && Increasing(lines) && !RereadIncreases(lines, sampleRate)
  {
    var first := FirstEarlySample(start, sampleRate);
    lines := [StampedAt(first, sampleRate), StampedAt(first + 1, sampleRate)];
    NextStampIsLater(first, sampleRate);
    RereadIsClose(lines[0], sampleRate);
    RereadIsClose(lines[1], sampleRate);
    assert Reread(lines[0], sampleRate) == first == Reread(lines[1], sampleRate);
  }

  lemma UnmovedSamplesIncrease(lines: seq<Stamped>, sampleRate: nat)
    requires StampedFrom(lines, sampleRate) && Increasing(lines) && NeverEarly(sampleRate)
    ensures RereadIncreases(lines, sampleRate)
  {
    forall i, j | 0 <= i && j == i + 1 < |lines|
      ensures Reread(lines[i], sampleRate) < Reread(lines[j], sampleRate)
    {
      assert lines[i] in lines && lines[j] in lines;
      RereadIsClose(lines[i], sampleRate);
      RereadIsClose(lines[j], sampleRate);
      assert lines[i].start * 100 % sampleRate <= 50 && lines[j].start * 100 % sampleRate <= 50;
    }
  }

  predicate SomeEarly(sampleRate: nat, start: nat)
    requires sampleRate > 0
  {
    start * 100 % sampleRate > 50
  }

  /** The rates above 50 at which a hundredth of a second and a sample still meet often enough. */
  const EXACT_RATES := {51, 52, 55, 60, 75}

  lemma QuotientIs(n: nat, d: nat, q: nat)
    requires d > 0 && q * d <= n < q * d + d
    ensures n / d == q
  {
    AtLeast(n, d, q);
    if n / d > q {
      TimesKeepsOrder(q + 1, n / d, d);
      assert false;
    }
  }

  lemma EarlyBetween(sampleRate: nat, start: nat, stamp: nat)
    requires sampleRate > 0 && stamp * sampleRate + 50 < start * 100 < stamp * sampleRate + sampleRate
    ensures SomeEarly(sampleRate, start)
  {
    QuotientIs(start * 100, sampleRate, stamp);
  }

  /** At any other rate a sample comes back early, near the multiple of a hundredth of a second that is named here. */
  lemma EarlySample(sampleRate: nat) returns (start: nat)
    requires 50 < sampleRate < 100 && sampleRate !in EXACT_RATES
    ensures SomeEarly(sampleRate, start)
  {
    var stamp;
    start, stamp := NearMiss(sampleRate);
    EarlyBetween(sampleRate, start, stamp);
  }

  lemma NearMiss(sampleRate: nat) returns (start: nat, stamp: nat)
    requires 50 < sampleRate < 100 && sampleRate !in EXACT_RATES
    ensures stamp * sampleRate + 50 < start * 100 < stamp * sampleRate + sampleRate
  {
    if sampleRate <= 53 { return 9, 16; }
    if sampleRate <= 54 { return 7, 12; }
    if sampleRate <= 56 { return 5, 8; }
    if sampleRate <= 57 { return 33, 57; }
    if sampleRate <= 58 { return 4, 6; }
    if sampleRate <= 59 { return 7, 11; }
    if sampleRate <= 62 { return 3, 4; }
    if sampleRate <= 64 { return 5, 7; }
    if sampleRate <= 65 { return 9, 13; }
    if sampleRate <= 66 { return 19, 28; }
    if sampleRate <= 74 { return 2, 2; }
    if sampleRate <= 83 { return 3, 3; }
    if sampleRate <= 87 { return 4, 4; }
    if sampleRate <= 89 { return 5, 5; }
    if sampleRate <= 91 { return 6, 6; }
    if sampleRate <= 92 { return 7, 7; }
    if sampleRate <= 93 { return 8, 8; }
    if sampleRate <= 94 { return 9, 9; }
    if sampleRate <= 95 { return 11, 11; }
    if sampleRate <= 96 { return 13, 13; }
    if sampleRate <= 97 { return 17, 17; }
    if sampleRate <= 98 { return 26, 26; }
    return 51, 51;
  }

  /** The rest of a sample is a multiple of every common divisor of the rate and a second's hundredths. */
  lemma RestIsMultiple(start: nat, sampleRate: nat, divisor: nat, a: nat, b: nat)
    requires divisor > 0 && 100 == divisor * a && sampleRate == divisor * b > 0
    ensures start * 100 % sampleRate <= sampleRate - divisor
  {
    var stamp, rest := start * 100 / sampleRate, start * 100 % sampleRate;
    var count := a * start - stamp * b;
    assert rest == divisor * count;
    if count >= b {
      TimesKeepsOrder(b, count, divisor);
      assert false;
    }
    assert divisor * count <= divisor * (b - 1);
  }

  lemma ExactRateIsNeverEarly(sampleRate: nat)
    requires sampleRate in EXACT_RATES
    ensures NeverEarly(sampleRate)
  {
    forall start: nat
      ensures start * 100 % sampleRate <= 50
    {
      if sampleRate == 52 {
        RestIsMultiple(start, 52, 4, 25, 13);
      } else if sampleRate == 55 {
        RestIsMultiple(start, 55, 5, 20, 11);
      } else if sampleRate == 60 {
        RestIsMultiple(start, 60, 20, 5, 3);
      } else if sampleRate == 75 {
        RestIsMultiple(start, 75, 25, 4, 3);
      }
    }
  }

  lemma RatesNeverEarly(sampleRate: nat)
    requires 0 < sampleRate < 100
    ensures NeverEarly(sampleRate) <==> sampleRate <= 50 || sampleRate in EXACT_RATES
  {
    if sampleRate in EXACT_RATES {
      ExactRateIsNeverEarly(sampleRate);
    } else if sampleRate > 50 {
      var start := EarlySample(sampleRate);
      assert start * 100 % sampleRate > 50;
    }
  }

  /** At which rates no two printed lines ever come back at one sample. */
  lemma RatesThatAlwaysIncrease(sampleRate: nat)
    requires sampleRate > 0
    ensures AlwaysIncreases(sampleRate) <==> sampleRate <= 50 || sampleRate >= 100 || sampleRate in EXACT_RATES
  {
    if sampleRate < 100 {
      RatesNeverEarly(sampleRate);
    }
    if sampleRate >= 100 || NeverEarly(sampleRate) {
      forall lines | StampedFrom(lines, sampleRate) && Increasing(lines)
        ensures RereadIncreases(lines, sampleRate)
      {
        if sampleRate >= 100 {
          RereadIncreasesAtUsualRates(lines, sampleRate);
        } else {
          UnmovedSamplesIncrease(lines, sampleRate);
        }
      }
    } else {
      var start: nat :| start * 100 % sampleRate > 50;
      var lines := EarlySamplesCollide(start, sampleRate);
    }
  }

  // ----- the round trip

  function RereadSpans(lines: seq<Stamped>, sampleRate: nat, duration: nat): (r: seq<Option<Span>>)
    ensures |r| == |lines|
    ensures forall i :: 0 <= i < |r| ==>
              r[i] == Some(Span(Reread(lines[i], sampleRate),
                                if i + 1 < |lines| then Reread(lines[i + 1], sampleRate) else duration))
  {
    seq(|lines|, i requires 0 <= i < |lines| =>
      Some(Span(Reread(lines[i], sampleRate), if i + 1 < |lines| then Reread(lines[i + 1], sampleRate) else duration)))
  }

  lemma {:induction false} SpansReadBack(lines: seq<Stamped>, sampleRate: nat, duration: nat, n: nat)
    requires AllPrintable(lines) && n <= |lines|
    ensures CueSpans(RereadCues(lines, sampleRate), n, duration) == RereadSpans(lines, sampleRate, duration)[..n]
  {
    if n > 0 {
      SpansReadBack(lines, sampleRate, duration, n - 1);
      assert lines[n - 1] in lines;
    }
  }

  function Texts(lines: seq<Stamped>): (r: seq<Text>)
    ensures |r| == |lines| && forall i :: 0 <= i < |r| ==> r[i] == lines[i].text
  {
    seq(|lines|, i requires 0 <= i < |lines| => lines[i].text)
  }

  lemma CuesFit(lines: seq<Stamped>, sampleRate: nat, duration: nat)
    requires StampedFrom(lines, sampleRate) && AllPrintable(lines)
             && forall line :: line in lines ==> line.start < duration
    ensures (forall index :: 0 <= index < |lines| ==> CueFits(RereadCues(lines, sampleRate), index, duration))
            <==> RereadIncreases(lines, sampleRate)
  {
    var cues := RereadCues(lines, sampleRate);
    forall index | 0 <= index < |lines|
      ensures CueFits(cues, index, duration) <==>
              (index + 1 < |lines| ==> Reread(lines[index], sampleRate) < Reread(lines[index + 1], sampleRate))
    {
      assert lines[index] in lines;
      RereadIsClose(lines[index], sampleRate);
      if index + 1 < |lines| {
        assert lines[index + 1] in lines;
        RereadIsClose(lines[index + 1], sampleRate);
      }
    }
    if RereadIncreases(lines, sampleRate) {
      forall index | 0 <= index < |lines|
        ensures CueFits(cues, index, duration)
      {
        assert index + 1 < |lines| ==> Reread(lines[index], sampleRate) < Reread(lines[index + 1], sampleRate);
      }
    }
  }

  lemma CuesRead(lines: seq<Stamped>, sampleRate: nat, duration: nat)
    requires AllPrintable(lines)
    ensures CueTexts(RereadCues(lines, sampleRate)) == Texts(lines)
    ensures CueSpans(RereadCues(lines, sampleRate), |lines|, duration) == RereadSpans(lines, sampleRate, duration)
  {
    SpansReadBack(lines, sampleRate, duration, |lines|);
    assert RereadSpans(lines, sampleRate, duration)[..|lines|] == RereadSpans(lines, sampleRate, duration);
  }

  lemma TimesReadBack(lines: seq<Stamped>, sampleRate: nat, duration: nat)
    requires StampedFrom(lines, sampleRate) && AllPrintable(lines) && lines != []
    requires forall line :: line in lines ==> line.start < duration
    ensures TimeCues(RereadCues(lines, sampleRate), duration)
            == if RereadIncreases(lines, sampleRate)
               then Ok(Imported(JoinLines(Texts(lines)), RereadSpans(lines, sampleRate, duration)))
               else Err
  {
    CuesFit(lines, sampleRate, duration);
    CuesRead(lines, sampleRate, duration);
  }

  /**
   A printed file reads back as the emitted texts at the reread samples, each lasting to the next,
   exactly when no text has a line separator or an inner time tag and the reread samples increase.
  */
  lemma PrintThenRead(title: Text, lines: seq<Stamped>, sampleRate: nat, duration: nat)
    requires StampedFrom(lines, sampleRate) && AllPrintable(lines) && lines != []
    requires forall line :: line in lines ==> line.start < duration
    ensures ReadLrc(PrintFile(title, lines), sampleRate, duration)
            == if Plain(lines) && RereadIncreases(lines, sampleRate)
               then Ok(Imported(JoinLines(Texts(lines)), RereadSpans(lines, sampleRate, duration)))
               else Err
  {
    FileReadsBack(title, lines, sampleRate);
    TimesReadBack(lines, sampleRate, duration);
  }

  const Colliding: seq<SungLine> := [SungLine([0x61], Some(50)), SungLine([0x62], Some(51))]

  lemma CollidingAreEmitted()
    ensures Emitted(Colliding, 2, 99) == [Stamped(50, [0x61], 50), Stamped(51, [0x62], 51)]
  {
    assert !IsSpace(Colliding[0].text[0]) && !IsSpace(Colliding[1].text[0]);
    assert Emits(Colliding, 0, 99) && Emits(Colliding, 1, 99);
    assert Emitted(Colliding, 0, 99) == [];
    assert Emitted(Colliding, 1, 99) == [Stamped(50, [0x61], 50)];
  }

  /** At 99 samples a second there are two lines that are both printed, come back at one sample, and so are refused. */
  lemma CollidingFileIsRefused(title: Text)
    ensures var emitted := Emitted(Colliding, 2, 99);
            && |emitted| == 2 && Reread(emitted[0], 99) == Reread(emitted[1], 99)
            && AllPrintable(emitted) && ReadLrc(PrintFile(title, emitted), 99, 100).Err?
  {
    var emitted := Emitted(Colliding, 2, 99);
    CollidingAreEmitted();
    EmittedArePrintable(Colliding, 99);
    assert Reread(emitted[0], 99) == Reread(emitted[1], 99);
    PrintThenRead(title, emitted, 99, 100);
  }

  /** The lines of a document always print as such a file. */
  lemma EmittedAreStamped(lines: seq<SungLine>, sampleRate: nat)
    requires sampleRate > 0
    ensures StampedFrom(Emitted(lines, |lines|, sampleRate), sampleRate)
  {
    forall line | line in Emitted(lines, |lines|, sampleRate)
      ensures line.centiseconds == line.start * 100 / sampleRate
    {
      var _ := EmittedLineIsALine(lines, |lines|, sampleRate, line);
    }
  }

  /** At 100 samples a second or more, a projection of plain lines always reads back. */
  lemma ProjectionReadsBack(lines: seq<SungLine>, title: Text, sampleRate: nat, duration: nat)
    requires sampleRate >= 100
    requires forall line :: line in lines && line.start.Some? ==> line.start.value < duration
    requires Emitted(lines, |lines|, sampleRate) != [] && Plain(Emitted(lines, |lines|, sampleRate))
    ensures var emitted := Emitted(lines, |lines|, sampleRate);
            && AllPrintable(emitted)
            && ReadLrc(PrintFile(title, emitted), sampleRate, duration)
               == Ok(Imported(JoinLines(Texts(emitted)), RereadSpans(emitted, sampleRate, duration)))
  {
    var emitted := Emitted(lines, |lines|, sampleRate);
    EmittedArePrintable(lines, sampleRate);
    EmittedAreStamped(lines, sampleRate);
    StampsIncrease(lines, |lines|, sampleRate);
    RereadIncreasesAtUsualRates(emitted, sampleRate);
    forall line | line in emitted
      ensures line.start < duration
    {
      var index := EmittedLineIsALine(lines, |lines|, sampleRate, line);
      assert lines[index] in lines;
    }
    PrintThenRead(title, emitted, sampleRate, duration);
  }

  // ----- from a document

  function SungLineOf(lyrics: Lyrics, line: LyricsLine): SungLine {
    var timing := TimingFor(lyrics.alignment.lineOccurrences, line.id);
    SungLine(LineText(lyrics.document, line),
             if timing.Some? && timing.value.Matched? then Some(timing.value.startSample) else None)
  }

  /** The lines of a document with the starts of their matched timings. */
  function SungLines(lyrics: Lyrics): (r: seq<SungLine>)
    ensures |r| == |lyrics.document.lines|
            && forall i :: 0 <= i < |r| ==> r[i] == SungLineOf(lyrics, lyrics.document.lines[i])
  {
    seq(|lyrics.document.lines|,
        i requires 0 <= i < |lyrics.document.lines| => SungLineOf(lyrics, lyrics.document.lines[i]))
  }

  /** For a valid document and alignment, what is printed of plain lines reads back in a project of that length. */
  lemma DocumentReadsBack(lyrics: Lyrics, title: Text, sampleRate: nat, duration: nat)
    requires ValidDocument(lyrics.document) && ValidAlignment(lyrics.alignment, lyrics.document, duration)
             && sampleRate >= 100
    requires var emitted := Emitted(SungLines(lyrics), |lyrics.document.lines|, sampleRate);
             emitted != [] && Plain(emitted)
    ensures var emitted := Emitted(SungLines(lyrics), |lyrics.document.lines|, sampleRate);
            && AllPrintable(emitted)
            && ReadLrc(PrintFile(title, emitted), sampleRate, duration)
               == Ok(Imported(JoinLines(Texts(emitted)), RereadSpans(emitted, sampleRate, duration)))
  {
    var lines := SungLines(lyrics);
    forall line | line in lines && line.start.Some?
      ensures line.start.value < duration
    {
      var i :| 0 <= i < |lines| && lines[i] == line;
      TimingOfLine(lyrics, duration, i);
    }
    ProjectionReadsBack(lines, title, sampleRate, duration);
  }
}
