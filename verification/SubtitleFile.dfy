/** Subtitle files in the SRT and WebVTT formats: blocks of lines, each with a time line and the words of a cue. */
module SubtitleFile {
  import opened Wrappers
  import opened Sequences
  import opened Schema
  import opened LyricsText
  import opened Lrc
  import opened LrcImport

  const BYTE_ORDER_MARK: CodeUnit := 0xFEFF
  const SPACE: CodeUnit := 0x20
  const GREATER: CodeUnit := 0x3E
  const AMPERSAND: CodeUnit := 0x26
  const COMMA: CodeUnit := 0x2C

  const ARROW: Text := [0x20, 0x2D, 0x2D, 0x3E, 0x20]
  const WEBVTT: Text := [0x57, 0x45, 0x42, 0x56, 0x54, 0x54]
  const NOTE: Text := [0x4E, 0x4F, 0x54, 0x45]

  // ----- line breaks

  /** Every line break from an offset on becomes a line feed. */
  function WithLineFeeds(text: Text, at: nat): (r: Text)
    requires at <= |text|
    ensures NoReturn(r)
    decreases |text| - at
  {
    if at == |text| then []
    else if IsBreak(text[at]) then [LF] + WithLineFeeds(text, NextLine(text, at))
    else [text[at]] + WithLineFeeds(text, at + 1)
  }

  function Marked(raw: Text): nat { if raw != [] && raw[0] == BYTE_ORDER_MARK then 1 else 0 }

  function Normalized(raw: Text): (r: Text)
    ensures NoReturn(r)
  {
    WithLineFeeds(raw, Marked(raw))
  }

  function FromBreak(text: Text, end: nat): Text
    requires end <= |text|
  {
    if end == |text| then [] else [LF] + WithLineFeeds(text, NextLine(text, end))
  }

  lemma NothingBefore(text: Text, at: nat)
    requires at <= |text| && LineEnd(text, at) == at
    ensures WithLineFeeds(text, at) == text[at..at] + FromBreak(text, at)
  {
    assert WithLineFeeds(text, at) == FromBreak(text, at);
  }

  lemma OneUnitBefore(text: Text, at: nat, end: nat, rest: Text, tail: Text)
    requires at < end <= |text| && rest == text[at + 1..end] + tail
    ensures [text[at]] + rest == text[at..end] + tail
  {
  }

  lemma {:induction false} FirstLineStays(text: Text, at: nat)
    requires at <= |text|
    ensures WithLineFeeds(text, at) == text[at..LineEnd(text, at)] + FromBreak(text, LineEnd(text, at))
    decreases |text| - at
  {
    var end := LineEnd(text, at);
    if at == end {
      NothingBefore(text, at);
    } else {
      FirstLineStays(text, at + 1);
      OneUnitBefore(text, at, end, WithLineFeeds(text, at + 1), FromBreak(text, end));
    }
  }

  lemma {:induction false} LineIsOneLine(text: Text, at: nat)
    requires at <= |text|
    ensures OneLine(text[at..LineEnd(text, at)])
    decreases |text| - at
  {
    if at < |text| && !IsBreak(text[at]) {
      LineIsOneLine(text, at + 1);
      assert text[at..LineEnd(text, at)] == [text[at]] + text[at + 1..LineEnd(text, at)];
    }
  }

  /** Turning line breaks into line feeds keeps the lines. */
  lemma {:induction false} LineFeedsKeepLines(text: Text, at: nat)
    requires at <= |text|
    ensures SplitLines(WithLineFeeds(text, at)) == SplitFrom(text, at)
    decreases |text| - at
  {
    var end := LineEnd(text, at);
    FirstLineStays(text, at);
    LineIsOneLine(text, at);
    if end == |text| {
      assert text[at..end] + [] == text[at..end];
      assert JoinLines([text[at..end]]) == text[at..end];
      SplitUndoesJoin([text[at..end]]);
      assert [text[at..end]] + [] == [text[at..end]];
    } else {
      var rest := WithLineFeeds(text, NextLine(text, end));
      LineFeedsKeepLines(text, NextLine(text, end));
      Associate(text[at..end], [LF], rest);
      SplitFirst(text[at..end], rest);
    }
  }

  // ----- blocks

  predicate EmptyLineAt(text: Text, at: nat) {
    at + 1 < |text| && text[at] == LF && text[at + 1] == LF
  }

  /** Where the block that begins at an offset ends: before the next empty line. */
  function BlockEnd(text: Text, at: nat): (end: nat)
    requires at <= |text|
    ensures at <= end <= |text| && (end < |text| ==> EmptyLineAt(text, end))
    decreases |text| - at
  {
    if at == |text| || EmptyLineAt(text, at) then at else BlockEnd(text, at + 1)
  }

  function FeedsEnd(text: Text, at: nat): (end: nat)
    requires at <= |text|
    ensures at <= end <= |text| && (at < |text| && text[at] == LF ==> at < end)
    decreases |text| - at
  {
    if at < |text| && text[at] == LF then FeedsEnd(text, at + 1) else at
  }

  /** Any number of empty lines stands between two blocks. */
  function SplitBlocks(text: Text, at: nat): (blocks: seq<Text>)
    requires at <= |text|
    decreases |text| - at
  {
    var end := BlockEnd(text, at);
    [text[at..end]] + if end == |text| then [] else SplitBlocks(text, FeedsEnd(text, end))
  }

  // ----- the time line

  /** A time in milliseconds, and where it ends. */
  datatype Clock = Clock(milliseconds: nat, end: nat)

  /** Minutes and seconds of two digits below 60, and milliseconds after a dot or a comma. */
  function ParseMinutes(line: Text, at: nat, hours: nat): Option<Clock>
    requires at <= |line|
  {
    if at + 9 > |line| then None
    else if DigitRun(line, at, 2) != 2 || DigitValue(line[at]) > 5 || line[at + 2] != COLON then None
    else if DigitRun(line, at + 3, 2) != 2 || DigitValue(line[at + 3]) > 5 then None
    else if (line[at + 5] != DOT && line[at + 5] != COMMA) || DigitRun(line, at + 6, 3) != 3 then None
    else
      var seconds := (hours * 60 + Number(line, at, 2)) * 60 + Number(line, at + 3, 2);
      Some(Clock(seconds * 1000 + Number(line, at + 6, 3), at + 9))
  }

  /** Hours of two or more digits may come first. */
  function ParseClock(line: Text, at: nat): (r: Option<Clock>)
    requires at <= |line|
    ensures r.Some? ==> r.value.end <= |line|
  {
    var digits := DigitRun(line, at, |line| - at);
    if digits >= 2 && at + digits < |line| && line[at + digits] == COLON then
      var clock := ParseMinutes(line, at + digits + 1, Number(line, at, digits));
      if clock.Some? then clock else ParseMinutes(line, at, 0)
    else ParseMinutes(line, at, 0)
  }

  predicate ArrowAt(line: Text, at: nat) {
    at + |ARROW| <= |line| && line[at..at + |ARROW|] == ARROW
  }

  predicate HasArrow(line: Text) { exists at :: 0 <= at <= |line| && ArrowAt(line, at) }

  /** Settings may follow the times after a space or a tab. */
  predicate IsSettings(rest: Text) {
    rest == [] || ((rest[0] == SPACE || rest[0] == TAB) && !HasSeparator(rest))
  }

  datatype Times = Times(start: nat, end: nat)

  function ParseTimes(line: Text): Option<Times> {
    var start := ParseClock(line, 0);
    if start == None || !ArrowAt(line, start.value.end) then None
    else
      var end := ParseClock(line, start.value.end + |ARROW|);
      if end == None || !IsSettings(line[end.value.end..]) then None
      else Some(Times(start.value.milliseconds, end.value.milliseconds))
  }

  // ----- markup

  function TagEnd(text: Text, at: nat): (end: nat)
    requires at <= |text|
    ensures at <= end <= |text| && (end < |text| ==> text[end] == GREATER)
    ensures forall i :: at <= i < end ==> text[i] != GREATER
    decreases |text| - at
  {
    if at == |text| || text[at] == GREATER then at else TagEnd(text, at + 1)
  }

  function WithoutTags(text: Text, at: nat): (r: Text)
    requires at <= |text|
    ensures |r| <= |text| - at && (NoReturn(text) ==> NoReturn(r))
    decreases |text| - at
  {
    if at == |text| then []
    else if text[at] == LESS && TagEnd(text, at + 1) < |text| then WithoutTags(text, TagEnd(text, at + 1) + 1)
    else [text[at]] + WithoutTags(text, at + 1)
  }

  datatype Entity = Entity(name: Text, meaning: CodeUnit)

  /** &amp; &lt; &gt; &nbsp; */
  const ENTITIES: seq<Entity> := [
    Entity([0x26, 0x61, 0x6D, 0x70, 0x3B], AMPERSAND),
    Entity([0x26, 0x6C, 0x74, 0x3B], LESS),
    Entity([0x26, 0x67, 0x74, 0x3B], GREATER),
    Entity([0x26, 0x6E, 0x62, 0x73, 0x70, 0x3B], SPACE)]

  predicate Names(entity: Entity, text: Text, at: nat) {
    at + |entity.name| <= |text| && text[at..at + |entity.name|] == entity.name
  }

  function EntityAt(text: Text, at: nat): (r: Option<Entity>)
    ensures r.Some? ==> 2 <= |r.value.name| && at + |r.value.name| <= |text|
  {
    if Names(ENTITIES[0], text, at) then Some(ENTITIES[0])
    else if Names(ENTITIES[1], text, at) then Some(ENTITIES[1])
    else if Names(ENTITIES[2], text, at) then Some(ENTITIES[2])
    else if Names(ENTITIES[3], text, at) then Some(ENTITIES[3])
    else None
  }

  /** One pass: what an entity stands for is not read again. */
  function Decoded(text: Text, at: nat): (r: Text)
    requires at <= |text|
    ensures |r| <= |text| - at && (NoReturn(text) ==> NoReturn(r))
    decreases |text| - at
  {
    if at == |text| then []
    else
      var entity := EntityAt(text, at);
      if entity.Some? then [entity.value.meaning] + Decoded(text, at + |entity.value.name|)
      else [text[at]] + Decoded(text, at + 1)
  }

  function PlainText(text: Text): (r: Text)
    ensures NoReturn(text) ==> NoReturn(r)
  {
    Decoded(WithoutTags(text, 0), 0)
  }

  predicate HasMarkup(text: Text) {
    || (exists i, j :: 0 <= i < j < |text| && text[i] == LESS && text[j] == GREATER)
    || (exists at :: 0 <= at < |text| && EntityAt(text, at).Some?)
  }

  /** No tag is left, whatever was nested or left open. */
  lemma {:induction false} NoTagIsLeft(text: Text, at: nat, i: nat, j: nat)
    requires at <= |text| && i < j < |WithoutTags(text, at)|
    ensures !(WithoutTags(text, at)[i] == LESS && WithoutTags(text, at)[j] == GREATER)
    decreases |text| - at
  {
    if text[at] == LESS && TagEnd(text, at + 1) < |text| {
      NoTagIsLeft(text, TagEnd(text, at + 1) + 1, i, j);
    } else if i > 0 {
      NoTagIsLeft(text, at + 1, i - 1, j - 1);
    } else if text[at] == LESS {
      NothingNew(text, at + 1, GREATER);
    }
  }

  lemma {:induction false} NothingNew(text: Text, at: nat, u: CodeUnit)
    requires at <= |text| && forall i :: at <= i < |text| ==> text[i] != u
    ensures u !in WithoutTags(text, at)
    decreases |text| - at
  {
    if at < |text| {
      if text[at] == LESS && TagEnd(text, at + 1) < |text| {
        NothingNew(text, TagEnd(text, at + 1) + 1, u);
      } else {
        NothingNew(text, at + 1, u);
      }
    }
  }

  lemma {:induction false} TagsStayOnlyOpen(text: Text, at: nat)
    requires at <= |text|
    ensures |WithoutTags(text, at)| == |text| - at
            <==> !(exists i, j :: at <= i < j < |text| && text[i] == LESS && text[j] == GREATER)
    ensures |WithoutTags(text, at)| == |text| - at ==> WithoutTags(text, at) == text[at..]
    decreases |text| - at
  {
    if at < |text| {
      if text[at] == LESS && TagEnd(text, at + 1) < |text| {
        assert text[TagEnd(text, at + 1)] == GREATER;
      } else {
        TagsStayOnlyOpen(text, at + 1);
        assert text[at] == LESS ==> forall j :: at < j < |text| ==> text[j] != GREATER;
        assert text[at..] == [text[at]] + text[at + 1..];
      }
    }
  }

  lemma {:induction false} EntityShortens(text: Text, at: nat, i: nat)
    requires at <= i < |text| && EntityAt(text, i).Some?
    ensures |Decoded(text, at)| < |text| - at
    decreases |text| - at
  {
    if EntityAt(text, at) == None {
      EntityShortens(text, at + 1, i);
    }
  }

  lemma {:induction false} NoEntityNoChange(text: Text, at: nat)
    requires at <= |text| && forall i :: at <= i < |text| ==> EntityAt(text, i) == None
    ensures Decoded(text, at) == text[at..]
    decreases |text| - at
  {
    if at < |text| {
      NoEntityNoChange(text, at + 1);
      assert text[at..] == [text[at]] + text[at + 1..];
    }
  }

  /** Exactly the texts without markup stay as they are. */
  lemma PlainTextStays(text: Text)
    ensures PlainText(text) == text <==> !HasMarkup(text)
  {
    TagsStayOnlyOpen(text, 0);
    assert text[0..] == text;
    if WithoutTags(text, 0) == text {
      if i :| 0 <= i < |text| && EntityAt(text, i).Some? {
        EntityShortens(text, 0, i);
      } else {
        NoEntityNoChange(text, 0);
      }
    }
  }

  // ----- cues

  /** A block of a subtitle file, its time line parsed and its markup removed. */
  datatype Block = Ignored | Malformed | CueBlock(startSample: nat, endSample: nat, text: Text)

  /** A word at the start of a block, and nothing or white space after it. */
  predicate StartsWith(block: Text, word: Text) {
    word <= block && (|block| == |word| || IsSpace(block[|word|]))
  }

  /** A line before the time line is taken for a number or a name. */
  function ReadBlock(block: Text, sampleRate: nat): Block {
    if Blank(block) || StartsWith(block, WEBVTT) || StartsWith(block, NOTE) then Ignored
    else
      var lines := SplitLines(block);
      var cue := if HasArrow(lines[0]) then lines else lines[1..];
      if |cue| < 2 || ParseTimes(cue[0]) == None then Malformed
      else
        var times := ParseTimes(cue[0]).value;
        CueBlock(RoundedSample(times.start, sampleRate), RoundedSample(times.end, sampleRate),
                 PlainText(JoinLines(cue[1..])))
  }

  method ParseBlock(block: Text, sampleRate: nat) returns (r: Block)
    ensures r == ReadBlock(block, sampleRate)
  {
    if Blank(block) || StartsWith(block, WEBVTT) || StartsWith(block, NOTE) {
      return Ignored;
    }
    var lines := SplitLines(block);
    if !HasArrow(lines[0]) { lines := lines[1..]; }
    if lines == [] {
      return Malformed;
    }
    var times := ParseTimes(lines[0]);
    lines := lines[1..];
    if times == None || lines == [] {
      return Malformed;
    }
    var startSample, endSample := RoundedSample(times.value.start, sampleRate),
      RoundedSample(times.value.end, sampleRate);
    r := CueBlock(startSample, endSample, PlainText(JoinLines(lines)));
  }

  function ReadBlocks(blocks: seq<Text>, sampleRate: nat): (r: seq<Block>)
    ensures |r| == |blocks| && forall i :: 0 <= i < |r| ==> r[i] == ReadBlock(blocks[i], sampleRate)
  {
    seq(|blocks|, i requires 0 <= i < |blocks| => ReadBlock(blocks[i], sampleRate))
  }

  function BlocksOf(raw: Text, sampleRate: nat): seq<Block> {
    ReadBlocks(SplitBlocks(Normalized(raw), 0), sampleRate)
  }

  // ----- no carriage returns are left

  lemma {:induction false} LinesHaveNoReturns(text: Text, at: nat)
    requires NoReturn(text) && at <= |text|
    ensures forall line :: line in SplitFrom(text, at) ==> NoReturn(line)
    decreases |text| - at
  {
    var end := LineEnd(text, at);
    if end < |text| {
      LinesHaveNoReturns(text, NextLine(text, end));
    }
  }

  lemma {:induction false} JoinHasNoReturns(lines: seq<Text>)
    requires forall line :: line in lines ==> NoReturn(line)
    ensures NoReturn(JoinLines(lines))
  {
    if |lines| > 0 {
      assert lines[0] in lines;
      JoinHasNoReturns(lines[1..]);
    }
  }

  lemma {:induction false} BlocksHaveNoReturns(text: Text, at: nat)
    requires NoReturn(text) && at <= |text|
    ensures forall block :: block in SplitBlocks(text, at) ==> NoReturn(block)
    decreases |text| - at
  {
    var end := BlockEnd(text, at);
    if end < |text| {
      BlocksHaveNoReturns(text, FeedsEnd(text, end));
    }
  }

  lemma CueHasNoReturns(block: Text, sampleRate: nat)
    requires NoReturn(block)
    ensures ReadBlock(block, sampleRate).CueBlock? ==> NoReturn(ReadBlock(block, sampleRate).text)
  {
    if ReadBlock(block, sampleRate).CueBlock? {
      var lines := SplitLines(block);
      LinesHaveNoReturns(block, 0);
      var cue := if HasArrow(lines[0]) then lines else lines[1..];
      JoinHasNoReturns(cue[1..]);
    }
  }

  ghost predicate NoReturns(blocks: seq<Block>) {
    forall block :: block in blocks && block.CueBlock? ==> NoReturn(block.text)
  }

  lemma CuesHaveNoReturns(raw: Text, sampleRate: nat)
    ensures NoReturns(BlocksOf(raw, sampleRate))
  {
    var blocks := SplitBlocks(Normalized(raw), 0);
    BlocksHaveNoReturns(Normalized(raw), 0);
    forall i | 0 <= i < |blocks|
      ensures var block := ReadBlock(blocks[i], sampleRate); block.CueBlock? ==> NoReturn(block.text)
    {
      CueHasNoReturns(blocks[i], sampleRate);
    }
  }
}
