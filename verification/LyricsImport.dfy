/** Reading subtitle files, the times that timed files supply, and which lines they are for. */
module LyricsImport {
  import opened Wrappers
  import opened Sequences
  import opened Schema
  import opened LyricsText
  import opened LrcImport
  import opened LyricsDocuments
  import opened SubtitleFile

  // ----- subtitles

  function WordLines(text: Text): nat { |NonBlank(SplitLines(text))| }

  /** The span of a cue goes to its first line; the others stay without a time. */
  function CueTimings(span: Span, lines: nat): (r: seq<Option<Span>>)
    requires lines > 0
    ensures |r| == lines && r[0] == Some(span) && forall i :: 0 < i < lines ==> r[i] == None
  {
    seq(lines, i => if i == 0 then Some(span) else None)
  }

  predicate BlockFits(block: Block, previousEnd: nat, duration: nat) {
    block.CueBlock? && previousEnd <= block.startSample < block.endSample <= duration && !Blank(block.text)
  }

  datatype Subtitles = Subtitles(texts: seq<Text>, timings: seq<Option<Span>>, previousEnd: nat)

  function WithBlock(before: Subtitles, block: Block, duration: nat): Result<Subtitles> {
    if block.Ignored? then Ok(before)
    else if !BlockFits(block, before.previousEnd, duration) then Err
    else
      var lines := WordLines(block.text);
      Ok(Subtitles(before.texts + [block.text],
                   before.timings + CueTimings(Span(block.startSample, block.endSample),
                                               if lines == 0 then 1 else lines),
                   block.endSample))
  }

  function ReadSubtitles(blocks: seq<Block>, duration: nat): Result<Subtitles> {
    if blocks == [] then Ok(Subtitles([], [], 0))
    else
      var before := ReadSubtitles(blocks[..|blocks| - 1], duration);
      if before.Err? then Err else WithBlock(before.value, blocks[|blocks| - 1], duration)
  }

  lemma {:induction false} SubtitleErrorsStay(blocks: seq<Block>, n: nat, duration: nat)
    requires n <= |blocks| && ReadSubtitles(blocks[..n], duration).Err?
    ensures ReadSubtitles(blocks, duration).Err?
    decreases |blocks|
  {
    if n < |blocks| {
      var init := blocks[..|blocks| - 1];
      assert init[..n] == blocks[..n];
      SubtitleErrorsStay(init, n, duration);
    } else {
      assert blocks[..n] == blocks;
    }
  }

  method ImportSubtitles(raw: Text, sampleRate: nat, duration: nat) returns (r: Result<Subtitles>)
    ensures r == ReadSubtitles(BlocksOf(raw, sampleRate), duration)
  {
    r := ImportBlocks(SplitBlocks(Normalized(raw), 0), sampleRate, duration, BlocksOf(raw, sampleRate));
  }

  method ImportBlocks(pieces: seq<Text>, sampleRate: nat, duration: nat, ghost blocks: seq<Block>)
    returns (r: Result<Subtitles>)
    requires blocks == ReadBlocks(pieces, sampleRate)
    ensures r == ReadSubtitles(blocks, duration)
  {
    var read := Subtitles([], [], 0);
    for n := 0 to |pieces|
      invariant ReadSubtitles(blocks[..n], duration) == Ok(read)
    {
      var block := ParseOne(pieces, n, sampleRate, blocks);
      var next := AddBlock(read, block, duration);
      OneMoreBlock(blocks, n, duration);
      if next.Err? {
        SubtitleErrorsStay(blocks, n + 1, duration);
        return Err;
      }
      read := next.value;
    }
    assert blocks[..|blocks|] == blocks;
    r := Ok(read);
  }

  lemma OneMoreBlock(blocks: seq<Block>, n: nat, duration: nat)
    requires n < |blocks| && ReadSubtitles(blocks[..n], duration).Ok?
    ensures ReadSubtitles(blocks[..n + 1], duration)
            == WithBlock(ReadSubtitles(blocks[..n], duration).value, blocks[n], duration)
  {
    assert blocks[..n + 1][..n] == blocks[..n];
  }

  method ParseOne(pieces: seq<Text>, n: nat, sampleRate: nat, ghost blocks: seq<Block>) returns (block: Block)
    requires n < |pieces| && blocks == ReadBlocks(pieces, sampleRate)
    ensures block == blocks[n]
  {
    block := ParseBlock(pieces[n], sampleRate);
  }

  method AddBlock(before: Subtitles, block: Block, duration: nat) returns (r: Result<Subtitles>)
    ensures r == WithBlock(before, block, duration)
  {
    match block {
      case Ignored => r := Ok(before);
      case Malformed => r := Err;
      case CueBlock(startSample, endSample, text) =>
        if startSample < before.previousEnd || startSample >= endSample || endSample > duration || Blank(text) {
          return Err;
        }
        var own := SpreadSpan(Span(startSample, endSample), WordLines(text));
        r := Ok(Subtitles(before.texts + [text], before.timings + own, endSample));
    }
  }

  method SpreadSpan(span: Span, lines: nat) returns (timings: seq<Option<Span>>)
    ensures timings == CueTimings(span, if lines == 0 then 1 else lines)
  {
    timings := [Some(span)];
    var index := 1;
    while index < lines
      invariant 1 <= index && |timings| == index && (lines > 0 ==> index <= lines) && (lines == 0 ==> index == 1)
      invariant timings[0] == Some(span) && forall i :: 0 < i < index ==> timings[i] == None
    {
      timings := timings + [None];
      index := index + 1;
    }
  }

  // ----- spans in order

  /** Supplied spans are non-empty, in order, without overlap, and inside the project. */
  ghost predicate SpansInOrder(timings: seq<Option<Span>>, duration: nat) {
    && (forall i :: 0 <= i < |timings| && timings[i].Some? ==>
          timings[i].value.startSample < timings[i].value.endSample <= duration)
    && (forall i, j :: 0 <= i < j < |timings| && timings[i].Some? && timings[j].Some? ==>
          timings[i].value.endSample <= timings[j].value.startSample)
  }

  /** Everything so far ends by a given sample. */
  ghost predicate EndsBy(timings: seq<Option<Span>>, end: nat) {
    forall i :: 0 <= i < |timings| && timings[i].Some? ==> timings[i].value.endSample <= end
  }

  lemma SpansExtend(timings: seq<Option<Span>>, end: nat, span: Span, lines: nat, duration: nat)
    requires SpansInOrder(timings, duration) && EndsBy(timings, end) && lines > 0
    requires end <= span.startSample < span.endSample <= duration
    ensures SpansInOrder(timings + CueTimings(span, lines), duration)
    ensures EndsBy(timings + CueTimings(span, lines), span.endSample)
  {
  }

  lemma {:induction false} SubtitleSpansInOrder(blocks: seq<Block>, duration: nat)
    requires ReadSubtitles(blocks, duration).Ok?
    ensures var read := ReadSubtitles(blocks, duration).value;
            SpansInOrder(read.timings, duration) && EndsBy(read.timings, read.previousEnd)
  {
    if blocks != [] {
      var init, block := blocks[..|blocks| - 1], blocks[|blocks| - 1];
      SubtitleSpansInOrder(init, duration);
      if !block.Ignored? {
        var before, lines := ReadSubtitles(init, duration).value, WordLines(block.text);
        SpansExtend(before.timings, before.previousEnd, Span(block.startSample, block.endSample),
                    if lines == 0 then 1 else lines, duration);
      }
    }
  }

  lemma {:induction false} CueSpansInOrder(cues: seq<Cue>, n: nat, duration: nat)
    requires n <= |cues| && forall k :: 0 <= k < |cues| ==> CueFits(cues, k, duration)
    ensures SpansInOrder(CueSpans(cues, n, duration), duration)
    ensures EndsBy(CueSpans(cues, n, duration), if n < |cues| then cues[n].startSample else duration)
  {
    if n > 0 {
      CueSpansInOrder(cues, n - 1, duration);
      assert CueFits(cues, n - 1, duration);
      var span := Span(cues[n - 1].startSample, EndOfCue(cues, n - 1, duration));
      if !Blank(cues[n - 1].text) {
        SpansExtend(CueSpans(cues, n - 1, duration), cues[n - 1].startSample, span, 1, duration);
        assert CueTimings(span, 1) == [Some(span)];
      }
    }
  }

  // ----- which line gets which span

  lemma {:induction false} SplitFromConcat(a: Text, b: Text, at: nat)
    requires NoReturn(a) && at <= |a|
    ensures SplitFrom(a + [LF] + b, at) == SplitFrom(a, at) + SplitLines(b)
    decreases |a| - at
  {
    var end := LineEnd(a, at);
    LineEndIsShared(a, b, at);
    if end < |a| {
      NextLineIsShared(a, b, end);
      SplitFromConcat(a, b, end + 1);
      InnerLineIsShared(a, b, at, end);
    } else {
      AfterTheBreak(a, b);
      LastLineIsShared(a, b, at);
    }
  }

  lemma FirstLineAndRest(text: Text, at: nat)
    requires at <= |text|
    ensures var end := LineEnd(text, at);
            SplitFrom(text, at) == if end == |text| then [text[at..end]]
              else [text[at..end]] + SplitFrom(text, NextLine(text, end))
  {
    var end := LineEnd(text, at);
    assert [text[at..end]] + [] == [text[at..end]];
  }

  lemma InnerLineIsShared(a: Text, b: Text, at: nat, end: nat)
    requires at <= end < |a| && LineEnd(a, at) == end == LineEnd(a + [LF] + b, at)
    requires NextLine(a, end) == end + 1 == NextLine(a + [LF] + b, end)
    requires SplitFrom(a + [LF] + b, end + 1) == SplitFrom(a, end + 1) + SplitLines(b)
    ensures SplitFrom(a + [LF] + b, at) == SplitFrom(a, at) + SplitLines(b)
  {
    SliceIsShared(a, b, at, end);
    FirstLineAndRest(a + [LF] + b, at);
    FirstLineAndRest(a, at);
    FirstThenRest([a[at..end]], SplitFrom(a, end + 1), SplitLines(b),
                  SplitFrom(a, at), SplitFrom(a + [LF] + b, end + 1), SplitFrom(a + [LF] + b, at));
  }

  lemma LastLineIsShared(a: Text, b: Text, at: nat)
    requires at <= |a| && LineEnd(a, at) == |a| == LineEnd(a + [LF] + b, at)
    requires NextLine(a + [LF] + b, |a|) == |a| + 1 && SplitFrom(a + [LF] + b, |a| + 1) == SplitLines(b)
    ensures SplitFrom(a + [LF] + b, at) == SplitFrom(a, at) + SplitLines(b)
  {
    SliceIsShared(a, b, at, |a|);
    FirstLineAndRest(a + [LF] + b, at);
    FirstLineAndRest(a, at);
  }

  lemma FirstThenRest<T>(head: seq<T>, tail: seq<T>, more: seq<T>, short: seq<T>, rest: seq<T>, long: seq<T>)
    requires short == head + tail && rest == tail + more && long == head + rest
    ensures long == short + more
  {
    Associate(head, tail, more);
  }

  lemma SliceIsShared(a: Text, b: Text, at: nat, end: nat)
    requires at <= end <= |a|
    ensures (a + [LF] + b)[at..end] == a[at..end]
  {
  }

  lemma AfterTheBreak(a: Text, b: Text)
    ensures var text := a + [LF] + b;
            |a| < |text| && NextLine(text, |a|) == |a| + 1 && SplitFrom(text, |a| + 1) == SplitLines(b)
  {
    SplitShifts(a + [LF], b, 0);
    assert (a + [LF] + b)[|a|] == LF;
  }

  lemma NextLineIsShared(a: Text, b: Text, end: nat)
    requires NoReturn(a) && end < |a|
    ensures NextLine(a + [LF] + b, end) == NextLine(a, end) == end + 1
  {
    assert (a + [LF] + b)[end] == a[end];
  }

  lemma {:induction false} LineEndIsShared(a: Text, b: Text, at: nat)
    requires at <= |a|
    ensures LineEnd(a + [LF] + b, at) == LineEnd(a, at)
    decreases |a| - at
  {
    if at < |a| && !IsBreak(a[at]) {
      LineEndIsShared(a, b, at + 1);
    }
  }

  lemma {:induction false} NonBlankConcat(a: seq<Text>, b: seq<Text>)
    ensures NonBlank(a + b) == NonBlank(a) + NonBlank(b)
  {
    if b == [] {
      assert a + b == a;
    } else {
      NonBlankConcat(a, b[..|b| - 1]);
      assert (a + b)[..|a + b| - 1] == a + b[..|b| - 1];
      Associate(NonBlank(a), NonBlank(b[..|b| - 1]), if Blank(b[|b| - 1]) then [] else [b[|b| - 1]]);
    }
  }

  lemma JoinedLines(a: Text, b: Text)
    requires NoReturn(a)
    ensures NonBlank(SplitLines(a + [LF] + b)) == NonBlank(SplitLines(a)) + NonBlank(SplitLines(b))
  {
    SplitFromConcat(a, b, 0);
    NonBlankConcat(SplitLines(a), SplitLines(b));
  }

  function AllWordLines(texts: seq<Text>): seq<Text> {
    if texts == [] then [] else NonBlank(SplitLines(texts[0])) + AllWordLines(texts[1..])
  }

  /** The lines with words of joined cues are those of the cues, one cue after another. */
  lemma {:induction false} JoinedCuesKeepTheirLines(texts: seq<Text>)
    requires texts != [] && forall text :: text in texts ==> NoReturn(text)
    ensures NonBlank(SplitLines(JoinLines(texts))) == AllWordLines(texts)
  {
    if |texts| == 1 {
      assert AllWordLines(texts) == NonBlank(SplitLines(texts[0])) + [];
    } else {
      JoinedCuesKeepTheirLines(texts[1..]);
      JoinedLines(texts[0], JoinLines(texts[1..]));
    }
  }

  lemma {:induction false} AllWordLinesConcat(a: seq<Text>, b: seq<Text>)
    ensures AllWordLines(a + b) == AllWordLines(a) + AllWordLines(b)
  {
    if a == [] {
      assert a + b == b;
    } else {
      AllWordLinesConcat(a[1..], b);
      assert (a + b)[1..] == a[1..] + b;
      Associate(NonBlank(SplitLines(a[0])), AllWordLines(a[1..]), AllWordLines(b));
    }
  }

  lemma AllWordLinesSnoc(texts: seq<Text>, text: Text)
    ensures AllWordLines(texts + [text]) == AllWordLines(texts) + NonBlank(SplitLines(text))
  {
    AllWordLinesConcat(texts, [text]);
    assert AllWordLines([text]) == NonBlank(SplitLines(text)) + [];
  }

  // ----- from the file to its blocks

  lemma {:induction false} LeadingFeeds(text: Text, at: nat)
    requires NoReturn(text) && at <= |text|
    ensures NonBlank(SplitLines(text[at..])) == NonBlank(SplitLines(text[FeedsEnd(text, at)..]))
    decreases |text| - at
  {
    if at < |text| && text[at] == LF {
      LeadingFeeds(text, at + 1);
      assert text[at..] == [] + [LF] + text[at + 1..];
      JoinedLines([], text[at + 1..]);
      NoLineHasWords();
    }
  }

  lemma NoLineHasWords()
    ensures NonBlank(SplitLines([])) == []
  {
    var empty: Text := [];
    assert SplitLines(empty) == [empty[0..0]] && [empty][..0] == [];
  }

  lemma BlockThenRest(text: Text, at: nat, end: nat)
    requires NoReturn(text) && at <= end && EmptyLineAt(text, end)
    ensures NonBlank(SplitLines(text[at..]))
            == NonBlank(SplitLines(text[at..end])) + NonBlank(SplitLines(text[FeedsEnd(text, end)..]))
  {
    var all, block, rest := PartsAtEmptyLine(text, at, end);
    JoinedLines(block, rest);
    LeadingFeeds(text, end + 1);
  }

  lemma PartsAtEmptyLine(text: Text, at: nat, end: nat) returns (all: Text, block: Text, rest: Text)
    requires NoReturn(text) && at <= end && EmptyLineAt(text, end)
    ensures all == text[at..] && block == text[at..end] && rest == text[end + 1..]
    ensures all == block + [LF] + rest && NoReturn(block)
  {
    all, block, rest := text[at..], text[at..end], text[end + 1..];
  }

  lemma FirstOfAll(first: Text, rest: seq<Text>)
    ensures AllWordLines([first] + rest) == NonBlank(SplitLines(first)) + AllWordLines(rest)
  {
    assert ([first] + rest)[1..] == rest;
  }

  lemma {:induction false} BlocksKeepTheLines(text: Text, at: nat)
    requires NoReturn(text) && at <= |text|
    ensures AllWordLines(SplitBlocks(text, at)) == NonBlank(SplitLines(text[at..]))
    decreases |text| - at
  {
    var end := BlockEnd(text, at);
    if end == |text| {
      assert SplitBlocks(text, at) == [text[at..end]] && text[at..end] == text[at..];
      assert AllWordLines([text[at..]]) == NonBlank(SplitLines(text[at..])) + [];
    } else {
      BlocksKeepTheLines(text, FeedsEnd(text, end));
      BlockThenRest(text, at, end);
      FirstOfAll(text[at..end], SplitBlocks(text, FeedsEnd(text, end)));
    }
  }

  /** Every line of a subtitle file with anything on it is in a block, in order, whatever its line breaks. */
  lemma FileLinesAreInBlocks(raw: Text)
    ensures AllWordLines(SplitBlocks(Normalized(raw), 0)) == NonBlank(SplitFrom(raw, Marked(raw)))
  {
    BlocksKeepTheLines(Normalized(raw), 0);
    assert Normalized(raw)[0..] == Normalized(raw);
    LineFeedsKeepLines(raw, Marked(raw));
  }

  lemma NonBlankOne(line: Text)
    requires !Blank(line)
    ensures NonBlank([line]) == [line]
  {
    assert [line][..0] == [];
    assert NonBlank([line]) == [] + [line];
  }

  lemma NonBlankFirst(line: Text, rest: seq<Text>)
    requires !Blank(line)
    ensures NonBlank([line] + rest) != [] && NonBlank([line]) != []
  {
    NonBlankOne(line);
    NonBlankConcat([line], rest);
  }

  lemma FirstLineHasWords(text: Text, at: nat, k: nat)
    requires at <= |text| && at <= k < LineEnd(text, at) && !IsSpace(text[k])
    ensures NonBlank(SplitFrom(text, at)) != []
  {
    var end := LineEnd(text, at);
    assert text[at..end][k - at] == text[k];
    FirstLineAndRest(text, at);
    NonBlankFirst(text[at..end], if end == |text| then [] else SplitFrom(text, NextLine(text, end)));
  }

  lemma LaterLinesHaveWords(text: Text, at: nat)
    requires at <= |text| && LineEnd(text, at) < |text|
    requires NonBlank(SplitFrom(text, NextLine(text, LineEnd(text, at)))) != []
    ensures NonBlank(SplitFrom(text, at)) != []
  {
    FirstLineAndRest(text, at);
    NonBlankConcat([text[at..LineEnd(text, at)]], SplitFrom(text, NextLine(text, LineEnd(text, at))));
  }

  lemma {:induction false} SomeLineHasWords(text: Text, at: nat, k: nat)
    requires at <= k < |text| && !IsSpace(text[k])
    ensures NonBlank(SplitFrom(text, at)) != []
    decreases |text| - at
  {
    var end := LineEnd(text, at);
    if k < end {
      FirstLineHasWords(text, at, k);
    } else {
      assert IsSpace(text[end]);
      SomeLineHasWords(text, NextLine(text, end), k);
      LaterLinesHaveWords(text, at);
    }
  }

  lemma NonBlankTextHasWords(text: Text)
    requires !Blank(text)
    ensures WordLines(text) > 0
  {
    var k :| 0 <= k < |text| && !IsSpace(text[k]);
    SomeLineHasWords(text, 0, k);
  }

  /** There are as many timings as lines with words in the joined text. */
  lemma {:induction false} SubtitlesLineUp(blocks: seq<Block>, duration: nat)
    requires ReadSubtitles(blocks, duration).Ok?
    ensures var read := ReadSubtitles(blocks, duration).value;
            |read.timings| == |AllWordLines(read.texts)|
  {
    if blocks != [] {
      var init, block := blocks[..|blocks| - 1], blocks[|blocks| - 1];
      SubtitlesLineUp(init, duration);
      if !block.Ignored? {
        NonBlankTextHasWords(block.text);
        AllWordLinesSnoc(ReadSubtitles(init, duration).value.texts, block.text);
      }
    }
  }

  /** Where the lines of a cue begin: behind those of the cues before it. */
  function FirstLineOf(blocks: seq<Block>, duration: nat, n: nat): nat
    requires n <= |blocks|
  {
    var before := ReadSubtitles(blocks[..n], duration);
    if before.Err? then 0 else |AllWordLines(before.value.texts)|
  }

  /** From line `first` on come the lines with words of a cue; its span stands at the first, the others have none. */
  ghost predicate CuePlaced(read: Subtitles, first: nat, span: Span, text: Text) {
    var lines := WordLines(text);
    && lines > 0 && first + lines <= |read.timings| == |AllWordLines(read.texts)|
    && read.timings[first..first + lines] == CueTimings(span, lines)
    && AllWordLines(read.texts)[first..first + lines] == NonBlank(SplitLines(text))
  }

  lemma PlacedBehind(before: Subtitles, read: Subtitles, span: Span, text: Text)
    requires WordLines(text) > 0 && |before.timings| == |AllWordLines(before.texts)|
             && |read.timings| == |AllWordLines(read.texts)|
    requires before.texts + [text] <= read.texts && before.timings + CueTimings(span, WordLines(text)) <= read.timings
    ensures CuePlaced(read, |AllWordLines(before.texts)|, span, text)
  {
    var own := CueTimings(span, WordLines(text));
    var rest := read.timings[|before.timings| + |own|..];
    assert read.timings == before.timings + own + rest;
    MiddlePart(before.timings, own, rest, read.timings);
    OwnLines(before.texts, text, read.texts);
  }

  /** Reading goes on from where the first blocks leave off. */
  lemma ReadAround(blocks: seq<Block>, duration: nat, n: nat)
    returns (before: Subtitles, after: Subtitles, read: Subtitles)
    requires ReadSubtitles(blocks, duration).Ok? && n < |blocks|
    ensures ReadSubtitles(blocks[..n], duration) == Ok(before) && ReadSubtitles(blocks[..n + 1], duration) == Ok(after)
    ensures ReadSubtitles(blocks, duration) == Ok(read) && after.texts <= read.texts && after.timings <= read.timings
  {
    assert blocks[..|blocks|] == blocks;
    ReadPrefix(blocks, duration, n + 1, |blocks|);
    ReadPrefix(blocks, duration, n, n + 1);
    before, after := ReadSubtitles(blocks[..n], duration).value, ReadSubtitles(blocks[..n + 1], duration).value;
    read := ReadSubtitles(blocks, duration).value;
  }

  /** The span of a cue stands at the first of the lines it makes in the joined text. */
  lemma CueSpanLandsOnItsFirstLine(blocks: seq<Block>, duration: nat, n: nat)
    requires ReadSubtitles(blocks, duration).Ok? && n < |blocks| && blocks[n].CueBlock?
    ensures CuePlaced(ReadSubtitles(blocks, duration).value, FirstLineOf(blocks, duration, n),
                      Span(blocks[n].startSample, blocks[n].endSample), blocks[n].text)
  {
    var before, after, read := ReadAround(blocks, duration, n);
    OwnTimings(blocks, duration, n);
    SubtitlesLineUp(blocks, duration);
    PlacedBehind(before, read, Span(blocks[n].startSample, blocks[n].endSample), blocks[n].text);
  }

  lemma OwnLines(before: seq<Text>, own: Text, all: seq<Text>)
    requires before + [own] <= all
    ensures var first, lines := |AllWordLines(before)|, NonBlank(SplitLines(own));
            first + |lines| <= |AllWordLines(all)| && AllWordLines(all)[first..first + |lines|] == lines
  {
    var rest := all[|before| + 1..];
    assert before + [own] + rest == all;
    AllWordLinesConcat(before + [own], rest);
    AllWordLinesSnoc(before, own);
    MiddlePart(AllWordLines(before), NonBlank(SplitLines(own)), AllWordLines(rest), AllWordLines(all));
  }

  lemma OwnTimings(blocks: seq<Block>, duration: nat, n: nat)
    requires n < |blocks| && blocks[n].CueBlock? && ReadSubtitles(blocks[..n], duration).Ok?
    requires ReadSubtitles(blocks[..n + 1], duration).Ok?
    ensures var before, after := ReadSubtitles(blocks[..n], duration).value,
                ReadSubtitles(blocks[..n + 1], duration).value;
            && WordLines(blocks[n].text) > 0 && |before.timings| == |AllWordLines(before.texts)|
            && after.texts == before.texts + [blocks[n].text]
            && after.timings == before.timings + CueTimings(Span(blocks[n].startSample, blocks[n].endSample),
                                                            WordLines(blocks[n].text))
  {
    assert blocks[..n + 1][..n] == blocks[..n];
    SubtitlesLineUp(blocks[..n], duration);
    NonBlankTextHasWords(blocks[n].text);
  }

  lemma {:induction false} ReadPrefix(blocks: seq<Block>, duration: nat, n: nat, m: nat)
    requires n <= m <= |blocks| && ReadSubtitles(blocks[..m], duration).Ok?
    ensures ReadSubtitles(blocks[..n], duration).Ok?
    ensures ReadSubtitles(blocks[..n], duration).value.timings <= ReadSubtitles(blocks[..m], duration).value.timings
    ensures ReadSubtitles(blocks[..n], duration).value.texts <= ReadSubtitles(blocks[..m], duration).value.texts
    decreases m - n
  {
    if n < m {
      assert blocks[..m][..m - 1] == blocks[..m - 1];
      ReadPrefix(blocks, duration, n, m - 1);
    }
  }
}
