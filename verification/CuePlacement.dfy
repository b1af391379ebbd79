/** Which line of the new document gets the time of which cue, from the file to the finished alignment. */
module CuePlacement {
  import opened Wrappers
  import opened Sequences
  import opened Schema
  import opened ProjectRules
  import opened LyricsText
  import opened LrcImport
  import opened LyricsDocuments
  import opened SubtitleFile
  import opened LyricsImport
  import opened AddLyrics

  /** What a line of the document reads, and how the occurrence that names it is timed. */
  datatype Placed = Placed(text: Text, timing: Timing)

  /** Line `m` of the document made of an import, with its entry in the alignment. */
  function LineOf(imported: Imported, id: Id, tokenizer: Tokenizer, revisionId: Id, source: Option<nat>, duration: nat,
                  m: nat): Option<Placed> {
    var document := BuiltDocument(imported.text, id, tokenizer);
    var alignment := NewAlignment(document, revisionId, ShiftAll(imported.timings, source, duration));
    if m < |document.lines| && alignment.lineOccurrences[m].target == document.lines[m].id then
      Some(Placed(Slice(document.text, document.lines[m].startOffset, document.lines[m].endOffset),
                  alignment.lineOccurrences[m].timing))
    else None
  }

  /** A line as its cue gives it: its text, and its span moved to where the project starts in its source. */
  function Given(text: Text, span: Option<Span>, source: Option<nat>, duration: nat): Placed {
    Placed(text, SuppliedTiming(Moved(span, source, duration)))
  }

  /** The lines of the document are the lines with words of the imported text, and the timings go to them one by one. */
  lemma TimingGoesToItsLine(imported: Imported, id: Id, tokenizer: Tokenizer, revisionId: Id, source: Option<nat>,
                            duration: nat, m: nat, text: Text, span: Option<Span>)
    requires m < |imported.timings| == |NonBlank(SplitLines(imported.text))|
    requires text == NonBlank(SplitLines(imported.text))[m] && span == imported.timings[m]
    ensures LineOf(imported, id, tokenizer, revisionId, source, duration, m)
            == Some(Given(text, span, source, duration))
  {
    var document := BuiltDocument(imported.text, id, tokenizer);
    DocumentLinesReadBack(imported.text, id);
    assert LineTexts(document.lines, imported.text)[m] == text;
  }

  // ----- LRC

  /** How many of the first cues have words. */
  function CuesWithWords(cues: seq<Cue>, n: nat): nat
    requires n <= |cues|
  {
    |NonBlank(CueTexts(cues)[..n])|
  }

  lemma {:induction false} NonBlankPrefix(lines: seq<Text>, n: nat, m: nat)
    requires n <= m <= |lines|
    ensures NonBlank(lines[..n]) <= NonBlank(lines[..m])
    decreases m - n
  {
    if n < m {
      NonBlankPrefix(lines, n, m - 1);
      assert lines[..m][..m - 1] == lines[..m - 1];
    }
  }

  lemma {:induction false} CueSpansPrefix(cues: seq<Cue>, n: nat, m: nat, duration: nat)
    requires n <= m <= |cues|
    ensures CueSpans(cues, n, duration) <= CueSpans(cues, m, duration)
    decreases m - n
  {
    if n < m {
      CueSpansPrefix(cues, n, m - 1, duration);
    }
  }

  /** A cue with words comes behind those before it, with its own text and span. */
  lemma CueAmongCues(cues: seq<Cue>, k: nat, duration: nat)
    requires k < |cues| && !Blank(cues[k].text)
    ensures var m := CuesWithWords(cues, k);
            && m < |NonBlank(CueTexts(cues))| == |CueSpans(cues, |cues|, duration)|
            && NonBlank(CueTexts(cues))[m] == cues[k].text
            && CueSpans(cues, |cues|, duration)[m] == Some(Span(cues[k].startSample, EndOfCue(cues, k, duration)))
  {
    var texts := CueTexts(cues);
    assert texts[..k + 1][..k] == texts[..k] && texts[..|cues|] == texts;
    NonBlankPrefix(texts, k + 1, |cues|);
    CueSpansPrefix(cues, k + 1, |cues|, duration);
    SpansOfCuesWithWords(cues, k, duration);
    SpansOfCuesWithWords(cues, |cues|, duration);
  }

  /**
   Every cue of an LRC file with words has its line: behind the lines of the cues before it, reading the text of
   the cue, and timed from the start of the cue to the start of the next.
  */
  lemma LrcCueLandsOnItsLine(text: Text, sampleRate: nat, limit: nat, imported: Imported, id: Id, tokenizer: Tokenizer,
                             revisionId: Id, source: Option<nat>, duration: nat, k: nat)
    requires ReadInput(LrcInput(text), sampleRate, limit) == Ok(imported)
    requires var cues := ReadCues(SplitLines(text), sampleRate).value; k < |cues| && !Blank(cues[k].text)
    ensures var cues := ReadCues(SplitLines(text), sampleRate).value;
            LineOf(imported, id, tokenizer, revisionId, source, duration, CuesWithWords(cues, k))
            == Some(Given(cues[k].text, Some(Span(cues[k].startSample, EndOfCue(cues, k, limit))), source, duration))
  {
    var cues := ReadCues(SplitLines(text), sampleRate).value;
    CuesAreOneLine(SplitLines(text), sampleRate);
    SplitUndoesJoin(CueTexts(cues));
    CueAmongCues(cues, k, limit);
    TimingGoesToItsLine(imported, id, tokenizer, revisionId, source, duration, CuesWithWords(cues, k),
                        cues[k].text, Some(Span(cues[k].startSample, EndOfCue(cues, k, limit))));
  }

  // ----- subtitles

  lemma SubtitleText(file: Text, sampleRate: nat, limit: nat, blocks: seq<Block>, imported: Imported)
    requires blocks == BlocksOf(file, sampleRate) && ReadInput(SubtitleInput(file), sampleRate, limit) == Ok(imported)
    ensures ReadSubtitles(blocks, limit).Ok?
    ensures var read := ReadSubtitles(blocks, limit).value;
            imported.timings == read.timings && NonBlank(SplitLines(imported.text)) == AllWordLines(read.texts)
  {
    CuesHaveNoReturns(file, sampleRate);
    SubtitleTextsHaveNoReturns(blocks, limit);
    JoinedCuesKeepTheirLines(ReadSubtitles(blocks, limit).value.texts);
  }

  lemma PlacedLine(read: Subtitles, first: nat, span: Span, text: Text, j: nat)
    requires CuePlaced(read, first, span, text) && j < WordLines(text)
    ensures first + j < |read.timings| == |AllWordLines(read.texts)|
    ensures read.timings[first + j] == if j == 0 then Some(span) else None
    ensures AllWordLines(read.texts)[first + j] == NonBlank(SplitLines(text))[j]
  {
    PartAt(read.timings, first, CueTimings(span, WordLines(text)), j);
    PartAt(AllWordLines(read.texts), first, NonBlank(SplitLines(text)), j);
  }

  lemma SubtitleLine(imported: Imported, read: Subtitles, id: Id, tokenizer: Tokenizer, revisionId: Id,
                     source: Option<nat>, duration: nat, first: nat, span: Span, text: Text, j: nat, line: Text)
    requires imported.timings == read.timings && NonBlank(SplitLines(imported.text)) == AllWordLines(read.texts)
    requires CuePlaced(read, first, span, text) && j < WordLines(text) && line == NonBlank(SplitLines(text))[j]
    ensures LineOf(imported, id, tokenizer, revisionId, source, duration, first + j)
            == Some(Given(line, if j == 0 then Some(span) else None, source, duration))
  {
    PlacedLine(read, first, span, text, j);
    TimingGoesToItsLine(imported, id, tokenizer, revisionId, source, duration, first + j, line,
                        if j == 0 then Some(span) else None);
  }

  /**
   Every line with words of a subtitle cue has its line, behind the lines of the cues before it and reading the
   same text; the first is timed by the span of the cue, the others are not timed.
  */
  lemma SubtitleCueLandsOnItsLines(file: Text, sampleRate: nat, limit: nat, imported: Imported, id: Id,
                                   tokenizer: Tokenizer, revisionId: Id, source: Option<nat>, duration: nat,
                                   blocks: seq<Block>, n: nat, first: nat, text: Text, span: Span, j: nat, line: Text)
    requires blocks == BlocksOf(file, sampleRate) && ReadInput(SubtitleInput(file), sampleRate, limit) == Ok(imported)
    requires n < |blocks| && blocks[n] == CueBlock(span.startSample, span.endSample, text)
    requires first == FirstLineOf(blocks, limit, n) && j < WordLines(text) && line == NonBlank(SplitLines(text))[j]
    ensures LineOf(imported, id, tokenizer, revisionId, source, duration, first + j)
            == Some(Given(line, if j == 0 then Some(span) else None, source, duration))
  {
    SubtitleText(file, sampleRate, limit, blocks, imported);
    CueSpanLandsOnItsFirstLine(blocks, limit, n);
    SubtitleLine(imported, ReadSubtitles(blocks, limit).value, id, tokenizer, revisionId, source, duration,
                 first, span, text, j, line);
  }
}
