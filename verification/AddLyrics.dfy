/** Adding imported lyrics to a project, and exactly when the project that comes out is valid. */
module AddLyrics {
  import opened Wrappers
  import opened Sequences
  import opened Schema
  import opened Invariants
  import opened History
  import opened Anchors
  import opened Edits
  import opened ProjectRules
  import opened LyricsText
  import opened LrcImport
  import opened LyricsDocuments
  import opened SubtitleFile
  import opened LyricsImport

  datatype Input = TextInput(text: Text) | LrcInput(text: Text) | SubtitleInput(text: Text)

  const MAX_SAFE_INTEGER: nat := 0x1F_FFFF_FFFF_FFFF

  function ReadInput(input: Input, sampleRate: nat, duration: nat): Result<Imported> {
    match input
    case TextInput(text) => Ok(Imported(text, []))
    case LrcInput(text) => ReadLrc(text, sampleRate, duration)
    case SubtitleInput(text) =>
      var read := ReadSubtitles(BlocksOf(text, sampleRate), duration);
      if read.Err? || read.value.texts == [] then Err else Ok(Imported(JoinLines(read.value.texts), read.value.timings))
  }

  /** Every supplied span is proper, whatever the format. */
  lemma ImportedSpansInOrder(input: Input, sampleRate: nat, duration: nat)
    requires ReadInput(input, sampleRate, duration).Ok?
    ensures SpansInOrder(ReadInput(input, sampleRate, duration).value.timings, duration)
  {
    match input {
      case TextInput(_) =>
      case LrcInput(text) =>
        var cues := ReadCues(SplitLines(text), sampleRate).value;
        CueSpansInOrder(cues, |cues|, duration);
      case SubtitleInput(text) => SubtitleSpansInOrder(BlocksOf(text, sampleRate), duration);
    }
  }

  lemma {:induction false} CuesAreOneLine(lines: seq<Text>, sampleRate: nat)
    requires ReadCues(lines, sampleRate).Ok?
    ensures forall cue :: cue in ReadCues(lines, sampleRate).value ==> OneLine(cue.text)
  {
    if lines != [] {
      CuesAreOneLine(lines[..|lines| - 1], sampleRate);
    }
  }

  lemma {:induction false} SpansOfCuesWithWords(cues: seq<Cue>, n: nat, duration: nat)
    requires n <= |cues|
    ensures |CueSpans(cues, n, duration)| == |NonBlank(CueTexts(cues)[..n])|
  {
    if n > 0 {
      SpansOfCuesWithWords(cues, n - 1, duration);
      assert CueTexts(cues)[..n][..n - 1] == CueTexts(cues)[..n - 1];
    }
  }

  lemma {:induction false} SubtitleTextsHaveNoReturns(blocks: seq<Block>, duration: nat)
    requires ReadSubtitles(blocks, duration).Ok? && NoReturns(blocks)
    ensures forall text :: text in ReadSubtitles(blocks, duration).value.texts ==> NoReturn(text)
  {
    if blocks != [] {
      assert blocks[|blocks| - 1] in blocks;
      SubtitleTextsHaveNoReturns(blocks[..|blocks| - 1], duration);
    }
  }

  /** A timed file supplies one timing for each line with words of its text. */
  lemma TimingsMatchLines(input: Input, sampleRate: nat, duration: nat)
    requires ReadInput(input, sampleRate, duration).Ok? && !input.TextInput?
    ensures var imported := ReadInput(input, sampleRate, duration).value;
            |imported.timings| == |NonBlank(SplitLines(imported.text))|
  {
    match input {
      case LrcInput(text) =>
        var cues := ReadCues(SplitLines(text), sampleRate).value;
        CuesAreOneLine(SplitLines(text), sampleRate);
        SplitUndoesJoin(CueTexts(cues));
        SpansOfCuesWithWords(cues, |cues|, duration);
        assert CueTexts(cues)[..|cues|] == CueTexts(cues);
      case SubtitleInput(text) =>
        var blocks := BlocksOf(text, sampleRate);
        CuesHaveNoReturns(text, sampleRate);
        SubtitleTextsHaveNoReturns(blocks, duration);
        JoinedCuesKeepTheirLines(ReadSubtitles(blocks, duration).value.texts);
        SubtitlesLineUp(blocks, duration);
    }
  }

  /** Supplied spans are proper, and a timed file supplies one timing, possibly empty, for each line with words. */
  ghost predicate ProperImport(imported: Imported, timed: bool, duration: nat) {
    && SpansInOrder(imported.timings, duration)
    && (if timed then |imported.timings| == |NonBlank(SplitLines(imported.text))| else imported.timings == [])
  }

  lemma ImportIsProper(input: Input, sampleRate: nat, duration: nat)
    requires ReadInput(input, sampleRate, duration).Ok?
    ensures ProperImport(ReadInput(input, sampleRate, duration).value, !input.TextInput?, duration)
  {
    ImportedSpansInOrder(input, sampleRate, duration);
    if !input.TextInput? {
      TimingsMatchLines(input, sampleRate, duration);
    }
  }

  method ImportLines(input: Input, sampleRate: nat, duration: nat) returns (r: Result<Imported>)
    ensures r == ReadInput(input, sampleRate, duration)
    ensures input.TextInput? ==> r.Ok? && r.value.text == input.text
    ensures r.Ok? ==> ProperImport(r.value, !input.TextInput?, duration)
  {
    if ReadInput(input, sampleRate, duration).Ok? {
      ImportIsProper(input, sampleRate, duration);
    }
    match input {
      case TextInput(text) => r := Ok(Imported(text, []));
      case LrcInput(text) => r := ImportLrc(text, sampleRate, duration);
      case SubtitleInput(text) =>
        var read := ImportSubtitles(text, sampleRate, duration);
        if read.Err? || read.value.texts == [] {
          return Err;
        }
        r := Ok(Imported(JoinLines(read.value.texts), read.value.timings));
    }
  }

  // ----- moving times to where the project starts in its source

  function Shift(timing: Option<Span>, source: nat, duration: nat): Option<Span> {
    if timing == None then None
    else
      var start := if timing.value.startSample < source then 0 else timing.value.startSample - source;
      var end: int := timing.value.endSample - source;
      var cut := if end < duration then end else duration;
      if start < cut then Some(Span(start, cut)) else None
  }

  function Moved(timing: Option<Span>, source: Option<nat>, duration: nat): Option<Span> {
    if source == None then timing else Shift(timing, source.value, duration)
  }

  function ShiftAll(timings: seq<Option<Span>>, source: Option<nat>, duration: nat): (r: seq<Option<Span>>)
    ensures |r| == |timings| && forall i :: 0 <= i < |r| ==> r[i] == Moved(timings[i], source, duration)
  {
    seq(|timings|, i requires 0 <= i < |timings| => Moved(timings[i], source, duration))
  }

  predicate Sounds(timing: Option<Span>, sample: nat) {
    timing.Some? && timing.value.startSample <= sample < timing.value.endSample
  }

  /** A sample of the project is in a moved time exactly when the sample of the source it comes from is in the time. */
  lemma SamplesAreMoved(timing: Option<Span>, source: nat, duration: nat, sample: nat)
    ensures Sounds(Shift(timing, source, duration), sample) <==> sample < duration && Sounds(timing, sample + source)
    ensures var moved := Shift(timing, source, duration);
            moved.Some? ==> moved.value.startSample < moved.value.endSample
  {
  }

  /** Times cut to the project stay proper. */
  lemma ShiftKeepsOrder(timings: seq<Option<Span>>, limit: nat, source: Option<nat>, duration: nat)
    requires SpansInOrder(timings, limit) && (source == None ==> limit == duration)
    ensures SpansInOrder(ShiftAll(timings, source, duration), duration)
  {
    var shifted := ShiftAll(timings, source, duration);
    forall i | 0 <= i < |shifted| && shifted[i].Some?
      ensures shifted[i].value.startSample < shifted[i].value.endSample <= duration
    {
      assert shifted[i] == Moved(timings[i], source, duration);
    }
    forall i, j | 0 <= i < j < |shifted| && shifted[i].Some? && shifted[j].Some?
      ensures shifted[i].value.endSample <= shifted[j].value.startSample
    {
      assert shifted[i] == Moved(timings[i], source, duration) && shifted[j] == Moved(timings[j], source, duration);
    }
  }

  // ----- the alignment

  const Untimed := Unmatched("untimed_reference")

  function SuppliedTiming(timing: Option<Span>): Timing {
    match timing
    case None => Untimed
    case Some(span) => Matched(span.startSample, span.endSample, Assertion([], ["supplied_line_timing"], Asserted))
  }

  /** The timing supplied for a line: lines beyond the timings have none. */
  function TimingAt(timings: seq<Option<Span>>, index: nat): Option<Span> {
    if index < |timings| then timings[index] else None
  }

  function TokenOccurrences(tokens: seq<LyricsToken>): (r: seq<Occurrence>)
    ensures |r| == |tokens| && forall i :: 0 <= i < |r| ==> r[i] == Occurrence(tokens[i].id, Untimed)
  {
    seq(|tokens|, i requires 0 <= i < |tokens| => Occurrence(tokens[i].id, Untimed))
  }

  function LineOccurrences(lines: seq<LyricsLine>, timings: seq<Option<Span>>): (r: seq<Occurrence>)
    ensures |r| == |lines| && forall i :: 0 <= i < |r| ==>
                                r[i] == Occurrence(lines[i].id, SuppliedTiming(TimingAt(timings, i)))
  {
    seq(|lines|, i requires 0 <= i < |lines| => Occurrence(lines[i].id, SuppliedTiming(TimingAt(timings, i))))
  }

  function AlignmentName(id: Id): Id { id + "_alignment" }

  function NewAlignment(document: LyricsDocument, revisionId: Id, timings: seq<Option<Span>>): LyricsAlignment {
    LyricsAlignment(AlignmentName(document.id), document.id, revisionId,
                    TokenOccurrences(document.tokens), LineOccurrences(document.lines, timings), None)
  }

  lemma NewAlignmentIsValid(document: LyricsDocument, revisionId: Id, timings: seq<Option<Span>>, duration: nat)
    requires SpansInOrder(timings, duration)
    ensures ValidAlignment(NewAlignment(document, revisionId, timings), document, duration)
  {
    var alignment := NewAlignment(document, revisionId, timings);
    assert Targets(alignment.occurrences) == TokenIds(document.tokens);
    assert Targets(alignment.lineOccurrences) == LineIds(document.lines);
    var times := Timings(alignment.lineOccurrences);
    forall i | 0 <= i < |times| && times[i].Matched?
      ensures times[i].startSample < times[i].endSample <= duration
    {
      assert times[i] == SuppliedTiming(TimingAt(timings, i));
    }
    forall i, j | 0 <= i < j < |times| && times[i].Matched? && times[j].Matched?
      ensures times[i].endSample <= times[j].startSample
    {
      assert times[i] == SuppliedTiming(TimingAt(timings, i)) && times[j] == SuppliedTiming(TimingAt(timings, j));
    }
  }

  // ----- the project

  function WithLyrics(project: Project, view: ActiveView, document: LyricsDocument,
                      alignment: LyricsAlignment): Project {
    project.(lyricsDocuments := project.lyricsDocuments + [document],
             lyricsAlignments := project.lyricsAlignments + [alignment],
             activeView := Some(ActiveView(view.analysisRevisionId, view.editLayerId, view.editHistoryPosition,
                                           Some(document.id), Some(alignment.id))))
  }

  function ReadLimit(project: Project, source: Option<nat>): nat {
    if source == None then project.durationSamples else MAX_SAFE_INTEGER
  }

  function AddedLyrics(project: Project, input: Input, id: Id, tokenizer: Tokenizer,
                       source: Option<nat>): Result<Project> {
    if project.activeView == None || id in DocumentIds(project.lyricsDocuments) then Err
    else
      var imported := ReadInput(input, project.sampleRate, ReadLimit(project, source));
      if imported.Err? then Err
      else
        var document := BuiltDocument(imported.value.text, id, tokenizer);
        var timings := ShiftAll(imported.value.timings, source, project.durationSamples);
        if document.tokens == [] then Err
        else Ok(WithLyrics(project, project.activeView.value, document,
                           NewAlignment(document, project.activeView.value.analysisRevisionId, timings)))
  }

  lemma NewRecordsAreWellFormed(input: Input, sampleRate: nat, id: Id, revisionId: Id, tokenizer: Tokenizer,
                                source: Option<nat>, limit: nat, duration: nat)
    requires ProperTokenizer(tokenizer) && ReadInput(input, sampleRate, limit).Ok?
             && (source == None ==> limit == duration)
    ensures var imported := ReadInput(input, sampleRate, limit).value;
            var document := BuiltDocument(imported.text, id, tokenizer);
            && ValidDocument(document)
            && ValidAlignment(NewAlignment(document, revisionId, ShiftAll(imported.timings, source, duration)),
                              document, duration)
  {
    var imported := ReadInput(input, sampleRate, limit).value;
    BuiltDocumentIsValid(imported.text, id, tokenizer);
    ImportedSpansInOrder(input, sampleRate, limit);
    ShiftKeepsOrder(imported.timings, limit, source, duration);
    NewAlignmentIsValid(BuiltDocument(imported.text, id, tokenizer), revisionId,
                        ShiftAll(imported.timings, source, duration), duration);
  }

  /** Nothing but the last document, the last alignment and the selection is new. */
  ghost predicate AddsTo(added: Project, project: Project, document: LyricsDocument, alignment: LyricsAlignment) {
    && project.activeView.Some?
    && added == project.(
         lyricsDocuments := project.lyricsDocuments + [document],
         lyricsAlignments := project.lyricsAlignments + [alignment],
         activeView := Some(project.activeView.value.(lyricsDocumentId := Some(document.id),
                                                      lyricsAlignmentId := Some(alignment.id))))
    && document.id !in DocumentIds(project.lyricsDocuments) && document.tokens != []
    && alignment.id == AlignmentName(document.id) && alignment.lyricsDocumentId == document.id
    && alignment.analysisRevisionId == project.activeView.value.analysisRevisionId && alignment.recipe == None
  }

  /** The new document and its alignment are well formed, also when times are moved to the source offset. */
  lemma AddedLyricsAreWellFormed(project: Project, input: Input, id: Id, tokenizer: Tokenizer, source: Option<nat>)
    returns (document: LyricsDocument, alignment: LyricsAlignment)
    requires AddedLyrics(project, input, id, tokenizer, source).Ok? && ProperTokenizer(tokenizer)
    ensures var timings := ReadInput(input, project.sampleRate, ReadLimit(project, source)).value.timings;
            alignment == NewAlignment(document, project.activeView.value.analysisRevisionId,
                                      ShiftAll(timings, source, project.durationSamples))
    ensures document.id == id
            && AddsTo(AddedLyrics(project, input, id, tokenizer, source).value, project, document, alignment)
    ensures ValidDocument(document) && ValidAlignment(alignment, document, project.durationSamples)
  {
    var imported := ReadInput(input, project.sampleRate, ReadLimit(project, source)).value;
    var revisionId := project.activeView.value.analysisRevisionId;
    document := BuiltDocument(imported.text, id, tokenizer);
    alignment := NewAlignment(document, revisionId, ShiftAll(imported.timings, source, project.durationSamples));
    NewRecordsAreWellFormed(input, project.sampleRate, id, revisionId, tokenizer, source, ReadLimit(project, source),
                            project.durationSamples);
  }

  predicate SungAt(occurrence: Occurrence, sample: nat) {
    occurrence.timing.Matched? && occurrence.timing.startSample <= sample < occurrence.timing.endSample
  }

  /** The alignment that is added. */
  function LastAlignment(added: Project): LyricsAlignment
    requires added.lyricsAlignments != []
  {
    added.lyricsAlignments[|added.lyricsAlignments| - 1]
  }

  /**
   A line is sung at a sample of the project exactly when its time in the file holds the sample of the source that
   stands there, or the same sample if there is no offset; a line without a time, and every token, is untimed.
  */
  lemma LinesAreSungWhenTheFileSays(project: Project, input: Input, id: Id, tokenizer: Tokenizer, source: Option<nat>,
                                    index: nat, sample: nat)
    requires AddedLyrics(project, input, id, tokenizer, source).Ok? && ProperTokenizer(tokenizer)
    ensures AddedLyrics(project, input, id, tokenizer, source).value.lyricsAlignments != []
    ensures var alignment := LastAlignment(AddedLyrics(project, input, id, tokenizer, source).value);
            var timings := ReadInput(input, project.sampleRate, ReadLimit(project, source)).value.timings;
            var heard := sample + if source == None then 0 else source.value;
            && (index < |alignment.lineOccurrences| ==>
                  (SungAt(alignment.lineOccurrences[index], sample) <==>
                     index < |timings| && sample < project.durationSamples && Sounds(timings[index], heard)))
            && (index < |alignment.occurrences| ==> !SungAt(alignment.occurrences[index], sample))
  {
    var timings := ReadInput(input, project.sampleRate, ReadLimit(project, source)).value.timings;
    var document, alignment := AddedLyricsAreWellFormed(project, input, id, tokenizer, source);
    LastIsAdded(AddedLyrics(project, input, id, tokenizer, source).value, project, document, alignment);
    ImportedSpansInOrder(input, project.sampleRate, ReadLimit(project, source));
    NewLinesAreSung(document, project.activeView.value.analysisRevisionId, timings, source, ReadLimit(project, source),
                    project.durationSamples, index, sample);
  }

  lemma LastIsAdded(added: Project, project: Project, document: LyricsDocument, alignment: LyricsAlignment)
    requires AddsTo(added, project, document, alignment)
    ensures added.lyricsAlignments != [] && LastAlignment(added) == alignment
  {
  }

  predicate FromFile(timing: Timing) {
    timing == Unmatched("untimed_reference")
    || (timing.Matched? && timing.assertion == Assertion([], ["supplied_line_timing"], Asserted))
  }

  lemma LineTimingsSayWhy(document: LyricsDocument, revisionId: Id, timings: seq<Option<Span>>)
    ensures forall occurrence | occurrence in NewAlignment(document, revisionId, timings).lineOccurrences ::
              FromFile(occurrence.timing)
    ensures forall occurrence | occurrence in NewAlignment(document, revisionId, timings).occurrences ::
              FromFile(occurrence.timing)
  {
  }

  /** The reasons the new records give: the file for a time of a line, and no reference for a missing one. */
  lemma NewTimingsSayWhy(project: Project, input: Input, id: Id, tokenizer: Tokenizer, source: Option<nat>)
    requires AddedLyrics(project, input, id, tokenizer, source).Ok? && ProperTokenizer(tokenizer)
    ensures AddedLyrics(project, input, id, tokenizer, source).value.lyricsAlignments != []
    ensures var alignment := LastAlignment(AddedLyrics(project, input, id, tokenizer, source).value);
            && (forall occurrence | occurrence in alignment.lineOccurrences :: FromFile(occurrence.timing))
            && (forall occurrence | occurrence in alignment.occurrences :: FromFile(occurrence.timing))
  {
    var timings := ReadInput(input, project.sampleRate, ReadLimit(project, source)).value.timings;
    var document, alignment := AddedLyricsAreWellFormed(project, input, id, tokenizer, source);
    LastIsAdded(AddedLyrics(project, input, id, tokenizer, source).value, project, document, alignment);
    LineTimingsSayWhy(document, project.activeView.value.analysisRevisionId,
                      ShiftAll(timings, source, project.durationSamples));
  }

  /**
   What is refused: a project without an active view, a taken id, a file that cannot be read, and a text without
   words. The file may run on to the end of the project, or to the largest safe integer if it is to be moved.
  */
  lemma WhatCanBeAdded(project: Project, input: Input, id: Id, tokenizer: Tokenizer, source: Option<nat>)
    ensures var limit: nat := if source.Some? then 9007199254740991 else project.durationSamples;
            AddedLyrics(project, input, id, tokenizer, source).Ok?
            <==>
            && project.activeView.Some?
            && (forall document | document in project.lyricsDocuments :: document.id != id)
            && ReadInput(input, project.sampleRate, limit).Ok?
            && BuiltDocument(ReadInput(input, project.sampleRate, limit).value.text, id, tokenizer).tokens != []
  {
    var ids := DocumentIds(project.lyricsDocuments);
    if id in ids {
      var i :| 0 <= i < |ids| && ids[i] == id;
      assert project.lyricsDocuments[i].id == id;
    }
    forall document | document in project.lyricsDocuments
      ensures document.id in ids
    {
      var i :| 0 <= i < |ids| && project.lyricsDocuments[i] == document;
      assert ids[i] == document.id;
    }
  }

  lemma NewLinesAreSung(document: LyricsDocument, revisionId: Id, timings: seq<Option<Span>>, source: Option<nat>,
                        limit: nat, duration: nat, index: nat, sample: nat)
    requires SpansInOrder(timings, limit) && (source == None ==> limit == duration)
    ensures var alignment := NewAlignment(document, revisionId, ShiftAll(timings, source, duration));
            var heard := sample + if source == None then 0 else source.value;
            && (index < |alignment.lineOccurrences| ==>
                  (SungAt(alignment.lineOccurrences[index], sample) <==>
                     index < |timings| && sample < duration && Sounds(timings[index], heard)))
            && (index < |alignment.occurrences| ==> !SungAt(alignment.occurrences[index], sample))
  {
    if index < |timings| && source.Some? {
      SamplesAreMoved(timings[index], source.value, duration, sample);
    }
  }

  // ----- validity of the whole project

  lemma {:induction false} FindInLonger<T>(s: seq<T>, last: T, x: T)
    ensures Find(s + [last], x) == if x in s then Find(s, x) else if x == last then |s| else -1
  {
    if s != [] && s[0] != x {
      assert (s + [last])[1..] == s[1..] + [last];
      assert x in s <==> x in s[1..];
      FindInLonger(s[1..], last, x);
    }
  }

  lemma FindDocument(documents: seq<LyricsDocument>, last: LyricsDocument, id: Id)
    requires id in DocumentIds(documents)
    ensures Find(DocumentIds(documents + [last]), id) == Find(DocumentIds(documents), id) >= 0
    ensures (documents + [last])[Find(DocumentIds(documents), id)] == documents[Find(DocumentIds(documents), id)]
  {
    assert DocumentIds(documents + [last]) == DocumentIds(documents) + [last.id];
    FindInLonger(DocumentIds(documents), last.id, id);
  }

  lemma FindAlignment(alignments: seq<LyricsAlignment>, last: LyricsAlignment, id: Id)
    ensures Find(AlignmentIds(alignments + [last]), id)
            == if id in AlignmentIds(alignments) then Find(AlignmentIds(alignments), id)
              else if id == last.id then |alignments| else -1
  {
    assert AlignmentIds(alignments + [last]) == AlignmentIds(alignments) + [last.id];
    FindInLonger(AlignmentIds(alignments), last.id, id);
  }

  /** A document nobody refers to yet changes nothing about the anchors. */
  lemma AnchorsStayValid(anchors: seq<LyricsAnchor>, documents: seq<LyricsDocument>, last: LyricsDocument,
                         revisionId: Id, duration: nat)
    requires ValidAnchors(anchors, documents, revisionId, duration) && last.id !in DocumentIds(documents)
    ensures ValidAnchors(anchors, documents + [last], revisionId, duration)
  {
    forall anchor | anchor in anchors
      ensures InScope(anchor, documents + [last], revisionId, duration) && anchor.lyricsDocumentId != last.id
    {
      assert InScope(anchor, documents, revisionId, duration);
      FindDocument(documents, last, anchor.lyricsDocumentId);
    }
    forall document | document in documents + [last]
      ensures Apart(anchors, document)
    {
      NoneOfDocument(anchors, last.id);
    }
  }

  lemma HistoryStaysValid(layer: EditLayer, documents: seq<LyricsDocument>, last: LyricsDocument, duration: nat)
    requires WellFounded(layer.transactions) && ValidAnchorHistory(layer, documents, duration)
             && last.id !in DocumentIds(documents)
    ensures ValidAnchorHistory(layer, documents + [last], duration)
  {
    forall position: nat | 0 < position <= |layer.transactions|
      ensures ValidAnchorsAt(layer, position, documents + [last], duration)
    {
      assert ValidAnchorsAt(layer, position, documents, duration);
      AnchorsStayValid(AnchorsAt(layer.transactions, position), documents, last, layer.analysisRevisionId, duration);
    }
  }

  lemma TargetsStayKnown(transactions: seq<Transaction>, alignments: seq<LyricsAlignment>, last: LyricsAlignment,
                         revisionId: Id)
    requires KnowsTargets(transactions, alignments, revisionId)
    ensures KnowsTargets(transactions, alignments + [last], revisionId)
  {
    forall transaction, edit | transaction in transactions && edit in transaction.operations
      ensures KnowsTarget(edit, alignments + [last], revisionId)
    {
      assert KnowsTarget(edit, alignments, revisionId);
      if EditsLyrics(edit) {
        FindAlignment(alignments, last, edit.alignmentId);
      }
    }
  }

  lemma LayersStayValid(project: Project, added: Project, layer: EditLayer, document: LyricsDocument,
                        alignment: LyricsAlignment)
    requires ValidLayer(layer, project) && document.id !in DocumentIds(project.lyricsDocuments)
    requires added.analysisRevisions == project.analysisRevisions && added.durationSamples == project.durationSamples
    requires added.lyricsDocuments == project.lyricsDocuments + [document]
    requires added.lyricsAlignments == project.lyricsAlignments + [alignment]
    ensures ValidLayer(layer, added)
  {
    HistoryStaysValid(layer, project.lyricsDocuments, document, project.durationSamples);
    TargetsStayKnown(layer.transactions, project.lyricsAlignments, alignment, layer.analysisRevisionId);
  }

  lemma RecordsStayValid(project: Project, added: Project, document: LyricsDocument, old_: LyricsAlignment)
    requires ValidRecord(old_, project) && document.id !in DocumentIds(project.lyricsDocuments)
    requires added == project.(lyricsDocuments := added.lyricsDocuments, lyricsAlignments := added.lyricsAlignments,
                               activeView := added.activeView)
    requires added.lyricsDocuments == project.lyricsDocuments + [document]
    ensures ValidRecord(old_, added)
  {
    FindDocument(project.lyricsDocuments, document, old_.lyricsDocumentId);
    if old_.recipe.Some? {
      AnchorsStayValid(old_.recipe.value.anchors, project.lyricsDocuments, document, old_.analysisRevisionId,
                       project.durationSamples);
    }
  }

  /** What is being added, and that it fits. */
  ghost predicate Fits(project: Project, view: ActiveView, document: LyricsDocument, alignment: LyricsAlignment) {
    && ValidProject(project) && project.activeView == Some(view)
    && document.id !in DocumentIds(project.lyricsDocuments)
    && alignment.lyricsDocumentId == document.id && alignment.analysisRevisionId == view.analysisRevisionId
    && alignment.recipe == None
    && ValidDocument(document) && ValidAlignment(alignment, document, project.durationSamples)
  }

  lemma NewRecordIsValid(project: Project, view: ActiveView, document: LyricsDocument, alignment: LyricsAlignment)
    requires Fits(project, view, document, alignment)
    ensures ValidRecord(alignment, WithLyrics(project, view, document, alignment))
  {
    assert DocumentIds(project.lyricsDocuments + [document]) == DocumentIds(project.lyricsDocuments) + [document.id];
    FindInLonger(DocumentIds(project.lyricsDocuments), document.id, document.id);
  }

  lemma NewViewIsValid(project: Project, view: ActiveView, document: LyricsDocument, alignment: LyricsAlignment)
    requires Fits(project, view, document, alignment) && alignment.id !in AlignmentIds(project.lyricsAlignments)
    ensures ValidView(WithLyrics(project, view, document, alignment))
  {
    FindAlignment(project.lyricsAlignments, alignment, alignment.id);
    var ids := DocumentIds(project.lyricsDocuments + [document]);
    assert ids[|project.lyricsDocuments|] == document.id;
  }

  lemma DistinctAppend<T>(s: seq<T>, x: T)
    ensures Distinct(s + [x]) <==> Distinct(s) && x !in s
  {
    if Distinct(s + [x]) {
      var all := s + [x];
      assert forall i :: 0 <= i < |s| ==> all[i] == s[i];
      forall i | 0 <= i < |s|
        ensures s[i] != x
      {
        assert all[i] != all[|s|];
      }
    }
  }

  lemma NewIdentities(project: Project, view: ActiveView, document: LyricsDocument, alignment: LyricsAlignment)
    requires ValidIdentities(project) && document.id !in DocumentIds(project.lyricsDocuments)
    ensures ValidIdentities(WithLyrics(project, view, document, alignment))
            <==> alignment.id !in AlignmentIds(project.lyricsAlignments)
  {
    assert DocumentIds(project.lyricsDocuments + [document]) == DocumentIds(project.lyricsDocuments) + [document.id];
    assert AlignmentIds(project.lyricsAlignments + [alignment])
        == AlignmentIds(project.lyricsAlignments) + [alignment.id];
    DistinctAppend(DocumentIds(project.lyricsDocuments), document.id);
    DistinctAppend(AlignmentIds(project.lyricsAlignments), alignment.id);
  }

  lemma LongerProjectIsValid(project: Project, view: ActiveView, document: LyricsDocument, alignment: LyricsAlignment)
    requires Fits(project, view, document, alignment)
    ensures ValidProject(WithLyrics(project, view, document, alignment))
            <==> alignment.id !in AlignmentIds(project.lyricsAlignments)
  {
    var added := WithLyrics(project, view, document, alignment);
    NewIdentities(project, view, document, alignment);
    if alignment.id !in AlignmentIds(project.lyricsAlignments) {
      forall layer | layer in added.editLayers
        ensures ValidLayer(layer, added)
      {
        LayersStayValid(project, added, layer, document, alignment);
      }
      forall record | record in added.lyricsAlignments
        ensures ValidRecord(record, added)
      {
        NewRecordIsValid(project, view, document, alignment);
        if record in project.lyricsAlignments {
          RecordsStayValid(project, added, document, record);
        }
      }
      NewViewIsValid(project, view, document, alignment);
    }
  }

  /**
   A valid project stays valid exactly when the id derived for the alignment is still free: the program
   checks that the document id is free, and nothing else.
  */
  lemma AddingIsValidExactlyWhenTheAlignmentIdIsFree(project: Project, input: Input, id: Id, tokenizer: Tokenizer,
                                                     source: Option<nat>)
    requires ValidProject(project) && ProperTokenizer(tokenizer)
    requires AddedLyrics(project, input, id, tokenizer, source).Ok?
    ensures ValidProject(AddedLyrics(project, input, id, tokenizer, source).value)
            <==> AlignmentName(id) !in AlignmentIds(project.lyricsAlignments)
  {
    var document, alignment := AddedLyricsAreWellFormed(project, input, id, tokenizer, source);
    LongerProjectIsValid(project, project.activeView.value, document, alignment);
  }

  ghost predicate AddsProperLyrics(added: Project, project: Project, id: Id) {
    exists document: LyricsDocument, alignment: LyricsAlignment ::
      && AddsTo(added, project, document, alignment) && document.id == id
      && ValidDocument(document) && ValidAlignment(alignment, document, project.durationSamples)
  }

  /**
   Fails exactly without an active view, when the id is taken, when the input is refused, or when it has no
   words. What it adds is well formed, and keeps the project valid exactly when the alignment id was free.
  */
  method AddLyricsDocument(project: Project, input: Input, id: Id, tokenizer: Tokenizer, source: Option<nat>)
    returns (r: Result<Project>)
    ensures r == AddedLyrics(project, input, id, tokenizer, source)
    ensures r.Ok? && ProperTokenizer(tokenizer) ==> AddsProperLyrics(r.value, project, id)
    ensures r.Ok? && ProperTokenizer(tokenizer) && ValidProject(project) ==>
              (ValidProject(r.value) <==> AlignmentName(id) !in AlignmentIds(project.lyricsAlignments))
  {
    if AddedLyrics(project, input, id, tokenizer, source).Ok? && ProperTokenizer(tokenizer) {
      ghost var _, _ := AddedLyricsAreWellFormed(project, input, id, tokenizer, source);
      if ValidProject(project) {
        AddingIsValidExactlyWhenTheAlignmentIdIsFree(project, input, id, tokenizer, source);
      }
    }
    if project.activeView == None || id in DocumentIds(project.lyricsDocuments) {
      return Err;
    }
    var view := project.activeView.value;
    var imported := ImportLines(input, project.sampleRate, ReadLimit(project, source));
    if imported.Err? {
      return Err;
    }
    var timings := ShiftAll(imported.value.timings, source, project.durationSamples);
    var document := BuildDocument(imported.value.text, id, tokenizer);
    if document.tokens == [] {
      return Err;
    }
    r := Ok(WithLyrics(project, view, document, NewAlignment(document, view.analysisRevisionId, timings)));
  }

  // ----- an alignment id that is taken

  /** One sample long, with a document that has no words and an alignment that bears an unlucky name. */
  const Unlucky: Project := Project("project", [], [], 1, 1,
    [AnalysisRevision("revision", "project", [], Timeline([], [ChordEvent("chord", 0, 1, NoChord, UserAuthored)],
      [KeyRegion("key", 0, 1, UnknownKey, UserAuthored)], [SectionRegion("section", 0, 1, Neutral, UserAuthored)],
      [UnmeteredRegion("unmetered", 0, 1, "silence")]))],
    [EditLayer("layer", "revision", [])],
    [LyricsDocument("other", [], [], [])],
    [LyricsAlignment("song_alignment", "other", "revision", [], [], None)],
    Some(ActiveView("revision", "layer", 0, None, None)))

  function WholeLine(line: Text): seq<Match> { if line == [] then [] else [Match(0, |line|)] }

  lemma UnluckyTimelineIsValid()
    ensures ValidTimeline(Unlucky.analysisRevisions[0].timeline, 1)
  {
    var timeline := Unlucky.analysisRevisions[0].timeline;
    assert MeteredSpans(timeline) == [Interval(0, 1)];
    assert multiset([Interval(0, 1)]) == multiset(MeteredSpans(timeline)) && Tiles([Interval(0, 1)], 1);
  }

  lemma UnluckyIsValid()
    ensures ValidProject(Unlucky)
  {
    UnluckyTimelineIsValid();
    assert DocumentIds(Unlucky.lyricsDocuments)[0] == "other"
        && RevisionIds(Unlucky.analysisRevisions)[0] == "revision";
    assert LayerIds(Unlucky.editLayers)[0] == "layer";
    FindIsUnique(DocumentIds(Unlucky.lyricsDocuments), 0);
    FindIsUnique(LayerIds(Unlucky.editLayers), 0);
  }

  const ONE_LETTER: Text := [97]

  lemma OneLetterHasOneToken(id: Id)
    ensures BuiltDocument(ONE_LETTER, id, WholeLine).tokens != []
  {
    var pieces := Pieces(ONE_LETTER, 0);
    assert LineEnd(ONE_LETTER, 0) == 1 && ONE_LETTER[0..1] == ONE_LETTER;
    assert pieces == [Piece(0, ONE_LETTER)] && pieces[..0] == [];
    assert !IsSpace(ONE_LETTER[0]) && !Blank(ONE_LETTER);
    var line := LyricsLine(LineName(id, 0), 0, 1);
    assert DocumentLines(pieces, id) == [line];
    assert [line][..0] == [] && Slice(ONE_LETTER, 0, 1) == ONE_LETTER;
  }

  lemma TextWithWordsIsAdded(project: Project, text: Text, id: Id, tokenizer: Tokenizer)
    requires project.activeView.Some? && id !in DocumentIds(project.lyricsDocuments)
    requires BuiltDocument(text, id, tokenizer).tokens != []
    ensures AddedLyrics(project, TextInput(text), id, tokenizer, None).Ok?
  {
  }

  lemma UnluckyProject() returns (project: Project, id: Id)
    ensures ValidProject(project) && project.activeView.Some?
    ensures id !in DocumentIds(project.lyricsDocuments) && AlignmentName(id) in AlignmentIds(project.lyricsAlignments)
  {
    UnluckyIsValid();
    project, id := Unlucky, "song";
    assert DocumentIds(project.lyricsDocuments) == ["other"];
    assert AlignmentName(id) == "song_alignment" == AlignmentIds(project.lyricsAlignments)[0];
  }

  lemma WordInOneLetter(id: Id) returns (text: Text, tokenizer: Tokenizer)
    ensures ProperTokenizer(tokenizer) && BuiltDocument(text, id, tokenizer).tokens != []
  {
    OneLetterHasOneToken(id);
    text, tokenizer := ONE_LETTER, WholeLine;
  }

  /** There is a valid project and a text that is accepted, and the project that comes out is not valid. */
  lemma AddingCanBreakAValidProject() returns (project: Project, text: Text, id: Id, tokenizer: Tokenizer)
    ensures ValidProject(project) && ProperTokenizer(tokenizer)
    ensures var added := AddedLyrics(project, TextInput(text), id, tokenizer, None);
            added.Ok? && !ValidProject(added.value)
  {
    project, id := UnluckyProject();
    text, tokenizer := WordInOneLetter(id);
    TextWithWordsIsAdded(project, text, id, tokenizer);
    AddingIsValidExactlyWhenTheAlignmentIdIsFree(project, TextInput(text), id, tokenizer, None);
  }
}
