/**
 The rows of a lead-sheet section: lyric lines with chords set over their words, bars of beat cells, and
 rows of chords that sound in neither.
*/
module LeadSheetRows {
  import opened Wrappers
  import opened Sequences
  import opened Schema
  import opened ProjectRules

  datatype ChordCell = ChordCell(symbol: string, spoken: string, state: AssertionState)
  datatype TimedChord = TimedChord(startSample: nat, cell: ChordCell)
  datatype TimedLine = TimedLine(record: LyricsLine, startSample: nat, endSample: nat)

  datatype LyricSegment = LyricSegment(chord: Option<ChordCell>, text: Text)
  datatype GridBar = GridBar(beats: seq<seq<ChordCell>>)
  datatype Row =
    | LyricRow(lineId: Id, segments: seq<LyricSegment>)
    | ChordsRow(chords: seq<ChordCell>)
    | GridRow(bars: seq<GridBar>)

  datatype Lyrics = Lyrics(document: LyricsDocument, alignment: LyricsAlignment)

  function ChordAt(chord: TimedChord): int { chord.startSample }
  function LineAt(line: TimedLine): int { line.startSample }

  function Cells(chords: seq<TimedChord>): (r: seq<ChordCell>)
    ensures |r| == |chords| && forall i :: 0 <= i < |r| ==> r[i] == chords[i].cell
  {
    seq(|chords|, i requires 0 <= i < |chords| => chords[i].cell)
  }

  lemma CellsConcat(a: seq<TimedChord>, b: seq<TimedChord>)
    ensures Cells(a + b) == Cells(a) + Cells(b)
  {
  }

  // ----- reading rows back

  function SegmentChords(segments: seq<LyricSegment>): seq<ChordCell> {
    if segments == [] then []
    else (if segments[0].chord.Some? then [segments[0].chord.value] else []) + SegmentChords(segments[1..])
  }

  function SegmentText(segments: seq<LyricSegment>): Text {
    if segments == [] then [] else segments[0].text + SegmentText(segments[1..])
  }

  function BarCells(bar: GridBar): seq<ChordCell> { Concat(bar.beats) }

  function Concat<T>(parts: seq<seq<T>>): seq<T> {
    if parts == [] then [] else Concat(parts[..|parts| - 1]) + parts[|parts| - 1]
  }

  function ReadRow(row: Row): seq<ChordCell> {
    match row
    case LyricRow(_, segments) => SegmentChords(segments)
    case ChordsRow(chords) => chords
    case GridRow(bars) => FlatMap(bars, BarCells)
  }

  datatype Shown = Shown(lineId: Id, text: Text)

  function RowLyrics(row: Row): seq<Shown> {
    if row.LyricRow? then [Shown(row.lineId, SegmentText(row.segments))] else []
  }

  function RowBars(row: Row): seq<GridBar> {
    if row.GridRow? then row.bars else []
  }

  /** The chords on a page, left to right and top to bottom. */
  function ReadRows(rows: seq<Row>): seq<ChordCell> { FlatMap(rows, ReadRow) }

  /** The lyric lines on a page, top to bottom. */
  function ReadLyrics(rows: seq<Row>): seq<Shown> { FlatMap(rows, RowLyrics) }

  /** The bars on a page, in order. */
  function ReadBars(rows: seq<Row>): seq<GridBar> { FlatMap(rows, RowBars) }

  lemma ReadSnoc(rows: seq<Row>, row: Row)
    ensures ReadRows(rows + [row]) == ReadRows(rows) + ReadRow(row)
    ensures ReadLyrics(rows + [row]) == ReadLyrics(rows) + RowLyrics(row)
    ensures ReadBars(rows + [row]) == ReadBars(rows) + RowBars(row)
  {
    FlatMapSnoc(rows, row, ReadRow);
    FlatMapSnoc(rows, row, RowLyrics);
    FlatMapSnoc(rows, row, RowBars);
  }

  // ----- one lyric row

  function TimingFor(occurrences: seq<Occurrence>, id: Id): Option<Timing> {
    var index := Find(Targets(occurrences), id);
    if index < 0 then None else Some(occurrences[index].timing)
  }

  predicate StartedBy(token: LyricsToken, occurrences: seq<Occurrence>, at: nat) {
    var timing := TimingFor(occurrences, token.id);
    timing.Some? && timing.value.Matched? && timing.value.startSample <= at
  }

  /** The number of tokens up to and including the last that has started by a sample. */
  function StartedCount(tokens: seq<LyricsToken>, occurrences: seq<Occurrence>, at: nat): (count: nat)
    ensures count <= |tokens|
  {
    if tokens == [] then 0
    else if StartedBy(tokens[|tokens| - 1], occurrences, at) then |tokens|
    else StartedCount(tokens[..|tokens| - 1], occurrences, at)
  }

  /** The word a chord stands over: the last to have started, or the first of the line. */
  function OwnOffset(chord: TimedChord, tokens: seq<LyricsToken>, occurrences: seq<Occurrence>, lineStart: nat): nat {
    var count := StartedCount(tokens, occurrences, chord.startSample);
    var offset := if tokens == [] then 0 else tokens[if count > 0 then count - 1 else 0].startOffset - lineStart;
    if offset < 0 then 0 else offset
  }

  datatype Anchored = Anchored(offset: nat, cell: ChordCell)

  function LastOffset(anchors: seq<Anchored>): nat {
    if anchors == [] then 0 else anchors[|anchors| - 1].offset
  }

  /** Chords are set over their words, but never to the left of an earlier chord. */
  function Anchor(chords: seq<TimedChord>, tokens: seq<LyricsToken>, occurrences: seq<Occurrence>,
                  lineStart: nat): seq<Anchored> {
    if chords == [] then []
    else
      var before := Anchor(chords[..|chords| - 1], tokens, occurrences, lineStart);
      var chord := chords[|chords| - 1];
      var own := OwnOffset(chord, tokens, occurrences, lineStart);
      before + [Anchored(if own > LastOffset(before) then own else LastOffset(before), chord.cell)]
  }

  method AnchorChords(chords: seq<TimedChord>, tokens: seq<LyricsToken>, occurrences: seq<Occurrence>, lineStart: nat)
    returns (anchors: seq<Anchored>)
    ensures anchors == Anchor(chords, tokens, occurrences, lineStart)
  {
    anchors := [];
    var floor := 0;
    for n := 0 to |chords|
      invariant anchors == Anchor(chords[..n], tokens, occurrences, lineStart)
      invariant floor == LastOffset(anchors)
    {
      var own := OwnOffset(chords[n], tokens, occurrences, lineStart);
      floor := if own > floor then own else floor;
      assert chords[..n + 1][..n] == chords[..n];
      anchors := anchors + [Anchored(floor, chords[n].cell)];
    }
    assert chords[..|chords|] == chords;
  }

  ghost predicate LeftToRight(anchors: seq<Anchored>) {
    forall i, j :: 0 <= i < j < |anchors| ==> anchors[i].offset <= anchors[j].offset
  }

  function AnchoredCells(anchors: seq<Anchored>): (r: seq<ChordCell>)
    ensures |r| == |anchors| && forall i :: 0 <= i < |r| ==> r[i] == anchors[i].cell
  {
    seq(|anchors|, i requires 0 <= i < |anchors| => anchors[i].cell)
  }

  lemma {:induction false} AnchorsGoLeftToRight(chords: seq<TimedChord>, tokens: seq<LyricsToken>,
                                                occurrences: seq<Occurrence>, lineStart: nat)
    ensures LeftToRight(Anchor(chords, tokens, occurrences, lineStart))
    ensures AnchoredCells(Anchor(chords, tokens, occurrences, lineStart)) == Cells(chords)
  {
    if chords != [] {
      AnchorsGoLeftToRight(chords[..|chords| - 1], tokens, occurrences, lineStart);
      var before := Anchor(chords[..|chords| - 1], tokens, occurrences, lineStart);
      assert chords == chords[..|chords| - 1] + [chords[|chords| - 1]];
      assert forall i :: 0 <= i < |before| ==> before[i].offset <= LastOffset(before);
    }
  }

  lemma {:induction false} LaterStartsMore(tokens: seq<LyricsToken>, occurrences: seq<Occurrence>, at: nat, later: nat)
    requires at <= later
    ensures StartedCount(tokens, occurrences, at) <= StartedCount(tokens, occurrences, later)
  {
    if tokens != [] && !StartedBy(tokens[|tokens| - 1], occurrences, later) {
      LaterStartsMore(tokens[..|tokens| - 1], occurrences, at, later);
    }
  }

  ghost predicate TokensInOrder(tokens: seq<LyricsToken>) {
    forall i, j :: 0 <= i <= j < |tokens| ==> tokens[i].startOffset <= tokens[j].startOffset
  }

  lemma LaterStandsFurther(a: TimedChord, b: TimedChord, tokens: seq<LyricsToken>, occurrences: seq<Occurrence>,
                           lineStart: nat)
    requires TokensInOrder(tokens) && a.startSample <= b.startSample
    ensures OwnOffset(a, tokens, occurrences, lineStart) <= OwnOffset(b, tokens, occurrences, lineStart)
  {
    LaterStartsMore(tokens, occurrences, a.startSample, b.startSample);
  }

  lemma {:induction false} AnchorCount(chords: seq<TimedChord>, tokens: seq<LyricsToken>, occurrences: seq<Occurrence>,
                                       lineStart: nat)
    ensures |Anchor(chords, tokens, occurrences, lineStart)| == |chords|
  {
    if chords != [] {
      AnchorCount(chords[..|chords| - 1], tokens, occurrences, lineStart);
    }
  }

  /** In a valid document every chord stands over its own word: the floor never pushes one aside. */
  lemma {:induction false} ChordsStandOverTheirWords(
    chords: seq<TimedChord>, tokens: seq<LyricsToken>, occurrences: seq<Occurrence>, lineStart: nat, k: nat)
    requires StrictlySortedBy(chords, ChordAt) && TokensInOrder(tokens) && k < |chords|
    ensures k < |Anchor(chords, tokens, occurrences, lineStart)|
    ensures Anchor(chords, tokens, occurrences, lineStart)[k].offset
            == OwnOffset(chords[k], tokens, occurrences, lineStart)
    decreases |chords|
  {
    var init := chords[..|chords| - 1];
    AnchorCount(init, tokens, occurrences, lineStart);
    if k < |init| {
      ChordsStandOverTheirWords(init, tokens, occurrences, lineStart, k);
    } else if init != [] {
      ChordsStandOverTheirWords(init, tokens, occurrences, lineStart, k - 1);
      assert ChordAt(chords[k - 1]) < ChordAt(chords[k]);
      LaterStandsFurther(init[k - 1], chords[k], tokens, occurrences, lineStart);
    }
  }

  function ChordSegments(text: Text, anchors: seq<Anchored>): seq<LyricSegment> {
    if anchors == [] then []
    else
      var end := if |anchors| > 1 then anchors[1].offset else |text|;
      [LyricSegment(Some(anchors[0].cell), Slice(text, anchors[0].offset, end))] + ChordSegments(text, anchors[1..])
  }

  function Segments(text: Text, anchors: seq<Anchored>): seq<LyricSegment> {
    (if anchors == [] then [LyricSegment(None, text)]
     else if anchors[0].offset > 0 then [LyricSegment(None, Slice(text, 0, anchors[0].offset))]
     else [])
    + ChordSegments(text, anchors)
  }

  function Rest(text: Text, from: nat): Text {
    if from < |text| then text[from..] else []
  }

  lemma {:induction false} ChordSegmentsKeepText(text: Text, anchors: seq<Anchored>)
    requires LeftToRight(anchors) && anchors != []
    ensures SegmentText(ChordSegments(text, anchors)) == Rest(text, anchors[0].offset)
  {
    var rest := anchors[1..];
    if rest != [] {
      assert LeftToRight(rest);
      ChordSegmentsKeepText(text, rest);
      SliceThenRest(text, anchors[0].offset, rest[0].offset);
    }
  }

  lemma SliceThenRest(text: Text, from: nat, to: nat)
    requires from <= to
    ensures Slice(text, from, to) + Rest(text, to) == Rest(text, from)
  {
  }

  /** The segments of a row, joined, are the text of its line, whatever the token offsets are. */
  lemma SegmentsKeepText(text: Text, anchors: seq<Anchored>)
    requires LeftToRight(anchors)
    ensures SegmentText(Segments(text, anchors)) == text
  {
    if anchors != [] {
      ChordSegmentsKeepText(text, anchors);
      var tail := ChordSegments(text, anchors);
      if anchors[0].offset > 0 {
        assert Segments(text, anchors)[1..] == tail;
        SliceThenRest(text, 0, anchors[0].offset);
      } else {
        assert Segments(text, anchors) == tail;
      }
    }
  }

  lemma {:induction false} ChordSegmentsKeepChords(text: Text, anchors: seq<Anchored>)
    ensures SegmentChords(ChordSegments(text, anchors)) == AnchoredCells(anchors)
  {
    if anchors != [] {
      ChordSegmentsKeepChords(text, anchors[1..]);
      assert AnchoredCells(anchors) == [anchors[0].cell] + AnchoredCells(anchors[1..]);
    }
  }

  lemma SegmentsKeepChords(text: Text, anchors: seq<Anchored>)
    ensures SegmentChords(Segments(text, anchors)) == AnchoredCells(anchors)
  {
    ChordSegmentsKeepChords(text, anchors);
    var tail := ChordSegments(text, anchors);
    if anchors == [] || anchors[0].offset > 0 {
      assert Segments(text, anchors)[1..] == tail;
    } else {
      assert Segments(text, anchors) == tail;
    }
  }

  function LineText(document: LyricsDocument, line: LyricsLine): Text {
    Slice(document.text, line.startOffset, line.endOffset)
  }

  function Show(document: LyricsDocument, line: LyricsLine): Shown {
    Shown(line.id, LineText(document, line))
  }

  function LineTokens(tokens: seq<LyricsToken>, lineId: Id): seq<LyricsToken> {
    if tokens == [] then []
    else LineTokens(tokens[..|tokens| - 1], lineId)
         + if tokens[|tokens| - 1].lineId == lineId then [tokens[|tokens| - 1]] else []
  }

  function RowOf(line: TimedLine, chords: seq<TimedChord>, lyrics: Lyrics): Row {
    var tokens := LineTokens(lyrics.document.tokens, line.record.id);
    var anchors := Anchor(chords, tokens, lyrics.alignment.occurrences, line.record.startOffset);
    LyricRow(line.record.id, Segments(LineText(lyrics.document, line.record), anchors))
  }

  /** A lyric row has the text of its line and the chords given to it, in order. */
  lemma RowKeeps(line: TimedLine, chords: seq<TimedChord>, lyrics: Lyrics)
    ensures ReadRow(RowOf(line, chords, lyrics)) == Cells(chords)
    ensures RowLyrics(RowOf(line, chords, lyrics)) == [Show(lyrics.document, line.record)]
  {
    var tokens := LineTokens(lyrics.document.tokens, line.record.id);
    var anchors := Anchor(chords, tokens, lyrics.alignment.occurrences, line.record.startOffset);
    AnchorsGoLeftToRight(chords, tokens, lyrics.alignment.occurrences, line.record.startOffset);
    SegmentsKeepChords(LineText(lyrics.document, line.record), anchors);
    SegmentsKeepText(LineText(lyrics.document, line.record), anchors);
  }

  /** The row of a line shows its text and, over it, the chords given to it, each once and in order. */
  method MakeRow(line: TimedLine, chords: seq<TimedChord>, lyrics: Lyrics) returns (row: Row)
    ensures row == RowOf(line, chords, lyrics)
    ensures ReadRow(row) == Cells(chords) && RowLyrics(row) == [Show(lyrics.document, line.record)]
  {
    var tokens := LineTokens(lyrics.document.tokens, line.record.id);
    var anchors := AnchorChords(chords, tokens, lyrics.alignment.occurrences, line.record.startOffset);
    RowKeeps(line, chords, lyrics);
    row := LyricRow(line.record.id, Segments(LineText(lyrics.document, line.record), anchors));
  }

  lemma {:induction false} LineTokensAreTokens(tokens: seq<LyricsToken>, lineId: Id, token: LyricsToken)
    ensures token in LineTokens(tokens, lineId) <==> token in tokens && token.lineId == lineId
  {
    if tokens != [] {
      assert tokens == tokens[..|tokens| - 1] + [tokens[|tokens| - 1]];
      LineTokensAreTokens(tokens[..|tokens| - 1], lineId, token);
    }
  }

  lemma {:induction false} LineTokensInOrder(tokens: seq<LyricsToken>, lineId: Id)
    requires TokensInOrder(tokens)
    ensures TokensInOrder(LineTokens(tokens, lineId))
  {
    if tokens != [] {
      var init, last := tokens[..|tokens| - 1], tokens[|tokens| - 1];
      LineTokensInOrder(init, lineId);
      forall token | token in LineTokens(init, lineId)
        ensures token.startOffset <= last.startOffset
      {
        LineTokensAreTokens(init, lineId, token);
        var k :| 0 <= k < |init| && init[k] == token;
        assert tokens[k] == token;
      }
    }
  }

  /** In the row of a line of a valid document, every chord begins a segment at the word it sounds over. */
  lemma RowChordsStandOverTheirWords(line: TimedLine, chords: seq<TimedChord>, lyrics: Lyrics, k: nat)
    requires ValidDocument(lyrics.document) && StrictlySortedBy(chords, ChordAt) && k < |chords|
    ensures var tokens := LineTokens(lyrics.document.tokens, line.record.id);
            var anchors := Anchor(chords, tokens, lyrics.alignment.occurrences, line.record.startOffset);
            k < |anchors| && anchors[k]
              == Anchored(OwnOffset(chords[k], tokens, lyrics.alignment.occurrences, line.record.startOffset),
                          chords[k].cell)
  {
    var document := lyrics.document;
    var offsets := Map(TokenOffsets, document.tokens);
    forall i, j | 0 <= i <= j < |document.tokens|
      ensures document.tokens[i].startOffset <= document.tokens[j].startOffset
    {
      assert i < j ==> offsets[i].startOffset < offsets[i].endOffset <= offsets[j].startOffset;
    }
    LineTokensInOrder(document.tokens, line.record.id);
    var tokens := LineTokens(document.tokens, line.record.id);
    ChordsStandOverTheirWords(chords, tokens, lyrics.alignment.occurrences, line.record.startOffset, k);
    AnchorsGoLeftToRight(chords, tokens, lyrics.alignment.occurrences, line.record.startOffset);
    var anchors := Anchor(chords, tokens, lyrics.alignment.occurrences, line.record.startOffset);
    assert AnchoredCells(anchors)[k] == Cells(chords)[k];
  }

  /** A chord outside every line or bar joins the row of such chords above it, or starts one. */
  function AddChord(rows: seq<Row>, cell: ChordCell): seq<Row> {
    if rows != [] && rows[|rows| - 1].ChordsRow? then rows[..|rows| - 1] + [ChordsRow(rows[|rows| - 1].chords + [cell])]
    else rows + [ChordsRow([cell])]
  }

  lemma AddChordKeeps(rows: seq<Row>, cell: ChordCell)
    ensures ReadRows(AddChord(rows, cell)) == ReadRows(rows) + [cell]
    ensures ReadLyrics(AddChord(rows, cell)) == ReadLyrics(rows)
    ensures ReadBars(AddChord(rows, cell)) == ReadBars(rows)
  {
    if rows != [] && rows[|rows| - 1].ChordsRow? {
      var init, chords := rows[..|rows| - 1], rows[|rows| - 1].chords;
      ReadSnoc(init, ChordsRow(chords + [cell]));
      ReadSnoc(init, ChordsRow(chords));
      assert rows == init + [ChordsRow(chords)];
      assert ReadRows(init) + (chords + [cell]) == ReadRows(init) + chords + [cell];
    } else {
      ReadSnoc(rows, ChordsRow([cell]));
    }
  }
}
