/**
 The whole lead sheet. Every chord event and every lyric line is on the page once, in order, although
 bars and lines may cross the borders of sections and unmatched lines have no time of their own.
*/
module LeadSheet {
  import opened Wrappers
  import opened Sequences
  import opened Schema
  import opened Invariants
  import opened ProjectRules
  import opened TimeOrder
  import opened LeadSheetRows
  import opened LeadSheetLayout
  import opened LeadSheetTracks

  /** What the sections are made from. */
  datatype Score = Score(chords: seq<TimedChord>, bars: seq<Bar>, lines: seq<TimedLine>, lyrics: Lyrics,
                         followers: Followers)

  datatype Layout = LyricsLayout | GridLayout
  datatype Section = Section(sectionLabel: SectionLabel, layout: Layout, rows: seq<Row>)
  datatype Sheet = Sheet(sections: seq<Section>, untimedLyrics: Option<seq<Shown>>)

  // ----- rows without a time

  function IdText(document: LyricsDocument, id: Id): Text {
    var index := Find(LineIds(document.lines), id);
    if index < 0 then [] else LineText(document, document.lines[index])
  }

  function ShowIds(document: LyricsDocument, ids: seq<Id>): (r: seq<Shown>)
    ensures |r| == |ids| && forall i :: 0 <= i < |r| ==> r[i] == Shown(ids[i], IdText(document, ids[i]))
  {
    seq(|ids|, i requires 0 <= i < |ids| => Shown(ids[i], IdText(document, ids[i])))
  }

  function UnmatchedRow(document: LyricsDocument, id: Id): Row {
    LyricRow(id, [LyricSegment(None, IdText(document, id))])
  }

  function UnmatchedRows(document: LyricsDocument, ids: seq<Id>): seq<Row> {
    if ids == [] then [] else UnmatchedRows(document, ids[..|ids| - 1]) + [UnmatchedRow(document, ids[|ids| - 1])]
  }

  lemma UnmatchedRowReads(document: LyricsDocument, id: Id)
    ensures ReadRow(UnmatchedRow(document, id)) == []
    ensures RowLyrics(UnmatchedRow(document, id)) == ShowIds(document, [id])
  {
    var text := IdText(document, id);
    var segments := [LyricSegment(None, text)];
    assert segments[1..] == [];
    assert SegmentChords(segments) == [] + SegmentChords(segments[1..]);
    assert text + [] == text;
    assert SegmentText(segments) == text;
  }

  lemma {:induction false} UnmatchedRowsRead(document: LyricsDocument, ids: seq<Id>)
    ensures ReadRows(UnmatchedRows(document, ids)) == []
    ensures ReadLyrics(UnmatchedRows(document, ids)) == ShowIds(document, ids)
  {
    if ids != [] {
      var init, last := ids[..|ids| - 1], ids[|ids| - 1];
      UnmatchedRowsRead(document, init);
      UnmatchedRowReads(document, last);
      ReadSnoc(UnmatchedRows(document, init), UnmatchedRow(document, last));
      ShowIdsConcat(document, init, [last]);
      assert ids == init + [last];
    }
  }

  lemma ShowIdsConcat(document: LyricsDocument, a: seq<Id>, b: seq<Id>)
    ensures ShowIds(document, a + b) == ShowIds(document, a) + ShowIds(document, b)
  {
  }

  function Followed(row: Row, followers: Followers, document: LyricsDocument): seq<Row> {
    [row] + if row.LyricRow? then UnmatchedRows(document, FollowersOf(followers, Some(row.lineId))) else []
  }

  /** Every lyric row is followed by the rows of its unmatched successors. */
  function WithFollowers(placed: seq<Row>, followers: Followers, document: LyricsDocument): seq<Row> {
    if placed == [] then []
    else WithFollowers(placed[..|placed| - 1], followers, document)
         + Followed(placed[|placed| - 1], followers, document)
  }

  function ShownFollowed(shown: Shown, followers: Followers, document: LyricsDocument): seq<Shown> {
    [shown] + ShowIds(document, FollowersOf(followers, Some(shown.lineId)))
  }

  function UnfoldShown(shown: seq<Shown>, followers: Followers, document: LyricsDocument): seq<Shown> {
    if shown == [] then []
    else UnfoldShown(shown[..|shown| - 1], followers, document) + ShownFollowed(shown[|shown| - 1], followers, document)
  }

  lemma FollowedReads(row: Row, followers: Followers, document: LyricsDocument)
    ensures ReadRows(Followed(row, followers, document)) == ReadRow(row)
    ensures ReadLyrics(Followed(row, followers, document))
            == if row.LyricRow? then ShownFollowed(Shown(row.lineId, SegmentText(row.segments)), followers, document)
              else []
  {
    OneRowReads(row);
    if row.LyricRow? {
      var ids := FollowersOf(followers, Some(row.lineId));
      ReadConcat([row], UnmatchedRows(document, ids));
      UnmatchedRowsRead(document, ids);
      assert ReadRow(row) + [] == ReadRow(row);
    } else {
      assert Followed(row, followers, document) == [row];
    }
  }

  lemma OneRowReads(row: Row)
    ensures ReadRows([row]) == ReadRow(row) && ReadLyrics([row]) == RowLyrics(row)
  {
    ReadSnoc([], row);
    assert [] + [row] == [row];
  }

  lemma ReadConcat(a: seq<Row>, b: seq<Row>)
    ensures ReadRows(a + b) == ReadRows(a) + ReadRows(b)
    ensures ReadLyrics(a + b) == ReadLyrics(a) + ReadLyrics(b)
  {
    FlatMapConcat(a, b, ReadRow);
    FlatMapConcat(a, b, RowLyrics);
  }

  lemma {:induction false} WithFollowersReads(placed: seq<Row>, followers: Followers, document: LyricsDocument)
    ensures ReadRows(WithFollowers(placed, followers, document)) == ReadRows(placed)
    ensures ReadLyrics(WithFollowers(placed, followers, document))
            == UnfoldShown(ReadLyrics(placed), followers, document)
  {
    if placed != [] {
      var init, row := placed[..|placed| - 1], placed[|placed| - 1];
      WithFollowersReads(init, followers, document);
      ReadConcat(WithFollowers(init, followers, document), Followed(row, followers, document));
      FollowedReads(row, followers, document);
      if row.LyricRow? {
        OneMoreShown(ReadLyrics(init), Shown(row.lineId, SegmentText(row.segments)), followers, document);
      } else {
        assert ReadLyrics(placed) == ReadLyrics(init);
      }
    }
  }

  lemma OneMoreShown(shown: seq<Shown>, last: Shown, followers: Followers, document: LyricsDocument)
    ensures UnfoldShown(shown + [last], followers, document)
            == UnfoldShown(shown, followers, document) + ShownFollowed(last, followers, document)
  {
    assert (shown + [last])[..|shown|] == shown;
  }

  /** A line that is really in the document shows the text its id leads to. */
  lemma ShowsItsText(document: LyricsDocument, line: LyricsLine)
    requires Distinct(LineIds(document.lines)) && line in document.lines
    ensures IdText(document, line.id) == LineText(document, line)
  {
    var k :| 0 <= k < |document.lines| && document.lines[k] == line;
    FindIsUnique(LineIds(document.lines), k);
  }

  lemma {:induction false} ShownUnfolds(lines: seq<TimedLine>, followers: Followers, document: LyricsDocument)
    requires Distinct(LineIds(document.lines)) && forall line :: line in lines ==> line.record in document.lines
    ensures UnfoldShown(ShowAll(document, RecordsOf(lines)), followers, document)
            == ShowIds(document, Unfold(lines, followers))
  {
    if lines != [] {
      var init, last := lines[..|lines| - 1], lines[|lines| - 1];
      ShownUnfolds(init, followers, document);
      OneMoreUnfolds(ShowAll(document, RecordsOf(init)), Unfold(init, followers), last.record, followers, document);
      assert ShowAll(document, RecordsOf(lines)) == ShowAll(document, RecordsOf(init)) + [Show(document, last.record)];
    }
  }

  lemma OneMoreUnfolds(shown: seq<Shown>, ids: seq<Id>, line: LyricsLine, followers: Followers,
                       document: LyricsDocument)
    requires Distinct(LineIds(document.lines)) && line in document.lines
    requires UnfoldShown(shown, followers, document) == ShowIds(document, ids)
    ensures UnfoldShown(shown + [Show(document, line)], followers, document)
            == ShowIds(document, ids + ([line.id] + FollowersOf(followers, Some(line.id))))
  {
    var own := FollowersOf(followers, Some(line.id));
    ShowsItsText(document, line);
    OneMoreShown(shown, Show(document, line), followers, document);
    ShowIdsConcat(document, [line.id], own);
    assert ShowIds(document, [line.id]) == [Show(document, line)];
    ShowIdsConcat(document, ids, [line.id] + own);
  }

  // ----- sections

  function SectionChords(score: Score, region: SectionRegion): seq<TimedChord> {
    Within(score.chords, ChordAt, region.startSample, region.endSample)
  }

  function SectionLines(score: Score, region: SectionRegion): seq<TimedLine> {
    Within(score.lines, LineAt, region.startSample, region.endSample)
  }

  function LyricRows(score: Score, region: SectionRegion): seq<Row> {
    var lines, chords := SectionLines(score, region), SectionChords(score, region);
    PlaceLyrics(ArrangeLines(lines, chords), chords, score.lyrics)
  }

  function GridRows(score: Score, region: SectionRegion): seq<Row> {
    var chords := SectionChords(score, region);
    PlaceGrid(ArrangeBars(BarsWithin(score.bars, region), chords), chords).rows
  }

  function SectionOf(score: Score, region: SectionRegion, leading: seq<Id>): Section {
    if SectionLines(score, region) != [] then
      Section(region.sectionLabel, LyricsLayout,
              UnmatchedRows(score.lyrics.document, leading)
              + WithFollowers(LyricRows(score, region), score.followers, score.lyrics.document))
    else Section(region.sectionLabel, GridLayout, GridRows(score, region))
  }

  /** The lines before the first timed one lead the first section that has lyrics. */
  function Leading(score: Score, regions: seq<SectionRegion>): seq<Id> {
    if regions == [] then FollowersOf(score.followers, None)
    else if SectionLines(score, regions[|regions| - 1]) != [] then []
    else Leading(score, regions[..|regions| - 1])
  }

  function Sections(score: Score, regions: seq<SectionRegion>): seq<Section> {
    if regions == [] then []
    else
      var before := regions[..|regions| - 1];
      Sections(score, before) + [SectionOf(score, regions[|regions| - 1], Leading(score, before))]
  }

  function ReadSectionChords(sections: seq<Section>): seq<ChordCell> {
    if sections == [] then []
    else ReadSectionChords(sections[..|sections| - 1]) + ReadRows(sections[|sections| - 1].rows)
  }

  function ReadSectionLyrics(sections: seq<Section>): seq<Shown> {
    if sections == [] then []
    else ReadSectionLyrics(sections[..|sections| - 1]) + ReadLyrics(sections[|sections| - 1].rows)
  }

  ghost predicate ProperScore(score: Score, duration: nat) {
    && StrictlySortedBy(score.chords, ChordAt)
    && (forall chord :: chord in score.chords ==> chord.startSample < duration)
    && BarsInOrder(score.bars)
    && LinesInOrder(score.lines)
    && (forall line :: line in score.lines ==>
          line.startSample < duration && line.record in score.lyrics.document.lines)
    && Distinct(LineIds(score.lyrics.document.lines))
  }

  lemma SectionIsProper(score: Score, region: SectionRegion, duration: nat)
    requires ProperScore(score, duration)
    ensures StrictlySortedBy(SectionChords(score, region), ChordAt)
    ensures LinesInOrder(SectionLines(score, region))
    ensures BarsInOrder(BarsWithin(score.bars, region))
  {
    WithinIsSorted(score.chords, ChordAt, region.startSample, region.endSample);
    LinesWithinInOrder(score.lines, region.startSample, region.endSample);
    BarsWithinInOrder(score.bars, region.startSample, region.endSample);
  }

  /** A section shows the chords that begin in it. */
  lemma SectionKeepsChords(score: Score, region: SectionRegion, leading: seq<Id>, duration: nat)
    requires ProperScore(score, duration)
    ensures ReadRows(SectionOf(score, region, leading).rows) == Cells(SectionChords(score, region))
  {
    SectionIsProper(score, region, duration);
    if SectionLines(score, region) != [] {
      LyricSectionKeepsChords(SectionLines(score, region), SectionChords(score, region), score.lyrics);
      WithFollowersReads(LyricRows(score, region), score.followers, score.lyrics.document);
      UnmatchedRowsRead(score.lyrics.document, leading);
      ReadConcat(UnmatchedRows(score.lyrics.document, leading),
                 WithFollowers(LyricRows(score, region), score.followers, score.lyrics.document));
    } else {
      GridSectionKeepsChords(BarsWithin(score.bars, region), SectionChords(score, region));
    }
  }

  lemma LyricSectionShows(score: Score, region: SectionRegion, leading: seq<Id>, duration: nat)
    requires ProperScore(score, duration)
    ensures ReadLyrics(UnmatchedRows(score.lyrics.document, leading)
                       + WithFollowers(LyricRows(score, region), score.followers, score.lyrics.document))
            == ShowIds(score.lyrics.document, leading + Unfold(SectionLines(score, region), score.followers))
  {
    var lines, document := SectionLines(score, region), score.lyrics.document;
    SectionIsProper(score, region, duration);
    LyricSectionKeepsLines(lines, SectionChords(score, region), score.lyrics);
    WithFollowersReads(LyricRows(score, region), score.followers, document);
    UnmatchedRowsRead(document, leading);
    ReadConcat(UnmatchedRows(document, leading), WithFollowers(LyricRows(score, region), score.followers, document));
    forall line | line in lines
      ensures line.record in document.lines
    {
      WithinKeeps(score.lines, LineAt, region.startSample, region.endSample, line);
    }
    ShownUnfolds(lines, score.followers, document);
    ShowIdsConcat(document, leading, Unfold(lines, score.followers));
  }

  /** A section with lyrics shows the leading lines it was given and its own lines with their followers. */
  lemma SectionKeepsLines(score: Score, region: SectionRegion, leading: seq<Id>, duration: nat)
    requires ProperScore(score, duration)
    ensures ReadLyrics(SectionOf(score, region, leading).rows)
            == if SectionLines(score, region) == [] then []
               else ShowIds(score.lyrics.document, leading + Unfold(SectionLines(score, region), score.followers))
  {
    if SectionLines(score, region) != [] {
      LyricSectionShows(score, region, leading, duration);
    } else {
      SectionIsProper(score, region, duration);
      GridSectionKeepsBars(BarsWithin(score.bars, region), SectionChords(score, region));
    }
  }

  function RegionsEnd(regions: seq<SectionRegion>): nat {
    if regions == [] then 0 else regions[|regions| - 1].endSample
  }

  /** Regions laid end to end from the start of the project. */
  ghost predicate Consecutive(regions: seq<SectionRegion>) {
    forall i :: 0 <= i < |regions| ==> RegionsEnd(regions[..i]) == regions[i].startSample <= regions[i].endSample
  }

  lemma ConsecutiveInit(regions: seq<SectionRegion>)
    requires Consecutive(regions) && regions != []
    ensures Consecutive(regions[..|regions| - 1])
    ensures RegionsEnd(regions[..|regions| - 1]) == regions[|regions| - 1].startSample
            <= regions[|regions| - 1].endSample
  {
    var init := regions[..|regions| - 1];
    forall i | 0 <= i < |init|
      ensures RegionsEnd(init[..i]) == init[i].startSample <= init[i].endSample
    {
      assert init[..i] == regions[..i];
    }
  }

  /** Up to any section border, the sheet shows the chords that begin before it. */
  lemma {:induction false} SectionsKeepChords(score: Score, regions: seq<SectionRegion>, duration: nat)
    requires ProperScore(score, duration) && Consecutive(regions)
    ensures ReadSectionChords(Sections(score, regions)) == Cells(Within(score.chords, ChordAt, 0, RegionsEnd(regions)))
  {
    if regions == [] {
      NothingIn(score.chords, ChordAt);
    } else {
      var init, region := regions[..|regions| - 1], regions[|regions| - 1];
      ConsecutiveInit(regions);
      SectionsKeepChords(score, init, duration);
      SectionKeepsChords(score, region, Leading(score, init), duration);
      WithinSplits(score.chords, ChordAt, 0, region.startSample, region.endSample);
      CellsConcat(Within(score.chords, ChordAt, 0, region.startSample), SectionChords(score, region));
    }
  }

  lemma {:induction false} NothingIn<T>(items: seq<T>, key: T -> int)
    ensures Within(items, key, 0, 0) == []
  {
    if items != [] {
      NothingIn(items[..|items| - 1], key);
    }
  }

  function LinesUpTo(score: Score, end: nat): seq<TimedLine> {
    Within(score.lines, LineAt, 0, end)
  }

  lemma LinesUpToBorder(score: Score, region: SectionRegion)
    requires LinesInOrder(score.lines) && region.startSample <= region.endSample
    ensures LinesUpTo(score, region.endSample) == LinesUpTo(score, region.startSample) + SectionLines(score, region)
  {
    LinesAreSorted(score.lines);
    WithinSplits(score.lines, LineAt, 0, region.startSample, region.endSample);
  }

  lemma {:induction false} LeadingUntilFirstLine(score: Score, regions: seq<SectionRegion>)
    requires LinesInOrder(score.lines) && Consecutive(regions)
    ensures Leading(score, regions)
            == if LinesUpTo(score, RegionsEnd(regions)) == [] then FollowersOf(score.followers, None) else []
  {
    if regions == [] {
      NothingIn(score.lines, LineAt);
    } else {
      var init, region := regions[..|regions| - 1], regions[|regions| - 1];
      ConsecutiveInit(regions);
      LeadingUntilFirstLine(score, init);
      LinesUpToBorder(score, region);
    }
  }

  function LyricsUpTo(score: Score, end: nat): seq<Id> {
    if LinesUpTo(score, end) == [] then []
    else FollowersOf(score.followers, None) + Unfold(LinesUpTo(score, end), score.followers)
  }

  lemma Regroup<T>(first: seq<T>, a: seq<T>, b: seq<T>)
    ensures first + (a + b) == first + a + ([] + b)
  {
    assert [] + b == b;
    Associate(first, a, b);
  }

  lemma UnfoldBehind(first: seq<Id>, before: seq<TimedLine>, own: seq<TimedLine>, followers: Followers)
    ensures first + Unfold(before + own, followers) == first + Unfold(before, followers) + ([] + Unfold(own, followers))
  {
    UnfoldConcat(before, own, followers);
    Regroup(first, Unfold(before, followers), Unfold(own, followers));
  }

  lemma LyricsUpToBorder(score: Score, region: SectionRegion, leading: seq<Id>)
    requires LinesInOrder(score.lines) && region.startSample <= region.endSample
    requires leading == if LinesUpTo(score, region.startSample) == [] then FollowersOf(score.followers, None) else []
    ensures LyricsUpTo(score, region.endSample)
            == LyricsUpTo(score, region.startSample)
               + if SectionLines(score, region) == [] then []
                 else leading + Unfold(SectionLines(score, region), score.followers)
  {
    LinesUpToBorder(score, region);
    var before, own, first := LinesUpTo(score, region.startSample), SectionLines(score, region),
      FollowersOf(score.followers, None);
    if before == [] {
      assert before + own == own;
    } else if own == [] {
      assert before + own == before;
    } else {
      UnfoldBehind(first, before, own, score.followers);
    }
  }

  /** Up to any section border, the sheet shows the timed lines that begin before it, with what goes with them. */
  lemma {:induction false} SectionsKeepLines(score: Score, regions: seq<SectionRegion>, duration: nat)
    requires ProperScore(score, duration) && Consecutive(regions)
    ensures ReadSectionLyrics(Sections(score, regions))
            == ShowIds(score.lyrics.document, LyricsUpTo(score, RegionsEnd(regions)))
  {
    if regions == [] {
      NothingIn(score.lines, LineAt);
    } else {
      var init, region := regions[..|regions| - 1], regions[|regions| - 1];
      ConsecutiveInit(regions);
      SectionsKeepLines(score, init, duration);
      LeadingUntilFirstLine(score, init);
      SectionKeepsLines(score, region, Leading(score, init), duration);
      LyricsUpToBorder(score, region, Leading(score, init));
      ShowIdsConcat(score.lyrics.document, LyricsUpTo(score, region.startSample),
        if SectionLines(score, region) == [] then []
          else Leading(score, init) + Unfold(SectionLines(score, region), score.followers));
    }
  }

  lemma {:induction false} AllWithin<T>(items: seq<T>, key: T -> int, hi: int)
    requires forall item :: item in items ==> 0 <= key(item) < hi
    ensures Within(items, key, 0, hi) == items
  {
    if items != [] {
      var init, last := items[..|items| - 1], items[|items| - 1];
      assert last in items && forall item :: item in init ==> item in items;
      AllWithin(init, key, hi);
      assert items == init + [last];
    }
  }

  /** Regions that cover the project keep every chord. */
  lemma EveryChordOnce(score: Score, regions: seq<SectionRegion>, duration: nat)
    requires ProperScore(score, duration) && Consecutive(regions) && RegionsEnd(regions) == duration
    ensures ReadSectionChords(Sections(score, regions)) == Cells(score.chords)
  {
    SectionsKeepChords(score, regions, duration);
    AllWithin(score.chords, ChordAt, duration);
  }

  /** Regions that cover the project keep every lyric line, if any line has a time. */
  lemma EveryLineOnce(score: Score, regions: seq<SectionRegion>, duration: nat)
    requires ProperScore(score, duration) && Consecutive(regions) && RegionsEnd(regions) == duration
    requires FollowersOf(score.followers, None) + Unfold(score.lines, score.followers)
             == LineIds(score.lyrics.document.lines)
    ensures ReadSectionLyrics(Sections(score, regions))
            == if score.lines == [] then [] else ShowAll(score.lyrics.document, score.lyrics.document.lines)
  {
    SectionsKeepLines(score, regions, duration);
    AllWithin(score.lines, LineAt, duration);
    ShowsWholeDocument(score.lyrics.document);
  }

  lemma ShowsWholeDocument(document: LyricsDocument)
    requires Distinct(LineIds(document.lines))
    ensures ShowIds(document, LineIds(document.lines)) == ShowAll(document, document.lines)
  {
    forall i | 0 <= i < |document.lines|
      ensures ShowIds(document, LineIds(document.lines))[i] == Show(document, document.lines[i])
    {
      ShowsItsText(document, document.lines[i]);
    }
  }

  // ----- the projection

  const NoAlignment := LyricsAlignment("", "", "", [], [], None)
  const NoLyrics := Lyrics(LyricsDocument("", [], [], []), NoAlignment)

  /** A document, and the alignment in effect if there is one. */
  datatype SnapshotLyrics = SnapshotLyrics(document: LyricsDocument, effectiveAlignment: Option<LyricsAlignment>)

  function LyricsOr(lyrics: Option<SnapshotLyrics>): Lyrics {
    if lyrics == None then NoLyrics
    else Lyrics(lyrics.value.document,
                if lyrics.value.effectiveAlignment == None then NoAlignment else lyrics.value.effectiveAlignment.value)
  }

  function ScoreOf(timeline: Timeline, presented: map<Id, Presented>, lyrics: Lyrics): Score
    requires forall event :: event in timeline.chordEvents ==> event.id in presented
  {
    var lines, occurrences := lyrics.document.lines, lyrics.alignment.lineOccurrences;
    Score(TimedChords(timeline.chordEvents, presented), timeline.bars, TimedLines(lines, occurrences), lyrics,
          Follow(lines, occurrences).followers)
  }

  /** A valid timeline with the non-empty bars and sections of the schema, and a presented form of every chord. */
  ghost predicate ProperSnapshot(timeline: Timeline, presented: map<Id, Presented>, duration: nat) {
    && ValidTimeline(timeline, duration)
    && (forall bar :: bar in timeline.bars ==> bar.beats != [])
    && timeline.sectionRegions != []
    && (forall event :: event in timeline.chordEvents ==> event.id in presented)
  }

  /** A valid document, and a valid alignment of it or no times at all. */
  ghost predicate ProperLyrics(lyrics: Lyrics, duration: nat) {
    ValidDocument(lyrics.document)
      && (ValidAlignment(lyrics.alignment, lyrics.document, duration) || lyrics.alignment == NoAlignment)
  }

  ghost predicate ProperSnapshotLyrics(lyrics: SnapshotLyrics, duration: nat) {
    && ValidDocument(lyrics.document)
    && (lyrics.effectiveAlignment.Some? ==> ValidAlignment(lyrics.effectiveAlignment.value, lyrics.document, duration))
  }

  method ProjectSections(score: Score, regions: seq<SectionRegion>) returns (sections: seq<Section>)
    requires LinesInOrder(score.lines)
    ensures sections == Sections(score, regions)
  {
    var leading := FollowersOf(score.followers, None);
    sections := [];
    for n := 0 to |regions|
      invariant sections == Sections(score, regions[..n])
      invariant leading == Leading(score, regions[..n])
    {
      OneMoreSection(score, regions, n);
      var section := ProjectSection(score, regions[n], leading);
      if section.layout == LyricsLayout {
        leading := [];
      }
      sections := sections + [section];
    }
    assert regions[..|regions|] == regions;
  }

  lemma OneMoreSection(score: Score, regions: seq<SectionRegion>, n: nat)
    requires n < |regions|
    ensures Sections(score, regions[..n + 1])
            == Sections(score, regions[..n]) + [SectionOf(score, regions[n], Leading(score, regions[..n]))]
    ensures Leading(score, regions[..n + 1])
            == if SectionLines(score, regions[n]) != [] then [] else Leading(score, regions[..n])
  {
    assert regions[..n + 1][..n] == regions[..n];
  }

  method ProjectSection(score: Score, region: SectionRegion, leading: seq<Id>) returns (section: Section)
    requires LinesInOrder(score.lines)
    ensures section == SectionOf(score, region, leading)
  {
    var chords, lines := SectionChords(score, region), SectionLines(score, region);
    if lines != [] {
      LinesWithinInOrder(score.lines, region.startSample, region.endSample);
      var placed := PlaceLyricSection(lines, chords, score.lyrics);
      section := Section(region.sectionLabel, LyricsLayout,
        UnmatchedRows(score.lyrics.document, leading) + WithFollowers(placed, score.followers, score.lyrics.document));
    } else {
      var placed := PlaceGridSection(score.bars, region, chords);
      section := Section(region.sectionLabel, GridLayout, placed);
    }
  }

  method ProjectLeadSheet(timeline: Timeline, presented: map<Id, Presented>, lyrics: Option<SnapshotLyrics>,
                          ghost duration: nat)
    returns (sheet: Sheet)
    requires ProperSnapshot(timeline, presented, duration)
    requires lyrics.Some? ==> ProperSnapshotLyrics(lyrics.value, duration)
    ensures sheet.sections == Sections(ScoreOf(timeline, presented, LyricsOr(lyrics)), timeline.sectionRegions)
    ensures ReadSectionChords(sheet.sections) == Cells(TimedChords(timeline.chordEvents, presented))
    ensures lyrics == None ==> sheet.untimedLyrics == None && ReadSectionLyrics(sheet.sections) == []
    ensures lyrics.Some? ==>
              var document := lyrics.value.document;
              var timed := TimedLines(document.lines, LyricsOr(lyrics).alignment.lineOccurrences) != [];
              && (lyrics.value.effectiveAlignment == None ==> !timed)
              && ReadSectionLyrics(sheet.sections) == (if timed then ShowAll(document, document.lines) else [])
              && sheet.untimedLyrics == if timed then None else Some(ShowAll(document, document.lines))
  {
    var found := LyricsOr(lyrics);
    var chords := TimedChords(timeline.chordEvents, presented);
    var timedLines := TimedLines(found.document.lines, found.alignment.lineOccurrences);
    var followers := CollectFollowers(found.document.lines, found.alignment.lineOccurrences);
    var score := Score(chords, timeline.bars, timedLines, found, followers);
    ScoreIsProper(timeline, presented, found, duration);
    var sections := ProjectSections(score, timeline.sectionRegions);
    SheetKeepsAll(timeline, presented, found, duration);
    NoTimesNoLines(found.document.lines);
    sheet := Sheet(sections,
                   if lyrics.Some? && timedLines == [] then Some(ShowAll(found.document, found.document.lines))
                     else None);
  }

  lemma RegionsAreConsecutive(timeline: Timeline, duration: nat)
    requires ValidTimeline(timeline, duration) && timeline.sectionRegions != []
    ensures Consecutive(timeline.sectionRegions) && RegionsEnd(timeline.sectionRegions) == duration
  {
    var regions := timeline.sectionRegions;
    var spans := Map(SectionSpan, regions);
    forall i | 0 <= i < |regions|
      ensures RegionsEnd(regions[..i]) == regions[i].startSample <= regions[i].endSample
    {
      TileEndsInside(spans, duration, i);
      assert i > 0 ==> spans[i - 1].endSample == spans[i].startSample;
    }
    assert spans[|spans| - 1].endSample == duration;
  }

  lemma ScoreIsProper(timeline: Timeline, presented: map<Id, Presented>, lyrics: Lyrics, duration: nat)
    requires ProperSnapshot(timeline, presented, duration) && ProperLyrics(lyrics, duration)
    ensures ProperScore(ScoreOf(timeline, presented, lyrics), duration)
  {
    ChordsAreSorted(timeline, presented, duration);
    TimelineBarsInOrder(timeline, duration);
    var lines := lyrics.document.lines;
    assert lines[..|lines|] == lines;
    NoTimesNoLines(lines);
    if ValidAlignment(lyrics.alignment, lyrics.document, duration) {
      TimedLinesInOrder(lyrics, duration, |lines|);
      forall line | line in TimedLines(lines, lyrics.alignment.lineOccurrences)
        ensures line.startSample < duration && line.record in lines
      {
        var i := TimedLineIsALine(lines, lyrics.alignment.lineOccurrences, line);
        TimingOfLine(lyrics, duration, i);
      }
    }
  }

  lemma SheetKeepsAll(timeline: Timeline, presented: map<Id, Presented>, lyrics: Lyrics, duration: nat)
    requires ProperSnapshot(timeline, presented, duration) && ProperLyrics(lyrics, duration)
    ensures var score := ScoreOf(timeline, presented, lyrics);
            var sections := Sections(score, timeline.sectionRegions);
            && ReadSectionChords(sections) == Cells(score.chords)
            && ReadSectionLyrics(sections)
                 == if score.lines == [] then [] else ShowAll(lyrics.document, lyrics.document.lines)
  {
    var score := ScoreOf(timeline, presented, lyrics);
    ScoreIsProper(timeline, presented, lyrics, duration);
    RegionsAreConsecutive(timeline, duration);
    EveryChordOnce(score, timeline.sectionRegions, duration);
    FollowersCoverTheDocument(lyrics.document.lines, lyrics.alignment.lineOccurrences);
    EveryLineOnce(score, timeline.sectionRegions, duration);
  }
}
