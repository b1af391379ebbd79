/** What is on the lead sheet, said of the timeline, the document and the alignment. */
module LeadSheetPage {
  import opened Wrappers
  import opened Sequences
  import opened Schema
  import opened ProjectRules
  import opened TimeOrder
  import opened LeadSheetRows
  import opened LeadSheetLayout
  import opened LeadSheetTracks
  import opened LeadSheet
  import opened SectionLayout

  // ----- chords

  /** A chord is shown in its presented form, and as unknown where the analysis has abstained. */
  lemma CellsSayTheirChords(events: seq<ChordEvent>, presented: map<Id, Presented>, i: nat)
    requires (forall event :: event in events ==> event.id in presented) && i < |events|
    ensures var chord, event := TimedChords(events, presented)[i], events[i];
            && chord.startSample == event.startSample && chord.cell.state == event.assertion.state
            && (event.assertion.state == Abstained ==>
                  chord.cell.symbol == "?" && chord.cell.spoken == "unknown chord")
            && (event.assertion.state != Abstained ==>
                  && chord.cell.symbol == presented[event.id].symbol
                  && chord.cell.spoken == presented[event.id].spoken)
  {
  }

  // ----- lines

  /** A line of a valid document has the text between its offsets. */
  lemma LinesHaveTheirTexts(document: LyricsDocument, i: nat)
    requires ValidDocument(document) && i < |document.lines|
    ensures var line := document.lines[i];
            && line.startOffset < line.endOffset <= |document.text|
            && LineText(document, line) == document.text[line.startOffset..line.endOffset]
            && ShowAll(document, document.lines)[i]
                 == Shown(line.id, document.text[line.startOffset..line.endOffset])
            && UnmatchedRow(document, line.id)
                 == LyricRow(line.id, [LyricSegment(None, document.text[line.startOffset..line.endOffset])])
  {
    var line := document.lines[i];
    assert Map(LineOffsets, document.lines)[i] == Offsets(line.startOffset, line.endOffset);
    ShowsItsText(document, line);
  }

  ghost predicate IsTimed(line: LyricsLine, occurrences: seq<Occurrence>, start: nat, end: nat) {
    exists occurrence :: occurrence in occurrences && occurrence.target == line.id && occurrence.timing.Matched?
      && occurrence.timing.startSample == start && occurrence.timing.endSample == end
  }

  lemma TimingMeans(line: LyricsLine, occurrences: seq<Occurrence>, start: nat, end: nat)
    requires Distinct(Targets(occurrences))
    ensures IsTimed(line, occurrences, start, end) <==>
            var timing := TimingFor(occurrences, line.id);
            timing.Some? && timing.value.Matched? && timing.value.startSample == start && timing.value.endSample == end
  {
    var targets := Targets(occurrences);
    var index := Find(targets, line.id);
    if index >= 0 {
      assert occurrences[index] in occurrences && occurrences[index].target == line.id;
    }
    if occurrence :| occurrence in occurrences && occurrence.target == line.id && occurrence.timing.Matched?
                     && occurrence.timing.startSample == start && occurrence.timing.endSample == end {
      var k :| 0 <= k < |occurrences| && occurrences[k] == occurrence;
      FindIsUnique(targets, k);
      assert targets[k] == line.id;
    }
  }

  /** The timed lines are the lines of the document with a matched timing. */
  lemma {:induction false} TimedLinesAreMatched(lines: seq<LyricsLine>, occurrences: seq<Occurrence>, line: TimedLine)
    requires Distinct(Targets(occurrences))
    ensures line in TimedLines(lines, occurrences)
            <==> line.record in lines && IsTimed(line.record, occurrences, line.startSample, line.endSample)
  {
    if lines != [] {
      var init, last := lines[..|lines| - 1], lines[|lines| - 1];
      assert lines == init + [last];
      TimedLinesAreMatched(init, occurrences, line);
      TimingMeans(last, occurrences, line.startSample, line.endSample);
    }
  }

  // ----- lines without a time

  function FollowingIds(row: Row, followers: Followers): seq<Id> {
    if row.LyricRow? then FollowersOf(followers, Some(row.lineId)) else []
  }

  lemma {:induction false} RowsUpTo(placed: seq<Row>, followers: Followers, document: LyricsDocument, k: nat)
    requires k <= |placed|
    ensures WithFollowers(placed[..k], followers, document) <= WithFollowers(placed, followers, document)
    decreases |placed|
  {
    if k < |placed| {
      var init := placed[..|placed| - 1];
      RowsUpTo(init, followers, document, k);
      assert init[..k] == placed[..k];
    } else {
      assert placed[..k] == placed;
    }
  }

  lemma RowAndFollowers(placed: seq<Row>, followers: Followers, document: LyricsDocument, k: nat)
    requires k < |placed|
    ensures WithFollowers(placed[..k], followers, document) + Followed(placed[k], followers, document)
            <= WithFollowers(placed, followers, document)
  {
    RowsUpTo(placed, followers, document, k + 1);
    assert placed[..k + 1][..k] == placed[..k];
  }

  /** A row, and behind it the rows of some lines without a time. */
  ghost predicate IsFollowed(own: seq<Row>, row: Row, ids: seq<Id>, document: LyricsDocument) {
    && |own| == 1 + |ids| && own[0] == row
    && forall m :: 0 <= m < |ids| ==> own[1 + m] == UnmatchedRow(document, ids[m])
  }

  lemma FollowedRows(row: Row, followers: Followers, document: LyricsDocument)
    ensures IsFollowed(Followed(row, followers, document), row, FollowingIds(row, followers), document)
  {
    var ids := FollowingIds(row, followers);
    UnmatchedRowsAre(document, ids);
    InFront(row, UnmatchedRows(document, ids));
    assert [row] + [] == [row];
  }

  lemma InFront(row: Row, rows: seq<Row>)
    ensures |[row] + rows| == 1 + |rows| && ([row] + rows)[0] == row
    ensures forall m :: 0 <= m < |rows| ==> ([row] + rows)[1 + m] == rows[m]
  {
  }

  /** The rows of the lines that follow a line come directly behind its row, and then the next row. */
  lemma FollowersComeDirectly(placed: seq<Row>, followers: Followers, document: LyricsDocument, k: nat)
    returns (at: nat)
    requires k < |placed|
    ensures var rows, ids := WithFollowers(placed, followers, document), FollowingIds(placed[k], followers);
            && at + 1 + |ids| <= |rows| && IsFollowed(rows[at..at + 1 + |ids|], placed[k], ids, document)
            && (k == 0 ==> at == 0)
            && (k == |placed| - 1 ==> |rows| == at + 1 + |ids|)
            && (k < |placed| - 1 ==> at + 1 + |ids| < |rows| && rows[at + 1 + |ids|] == placed[k + 1])
  {
    var before, own := WithFollowers(placed[..k], followers, document), Followed(placed[k], followers, document);
    at := |before|;
    var rows := WithFollowers(placed, followers, document);
    RowAndFollowers(placed, followers, document, k);
    FollowedRows(placed[k], followers, document);
    Inside(before, own, rows);
    if k < |placed| - 1 {
      NextRow(placed, followers, document, k);
    } else {
      assert placed[..k + 1] == placed && placed[..k + 1][..k] == placed[..k];
    }
  }

  lemma NextRow(placed: seq<Row>, followers: Followers, document: LyricsDocument, k: nat)
    requires k < |placed| - 1
    ensures var rows := WithFollowers(placed, followers, document);
            var next := |WithFollowers(placed[..k], followers, document)| + |Followed(placed[k], followers, document)|;
            next < |rows| && rows[next] == placed[k + 1]
  {
    var own := Followed(placed[k + 1], followers, document);
    assert placed[..k + 1][..k] == placed[..k];
    RowAndFollowers(placed, followers, document, k + 1);
    Inside(WithFollowers(placed[..k + 1], followers, document), own, WithFollowers(placed, followers, document));
    assert own[0] == placed[k + 1];
  }

  lemma Inside(before: seq<Row>, own: seq<Row>, rows: seq<Row>)
    requires before + own <= rows
    ensures rows[|before|..|before| + |own|] == own
    ensures own != [] ==> rows[|before|] == own[0]
  {
    assert (before + own)[|before|..] == own;
  }

  lemma {:induction false} UnmatchedRowsAre(document: LyricsDocument, ids: seq<Id>)
    ensures |UnmatchedRows(document, ids)| == |ids|
    ensures forall m :: 0 <= m < |ids| ==> UnmatchedRows(document, ids)[m] == UnmatchedRow(document, ids[m])
  {
    if ids != [] {
      UnmatchedRowsAre(document, ids[..|ids| - 1]);
    }
  }

  // ----- sections

  ghost predicate BeginsIn(time: nat, region: SectionRegion) { region.startSample <= time < region.endSample }

  ghost predicate ChordsOfRegion(own: seq<TimedChord>, score: Score, region: SectionRegion) {
    StrictlySortedBy(own, ChordAt)
    && forall chord :: chord in own <==> chord in score.chords && BeginsIn(chord.startSample, region)
  }

  ghost predicate LinesOfRegion(own: seq<TimedLine>, score: Score, region: SectionRegion) {
    LinesInOrder(own) && forall line :: line in own <==> line in score.lines && BeginsIn(line.startSample, region)
  }

  /**
   A section has the label of its region. It is laid out around lyrics exactly when a timed line begins in it, behind
   the leading lines, and otherwise as a grid.
  */
  ghost predicate SaysRegion(section: Section, score: Score, region: SectionRegion, leading: seq<Id>,
                             chords: seq<TimedChord>, lines: seq<TimedLine>, rows: seq<Row>, page: seq<Placed>)
  {
    && ChordsOfRegion(chords, score, region) && LinesOfRegion(lines, score, region)
    && section.sectionLabel == region.sectionLabel
    && section.layout == (if lines != [] then LyricsLayout else GridLayout)
    && (lines != [] ==>
          && LaidOutAroundLyrics(rows, page, lines, chords, score.lyrics)
          && section.rows == UnmatchedRows(score.lyrics.document, leading)
                             + WithFollowers(rows, score.followers, score.lyrics.document))
    && (lines == [] ==> LaidOutAsGrid(section.rows, page, score.bars, region, chords))
  }

  /** There is a section for every region; the lines before all timed ones go to the first section with lyrics. */
  lemma SectionSaysItsRegion(score: Score, regions: seq<SectionRegion>, n: nat, duration: nat)
    returns (chords: seq<TimedChord>, lines: seq<TimedLine>, rows: seq<Row>, page: seq<Placed>)
    requires ProperScore(score, duration) && n < |regions|
    ensures |Sections(score, regions)| == |regions|
    ensures SaysRegion(Sections(score, regions)[n], score, regions[n], LeadingOf(score, regions, n), chords, lines,
                       rows, page)
  {
    NthSection(score, regions, n);
    LeadingMeans(score, regions[..n]);
    LeadingOfPrefix(score, regions, n);
    chords, lines, rows, page := OneSection(score, regions[n], LeadingOf(score, regions, n), duration);
  }

  lemma {:induction false} SectionCount(score: Score, regions: seq<SectionRegion>)
    ensures |Sections(score, regions)| == |regions|
  {
    if regions != [] {
      SectionCount(score, regions[..|regions| - 1]);
    }
  }

  lemma {:induction false} SectionsUpTo(score: Score, regions: seq<SectionRegion>, n: nat)
    requires n <= |regions|
    ensures Sections(score, regions[..n]) <= Sections(score, regions)
    decreases |regions|
  {
    if n < |regions| {
      var init := regions[..|regions| - 1];
      SectionsUpTo(score, init, n);
      assert init[..n] == regions[..n];
    } else {
      assert regions[..n] == regions;
    }
  }

  lemma NthSection(score: Score, regions: seq<SectionRegion>, n: nat)
    requires n < |regions|
    ensures |Sections(score, regions)| == |regions|
    ensures Sections(score, regions)[n] == SectionOf(score, regions[n], Leading(score, regions[..n]))
  {
    SectionCount(score, regions);
    SectionCount(score, regions[..n]);
    SectionsUpTo(score, regions, n + 1);
    OneMoreSection(score, regions, n);
    assert Sections(score, regions[..n + 1])[n] == SectionOf(score, regions[n], Leading(score, regions[..n]));
  }

  ghost predicate HasLines(score: Score, region: SectionRegion) {
    exists line :: line in score.lines && BeginsIn(line.startSample, region)
  }

  /** The lines before all timed ones go to the first section with lyrics. */
  ghost function LeadingOf(score: Score, regions: seq<SectionRegion>, n: nat): seq<Id>
    requires n <= |regions|
  {
    if exists i :: 0 <= i < n && HasLines(score, regions[i]) then [] else FollowersOf(score.followers, None)
  }

  lemma LeadingOfPrefix(score: Score, regions: seq<SectionRegion>, n: nat)
    requires n <= |regions|
    ensures LeadingOf(score, regions[..n], n) == LeadingOf(score, regions, n)
  {
    assert forall i :: 0 <= i < n ==> regions[..n][i] == regions[i];
  }

  lemma SectionHasLines(score: Score, region: SectionRegion)
    ensures SectionLines(score, region) != [] <==> HasLines(score, region)
  {
    forall line: TimedLine
      ensures line in SectionLines(score, region) <==> line in score.lines && BeginsIn(line.startSample, region)
    {
      WithinKeeps(score.lines, LineAt, region.startSample, region.endSample, line);
    }
    if SectionLines(score, region) != [] {
      assert SectionLines(score, region)[0] in SectionLines(score, region);
    }
  }

  lemma {:induction false} LeadingMeans(score: Score, regions: seq<SectionRegion>)
    ensures Leading(score, regions) == LeadingOf(score, regions, |regions|)
  {
    if regions != [] {
      var init, last := regions[..|regions| - 1], regions[|regions| - 1];
      LeadingMeans(score, init);
      SectionHasLines(score, last);
      assert forall i :: 0 <= i < |init| ==> init[i] == regions[i];
    }
  }

  lemma OneSection(score: Score, region: SectionRegion, leading: seq<Id>, duration: nat)
    returns (chords: seq<TimedChord>, lines: seq<TimedLine>, rows: seq<Row>, page: seq<Placed>)
    requires ProperScore(score, duration)
    ensures SaysRegion(SectionOf(score, region, leading), score, region, leading, chords, lines, rows, page)
  {
    chords, lines := SectionChords(score, region), SectionLines(score, region);
    SectionIsProper(score, region, duration);
    forall chord: TimedChord
      ensures chord in chords <==> chord in score.chords && BeginsIn(chord.startSample, region)
    {
      WithinKeeps(score.chords, ChordAt, region.startSample, region.endSample, chord);
    }
    forall line: TimedLine
      ensures line in lines <==> line in score.lines && BeginsIn(line.startSample, region)
    {
      WithinKeeps(score.lines, LineAt, region.startSample, region.endSample, line);
    }
    rows := [];
    if lines != [] {
      rows := LyricRows(score, region);
      page := LyricSectionIsLaidOut(lines, chords, score.lyrics);
    } else {
      page := GridSectionIsLaidOut(score.bars, region, chords);
    }
  }
}
