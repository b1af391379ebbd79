/** How a section of the lead sheet is laid out, said of its lines, bars and chords and their times alone. */
module SectionLayout {
  import opened Wrappers
  import opened Sequences
  import opened Schema
  import opened TimeOrder
  import opened LeadSheetRows
  import opened LeadSheetLayout

  /** What a row is for: a lyric line, chords outside every line or bar, or bars. */
  datatype Placed = OfLine(line: TimedLine) | OfChords(chords: seq<TimedChord>) | OfBars(bars: seq<Bar>)

  // ----- the order of rows

  /** Something on the row begins at a time. */
  ghost predicate BeginsAt(placed: Placed, time: int) {
    match placed
    case OfLine(line) => time == line.startSample
    case OfChords(chords) => exists chord :: chord in chords && time == chord.startSample
    case OfBars(bars) => exists bar :: bar in bars && time == bar.startSample
  }

  ghost predicate InTimeOrder(page: seq<Placed>) {
    forall i, j, s, t {:trigger BeginsAt(page[i], s), BeginsAt(page[j], t)} ::
      0 <= i < j < |page| && BeginsAt(page[i], s) && BeginsAt(page[j], t) ==> s < t
  }

  ghost predicate AllBefore(page: seq<Placed>, time: int) {
    forall i, s :: 0 <= i < |page| && BeginsAt(page[i], s) ==> s < time
  }

  /** Chords outside of lines or bars share a row as long as nothing comes between them, and so do bars of one meter. */
  ghost predicate Separate(a: Placed, b: Placed) {
    && !(a.OfChords? && b.OfChords?)
    && (a.OfBars? && b.OfBars? && a.bars != [] && b.bars != [] ==>
          a.bars[|a.bars| - 1].meter != b.bars[0].meter)
  }

  ghost predicate NeighboursSeparate(page: seq<Placed>) {
    forall i, j :: 0 <= i < |page| && 0 <= j < |page| && j == i + 1 ==> Separate(page[i], page[j])
  }

  lemma OneMoreRow(page: seq<Placed>, placed: Placed, time: int)
    requires InTimeOrder(page) && AllBefore(page, time) && NeighboursSeparate(page)
    requires forall t :: BeginsAt(placed, t) ==> t == time
    requires page != [] ==> Separate(page[|page| - 1], placed)
    ensures InTimeOrder(page + [placed]) && NeighboursSeparate(page + [placed])
  {
  }

  lemma LastRowGrows(page: seq<Placed>, placed: Placed, time: int)
    requires page != [] && InTimeOrder(page) && AllBefore(page, time) && NeighboursSeparate(page)
    requires forall t :: BeginsAt(placed, t) ==> BeginsAt(page[|page| - 1], t) || t == time
    requires |page| > 1 ==> Separate(page[|page| - 2], placed)
    ensures InTimeOrder(page[..|page| - 1] + [placed]) && NeighboursSeparate(page[..|page| - 1] + [placed])
  {
    var init := page[..|page| - 1];
    var after := init + [placed];
    forall i, j, s, t | 0 <= i < j < |after| && BeginsAt(after[i], s) && BeginsAt(after[j], t)
      ensures s < t
    {
      assert after[i] == page[i];
      if j < |init| {
        assert after[j] == page[j];
      }
    }
    forall i, j | 0 <= i < |after| && 0 <= j < |after| && j == i + 1
      ensures Separate(after[i], after[j])
    {
      assert after[i] == page[i];
      assert j < |init| ==> after[j] == page[j];
    }
  }

  ghost predicate OnChordsRow(page: seq<Placed>, chord: TimedChord) {
    exists i :: 0 <= i < |page| && page[i].OfChords? && chord in page[i].chords
  }

  // ----- sections with lyrics

  /** The chords that begin while a line is sung. */
  ghost predicate SoundsIn(chord: TimedChord, line: TimedLine) {
    line.startSample <= chord.startSample < line.endSample
  }

  ghost predicate AreThose(own: seq<TimedChord>, chords: seq<TimedChord>, line: TimedLine) {
    StrictlySortedBy(own, ChordAt) && forall chord :: chord in own <==> chord in chords && SoundsIn(chord, line)
  }

  /** A row of a line has its id, and over it the chords that begin in it; a row of chords has just these. */
  ghost predicate ShowsLyrics(row: Row, placed: Placed, chords: seq<TimedChord>, lyrics: Lyrics) {
    match placed
    case OfLine(line) => exists own :: AreThose(own, chords, line) && row == RowOf(line, own, lyrics)
    case OfChords(loose) => loose != [] && row == ChordsRow(Cells(loose))
    case OfBars(_) => false
  }

  ghost predicate AllShowLyrics(rows: seq<Row>, page: seq<Placed>, chords: seq<TimedChord>, lyrics: Lyrics) {
    |rows| == |page| && forall i :: 0 <= i < |rows| ==> ShowsLyrics(rows[i], page[i], chords, lyrics)
  }

  ghost predicate HasLineSlots(page: seq<Placed>, slots: seq<LineSlot>) {
    && (forall line :: OfLine(line) in page <==> Holder(line.startSample as int, line.endSample as int, line) in slots)
    && (forall chord :: OnChordsRow(page, chord) <==> Loose(chord.startSample as int, chord) in slots)
  }

  ghost predicate ProperLineSlot(slot: LineSlot) {
    match slot
    case Holder(lo, hi, line) => lo == line.startSample && hi == line.endSample
    case Loose(at, chord) => at == chord.startSample
  }

  ghost predicate ProperLineSlots(slots: seq<LineSlot>) {
    StrictlySortedBy(slots, SlotAt<TimedLine, TimedChord>) && forall slot :: slot in slots ==> ProperLineSlot(slot)
  }

  lemma LinesComeBefore(page: seq<Placed>, slots: seq<LineSlot>)
    requires slots != [] && ProperLineSlots(slots) && HasLineSlots(page, slots[..|slots| - 1])
    requires forall i :: 0 <= i < |page| ==> !page[i].OfBars?
    ensures AllBefore(page, SlotAt(slots[|slots| - 1]))
  {
    forall i, s | 0 <= i < |page| && BeginsAt(page[i], s)
      ensures s < SlotAt(slots[|slots| - 1])
    {
      var slot: LineSlot;
      match page[i] {
        case OfLine(line) =>
          assert OfLine(line) in page;
          slot := Holder(line.startSample as int, line.endSample as int, line);
        case OfChords(chords) =>
          var chord :| chord in chords && s == chord.startSample;
          assert OnChordsRow(page, chord);
          slot := Loose(chord.startSample as int, chord);
      }
      assert slot in slots[..|slots| - 1];
      LastIsLatest(slots, SlotAt<TimedLine, TimedChord>, slot);
    }
  }

  lemma {:induction false} LyricRowsAreLaid(slots: seq<LineSlot>, chords: seq<TimedChord>, lyrics: Lyrics)
    returns (page: seq<Placed>)
    requires ProperLineSlots(slots) && StrictlySortedBy(chords, ChordAt)
    ensures AllShowLyrics(PlaceLyrics(slots, chords, lyrics), page, chords, lyrics)
    ensures InTimeOrder(page) && NeighboursSeparate(page) && HasLineSlots(page, slots)
  {
    if slots == [] {
      page := [];
    } else {
      var init, slot := slots[..|slots| - 1], slots[|slots| - 1];
      assert slots == init + [slot] && slot in slots;
      var before := LyricRowsAreLaid(init, chords, lyrics);
      var rows := PlaceLyrics(init, chords, lyrics);
      assert forall i :: 0 <= i < |before| ==> ShowsLyrics(rows[i], before[i], chords, lyrics);
      LinesComeBefore(before, slots);
      match slot {
        case Holder(lo, hi, line) =>
          page := before + [OfLine(line)];
          LineIsAdded(rows, before, line, chords, lyrics);
          OneMoreRow(before, OfLine(line), line.startSample);
        case Loose(at, chord) =>
          page := ChordIsAdded(rows, before, chord, chords, lyrics);
      }
      SlotIsAdded(before, page, init, slot);
    }
  }

  lemma LineIsAdded(rows: seq<Row>, page: seq<Placed>, line: TimedLine, chords: seq<TimedChord>, lyrics: Lyrics)
    requires AllShowLyrics(rows, page, chords, lyrics) && StrictlySortedBy(chords, ChordAt)
    ensures var own := Within(chords, ChordAt, line.startSample, line.endSample);
            AllShowLyrics(rows + [RowOf(line, own, lyrics)], page + [OfLine(line)], chords, lyrics)
  {
    var own := Within(chords, ChordAt, line.startSample, line.endSample);
    WithinIsSorted(chords, ChordAt, line.startSample, line.endSample);
    forall chord: TimedChord
      ensures chord in own <==> chord in chords && SoundsIn(chord, line)
    {
      WithinKeeps(chords, ChordAt, line.startSample, line.endSample, chord);
    }
    assert AreThose(own, chords, line);
  }

  ghost function WithChord(page: seq<Placed>, chord: TimedChord): seq<Placed> {
    if page != [] && page[|page| - 1].OfChords? then page[..|page| - 1] + [OfChords(page[|page| - 1].chords + [chord])]
    else page + [OfChords([chord])]
  }

  lemma WithChordIsOrdered(page: seq<Placed>, chord: TimedChord)
    requires InTimeOrder(page) && NeighboursSeparate(page) && AllBefore(page, chord.startSample)
    ensures InTimeOrder(WithChord(page, chord)) && NeighboursSeparate(WithChord(page, chord))
  {
    if page != [] && page[|page| - 1].OfChords? {
      assert |page| > 1 ==> Separate(page[|page| - 2], page[|page| - 1]);
      LastRowGrows(page, OfChords(page[|page| - 1].chords + [chord]), chord.startSample);
    } else {
      OneMoreRow(page, OfChords([chord]), chord.startSample);
    }
  }

  lemma ChordIsAdded(rows: seq<Row>, page: seq<Placed>, chord: TimedChord, chords: seq<TimedChord>, lyrics: Lyrics)
    returns (after: seq<Placed>)
    requires AllShowLyrics(rows, page, chords, lyrics)
    requires InTimeOrder(page) && NeighboursSeparate(page) && AllBefore(page, chord.startSample)
    ensures after == WithChord(page, chord)
    ensures AllShowLyrics(AddChord(rows, chord.cell), after, chords, lyrics)
    ensures InTimeOrder(after) && NeighboursSeparate(after)
  {
    after := WithChord(page, chord);
    WithChordIsOrdered(page, chord);
    var n := |page| - 1;
    if rows != [] {
      assert ShowsLyrics(rows[n], page[n], chords, lyrics);
    }
    if page != [] && page[n].OfChords? {
      CellsConcat(page[n].chords, [chord]);
    }
    assert Cells([chord]) == [chord.cell];
  }

  lemma ChordsRowGrows(page: seq<Placed>, chord: TimedChord, other: TimedChord)
    ensures OnChordsRow(WithChord(page, chord), other) <==> OnChordsRow(page, other) || other == chord
  {
    var after, n := WithChord(page, chord), |page| - 1;
    if OnChordsRow(page, other) {
      var i :| 0 <= i < |page| && page[i].OfChords? && other in page[i].chords;
      assert after[i].OfChords? && other in after[i].chords;
    }
    if other == chord {
      var i := |after| - 1;
      assert after[i].OfChords? && other in after[i].chords;
    }
    if OnChordsRow(after, other) {
      var i :| 0 <= i < |after| && after[i].OfChords? && other in after[i].chords;
      if other != chord {
        assert i < |page| && page[i].OfChords? && other in page[i].chords;
      }
    }
  }

  lemma ElsewhereUnchanged(page: seq<Placed>, chord: TimedChord, placed: Placed)
    requires !placed.OfChords?
    ensures placed in WithChord(page, chord) <==> placed in page
  {
    if page != [] {
      assert page == page[..|page| - 1] + [page[|page| - 1]];
    }
  }

  lemma NoMoreChords(page: seq<Placed>, placed: Placed, other: TimedChord)
    requires !placed.OfChords?
    ensures OnChordsRow(page + [placed], other) <==> OnChordsRow(page, other)
  {
    var after := page + [placed];
    assert forall i :: 0 <= i < |page| ==> after[i] == page[i];
  }

  lemma SlotIsAdded(page: seq<Placed>, after: seq<Placed>, slots: seq<LineSlot>, slot: LineSlot)
    requires HasLineSlots(page, slots) && ProperLineSlot(slot)
    requires after == if slot.Holder? then page + [OfLine(slot.holder)] else WithChord(page, slot.item)
    ensures HasLineSlots(after, slots + [slot])
  {
    forall line: TimedLine
      ensures OfLine(line) in after <==>
              Holder(line.startSample as int, line.endSample as int, line) in slots + [slot]
    {
      if slot.Loose? {
        ElsewhereUnchanged(page, slot.item, OfLine(line));
      }
    }
    forall chord: TimedChord
      ensures OnChordsRow(after, chord) <==> Loose(chord.startSample as int, chord) in slots + [slot]
    {
      if slot.Loose? {
        ChordsRowGrows(page, slot.item, chord);
      } else {
        NoMoreChords(page, OfLine(slot.holder), chord);
      }
    }
  }

  /**
   A section with lyrics, row by row: every line of it, and the chords outside of lines, in rows of their own, in
   time order; chords outside of lines share a row exactly as long as no line comes between them.
  */
  ghost predicate LaidOutAroundLyrics(rows: seq<Row>, page: seq<Placed>, lines: seq<TimedLine>,
                                      chords: seq<TimedChord>, lyrics: Lyrics)
  {
    && AllShowLyrics(rows, page, chords, lyrics) && InTimeOrder(page) && NeighboursSeparate(page)
    && (forall line :: OfLine(line) in page <==> line in lines)
    && (forall chord :: OnChordsRow(page, chord) <==>
                        chord in chords && forall line :: line in lines ==> !SoundsIn(chord, line))
  }

  lemma LyricSectionIsLaidOut(lines: seq<TimedLine>, chords: seq<TimedChord>, lyrics: Lyrics)
    returns (page: seq<Placed>)
    requires LinesInOrder(lines) && StrictlySortedBy(chords, ChordAt)
    ensures LaidOutAroundLyrics(PlaceLyrics(ArrangeLines(lines, chords), chords, lyrics), page, lines, chords, lyrics)
  {
    var holders, slots := LineHolders(lines), ArrangeLines(lines, chords);
    LineHoldersDisjoint(lines);
    ArrangeIsSorted(chords, ChordAt, holders);
    forall slot | slot in slots
      ensures ProperLineSlot(slot)
    {
      ArrangeMembers(chords, ChordAt, holders, slot);
      LeftoverKeeps(chords, ChordAt, holders, slot);
    }
    page := LyricRowsAreLaid(slots, chords, lyrics);
    forall line: TimedLine
      ensures Holder(line.startSample as int, line.endSample as int, line) in slots <==> line in lines
    {
      LineHasASlot(lines, chords, line);
    }
    forall chord: TimedChord
      ensures Loose(chord.startSample as int, chord) in slots
              <==> chord in chords && forall line :: line in lines ==> !SoundsIn(chord, line)
    {
      ChordHasASlot(lines, chords, chord);
    }
  }

  lemma LineHasASlot(lines: seq<TimedLine>, chords: seq<TimedChord>, line: TimedLine)
    ensures Holder(line.startSample as int, line.endSample as int, line) in ArrangeLines(lines, chords)
            <==> line in lines
  {
    var holders := LineHolders(lines);
    var slot: LineSlot := Holder(line.startSample as int, line.endSample as int, line);
    ArrangeMembers(chords, ChordAt, holders, slot);
    LeftoverKeeps(chords, ChordAt, holders, slot);
    if line in lines {
      var k :| 0 <= k < |lines| && lines[k] == line;
      assert holders[k] == slot;
    }
  }

  lemma ChordHasASlot(lines: seq<TimedLine>, chords: seq<TimedChord>, chord: TimedChord)
    ensures Loose(chord.startSample as int, chord) in ArrangeLines(lines, chords)
            <==> chord in chords && forall line :: line in lines ==> !SoundsIn(chord, line)
  {
    var holders := LineHolders(lines);
    var slot: LineSlot := Loose(chord.startSample as int, chord);
    ArrangeMembers(chords, ChordAt, holders, slot);
    LeftoverKeeps(chords, ChordAt, holders, slot);
    assert forall k :: 0 <= k < |lines| ==> (Covers(holders[k], chord.startSample) <==> SoundsIn(chord, lines[k]));
    if forall line :: line in lines ==> !SoundsIn(chord, line) {
      assert forall k :: 0 <= k < |lines| ==> !Covers(holders[k], chord.startSample);
    }
    if Uncovered(holders, chord.startSample) {
      forall line | line in lines
        ensures !SoundsIn(chord, line)
      {
        var k :| 0 <= k < |lines| && lines[k] == line;
        assert !Covers(holders[k], chord.startSample);
      }
    }
  }

  // ----- sections without lyrics

  /** A chord begins from a beat to the next: from the start of the bar for the first, to its end for the last. */
  ghost predicate SoundsOnBeat(chord: TimedChord, bar: Bar, beat: nat)
    requires beat < |bar.beats|
  {
    && (if beat == 0 then bar.startSample else bar.beats[beat].atSample) <= chord.startSample
    && chord.startSample < if beat == |bar.beats| - 1 then bar.endSample else bar.beats[beat + 1].atSample
  }

  ghost predicate AreOnBeat(own: seq<TimedChord>, chords: seq<TimedChord>, bar: Bar, beat: nat)
    requires beat < |bar.beats|
  {
    StrictlySortedBy(own, ChordAt)
      && forall chord :: chord in own <==> chord in chords && SoundsOnBeat(chord, bar, beat)
  }

  ghost predicate ShowsBeat(cells: seq<ChordCell>, chords: seq<TimedChord>, bar: Bar, beat: nat)
    requires beat < |bar.beats|
  {
    exists own :: AreOnBeat(own, chords, bar, beat) && cells == Cells(own)
  }

  /** A bar on the grid has a cell for every beat, with the chords that begin on it. */
  ghost predicate ShowsBar(gridBar: GridBar, bar: Bar, chords: seq<TimedChord>) {
    && |gridBar.beats| == |bar.beats|
    && forall beat :: 0 <= beat < |bar.beats| ==> ShowsBeat(gridBar.beats[beat], chords, bar, beat)
  }

  lemma BeatCellsShowBeats(bar: Bar, chords: seq<TimedChord>)
    requires StrictlySortedBy(chords, ChordAt)
    ensures ShowsBar(GridBar(BeatCells(bar, chords)), bar, chords)
  {
    forall beat | 0 <= beat < |bar.beats|
      ensures ShowsBeat(BeatCells(bar, chords)[beat], chords, bar, beat)
    {
      var lo, hi := BeatStart(bar, beat), BeatEnd(bar, beat);
      var own := Within(chords, ChordAt, lo, hi);
      WithinIsSorted(chords, ChordAt, lo, hi);
      forall chord
        ensures chord in own <==> chord in chords && SoundsOnBeat(chord, bar, beat)
      {
        WithinKeeps(chords, ChordAt, lo, hi, chord);
      }
      assert AreOnBeat(own, chords, bar, beat);
    }
  }

  /** A row of bars has one meter. */
  ghost predicate ShowsGrid(row: Row, placed: Placed, chords: seq<TimedChord>) {
    match placed
    case OfLine(_) => false
    case OfChords(loose) => loose != [] && row == ChordsRow(Cells(loose))
    case OfBars(bars) =>
      && bars != [] && row.GridRow? && |row.bars| == |bars|
      && (forall k :: 0 <= k < |bars| ==> bars[k].meter == bars[0].meter)
      && (forall k :: 0 <= k < |bars| ==> ShowsBar(row.bars[k], bars[k], chords))
  }

  ghost predicate AllShowGrid(rows: seq<Row>, page: seq<Placed>, chords: seq<TimedChord>) {
    |rows| == |page| && forall i :: 0 <= i < |rows| ==> ShowsGrid(rows[i], page[i], chords)
  }

  ghost predicate OnBarsRow(page: seq<Placed>, bar: Bar) {
    exists i :: 0 <= i < |page| && page[i].OfBars? && bar in page[i].bars
  }

  ghost predicate HasBarSlots(page: seq<Placed>, slots: seq<BarSlot>) {
    && (forall bar :: OnBarsRow(page, bar) <==> Holder(bar.startSample as int, bar.endSample as int, bar) in slots)
    && (forall chord :: OnChordsRow(page, chord) <==> Loose(chord.startSample as int, chord) in slots)
  }

  ghost predicate ProperBarSlot(slot: BarSlot) {
    match slot
    case Holder(lo, hi, bar) => lo == bar.startSample && hi == bar.endSample
    case Loose(at, chord) => at == chord.startSample
  }

  ghost predicate ProperBarSlots(slots: seq<BarSlot>) {
    StrictlySortedBy(slots, SlotAt<Bar, TimedChord>) && forall slot :: slot in slots ==> ProperBarSlot(slot)
  }

  lemma BarsComeBefore(page: seq<Placed>, slots: seq<BarSlot>)
    requires slots != [] && ProperBarSlots(slots) && HasBarSlots(page, slots[..|slots| - 1])
    requires forall i :: 0 <= i < |page| ==> !page[i].OfLine?
    ensures AllBefore(page, SlotAt(slots[|slots| - 1]))
  {
    forall i, s | 0 <= i < |page| && BeginsAt(page[i], s)
      ensures s < SlotAt(slots[|slots| - 1])
    {
      var slot: BarSlot;
      match page[i] {
        case OfBars(bars) =>
          var bar :| bar in bars && s == bar.startSample;
          assert OnBarsRow(page, bar);
          slot := Holder(bar.startSample as int, bar.endSample as int, bar);
        case OfChords(chords) =>
          var chord :| chord in chords && s == chord.startSample;
          assert OnChordsRow(page, chord);
          slot := Loose(chord.startSample as int, chord);
      }
      assert slot in slots[..|slots| - 1];
      LastIsLatest(slots, SlotAt<Bar, TimedChord>, slot);
    }
  }

  /** The meter that is kept is that of the bars in the last row, if it has bars. */
  ghost predicate KeepsMeter(page: seq<Placed>, previousMeter: Option<Meter>) {
    page != [] && page[|page| - 1].OfBars? && page[|page| - 1].bars != [] ==>
      previousMeter == Some(page[|page| - 1].bars[|page[|page| - 1].bars| - 1].meter)
  }

  ghost function WithBar(page: seq<Placed>, bar: Bar): seq<Placed> {
    if page != [] && page[|page| - 1].OfBars? && page[|page| - 1].bars != []
       && page[|page| - 1].bars[|page[|page| - 1].bars| - 1].meter == bar.meter
    then page[..|page| - 1] + [OfBars(page[|page| - 1].bars + [bar])]
    else page + [OfBars([bar])]
  }

  lemma WithBarIsOrdered(page: seq<Placed>, bar: Bar)
    requires InTimeOrder(page) && NeighboursSeparate(page) && AllBefore(page, bar.startSample)
    ensures InTimeOrder(WithBar(page, bar)) && NeighboursSeparate(WithBar(page, bar))
  {
    if |WithBar(page, bar)| == |page| {
      assert |page| > 1 ==> Separate(page[|page| - 2], page[|page| - 1]);
      LastRowGrows(page, OfBars(page[|page| - 1].bars + [bar]), bar.startSample);
    } else {
      OneMoreRow(page, OfBars([bar]), bar.startSample);
    }
  }

  lemma BarIsAdded(grid: Grid, page: seq<Placed>, slot: BarSlot, chords: seq<TimedChord>) returns (after: seq<Placed>)
    requires AllShowGrid(grid.rows, page, chords) && KeepsMeter(page, grid.previousMeter) && slot.Holder?
    requires InTimeOrder(page) && NeighboursSeparate(page) && AllBefore(page, slot.holder.startSample)
    requires StrictlySortedBy(chords, ChordAt)
    ensures after == WithBar(page, slot.holder)
    ensures AllShowGrid(PlaceOnGrid(grid, slot, chords).rows, after, chords)
    ensures KeepsMeter(after, PlaceOnGrid(grid, slot, chords).previousMeter)
    ensures InTimeOrder(after) && NeighboursSeparate(after)
  {
    var bar, n := slot.holder, |page| - 1;
    after := WithBar(page, bar);
    WithBarIsOrdered(page, bar);
    BeatCellsShowBeats(bar, chords);
    if page != [] {
      assert ShowsGrid(grid.rows[n], page[n], chords);
    }
  }

  lemma ChordIsAddedToGrid(rows: seq<Row>, page: seq<Placed>, chord: TimedChord, chords: seq<TimedChord>)
    returns (after: seq<Placed>)
    requires AllShowGrid(rows, page, chords)
    requires InTimeOrder(page) && NeighboursSeparate(page) && AllBefore(page, chord.startSample)
    ensures after == WithChord(page, chord)
    ensures AllShowGrid(AddChord(rows, chord.cell), after, chords)
    ensures InTimeOrder(after) && NeighboursSeparate(after)
  {
    after := WithChord(page, chord);
    WithChordIsOrdered(page, chord);
    var n := |page| - 1;
    if rows != [] {
      assert ShowsGrid(rows[n], page[n], chords);
    }
    if page != [] && page[n].OfChords? {
      CellsConcat(page[n].chords, [chord]);
    }
    assert Cells([chord]) == [chord.cell];
  }

  lemma BarsRowGrows(page: seq<Placed>, bar: Bar, other: Bar)
    ensures OnBarsRow(WithBar(page, bar), other) <==> OnBarsRow(page, other) || other == bar
  {
    var after, n := WithBar(page, bar), |page| - 1;
    if OnBarsRow(page, other) {
      var i :| 0 <= i < |page| && page[i].OfBars? && other in page[i].bars;
      assert after[i].OfBars? && other in after[i].bars;
    }
    if other == bar {
      var i := |after| - 1;
      assert after[i].OfBars? && other in after[i].bars;
    }
    if OnBarsRow(after, other) {
      var i :| 0 <= i < |after| && after[i].OfBars? && other in after[i].bars;
      if other != bar {
        assert i < |page| && page[i].OfBars? && other in page[i].bars;
      }
    }
  }

  lemma BarsKeepChords(page: seq<Placed>, bar: Bar, chord: TimedChord)
    ensures OnChordsRow(WithBar(page, bar), chord) <==> OnChordsRow(page, chord)
  {
    var after := WithBar(page, bar);
    if OnChordsRow(page, chord) {
      var i :| 0 <= i < |page| && page[i].OfChords? && chord in page[i].chords;
      assert after[i] == page[i];
    }
    if OnChordsRow(after, chord) {
      var i :| 0 <= i < |after| && after[i].OfChords? && chord in after[i].chords;
      assert after[i] == page[i];
    }
  }

  lemma ChordsKeepBars(page: seq<Placed>, chord: TimedChord, bar: Bar)
    ensures OnBarsRow(WithChord(page, chord), bar) <==> OnBarsRow(page, bar)
  {
    var after := WithChord(page, chord);
    if OnBarsRow(page, bar) {
      var i :| 0 <= i < |page| && page[i].OfBars? && bar in page[i].bars;
      assert after[i] == page[i];
    }
    if OnBarsRow(after, bar) {
      var i :| 0 <= i < |after| && after[i].OfBars? && bar in after[i].bars;
      assert after[i] == page[i];
    }
  }

  lemma BarSlotIsAdded(page: seq<Placed>, after: seq<Placed>, slots: seq<BarSlot>, slot: BarSlot)
    requires HasBarSlots(page, slots) && ProperBarSlot(slot)
    requires after == if slot.Holder? then WithBar(page, slot.holder) else WithChord(page, slot.item)
    ensures HasBarSlots(after, slots + [slot])
  {
    forall bar: Bar
      ensures OnBarsRow(after, bar) <==>
              Holder(bar.startSample as int, bar.endSample as int, bar) in slots + [slot]
    {
      if slot.Holder? {
        BarsRowGrows(page, slot.holder, bar);
      } else {
        ChordsKeepBars(page, slot.item, bar);
      }
    }
    forall chord: TimedChord
      ensures OnChordsRow(after, chord) <==> Loose(chord.startSample as int, chord) in slots + [slot]
    {
      if slot.Holder? {
        BarsKeepChords(page, slot.holder, chord);
      } else {
        ChordsRowGrows(page, slot.item, chord);
      }
    }
  }

  lemma {:induction false} GridRowsAreLaid(slots: seq<BarSlot>, chords: seq<TimedChord>) returns (page: seq<Placed>)
    requires ProperBarSlots(slots) && StrictlySortedBy(chords, ChordAt)
    ensures AllShowGrid(PlaceGrid(slots, chords).rows, page, chords)
    ensures KeepsMeter(page, PlaceGrid(slots, chords).previousMeter)
    ensures InTimeOrder(page) && NeighboursSeparate(page) && HasBarSlots(page, slots)
  {
    if slots == [] {
      page := [];
    } else {
      var init, slot := slots[..|slots| - 1], slots[|slots| - 1];
      assert slots == init + [slot] && slot in slots;
      var before := GridRowsAreLaid(init, chords);
      var grid := PlaceGrid(init, chords);
      assert forall i :: 0 <= i < |before| ==> ShowsGrid(grid.rows[i], before[i], chords);
      BarsComeBefore(before, slots);
      if slot.Holder? {
        page := BarIsAdded(grid, before, slot, chords);
      } else {
        page := ChordIsAddedToGrid(grid.rows, before, slot.item, chords);
      }
      BarSlotIsAdded(before, page, init, slot);
    }
  }

  ghost predicate InBar(chord: TimedChord, bar: Bar) { bar.startSample <= chord.startSample < bar.endSample }

  /**
   A section without lyrics, row by row: the bars that begin in it with their beats, and the chords outside of these
   bars, in time order; bars share a row exactly as long as they have one meter and nothing comes between them.
  */
  ghost predicate LaidOutAsGrid(rows: seq<Row>, page: seq<Placed>, bars: seq<Bar>, region: SectionRegion,
                                chords: seq<TimedChord>)
  {
    && AllShowGrid(rows, page, chords) && InTimeOrder(page) && NeighboursSeparate(page)
    && (forall bar :: OnBarsRow(page, bar) <==>
                      bar in bars && region.startSample <= bar.startSample < region.endSample)
    && (forall chord :: OnChordsRow(page, chord) <==>
                        && chord in chords
                        && forall bar :: bar in bars && region.startSample <= bar.startSample < region.endSample ==>
                                           !InBar(chord, bar))
  }

  lemma GridSectionIsLaidOut(bars: seq<Bar>, region: SectionRegion, chords: seq<TimedChord>)
    returns (page: seq<Placed>)
    requires BarsInOrder(BarsWithin(bars, region)) && StrictlySortedBy(chords, ChordAt)
    ensures LaidOutAsGrid(PlaceGrid(ArrangeBars(BarsWithin(bars, region), chords), chords).rows, page, bars, region,
                          chords)
  {
    var own := BarsWithin(bars, region);
    var holders, slots := BarHolders(own), ArrangeBars(own, chords);
    BarHoldersDisjoint(own);
    ArrangeIsSorted(chords, ChordAt, holders);
    forall slot | slot in slots
      ensures ProperBarSlot(slot)
    {
      ArrangeMembers(chords, ChordAt, holders, slot);
      LeftoverKeeps(chords, ChordAt, holders, slot);
    }
    page := GridRowsAreLaid(slots, chords);
    forall bar: Bar
      ensures bar in own <==> bar in bars && region.startSample <= bar.startSample < region.endSample
    {
      WithinKeeps(bars, BarAt, region.startSample, region.endSample, bar);
    }
    forall bar: Bar
      ensures Holder(bar.startSample as int, bar.endSample as int, bar) in slots <==> bar in own
    {
      BarHasASlot(own, chords, bar);
    }
    forall chord: TimedChord
      ensures Loose(chord.startSample as int, chord) in slots
              <==> chord in chords && forall bar :: bar in own ==> !InBar(chord, bar)
    {
      ChordOutsideBarsHasASlot(own, chords, chord);
    }
  }

  lemma BarHasASlot(bars: seq<Bar>, chords: seq<TimedChord>, bar: Bar)
    ensures Holder(bar.startSample as int, bar.endSample as int, bar) in ArrangeBars(bars, chords) <==> bar in bars
  {
    var holders := BarHolders(bars);
    var slot: BarSlot := Holder(bar.startSample as int, bar.endSample as int, bar);
    ArrangeMembers(chords, ChordAt, holders, slot);
    LeftoverKeeps(chords, ChordAt, holders, slot);
    if bar in bars {
      var k :| 0 <= k < |bars| && bars[k] == bar;
      assert holders[k] == slot;
    }
  }

  lemma ChordOutsideBarsHasASlot(bars: seq<Bar>, chords: seq<TimedChord>, chord: TimedChord)
    ensures Loose(chord.startSample as int, chord) in ArrangeBars(bars, chords)
            <==> chord in chords && forall bar :: bar in bars ==> !InBar(chord, bar)
  {
    var holders := BarHolders(bars);
    var slot: BarSlot := Loose(chord.startSample as int, chord);
    ArrangeMembers(chords, ChordAt, holders, slot);
    LeftoverKeeps(chords, ChordAt, holders, slot);
    assert forall k :: 0 <= k < |bars| ==> (Covers(holders[k], chord.startSample) <==> InBar(chord, bars[k]));
    if forall bar :: bar in bars ==> !InBar(chord, bar) {
      assert forall k :: 0 <= k < |bars| ==> !Covers(holders[k], chord.startSample);
    }
    if Uncovered(holders, chord.startSample) {
      forall bar | bar in bars
        ensures !InBar(chord, bar)
      {
        var k :| 0 <= k < |bars| && bars[k] == bar;
        assert !Covers(holders[k], chord.startSample);
      }
    }
  }
}
