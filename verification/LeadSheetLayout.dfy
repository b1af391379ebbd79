/** How the rows of one section are laid out: around its lyric lines, or as a grid of its bars. */
module LeadSheetLayout {
  import opened Wrappers
  import opened Sequences
  import opened Schema
  import opened Invariants
  import opened TimeOrder
  import opened LeadSheetRows

  type LineSlot = Slot<TimedLine, TimedChord>
  type BarSlot = Slot<Bar, TimedChord>

  // ----- sections with lyrics

  function LineHolders(lines: seq<TimedLine>): (r: seq<LineSlot>)
    ensures |r| == |lines| && forall i :: 0 <= i < |r| ==>
                                r[i] == Holder(lines[i].startSample, lines[i].endSample, lines[i])
  {
    seq(|lines|, i requires 0 <= i < |lines| => Holder(lines[i].startSample, lines[i].endSample, lines[i]))
  }

  /** Lines with ids of their own, in order and without overlap. */
  ghost predicate LinesInOrder(lines: seq<TimedLine>) {
    && (forall i :: 0 <= i < |lines| ==> lines[i].startSample < lines[i].endSample)
    && (forall i, j :: 0 <= i < j < |lines| ==> lines[i].endSample <= lines[j].startSample)
    && (forall i, j :: 0 <= i < j < |lines| ==> lines[i].record.id != lines[j].record.id)
  }

  function PlaceLyric(rows: seq<Row>, slot: LineSlot, chords: seq<TimedChord>, lyrics: Lyrics): seq<Row> {
    match slot
    case Holder(lo, hi, line) => rows + [RowOf(line, Within(chords, ChordAt, lo, hi), lyrics)]
    case Loose(_, chord) => AddChord(rows, chord.cell)
  }

  function PlaceLyrics(slots: seq<LineSlot>, chords: seq<TimedChord>, lyrics: Lyrics): seq<Row> {
    if slots == [] then []
    else PlaceLyric(PlaceLyrics(slots[..|slots| - 1], chords, lyrics), slots[|slots| - 1], chords, lyrics)
  }

  function LinesOf(slots: seq<LineSlot>): seq<LyricsLine> {
    if slots == [] then []
    else LinesOf(slots[..|slots| - 1]) + if slots[|slots| - 1].Holder? then [slots[|slots| - 1].holder.record] else []
  }

  function ShowAll(document: LyricsDocument, lines: seq<LyricsLine>): (r: seq<Shown>)
    ensures |r| == |lines| && forall i :: 0 <= i < |r| ==> r[i] == Show(document, lines[i])
  {
    seq(|lines|, i requires 0 <= i < |lines| => Show(document, lines[i]))
  }

  lemma PlaceLineKeeps(rows: seq<Row>, line: TimedLine, chords: seq<TimedChord>, lyrics: Lyrics)
    ensures var after := rows + [RowOf(line, chords, lyrics)];
            && ReadRows(after) == ReadRows(rows) + Cells(chords)
            && ReadLyrics(after) == ReadLyrics(rows) + [Show(lyrics.document, line.record)]
  {
    RowKeeps(line, chords, lyrics);
    ReadSnoc(rows, RowOf(line, chords, lyrics));
  }

  lemma PlaceLooseKeeps(rows: seq<Row>, chord: TimedChord)
    ensures ReadRows(AddChord(rows, chord.cell)) == ReadRows(rows) + Cells([chord])
    ensures ReadLyrics(AddChord(rows, chord.cell)) == ReadLyrics(rows) + []
  {
    AddChordKeeps(rows, chord.cell);
    assert Cells([chord]) == [chord.cell];
  }

  lemma PlaceLyricKeeps(rows: seq<Row>, slot: LineSlot, chords: seq<TimedChord>, lyrics: Lyrics)
    ensures ReadRows(PlaceLyric(rows, slot, chords, lyrics))
            == ReadRows(rows) + Cells(BlockOf(slot, chords, ChordAt).items)
    ensures ReadLyrics(PlaceLyric(rows, slot, chords, lyrics))
            == ReadLyrics(rows) + if slot.Holder? then [Show(lyrics.document, slot.holder.record)] else []
  {
    match slot {
      case Holder(lo, hi, line) => PlaceLineKeeps(rows, line, Within(chords, ChordAt, lo, hi), lyrics);
      case Loose(_, chord) => PlaceLooseKeeps(rows, chord);
    }
  }

  lemma FlattenInit<H>(slots: seq<Slot<H, TimedChord>>, chords: seq<TimedChord>)
    requires slots != []
    ensures Cells(Flatten(Blocks(slots, chords, ChordAt)))
            == Cells(Flatten(Blocks(slots[..|slots| - 1], chords, ChordAt)))
              + Cells(BlockOf(slots[|slots| - 1], chords, ChordAt).items)
  {
    var init, blocks := slots[..|slots| - 1], Blocks(slots, chords, ChordAt);
    assert blocks[..|blocks| - 1] == Blocks(init, chords, ChordAt);
    CellsConcat(Flatten(Blocks(init, chords, ChordAt)), BlockOf(slots[|slots| - 1], chords, ChordAt).items);
  }

  lemma {:induction false} PlacingKeepsChords(slots: seq<LineSlot>, chords: seq<TimedChord>, lyrics: Lyrics)
    ensures ReadRows(PlaceLyrics(slots, chords, lyrics)) == Cells(Flatten(Blocks(slots, chords, ChordAt)))
  {
    if slots != [] {
      var init, last := slots[..|slots| - 1], slots[|slots| - 1];
      PlacingKeepsChords(init, chords, lyrics);
      PlaceLyricKeeps(PlaceLyrics(init, chords, lyrics), last, chords, lyrics);
      FlattenInit(slots, chords);
    }
  }

  lemma {:induction false} PlacingKeepsLines(slots: seq<LineSlot>, chords: seq<TimedChord>, lyrics: Lyrics)
    ensures ReadLyrics(PlaceLyrics(slots, chords, lyrics)) == ShowAll(lyrics.document, LinesOf(slots))
  {
    if slots != [] {
      var init, last := slots[..|slots| - 1], slots[|slots| - 1];
      PlacingKeepsLines(init, chords, lyrics);
      PlaceLyricKeeps(PlaceLyrics(init, chords, lyrics), last, chords, lyrics);
    }
  }

  lemma {:induction false} LinesAreHolders(slots: seq<LineSlot>)
    ensures |LinesOf(slots)| == |HoldersOf(slots)|
    ensures forall i :: 0 <= i < |LinesOf(slots)| ==>
              HoldersOf(slots)[i].Holder? && LinesOf(slots)[i] == HoldersOf(slots)[i].holder.record
  {
    if slots != [] {
      LinesAreHolders(slots[..|slots| - 1]);
    }
  }

  function RecordsOf(lines: seq<TimedLine>): (r: seq<LyricsLine>)
    ensures |r| == |lines| && forall i :: 0 <= i < |r| ==> r[i] == lines[i].record
  {
    seq(|lines|, i requires 0 <= i < |lines| => lines[i].record)
  }

  function ArrangeLines(lines: seq<TimedLine>, chords: seq<TimedChord>): seq<LineSlot> {
    Arrange(chords, ChordAt, LineHolders(lines))
  }

  /** A lyric section shows all its chords, each once and in order. */
  lemma LyricSectionKeepsChords(lines: seq<TimedLine>, chords: seq<TimedChord>, lyrics: Lyrics)
    requires LinesInOrder(lines) && StrictlySortedBy(chords, ChordAt)
    ensures ReadRows(PlaceLyrics(ArrangeLines(lines, chords), chords, lyrics)) == Cells(chords)
  {
    PlacingKeepsChords(ArrangeLines(lines, chords), chords, lyrics);
    LineHoldersDisjoint(lines);
    ArrangementKeepsItems(chords, ChordAt, LineHolders(lines));
  }

  /** A lyric section shows all its lines, each once and in order. */
  lemma LyricSectionKeepsLines(lines: seq<TimedLine>, chords: seq<TimedChord>, lyrics: Lyrics)
    requires LinesInOrder(lines) && StrictlySortedBy(chords, ChordAt)
    ensures ReadLyrics(PlaceLyrics(ArrangeLines(lines, chords), chords, lyrics))
            == ShowAll(lyrics.document, RecordsOf(lines))
  {
    var slots := ArrangeLines(lines, chords);
    PlacingKeepsLines(slots, chords, lyrics);
    LineHoldersDisjoint(lines);
    ArrangementKeepsHolders(chords, ChordAt, LineHolders(lines));
    LinesAreHolders(slots);
    assert LinesOf(slots) == RecordsOf(lines);
  }

  lemma LineHoldersDisjoint(lines: seq<TimedLine>)
    requires LinesInOrder(lines)
    ensures Disjoint(LineHolders(lines))
  {
  }

  // ----- giving chords to lines

  function CoveringLine(lines: seq<TimedLine>, at: nat): (index: int)
    ensures -1 <= index < |lines|
    ensures index >= 0 ==> lines[index].startSample <= at < lines[index].endSample
    ensures index < 0 ==> forall i :: 0 <= i < |lines| ==> !(lines[i].startSample <= at < lines[i].endSample)
  {
    if lines == [] then -1
    else if lines[0].startSample <= at < lines[0].endSample then 0
    else
      var rest := CoveringLine(lines[1..], at);
      assert rest < 0 ==> forall i :: 1 <= i < |lines| ==> lines[i] == lines[1..][i - 1];
      if rest < 0 then -1 else rest + 1
  }

  ghost predicate Gathered(anchored: map<Id, seq<TimedChord>>, lines: seq<TimedLine>, chords: seq<TimedChord>) {
    forall k :: 0 <= k < |lines| ==>
      && lines[k].record.id in anchored
      && anchored[lines[k].record.id] == Within(chords, ChordAt, lines[k].startSample, lines[k].endSample)
  }

  lemma GatherOne(anchored: map<Id, seq<TimedChord>>, lines: seq<TimedLine>, chords: seq<TimedChord>, chord: TimedChord,
                  found: nat)
    requires Gathered(anchored, lines, chords) && LinesInOrder(lines) && found < |lines|
    requires lines[found].startSample <= chord.startSample < lines[found].endSample
    ensures var id := lines[found].record.id; Gathered(anchored[id := anchored[id] + [chord]], lines, chords + [chord])
  {
    var id := lines[found].record.id;
    var after := anchored[id := anchored[id] + [chord]];
    assert (chords + [chord])[..|chords|] == chords;
    forall k | 0 <= k < |lines|
      ensures lines[k].record.id in after
              && after[lines[k].record.id]
                   == Within(chords + [chord], ChordAt, lines[k].startSample, lines[k].endSample)
    {
      assert k < found ==> lines[k].record.id != id;
      assert found < k ==> lines[k].record.id != id;
    }
  }

  lemma GatherNone(anchored: map<Id, seq<TimedChord>>, lines: seq<TimedLine>, chords: seq<TimedChord>,
                   chord: TimedChord)
    requires Gathered(anchored, lines, chords)
    requires forall i :: 0 <= i < |lines| ==> !(lines[i].startSample <= chord.startSample < lines[i].endSample)
    ensures Gathered(anchored, lines, chords + [chord])
  {
    assert (chords + [chord])[..|chords|] == chords;
  }

  lemma LooseOnlyOutside(lines: seq<TimedLine>, chords: seq<TimedChord>, chord: TimedChord)
    ensures Leftover(chords + [chord], ChordAt, LineHolders(lines))
            == Leftover(chords, ChordAt, LineHolders(lines))
               + if CoveringLine(lines, chord.startSample) < 0 then [Loose(chord.startSample, chord)] else []
  {
    assert (chords + [chord])[..|chords|] == chords;
    var holders, found := LineHolders(lines), CoveringLine(lines, chord.startSample);
    if found >= 0 {
      assert Covers(holders[found], chord.startSample);
    }
  }

  /** What is known once the first chords have been given out. */
  ghost predicate GivenOut(anchored: map<Id, seq<TimedChord>>, free: seq<LineSlot>, lines: seq<TimedLine>,
                           chords: seq<TimedChord>) {
    Gathered(anchored, lines, chords) && free == Leftover(chords, ChordAt, LineHolders(lines))
  }

  method AnchorToLines(ordered: seq<TimedLine>, chords: seq<TimedChord>)
    returns (anchored: map<Id, seq<TimedChord>>, free: seq<LineSlot>)
    requires LinesInOrder(ordered)
    ensures GivenOut(anchored, free, ordered, chords)
  {
    anchored := map line | line in ordered :: line.record.id := [];
    free := [];
    for n := 0 to |chords|
      invariant GivenOut(anchored, free, ordered, chords[..n])
    {
      anchored, free := GiveOut(anchored, free, ordered, chords[..n], chords[n]);
      assert chords[..n + 1] == chords[..n] + [chords[n]];
    }
    assert chords[..|chords|] == chords;
  }

  method GiveOut(anchored: map<Id, seq<TimedChord>>, free: seq<LineSlot>, ordered: seq<TimedLine>,
                 ghost before: seq<TimedChord>, chord: TimedChord)
    returns (nowAnchored: map<Id, seq<TimedChord>>, nowFree: seq<LineSlot>)
    requires LinesInOrder(ordered) && GivenOut(anchored, free, ordered, before)
    ensures GivenOut(nowAnchored, nowFree, ordered, before + [chord])
  {
    LooseOnlyOutside(ordered, before, chord);
    var found := CoveringLine(ordered, chord.startSample);
    if found >= 0 {
      GatherOne(anchored, ordered, before, chord, found);
      var id := ordered[found].record.id;
      nowAnchored, nowFree := anchored[id := anchored[id] + [chord]], free;
    } else {
      GatherNone(anchored, ordered, before, chord);
      nowAnchored, nowFree := anchored, free + [Loose(chord.startSample, chord)];
    }
  }

  lemma LinesStaySorted(lines: seq<TimedLine>)
    requires LinesInOrder(lines)
    ensures SortBy(lines, LineAt) == lines
  {
    SortBySorts(lines, LineAt);
    forall i, j | 0 <= i < j < |lines|
      ensures LineAt(lines[i]) < LineAt(lines[j])
    {
      assert lines[i].startSample < lines[i].endSample;
    }
    SortedOrderIsUnique(lines, SortBy(lines, LineAt), LineAt);
  }

  method PlaceLyricSection(lines: seq<TimedLine>, sectionChords: seq<TimedChord>, lyrics: Lyrics)
    returns (placed: seq<Row>)
    requires LinesInOrder(lines)
    ensures placed == PlaceLyrics(ArrangeLines(lines, sectionChords), sectionChords, lyrics)
  {
    var ordered := SortBy(lines, LineAt);
    LinesStaySorted(lines);
    var anchored, free := AnchorToLines(ordered, sectionChords);
    var items := SortBy(LineHolders(ordered) + free, SlotAt<TimedLine, TimedChord>);
    placed := PlaceItems(items, anchored, ordered, sectionChords, lyrics);
  }

  method PlaceItem(placed: seq<Row>, item: LineSlot, anchored: map<Id, seq<TimedChord>>,
                   ghost sectionChords: seq<TimedChord>, lyrics: Lyrics)
    returns (after: seq<Row>)
    requires item.Holder? ==>
               item.holder.record.id in anchored
                 && anchored[item.holder.record.id] == Within(sectionChords, ChordAt, item.lo, item.hi)
    ensures after == PlaceLyric(placed, item, sectionChords, lyrics)
  {
    match item {
      case Holder(_, _, line) =>
        var row := MakeRow(line, anchored[line.record.id], lyrics);
        after := placed + [row];
      case Loose(_, chord) =>
        after := AddChord(placed, chord.cell);
    }
  }

  method PlaceItems(items: seq<LineSlot>, anchored: map<Id, seq<TimedChord>>, ghost ordered: seq<TimedLine>,
                    ghost sectionChords: seq<TimedChord>, lyrics: Lyrics)
    returns (placed: seq<Row>)
    requires items == ArrangeLines(ordered, sectionChords) && Gathered(anchored, ordered, sectionChords)
    ensures placed == PlaceLyrics(items, sectionChords, lyrics)
  {
    placed := [];
    for n := 0 to |items|
      invariant placed == PlaceLyrics(items[..n], sectionChords, lyrics)
    {
      assert items[..n + 1][..n] == items[..n];
      if items[n].Holder? {
        LineHasItsChords(ordered, sectionChords, anchored, items[n]);
      }
      placed := PlaceItem(placed, items[n], anchored, sectionChords, lyrics);
    }
    assert items[..|items|] == items;
  }

  lemma LineHasItsChords(lines: seq<TimedLine>, chords: seq<TimedChord>, anchored: map<Id, seq<TimedChord>>,
                         slot: LineSlot)
    requires slot in ArrangeLines(lines, chords) && slot.Holder? && Gathered(anchored, lines, chords)
    ensures slot.holder.record.id in anchored
    ensures anchored[slot.holder.record.id] == Within(chords, ChordAt, slot.lo, slot.hi)
  {
    ItsOwnLine(lines, chords, slot);
  }

  lemma ItsOwnLine(lines: seq<TimedLine>, chords: seq<TimedChord>, slot: LineSlot)
    requires slot in ArrangeLines(lines, chords) && slot.Holder?
    ensures exists k :: 0 <= k < |lines| && lines[k] == slot.holder && slot.lo == slot.holder.startSample
              && slot.hi == slot.holder.endSample
  {
    var holders := LineHolders(lines);
    ArrangeMembers(chords, ChordAt, holders, slot);
    LeftoverKeeps(chords, ChordAt, holders, slot);
    var k :| 0 <= k < |holders| && holders[k] == slot;
    assert lines[k] == slot.holder;
  }

  // ----- sections without lyrics

  function BarHolders(bars: seq<Bar>): (r: seq<BarSlot>)
    ensures |r| == |bars| && forall i :: 0 <= i < |r| ==>
                               r[i] == Holder(bars[i].startSample, bars[i].endSample, bars[i])
  {
    seq(|bars|, i requires 0 <= i < |bars| => Holder(bars[i].startSample, bars[i].endSample, bars[i]))
  }

  function BeatStart(bar: Bar, index: nat): nat
    requires index < |bar.beats|
  {
    if index == 0 then bar.startSample else bar.beats[index].atSample
  }

  function BeatEnd(bar: Bar, index: nat): nat
    requires index < |bar.beats|
  {
    if index + 1 < |bar.beats| then bar.beats[index + 1].atSample else bar.endSample
  }

  /** The cells of a bar: what sounds from each beat to the next. */
  function BeatCells(bar: Bar, chords: seq<TimedChord>): (r: seq<seq<ChordCell>>)
    ensures |r| == |bar.beats|
    ensures forall i :: 0 <= i < |r| ==> r[i] == Cells(Within(chords, ChordAt, BeatStart(bar, i), BeatEnd(bar, i)))
  {
    seq(|bar.beats|, i requires 0 <= i < |bar.beats| =>
        Cells(Within(chords, ChordAt, BeatStart(bar, i), BeatEnd(bar, i))))
  }

  lemma {:induction false} WithinSplits<T>(items: seq<T>, key: T -> int, lo: int, middle: int, hi: int)
    requires StrictlySortedBy(items, key) && lo <= middle <= hi
    ensures Within(items, key, lo, middle) + Within(items, key, middle, hi) == Within(items, key, lo, hi)
  {
    if items != [] {
      var init, last := items[..|items| - 1], items[|items| - 1];
      WithinSplits(init, key, lo, middle, hi);
      if lo <= key(last) < middle {
        NothingLater(items, key, middle, hi);
      }
      JoinParts(Within(init, key, lo, middle), if lo <= key(last) < middle then [last] else [],
                Within(init, key, middle, hi), if middle <= key(last) < hi then [last] else [],
                Within(init, key, lo, hi));
    }
  }

  lemma JoinParts<T>(a: seq<T>, x: seq<T>, b: seq<T>, y: seq<T>, c: seq<T>)
    requires a + b == c && (x == [] || b + y == [])
    ensures a + x + (b + y) == c + (x + y)
  {
    if x == [] {
      assert a + x == a && x + y == y;
      Associate(a, b, y);
    } else {
      assert b == [] && y == [];
      assert a + x + (b + y) == a + x == c + (x + y);
    }
  }

  lemma NothingLater<T>(items: seq<T>, key: T -> int, middle: int, hi: int)
    requires StrictlySortedBy(items, key) && items != [] && key(items[|items| - 1]) < middle
    ensures Within(items[..|items| - 1], key, middle, hi) == []
  {
    var later := Within(items[..|items| - 1], key, middle, hi);
    if later != [] {
      var x := later[0];
      WithinKeeps(items[..|items| - 1], key, middle, hi, x);
      LastIsLatest(items, key, x);
      assert false;
    }
  }

  lemma CellsSplit(chords: seq<TimedChord>, lo: nat, middle: nat, hi: nat)
    requires StrictlySortedBy(chords, ChordAt) && lo <= middle <= hi
    ensures Cells(Within(chords, ChordAt, lo, middle)) + Cells(Within(chords, ChordAt, middle, hi))
            == Cells(Within(chords, ChordAt, lo, hi))
  {
    WithinSplits(chords, ChordAt, lo, middle, hi);
    CellsConcat(Within(chords, ChordAt, lo, middle), Within(chords, ChordAt, middle, hi));
  }

  /** Each beat of a valid bar starts where the one before it ends. */
  lemma BeatTimes(bar: Bar, index: nat)
    requires ValidBar(bar) && bar.startSample < bar.endSample && index < |bar.beats|
    ensures bar.startSample <= BeatStart(bar, index) <= BeatEnd(bar, index)
    ensures index > 0 ==> BeatStart(bar, index) == BeatEnd(bar, index - 1)
  {
    assert BeatFits(bar, index);
    if index + 1 < |bar.beats| {
      assert BeatFits(bar, index + 1);
    }
  }

  /** Beat cells partition a bar. */
  lemma {:induction false} BeatsPartition(bar: Bar, chords: seq<TimedChord>, n: nat)
    requires StrictlySortedBy(chords, ChordAt)
    requires ValidBar(bar) && bar.startSample < bar.endSample && 0 < n <= |bar.beats|
    ensures Concat(BeatCells(bar, chords)[..n]) == Cells(Within(chords, ChordAt, bar.startSample, BeatEnd(bar, n - 1)))
  {
    BeatTimes(bar, n - 1);
    FirstCells(BeatCells(bar, chords), n);
    if n > 1 {
      BeatsPartition(bar, chords, n - 1);
      CellsSplit(chords, bar.startSample, BeatStart(bar, n - 1), BeatEnd(bar, n - 1));
    }
  }

  lemma FirstCells<T>(cells: seq<seq<T>>, n: nat)
    requires 0 < n <= |cells|
    ensures Concat(cells[..n]) == Concat(cells[..n - 1]) + cells[n - 1]
    ensures n == 1 ==> Concat(cells[..n]) == cells[0]
  {
    assert cells[..n][..n - 1] == cells[..n - 1];
    assert n == 1 ==> Concat(cells[..0]) + cells[0] == cells[0];
  }

  lemma BarKeepsChords(bar: Bar, chords: seq<TimedChord>)
    requires StrictlySortedBy(chords, ChordAt)
    requires ValidBar(bar) && bar.startSample < bar.endSample && bar.beats != []
    ensures Concat(BeatCells(bar, chords)) == Cells(Within(chords, ChordAt, bar.startSample, bar.endSample))
  {
    BeatsPartition(bar, chords, |bar.beats|);
    assert BeatCells(bar, chords)[..|bar.beats|] == BeatCells(bar, chords);
  }

  datatype Grid = Grid(rows: seq<Row>, previousMeter: Option<Meter>)

  /** Bars of one meter share a row until something comes between them. */
  function PlaceOnGrid(grid: Grid, slot: BarSlot, chords: seq<TimedChord>): Grid {
    var rows := grid.rows;
    match slot
    case Holder(_, _, bar) =>
      var gridBar := GridBar(BeatCells(bar, chords));
      if rows != [] && rows[|rows| - 1].GridRow? && grid.previousMeter == Some(bar.meter)
      then Grid(rows[..|rows| - 1] + [GridRow(rows[|rows| - 1].bars + [gridBar])], Some(bar.meter))
      else Grid(rows + [GridRow([gridBar])], Some(bar.meter))
    case Loose(_, chord) => Grid(AddChord(rows, chord.cell), grid.previousMeter)
  }

  function PlaceGrid(slots: seq<BarSlot>, chords: seq<TimedChord>): Grid {
    if slots == [] then Grid([], None)
    else PlaceOnGrid(PlaceGrid(slots[..|slots| - 1], chords), slots[|slots| - 1], chords)
  }

  lemma BarOnGridReads(grid: Grid, slot: BarSlot, chords: seq<TimedChord>)
    requires slot.Holder?
    ensures var after := PlaceOnGrid(grid, slot, chords).rows;
      && ReadRows(after) == ReadRows(grid.rows) + Concat(BeatCells(slot.holder, chords))
      && ReadBars(after) == ReadBars(grid.rows) + [GridBar(BeatCells(slot.holder, chords))]
      && ReadLyrics(after) == ReadLyrics(grid.rows)
  {
    var rows, gridBar := grid.rows, GridBar(BeatCells(slot.holder, chords));
    if |PlaceOnGrid(grid, slot, chords).rows| == |rows| {
      JoinRowReads(rows, gridBar);
    } else {
      NewRowReads(rows, gridBar);
    }
  }

  lemma JoinRowReads(rows: seq<Row>, gridBar: GridBar)
    requires rows != [] && rows[|rows| - 1].GridRow?
    ensures var after := rows[..|rows| - 1] + [GridRow(rows[|rows| - 1].bars + [gridBar])];
      && ReadRows(after) == ReadRows(rows) + Concat(gridBar.beats)
      && ReadBars(after) == ReadBars(rows) + [gridBar]
      && ReadLyrics(after) == ReadLyrics(rows)
  {
    var init, bars := rows[..|rows| - 1], rows[|rows| - 1].bars;
    ReadSnoc(init, GridRow(bars + [gridBar]));
    ReadSnoc(init, GridRow(bars));
    assert rows == init + [GridRow(bars)];
    FlatMapSnoc(bars, gridBar, BarCells);
    assert ReadRows(init) + (FlatMap(bars, BarCells) + BarCells(gridBar))
        == ReadRows(init) + FlatMap(bars, BarCells) + BarCells(gridBar);
    assert ReadBars(init) + (bars + [gridBar]) == ReadBars(init) + bars + [gridBar];
  }

  lemma NewRowReads(rows: seq<Row>, gridBar: GridBar)
    ensures var after := rows + [GridRow([gridBar])];
      && ReadRows(after) == ReadRows(rows) + Concat(gridBar.beats)
      && ReadBars(after) == ReadBars(rows) + [gridBar]
      && ReadLyrics(after) == ReadLyrics(rows)
  {
    ReadSnoc(rows, GridRow([gridBar]));
    FlatMapSnoc([], gridBar, BarCells);
    assert [] + [gridBar] == [gridBar];
  }

  function BarsOf(slots: seq<BarSlot>): seq<Bar> {
    if slots == [] then []
    else BarsOf(slots[..|slots| - 1]) + if slots[|slots| - 1].Holder? then [slots[|slots| - 1].holder] else []
  }

  function GridBars(bars: seq<Bar>, chords: seq<TimedChord>): (r: seq<GridBar>)
    ensures |r| == |bars| && forall i :: 0 <= i < |r| ==> r[i] == GridBar(BeatCells(bars[i], chords))
  {
    seq(|bars|, i requires 0 <= i < |bars| => GridBar(BeatCells(bars[i], chords)))
  }

  lemma GridBarsConcat(a: seq<Bar>, b: seq<Bar>, chords: seq<TimedChord>)
    ensures GridBars(a + b, chords) == GridBars(a, chords) + GridBars(b, chords)
  {
  }

  /** Bars as a timeline has them: proper, in order and without overlap. */
  ghost predicate BarsInOrder(bars: seq<Bar>) {
    && (forall i :: 0 <= i < |bars| ==>
          bars[i].startSample < bars[i].endSample && ValidBar(bars[i]) && bars[i].beats != [])
    && (forall i, j :: 0 <= i < j < |bars| ==> bars[i].endSample <= bars[j].startSample)
  }

  ghost predicate ProperSlot(slot: BarSlot) {
    slot.Holder? ==>
      && slot.lo == slot.holder.startSample < slot.hi == slot.holder.endSample
      && ValidBar(slot.holder) && slot.holder.beats != []
  }

  lemma {:induction false} GridKeepsChords(slots: seq<BarSlot>, chords: seq<TimedChord>)
    requires StrictlySortedBy(chords, ChordAt) && forall slot :: slot in slots ==> ProperSlot(slot)
    ensures ReadRows(PlaceGrid(slots, chords).rows) == Cells(Flatten(Blocks(slots, chords, ChordAt)))
  {
    if slots != [] {
      var init, last := slots[..|slots| - 1], slots[|slots| - 1];
      GridKeepsChords(init, chords);
      assert ProperSlot(last);
      if last.Holder? {
        BarOnGridReads(PlaceGrid(init, chords), last, chords);
        BarKeepsChords(last.holder, chords);
      } else {
        AddChordKeeps(PlaceGrid(init, chords).rows, last.item.cell);
        assert Cells([last.item]) == [last.item.cell];
      }
      FlattenInit(slots, chords);
    }
  }

  lemma OnGridReads(grid: Grid, slot: BarSlot, chords: seq<TimedChord>)
    ensures var after := PlaceOnGrid(grid, slot, chords).rows;
      && ReadBars(after) == ReadBars(grid.rows) + (if slot.Holder? then GridBars([slot.holder], chords) else [])
      && ReadLyrics(after) == ReadLyrics(grid.rows)
  {
    if slot.Holder? {
      BarOnGridReads(grid, slot, chords);
    } else {
      AddChordKeeps(grid.rows, slot.item.cell);
    }
  }

  lemma {:induction false} GridKeepsBars(slots: seq<BarSlot>, chords: seq<TimedChord>)
    ensures ReadBars(PlaceGrid(slots, chords).rows) == GridBars(BarsOf(slots), chords)
    ensures ReadLyrics(PlaceGrid(slots, chords).rows) == []
  {
    if slots != [] {
      var init, slot := slots[..|slots| - 1], slots[|slots| - 1];
      GridKeepsBars(init, chords);
      OnGridReads(PlaceGrid(init, chords), slot, chords);
      GridBarsConcat(BarsOf(init), if slot.Holder? then [slot.holder] else [], chords);
    }
  }

  lemma {:induction false} BarsAreHolders(slots: seq<BarSlot>)
    ensures |BarsOf(slots)| == |HoldersOf(slots)|
    ensures forall i :: 0 <= i < |BarsOf(slots)| ==>
              HoldersOf(slots)[i].Holder? && BarsOf(slots)[i] == HoldersOf(slots)[i].holder
  {
    if slots != [] {
      BarsAreHolders(slots[..|slots| - 1]);
    }
  }

  function ArrangeBars(bars: seq<Bar>, chords: seq<TimedChord>): seq<BarSlot> {
    Arrange(chords, ChordAt, BarHolders(bars))
  }

  lemma BarSlotsAreProper(bars: seq<Bar>, chords: seq<TimedChord>, slot: BarSlot)
    requires BarsInOrder(bars) && slot in ArrangeBars(bars, chords)
    ensures ProperSlot(slot)
  {
    var holders := BarHolders(bars);
    ArrangeMembers(chords, ChordAt, holders, slot);
    LeftoverKeeps(chords, ChordAt, holders, slot);
    if slot.Holder? {
      var k :| 0 <= k < |holders| && holders[k] == slot;
      assert bars[k] == slot.holder;
    }
  }

  lemma BarHoldersDisjoint(bars: seq<Bar>)
    requires BarsInOrder(bars)
    ensures Disjoint(BarHolders(bars))
  {
  }

  /** A grid section shows all its chords, each once and in order. */
  lemma GridSectionKeepsChords(bars: seq<Bar>, chords: seq<TimedChord>)
    requires BarsInOrder(bars) && StrictlySortedBy(chords, ChordAt)
    ensures ReadRows(PlaceGrid(ArrangeBars(bars, chords), chords).rows) == Cells(chords)
  {
    var slots := ArrangeBars(bars, chords);
    forall slot | slot in slots
      ensures ProperSlot(slot)
    {
      BarSlotsAreProper(bars, chords, slot);
    }
    GridKeepsChords(slots, chords);
    BarHoldersDisjoint(bars);
    ArrangementKeepsItems(chords, ChordAt, BarHolders(bars));
  }

  /** A grid section shows all its bars, each once and in order, and no lyrics. */
  lemma GridSectionKeepsBars(bars: seq<Bar>, chords: seq<TimedChord>)
    requires BarsInOrder(bars) && StrictlySortedBy(chords, ChordAt)
    ensures ReadBars(PlaceGrid(ArrangeBars(bars, chords), chords).rows) == GridBars(bars, chords)
    ensures ReadLyrics(PlaceGrid(ArrangeBars(bars, chords), chords).rows) == []
  {
    var slots := ArrangeBars(bars, chords);
    GridKeepsBars(slots, chords);
    BarHoldersDisjoint(bars);
    ArrangementKeepsHolders(chords, ChordAt, BarHolders(bars));
    BarsAreHolders(slots);
    assert BarsOf(slots) == bars;
  }

  function BarAt(bar: Bar): int { bar.startSample }

  function BarsWithin(bars: seq<Bar>, region: SectionRegion): seq<Bar> {
    Within(bars, BarAt, region.startSample, region.endSample)
  }

  method PlaceGridSection(bars: seq<Bar>, region: SectionRegion, sectionChords: seq<TimedChord>)
    returns (placed: seq<Row>)
    ensures placed == PlaceGrid(ArrangeBars(BarsWithin(bars, region), sectionChords), sectionChords).rows
  {
    var own := BarsWithin(bars, region);
    var items := ArrangeBars(own, sectionChords);
    placed := [];
    var previousMeter := None;
    for n := 0 to |items|
      invariant Grid(placed, previousMeter) == PlaceGrid(items[..n], sectionChords)
    {
      assert items[..n + 1][..n] == items[..n];
      match items[n] {
        case Holder(_, _, bar) =>
          var gridBar := GridBar(BeatCells(bar, sectionChords));
          if placed != [] && placed[|placed| - 1].GridRow? && previousMeter == Some(bar.meter) {
            placed := placed[..|placed| - 1] + [GridRow(placed[|placed| - 1].bars + [gridBar])];
          } else {
            placed := placed + [GridRow([gridBar])];
          }
          previousMeter := Some(bar.meter);
        case Loose(_, chord) =>
          placed := AddChord(placed, chord.cell);
      }
    }
    assert items[..|items|] == items;
  }
}
