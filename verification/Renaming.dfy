/** Renaming the ids of a timeline and of the operations on it. Editing commutes with renaming. */
module Renaming {
  import opened Wrappers
  import opened Sequences
  import opened Schema
  import opened Invariants
  import opened Edits

  /**
   Different ids stay different. A renaming is taken to be defined on all ids: any one-to-one renaming of
   finitely many ids extends to one of all.
  */
  ghost predicate OneToOne(f: Id -> Id) {
    forall a, b :: f(a) == f(b) ==> a == b
  }

  function RenameBeats(f: Id -> Id, beats: seq<Beat>): (r: seq<Beat>)
    ensures |r| == |beats| && forall i :: 0 <= i < |beats| ==> r[i] == beats[i].(id := f(beats[i].id))
  {
    seq(|beats|, i requires 0 <= i < |beats| => beats[i].(id := f(beats[i].id)))
  }

  function RenameBar(f: Id -> Id, bar: Bar): Bar {
    bar.(id := f(bar.id), beats := RenameBeats(f, bar.beats))
  }

  function RenameBars(f: Id -> Id, bars: seq<Bar>): (r: seq<Bar>)
    ensures |r| == |bars| && forall i :: 0 <= i < |bars| ==> r[i] == RenameBar(f, bars[i])
  {
    seq(|bars|, i requires 0 <= i < |bars| => RenameBar(f, bars[i]))
  }

  function RenameChords(f: Id -> Id, events: seq<ChordEvent>): (r: seq<ChordEvent>)
    ensures |r| == |events| && forall i :: 0 <= i < |events| ==> r[i] == events[i].(id := f(events[i].id))
  {
    seq(|events|, i requires 0 <= i < |events| => events[i].(id := f(events[i].id)))
  }

  function RenameSections(f: Id -> Id, regions: seq<SectionRegion>): (r: seq<SectionRegion>)
    ensures |r| == |regions| && forall i :: 0 <= i < |regions| ==> r[i] == regions[i].(id := f(regions[i].id))
  {
    seq(|regions|, i requires 0 <= i < |regions| => regions[i].(id := f(regions[i].id)))
  }

  function RenameKeys(f: Id -> Id, regions: seq<KeyRegion>): (r: seq<KeyRegion>)
    ensures |r| == |regions| && forall i :: 0 <= i < |regions| ==> r[i] == regions[i].(id := f(regions[i].id))
  {
    seq(|regions|, i requires 0 <= i < |regions| => regions[i].(id := f(regions[i].id)))
  }

  function RenameUnmetered(f: Id -> Id, regions: seq<UnmeteredRegion>): (r: seq<UnmeteredRegion>)
    ensures |r| == |regions| && forall i :: 0 <= i < |regions| ==> r[i] == regions[i].(id := f(regions[i].id))
  {
    seq(|regions|, i requires 0 <= i < |regions| => regions[i].(id := f(regions[i].id)))
  }

  function RenameTimeline(f: Id -> Id, timeline: Timeline): Timeline {
    Timeline(RenameBars(f, timeline.bars), RenameChords(f, timeline.chordEvents), RenameKeys(f, timeline.keyRegions),
             RenameSections(f, timeline.sectionRegions), RenameUnmetered(f, timeline.unmeteredRegions))
  }

  function RenameDrafts(f: Id -> Id, drafts: seq<ChordDraft>): (r: seq<ChordDraft>)
    ensures |r| == |drafts| && forall i :: 0 <= i < |drafts| ==> r[i] == drafts[i].(id := f(drafts[i].id))
  {
    seq(|drafts|, i requires 0 <= i < |drafts| => drafts[i].(id := f(drafts[i].id)))
  }

  /** The operations that can be moved by renaming: they name chords, beats, bars or sections, and no new ids. */
  predicate Movable(edit: Operation) {
    || edit.ReplaceChordSequence? || edit.ReplaceChordValue? || edit.MoveChordBoundary?
    || edit.MoveBeat? || edit.MoveBarBoundary? || edit.SetBarMeter? || edit.ReplaceSectionLabel?
  }

  function RenameEdit(f: Id -> Id, edit: Operation): Operation {
    match edit
    case ReplaceChordValue(eventId, value) => ReplaceChordValue(f(eventId), value)
    case ReplaceChordSequence(targets, events) => ReplaceChordSequence(Map(f, targets), RenameDrafts(f, events))
    case MoveChordBoundary(left, right, atSample) => MoveChordBoundary(f(left), f(right), atSample)
    case MoveBeat(beatId, atSample) => MoveBeat(f(beatId), atSample)
    case SetBarMeter(barId, meter) => SetBarMeter(f(barId), meter)
    case MoveBarBoundary(left, right, atSample) => MoveBarBoundary(f(left), f(right), atSample)
    case ReplaceSectionLabel(regionId, sectionLabel) => ReplaceSectionLabel(f(regionId), sectionLabel)
    case _ => edit
  }

  // ----- ids of renamed tracks

  lemma FindRenamedAll(f: Id -> Id, ids: seq<Id>, id: Id)
    requires OneToOne(f)
    ensures Find(Map(f, ids), f(id)) == Find(ids, id)
  {
    FindRenamed(f, ids, id);
  }

  lemma MapIsOneToOne(f: Id -> Id, a: seq<Id>, b: seq<Id>)
    requires OneToOne(f)
    ensures Map(f, a) == Map(f, b) <==> a == b
  {
    if Map(f, a) == Map(f, b) {
      assert |a| == |Map(f, a)| == |Map(f, b)| == |b|;
      forall i | 0 <= i < |a|
        ensures a[i] == b[i]
      {
        assert Map(f, a)[i] == Map(f, b)[i];
      }
    }
  }

  lemma DistinctRenamed(f: Id -> Id, ids: seq<Id>)
    requires OneToOne(f)
    ensures Distinct(Map(f, ids)) <==> Distinct(ids)
  {
    var renamed := Map(f, ids);
    if Distinct(renamed) {
      forall i, j | 0 <= i < j < |ids|
        ensures ids[i] != ids[j]
      {
        assert renamed[i] != renamed[j];
      }
    }
  }

  lemma ChordIdsRenamed(f: Id -> Id, events: seq<ChordEvent>)
    ensures ChordIds(RenameChords(f, events)) == Map(f, ChordIds(events))
  {
  }

  lemma BarIdsRenamed(f: Id -> Id, bars: seq<Bar>)
    ensures BarIds(RenameBars(f, bars)) == Map(f, BarIds(bars))
  {
  }

  lemma BeatIdsRenamed(f: Id -> Id, beats: seq<Beat>)
    ensures BeatIds(RenameBeats(f, beats)) == Map(f, BeatIds(beats))
  {
  }

  lemma SectionIdsRenamed(f: Id -> Id, regions: seq<SectionRegion>)
    ensures SectionIds(RenameSections(f, regions)) == Map(f, SectionIds(regions))
  {
  }

  lemma DraftIdsRenamed(f: Id -> Id, drafts: seq<ChordDraft>)
    ensures DraftIds(RenameDrafts(f, drafts)) == Map(f, DraftIds(drafts))
  {
  }

  lemma AdjacentRenamed(f: Id -> Id, ids: seq<Id>, left: Id, right: Id)
    requires OneToOne(f)
    ensures Adjacent(Map(f, ids), f(left), f(right)) <==> Adjacent(ids, left, right)
  {
    FindRenamedAll(f, ids, left);
    FindRenamedAll(f, ids, right);
  }

  // ----- each edit commutes with renaming

  lemma ValueEditCommutes(f: Id -> Id, events: seq<ChordEvent>, eventId: Id, value: ChordValue)
    requires OneToOne(f)
    ensures var plain := ReplaceValueIn(events, eventId, value);
            ReplaceValueIn(RenameChords(f, events), f(eventId), value)
              == if plain.Err? then Err else Ok(RenameChords(f, plain.value))
  {
    ChordIdsRenamed(f, events);
    FindRenamedAll(f, ChordIds(events), eventId);
    var plain := ReplaceValueIn(events, eventId, value);
    if plain.Ok? {
      assert ReplaceValueIn(RenameChords(f, events), f(eventId), value).value == RenameChords(f, plain.value);
    }
  }

  lemma ChordBoundaryCommutes(f: Id -> Id, events: seq<ChordEvent>, left: Id, right: Id, atSample: nat)
    requires OneToOne(f)
    ensures var plain := MoveChordBoundaryIn(events, left, right, atSample);
            MoveChordBoundaryIn(RenameChords(f, events), f(left), f(right), atSample)
            == if plain.Err? then Err else Ok(RenameChords(f, plain.value))
  {
    ChordIdsRenamed(f, events);
    AdjacentRenamed(f, ChordIds(events), left, right);
    FindRenamedAll(f, ChordIds(events), left);
    if Adjacent(ChordIds(events), left, right) {
      ChordPairRenamed(f, events, Find(ChordIds(events), left), atSample);
    }
  }

  lemma ChordPairRenamed(f: Id -> Id, events: seq<ChordEvent>, k: nat, atSample: nat)
    requires k + 1 < |events|
    ensures var renamed := RenameChords(f, events);
            renamed[k := renamed[k].(endSample := atSample)][k + 1 := renamed[k + 1].(startSample := atSample)]
            == RenameChords(f, events[k := events[k].(endSample := atSample)]
                                     [k + 1 := events[k + 1].(startSample := atSample)])
  {
  }

  lemma SpanRenamed(f: Id -> Id, events: seq<ChordEvent>, index: nat, length: nat)
    ensures SpanAt(RenameChords(f, events), index, length) == RenameChords(f, SpanAt(events, index, length))
  {
  }

  lemma NamedSpanRenamed(f: Id -> Id, events: seq<ChordEvent>, targets: seq<Id>)
    requires OneToOne(f)
    ensures NamedSpan(RenameChords(f, events), Map(f, targets)) == NamedSpan(events, targets)
  {
    if targets != [] {
      ChordIdsRenamed(f, events);
      FindRenamedAll(f, ChordIds(events), targets[0]);
      var index := Find(ChordIds(events), targets[0]);
      if index >= 0 {
        SpanRenamed(f, events, index, |targets|);
        ChordIdsRenamed(f, SpanAt(events, index, |targets|));
        MapIsOneToOne(f, ChordIds(SpanAt(events, index, |targets|)), targets);
      }
    }
  }

  lemma MembersRenamed(f: Id -> Id, ids: seq<Id>, id: Id)
    requires OneToOne(f)
    ensures f(id) in Map(f, ids) <==> id in ids
  {
    FindRenamedAll(f, ids, id);
  }

  lemma IdentityRenamed(f: Id -> Id, previous: seq<ChordEvent>, drafts: seq<ChordDraft>)
    requires OneToOne(f)
    ensures KeepsIdentityAndBounds(RenameChords(f, previous), RenameDrafts(f, drafts))
            <==> KeepsIdentityAndBounds(previous, drafts)
  {
    var previous', drafts' := RenameChords(f, previous), RenameDrafts(f, drafts);
    ChordIdsRenamed(f, previous);
    DraftIdsRenamed(f, drafts);
    DistinctRenamed(f, DraftIds(drafts));
    forall i | 0 <= i < |drafts|
      ensures drafts'[i].id in ChordIds(previous') <==> drafts[i].id in ChordIds(previous)
    {
      MembersRenamed(f, ChordIds(previous), drafts[i].id);
    }
    if forall draft :: draft in drafts' ==> draft.id in ChordIds(previous') {
      forall i | 0 <= i < |drafts|
        ensures drafts[i].id in ChordIds(previous)
      {
        assert drafts'[i] in drafts';
      }
    }
  }

  lemma DraftRenamed(f: Id -> Id, previous: seq<ChordEvent>, draft: ChordDraft)
    requires OneToOne(f) && draft.id in ChordIds(previous)
    ensures f(draft.id) in ChordIds(RenameChords(f, previous))
    ensures var original := previous[Find(ChordIds(previous), draft.id)];
            var renamed := RenameChords(f, previous);
            && Find(ChordIds(renamed), f(draft.id)) == Find(ChordIds(previous), draft.id)
            && Authored(draft.(id := f(draft.id)), original.(id := f(original.id)))
                 == Authored(draft, original).(id := f(draft.id))
  {
    ChordIdsRenamed(f, previous);
    FindRenamedAll(f, ChordIds(previous), draft.id);
  }

  lemma RedrawRenamed(f: Id -> Id, previous: seq<ChordEvent>, drafts: seq<ChordDraft>)
    requires OneToOne(f)
    requires forall draft :: draft in drafts ==> draft.id in ChordIds(previous)
    requires forall draft :: draft in RenameDrafts(f, drafts) ==> draft.id in ChordIds(RenameChords(f, previous))
    ensures Redraw(RenameChords(f, previous), RenameDrafts(f, drafts)) == RenameChords(f, Redraw(previous, drafts))
  {
    forall k | 0 <= k < |drafts|
      ensures Redraw(RenameChords(f, previous), RenameDrafts(f, drafts))[k]
              == RenameChords(f, Redraw(previous, drafts))[k]
    {
      DraftRenamed(f, previous, drafts[k]);
      assert RenameDrafts(f, drafts)[k] == drafts[k].(id := f(drafts[k].id));
    }
  }

  lemma SpliceRenamed(f: Id -> Id, events: seq<ChordEvent>, index: nat, count: nat, items: seq<ChordEvent>)
    requires index + count <= |events|
    ensures Splice(RenameChords(f, events), index, count, RenameChords(f, items))
            == RenameChords(f, Splice(events, index, count, items))
  {
  }

  lemma SequenceEditCommutes(f: Id -> Id, events: seq<ChordEvent>, targets: seq<Id>, drafts: seq<ChordDraft>)
    requires OneToOne(f)
    ensures var plain := ReplaceChords(events, targets, drafts);
            ReplaceChords(RenameChords(f, events), Map(f, targets), RenameDrafts(f, drafts))
            == if plain.Err? then Err else Ok(RenameChords(f, plain.value))
  {
    NamedSpanRenamed(f, events, targets);
    var span := NamedSpan(events, targets);
    if span.Some? {
      var previous := SpanAt(events, span.value, |targets|);
      SpanRenamed(f, events, span.value, |targets|);
      IdentityRenamed(f, previous, drafts);
      if KeepsIdentityAndBounds(previous, drafts) {
        RedrawRenamed(f, previous, drafts);
        SpliceRenamed(f, events, span.value, |targets|, Redraw(previous, drafts));
      }
    }
  }

  lemma {:induction false} BeatEditCommutes(f: Id -> Id, bars: seq<Bar>, beatId: Id, atSample: nat)
    requires OneToOne(f)
    ensures var plain := MoveBeatIn(bars, beatId, atSample);
            MoveBeatIn(RenameBars(f, bars), f(beatId), atSample)
              == if plain.Err? then Err else Ok(RenameBars(f, plain.value))
  {
    if bars != [] {
      var bar := bars[0];
      var index := Find(BeatIds(bar.beats), beatId);
      BeatIdsRenamed(f, bar.beats);
      FindRenamedAll(f, BeatIds(bar.beats), beatId);
      assert RenameBars(f, bars)[1..] == RenameBars(f, bars[1..]);
      if index >= 0 {
        var moved := bar.(beats := bar.beats[index := bar.beats[index].(atSample := atSample)]);
        MovedBeatRenamed(f, bar, index, atSample);
        RenameBarsCons(f, moved, bars[1..]);
      } else {
        BeatEditCommutes(f, bars[1..], beatId, atSample);
        var rest := MoveBeatIn(bars[1..], beatId, atSample);
        if rest.Ok? {
          RenameBarsCons(f, bar, rest.value);
        }
      }
    }
  }

  lemma MovedBeatRenamed(f: Id -> Id, bar: Bar, index: nat, atSample: nat)
    requires index < |bar.beats|
    ensures var renamed := RenameBar(f, bar);
            renamed.(beats := renamed.beats[index := renamed.beats[index].(atSample := atSample)])
            == RenameBar(f, bar.(beats := bar.beats[index := bar.beats[index].(atSample := atSample)]))
  {
    assert RenameBeats(f, bar.beats)[index := RenameBeats(f, bar.beats)[index].(atSample := atSample)]
           == RenameBeats(f, bar.beats[index := bar.beats[index].(atSample := atSample)]);
  }

  lemma RenameBarsCons(f: Id -> Id, bar: Bar, bars: seq<Bar>)
    ensures RenameBars(f, [bar] + bars) == [RenameBar(f, bar)] + RenameBars(f, bars)
  {
  }

  lemma BarBoundaryCommutes(f: Id -> Id, bars: seq<Bar>, left: Id, right: Id, atSample: nat)
    requires OneToOne(f)
    ensures var plain := MoveBarBoundaryIn(bars, left, right, atSample);
            MoveBarBoundaryIn(RenameBars(f, bars), f(left), f(right), atSample)
            == if plain.Err? then Err else Ok(RenameBars(f, plain.value))
  {
    BarIdsRenamed(f, bars);
    AdjacentRenamed(f, BarIds(bars), left, right);
    FindRenamedAll(f, BarIds(bars), left);
    var plain := MoveBarBoundaryIn(bars, left, right, atSample);
    if plain.Ok? {
      var k := Find(BarIds(bars), left);
      BoundaryRenamed(f, bars, k, atSample);
    }
  }

  lemma BoundaryRenamed(f: Id -> Id, bars: seq<Bar>, k: nat, atSample: nat)
    requires k + 1 < |bars| && bars[k + 1].beats != []
    ensures var next, next' := bars[k + 1], RenameBar(f, bars[k + 1]);
            RenameBars(f, bars)[k := RenameBar(f, bars[k]).(endSample := atSample)]
                               [k + 1 := next'.(startSample := atSample,
                                                beats := next'.beats[0 := next'.beats[0].(atSample := atSample)])]
            == RenameBars(f, bars[k := bars[k].(endSample := atSample)]
                                 [k + 1 := next.(startSample := atSample,
                                                 beats := next.beats[0 := next.beats[0].(atSample := atSample)])])
  {
    MovedBeatRenamed(f, bars[k + 1], 0, atSample);
  }

  lemma MeterEditCommutes(f: Id -> Id, bars: seq<Bar>, barId: Id, meter: Meter)
    requires OneToOne(f)
    ensures var plain := SetMeterIn(bars, barId, meter);
            SetMeterIn(RenameBars(f, bars), f(barId), meter)
              == if plain.Err? then Err else Ok(RenameBars(f, plain.value))
  {
    BarIdsRenamed(f, bars);
    FindRenamedAll(f, BarIds(bars), barId);
    var plain := SetMeterIn(bars, barId, meter);
    if plain.Ok? {
      assert SetMeterIn(RenameBars(f, bars), f(barId), meter).value == RenameBars(f, plain.value);
    }
  }

  lemma LabelEditCommutes(f: Id -> Id, regions: seq<SectionRegion>, regionId: Id, sectionLabel: SectionLabel)
    requires OneToOne(f)
    ensures var plain := RelabelIn(regions, regionId, sectionLabel);
            RelabelIn(RenameSections(f, regions), f(regionId), sectionLabel)
              == if plain.Err? then Err else Ok(RenameSections(f, plain.value))
  {
    SectionIdsRenamed(f, regions);
    FindRenamedAll(f, SectionIds(regions), regionId);
    var plain := RelabelIn(regions, regionId, sectionLabel);
    if plain.Ok? {
      assert RelabelIn(RenameSections(f, regions), f(regionId), sectionLabel).value == RenameSections(f, plain.value);
    }
  }

  function RenameResult(f: Id -> Id, result: Result<Timeline>): Result<Timeline> {
    if result.Err? then Err else Ok(RenameTimeline(f, result.value))
  }

  lemma BarEditCommutes(f: Id -> Id, bars: seq<Bar>, edit: Operation)
    requires OneToOne(f) && Movable(edit) && EditsBars(edit)
    ensures EditsBars(RenameEdit(f, edit))
    ensures var plain := EditBars(bars, edit);
            EditBars(RenameBars(f, bars), RenameEdit(f, edit))
              == if plain.Err? then Err else Ok(RenameBars(f, plain.value))
  {
    match edit {
      case MoveBeat(beatId, atSample) => BeatEditCommutes(f, bars, beatId, atSample);
      case MoveBarBoundary(left, right, atSample) => BarBoundaryCommutes(f, bars, left, right, atSample);
      case SetBarMeter(barId, meter) => MeterEditCommutes(f, bars, barId, meter);
    }
  }

  lemma ChordEditCommutes(f: Id -> Id, events: seq<ChordEvent>, edit: Operation)
    requires OneToOne(f) && EditsChords(edit)
    ensures EditsChords(RenameEdit(f, edit))
    ensures var plain := EditChords(events, edit);
            EditChords(RenameChords(f, events), RenameEdit(f, edit))
              == if plain.Err? then Err else Ok(RenameChords(f, plain.value))
  {
    match edit {
      case ReplaceChordSequence(targets, drafts) => SequenceEditCommutes(f, events, targets, drafts);
      case ReplaceChordValue(eventId, value) => ValueEditCommutes(f, events, eventId, value);
      case MoveChordBoundary(left, right, atSample) => ChordBoundaryCommutes(f, events, left, right, atSample);
    }
  }

  /** A movable edit commutes with renaming, failures included. */
  lemma EditCommutes(f: Id -> Id, timeline: Timeline, edit: Operation)
    requires OneToOne(f) && Movable(edit)
    ensures EditTimeline(RenameTimeline(f, timeline), RenameEdit(f, edit))
            == RenameResult(f, EditTimeline(timeline, edit))
  {
    if EditsBars(edit) {
      BarEditCommutes(f, timeline.bars, edit);
    } else if EditsChords(edit) {
      ChordEditCommutes(f, timeline.chordEvents, edit);
    } else {
      LabelEditCommutes(f, timeline.sectionRegions, edit.regionId, edit.sectionLabel);
    }
  }

  // ----- validity does not depend on the ids

  lemma {:induction false} AllBeatsRenamed(f: Id -> Id, bars: seq<Bar>)
    ensures AllBeats(RenameBars(f, bars)) == RenameBeats(f, AllBeats(bars))
  {
    if bars != [] {
      assert RenameBars(f, bars)[1..] == RenameBars(f, bars[1..]);
      AllBeatsRenamed(f, bars[1..]);
    }
  }

  lemma BarValidityRenamed(f: Id -> Id, bar: Bar)
    requires OneToOne(f)
    ensures ValidBar(RenameBar(f, bar)) <==> ValidBar(bar)
  {
    var renamed := RenameBar(f, bar);
    BeatIdsRenamed(f, bar.beats);
    DistinctRenamed(f, BeatIds(bar.beats));
    forall index | 0 <= index < |bar.beats|
      ensures BeatFits(renamed, index) <==> BeatFits(bar, index)
    {
      assert renamed.beats[index] == bar.beats[index].(id := f(bar.beats[index].id));
      assert index > 0 ==> renamed.beats[index - 1] == bar.beats[index - 1].(id := f(bar.beats[index - 1].id));
    }
  }

  lemma IdValidityRenamed(f: Id -> Id, timeline: Timeline)
    requires OneToOne(f)
    ensures ValidIds(RenameTimeline(f, timeline)) <==> ValidIds(timeline)
  {
    var renamed := RenameTimeline(f, timeline);
    BarIdsRenamed(f, timeline.bars);
    DistinctRenamed(f, BarIds(timeline.bars));
    ChordIdsRenamed(f, timeline.chordEvents);
    DistinctRenamed(f, ChordIds(timeline.chordEvents));
    SectionIdsRenamed(f, timeline.sectionRegions);
    DistinctRenamed(f, SectionIds(timeline.sectionRegions));
    assert Map(KeyId, renamed.keyRegions) == Map(f, Map(KeyId, timeline.keyRegions));
    DistinctRenamed(f, Map(KeyId, timeline.keyRegions));
    assert Map(UnmeteredId, renamed.unmeteredRegions) == Map(f, Map(UnmeteredId, timeline.unmeteredRegions));
    DistinctRenamed(f, Map(UnmeteredId, timeline.unmeteredRegions));
    AllBeatsRenamed(f, timeline.bars);
    BeatIdsRenamed(f, AllBeats(timeline.bars));
    DistinctRenamed(f, BeatIds(AllBeats(timeline.bars)));
  }

  lemma TrackValidityRenamed(f: Id -> Id, timeline: Timeline, duration: nat)
    ensures ValidTracks(RenameTimeline(f, timeline), duration) <==> ValidTracks(timeline, duration)
  {
    var renamed := RenameTimeline(f, timeline);
    assert BarStarts(renamed.bars) == BarStarts(timeline.bars);
    assert UnmeteredStarts(renamed.unmeteredRegions) == UnmeteredStarts(timeline.unmeteredRegions);
    assert Map(ChordSpan, renamed.chordEvents) == Map(ChordSpan, timeline.chordEvents);
    assert Map(SectionSpan, renamed.sectionRegions) == Map(SectionSpan, timeline.sectionRegions);
    assert Map(KeySpan, renamed.keyRegions) == Map(KeySpan, timeline.keyRegions);
    assert MeteredSpans(renamed) == MeteredSpans(timeline);
  }

  lemma BarsValidityRenamed(f: Id -> Id, bars: seq<Bar>)
    requires OneToOne(f)
    ensures (forall bar :: bar in RenameBars(f, bars) ==> ValidBar(bar))
            <==> (forall bar :: bar in bars ==> ValidBar(bar))
  {
    var renamed := RenameBars(f, bars);
    forall i | 0 <= i < |bars|
      ensures ValidBar(renamed[i]) <==> ValidBar(bars[i])
    {
      BarValidityRenamed(f, bars[i]);
    }
    if forall bar :: bar in renamed ==> ValidBar(bar) {
      forall i | 0 <= i < |bars|
        ensures ValidBar(bars[i])
      {
        assert renamed[i] in renamed;
      }
    }
  }

  lemma ComponentsRenamed(f: Id -> Id, events: seq<ChordEvent>)
    ensures (forall event :: event in RenameChords(f, events) ==> ComponentsSorted(event.value))
            <==> (forall event :: event in events ==> ComponentsSorted(event.value))
  {
    var renamed := RenameChords(f, events);
    if forall event :: event in renamed ==> ComponentsSorted(event.value) {
      forall i | 0 <= i < |events|
        ensures ComponentsSorted(events[i].value)
      {
        assert renamed[i] in renamed;
      }
    }
  }

  /** Renaming keeps a timeline valid, and cannot make an invalid one valid. */
  lemma ValidityRenamed(f: Id -> Id, timeline: Timeline, duration: nat)
    requires OneToOne(f)
    ensures ValidTimeline(RenameTimeline(f, timeline), duration) <==> ValidTimeline(timeline, duration)
  {
    IdValidityRenamed(f, timeline);
    TrackValidityRenamed(f, timeline, duration);
    BarsValidityRenamed(f, timeline.bars);
    ComponentsRenamed(f, timeline.chordEvents);
  }
}
