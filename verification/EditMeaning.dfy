/** What each kind of edit leaves in the records it names, and that it leaves all others alone. */
module EditMeaning {
  import opened Wrappers
  import opened Sequences
  import opened Schema
  import opened Invariants
  import opened Edits

  lemma FoundAt(ids: seq<Id>, k: nat, id: Id)
    requires Distinct(ids) && k < |ids| && ids[k] == id
    ensures Find(ids, id) == k
  {
    FindIsUnique(ids, k);
  }

  // ----- chords

  lemma ReplacedValue(timeline: Timeline, eventId: Id, value: ChordValue, k: nat)
    requires Distinct(ChordIds(timeline.chordEvents)) && k < |timeline.chordEvents|
    requires timeline.chordEvents[k].id == eventId
    ensures var before := timeline.chordEvents[k];
            var after := ChordEvent(eventId, before.startSample, before.endSample, value, UserAuthored);
            EditTimeline(timeline, ReplaceChordValue(eventId, value))
            == Ok(timeline.(chordEvents := timeline.chordEvents[k := after]))
  {
    FoundAt(ChordIds(timeline.chordEvents), k, eventId);
  }

  lemma NoValueToReplace(timeline: Timeline, eventId: Id, value: ChordValue)
    requires forall event :: event in timeline.chordEvents ==> event.id != eventId
    ensures EditTimeline(timeline, ReplaceChordValue(eventId, value)).Err?
  {
  }

  lemma MovedChordBoundary(timeline: Timeline, left: Id, right: Id, atSample: nat, k: nat)
    requires Distinct(ChordIds(timeline.chordEvents)) && k + 1 < |timeline.chordEvents|
    requires timeline.chordEvents[k].id == left && timeline.chordEvents[k + 1].id == right
    ensures var a, b := timeline.chordEvents[k], timeline.chordEvents[k + 1];
            var ended := ChordEvent(left, a.startSample, atSample, a.value, a.assertion);
            var begun := ChordEvent(right, atSample, b.endSample, b.value, b.assertion);
            EditTimeline(timeline, MoveChordBoundary(left, right, atSample))
            == Ok(timeline.(chordEvents := timeline.chordEvents[k := ended][k + 1 := begun]))
  {
    var ids := ChordIds(timeline.chordEvents);
    FoundAt(ids, k, left);
    FoundAt(ids, k + 1, right);
  }

  lemma NoChordBoundary(timeline: Timeline, left: Id, right: Id, atSample: nat)
    requires forall k :: 0 <= k && k + 1 < |timeline.chordEvents| ==>
               timeline.chordEvents[k].id != left || timeline.chordEvents[k + 1].id != right
    ensures EditTimeline(timeline, MoveChordBoundary(left, right, atSample)).Err?
  {
    NeighboursAreNamed(ChordIds(timeline.chordEvents), left, right);
  }

  lemma NeighboursAreNamed(ids: seq<Id>, left: Id, right: Id)
    ensures Adjacent(ids, left, right) ==> exists k :: 0 <= k && k + 1 < |ids| && ids[k] == left && ids[k + 1] == right
  {
    var k := Find(ids, left);
    assert Adjacent(ids, left, right) ==> ids[k] == left && ids[k + 1] == right;
  }

  /** The events that stand at a position are the named ones. */
  predicate StandAt(events: seq<ChordEvent>, k: nat, targets: seq<Id>) {
    k + |targets| <= |events| && forall j :: 0 <= j < |targets| ==> events[k + j].id == targets[j]
  }

  /** The drafts are for the named events, each once, and keep the outer boundaries. */
  ghost predicate Redraws(events: seq<ChordEvent>, k: nat, targets: seq<Id>, drafts: seq<ChordDraft>)
    requires StandAt(events, k, targets) && targets != []
  {
    && |drafts| == |targets|
    && (forall i, j :: 0 <= i < j < |drafts| ==> drafts[i].id != drafts[j].id)
    && (forall j :: 0 <= j < |drafts| ==> drafts[j].id in targets)
    && drafts[0].startSample == events[k].startSample
    && drafts[|drafts| - 1].endSample == events[k + |targets| - 1].endSample
  }

  /** An event is drawn as its draft says; an unchanged one keeps its assertion, a changed one is the user's. */
  predicate Drawn(after: ChordEvent, draft: ChordDraft, before: ChordEvent) {
    && after.id == draft.id && after.startSample == draft.startSample && after.endSample == draft.endSample
    && after.value == draft.value
    && after.assertion == if before.startSample == draft.startSample && before.endSample == draft.endSample
                             && before.value == draft.value
                          then before.assertion else UserAuthored
  }

  lemma NamedSpanAt(events: seq<ChordEvent>, targets: seq<Id>, k: nat)
    requires Distinct(ChordIds(events)) && targets != [] && StandAt(events, k, targets)
    ensures NamedSpan(events, targets) == Some(k)
    ensures SpanAt(events, k, |targets|) == events[k..k + |targets|]
  {
    FoundAt(ChordIds(events), k, targets[0]);
    assert ChordIds(SpanAt(events, k, |targets|)) == targets;
  }

  lemma RedrawsDecides(events: seq<ChordEvent>, targets: seq<Id>, drafts: seq<ChordDraft>, k: nat)
    requires targets != [] && StandAt(events, k, targets)
    ensures KeepsIdentityAndBounds(events[k..k + |targets|], drafts) <==> Redraws(events, k, targets, drafts)
  {
    var previous := events[k..k + |targets|];
    assert ChordIds(previous) == targets;
    assert forall j :: 0 <= j < |drafts| ==> DraftIds(drafts)[j] == drafts[j].id;
    assert (forall draft :: draft in drafts ==> draft.id in ChordIds(previous))
           <==> (forall j :: 0 <= j < |drafts| ==> drafts[j].id in targets);
  }

  lemma RedrawnSequence(timeline: Timeline, targets: seq<Id>, drafts: seq<ChordDraft>, k: nat)
    requires Distinct(ChordIds(timeline.chordEvents)) && targets != [] && StandAt(timeline.chordEvents, k, targets)
    ensures EditTimeline(timeline, ReplaceChordSequence(targets, drafts)).Ok?
            <==> Redraws(timeline.chordEvents, k, targets, drafts)
  {
    NamedSpanAt(timeline.chordEvents, targets, k);
    RedrawsDecides(timeline.chordEvents, targets, drafts, k);
  }

  /** Every event is drawn as the draft at its place says, from the event of the same id. */
  ghost predicate AllDrawn(after: seq<ChordEvent>, drafts: seq<ChordDraft>, events: seq<ChordEvent>) {
    && |after| == |drafts|
    && forall j, i :: 0 <= j < |drafts| && 0 <= i < |events| && drafts[j].id == events[i].id ==>
         Drawn(after[j], drafts[j], events[i])
  }

  lemma RedrawnEvents(timeline: Timeline, targets: seq<Id>, drafts: seq<ChordDraft>, k: nat)
    requires Distinct(ChordIds(timeline.chordEvents)) && targets != [] && StandAt(timeline.chordEvents, k, targets)
    requires Redraws(timeline.chordEvents, k, targets, drafts)
    ensures var events, n := timeline.chordEvents, |targets|;
            var result := EditTimeline(timeline, ReplaceChordSequence(targets, drafts));
            && result.Ok? && result.value == timeline.(chordEvents := result.value.chordEvents)
            && var after := result.value.chordEvents;
            && |after| == |events| && after[..k] == events[..k] && after[k + n..] == events[k + n..]
            && AllDrawn(after[k..k + n], drafts, events)
  {
    var redrawn := RedrawnBetween(timeline, targets, drafts, k);
    SplicedAround(timeline.chordEvents, k, |targets|, redrawn);
  }

  lemma RedrawnBetween(timeline: Timeline, targets: seq<Id>, drafts: seq<ChordDraft>, k: nat)
    returns (redrawn: seq<ChordEvent>)
    requires Distinct(ChordIds(timeline.chordEvents)) && targets != [] && StandAt(timeline.chordEvents, k, targets)
    requires Redraws(timeline.chordEvents, k, targets, drafts)
    ensures |redrawn| == |targets| && AllDrawn(redrawn, drafts, timeline.chordEvents)
    ensures EditTimeline(timeline, ReplaceChordSequence(targets, drafts))
            == Ok(timeline.(chordEvents := Splice(timeline.chordEvents, k, |targets|, redrawn)))
  {
    NamedSpanAt(timeline.chordEvents, targets, k);
    RedrawsDecides(timeline.chordEvents, targets, drafts, k);
    redrawn := Redraw(timeline.chordEvents[k..k + |targets|], drafts);
    RedrawnAsDrafted(timeline.chordEvents, targets, drafts, k);
  }

  lemma RedrawnAsDrafted(events: seq<ChordEvent>, targets: seq<Id>, drafts: seq<ChordDraft>, k: nat)
    requires Distinct(ChordIds(events)) && StandAt(events, k, targets)
    requires forall draft :: draft in drafts ==> draft.id in ChordIds(events[k..k + |targets|])
    ensures AllDrawn(Redraw(events[k..k + |targets|], drafts), drafts, events)
  {
    forall j, i | 0 <= j < |drafts| && 0 <= i < |events| && drafts[j].id == events[i].id
      ensures Drawn(Authored(drafts[j], events[i]), drafts[j], events[i])
      ensures Redraw(events[k..k + |targets|], drafts)[j] == Authored(drafts[j], events[i])
    {
      assert drafts[j] in drafts;
      OriginalOf(events, targets, drafts[j], k, i);
    }
  }

  lemma SplicedAround<T>(s: seq<T>, k: nat, n: nat, items: seq<T>)
    requires k + n <= |s| && |items| == n
    ensures var after := Splice(s, k, n, items);
            && |after| == |s| && after[..k] == s[..k] && after[k + n..] == s[k + n..]
            && after[k..k + n] == items
  {
  }

  lemma OriginalOf(events: seq<ChordEvent>, targets: seq<Id>, draft: ChordDraft, k: nat, i: nat)
    requires Distinct(ChordIds(events)) && StandAt(events, k, targets)
    requires draft.id in ChordIds(events[k..k + |targets|])
    requires i < |events| && events[i].id == draft.id
    ensures var previous := events[k..k + |targets|];
            draft.id in ChordIds(previous) && previous[Find(ChordIds(previous), draft.id)] == events[i]
  {
    var previous := events[k..k + |targets|];
    StandingIds(events, k, targets);
    var j := Find(targets, draft.id);
    assert previous[j] == events[k + j];
    SameIdSameEvent(events, k + j, i);
  }

  lemma StandingIds(events: seq<ChordEvent>, k: nat, targets: seq<Id>)
    requires StandAt(events, k, targets)
    ensures ChordIds(events[k..k + |targets|]) == targets
  {
  }

  lemma SameIdSameEvent(events: seq<ChordEvent>, k: nat, i: nat)
    requires Distinct(ChordIds(events)) && k < |events| && i < |events| && events[k].id == events[i].id
    ensures k == i
  {
    assert ChordIds(events)[k] == ChordIds(events)[i];
  }

  lemma NoSequenceToRedraw(timeline: Timeline, targets: seq<Id>, drafts: seq<ChordDraft>)
    requires targets == [] || forall k: nat :: !StandAt(timeline.chordEvents, k, targets)
    ensures EditTimeline(timeline, ReplaceChordSequence(targets, drafts)).Err?
  {
    var events := timeline.chordEvents;
    var span := NamedSpan(events, targets);
    if span.Some? {
      var k, own := span.value, SpanAt(events, span.value, |targets|);
      assert forall j :: 0 <= j < |targets| ==> ChordIds(own)[j] == own[j].id == events[k + j].id;
      assert StandAt(events, k, targets);
    }
  }

  // ----- beats and bars

  /** Ids of beats are unique over all bars. */
  ghost predicate BeatsAreDistinct(bars: seq<Bar>) {
    forall k, j, l, i ::
      (0 <= k < |bars| && 0 <= j < |bars[k].beats| && 0 <= l < |bars| && 0 <= i < |bars[l].beats|
       && bars[k].beats[j].id == bars[l].beats[i].id) ==> k == l && j == i
  }

  lemma {:induction false} BeatIsMovedIn(bars: seq<Bar>, beatId: Id, atSample: nat, k: nat, j: nat)
    requires BeatsAreDistinct(bars) && k < |bars| && j < |bars[k].beats| && bars[k].beats[j].id == beatId
    ensures var moved := Beat(beatId, atSample, bars[k].beats[j].role);
            MoveBeatIn(bars, beatId, atSample) == Ok(bars[k := bars[k].(beats := bars[k].beats[j := moved])])
  {
    var first := bars[0].beats;
    var index := Find(BeatIds(first), beatId);
    if index >= 0 {
      assert first[index].id == beatId && k == 0 && j == index;
      HeadIsReplaced(bars, bars[0].(beats := first[index := first[index].(atSample := atSample)]));
    } else {
      RestIsDistinct(bars);
      BeatIsMovedIn(bars[1..], beatId, atSample, k - 1, j);
      TailIsReplaced(bars, k, bars[k].(beats := bars[k].beats[j := Beat(beatId, atSample, bars[k].beats[j].role)]));
    }
  }

  lemma HeadIsReplaced<T>(s: seq<T>, x: T)
    requires s != []
    ensures [x] + s[1..] == s[0 := x]
  {
  }

  lemma TailIsReplaced<T>(s: seq<T>, k: nat, x: T)
    requires 0 < k < |s|
    ensures [s[0]] + s[1..][k - 1 := x] == s[k := x]
  {
  }

  lemma RestIsDistinct(bars: seq<Bar>)
    requires bars != [] && BeatsAreDistinct(bars)
    ensures BeatsAreDistinct(bars[1..])
  {
    var rest := bars[1..];
    forall k, j, l, i | 0 <= k < |rest| && 0 <= j < |rest[k].beats| && 0 <= l < |rest| && 0 <= i < |rest[l].beats|
                        && rest[k].beats[j].id == rest[l].beats[i].id
      ensures k == l && j == i
    {
      assert bars[k + 1].beats[j].id == bars[l + 1].beats[i].id;
    }
  }

  lemma MovedBeat(timeline: Timeline, beatId: Id, atSample: nat, k: nat, j: nat)
    requires BeatsAreDistinct(timeline.bars) && k < |timeline.bars| && j < |timeline.bars[k].beats|
    requires timeline.bars[k].beats[j].id == beatId
    ensures var bar := timeline.bars[k];
            var moved := Beat(beatId, atSample, bar.beats[j].role);
            EditTimeline(timeline, MoveBeat(beatId, atSample))
            == Ok(timeline.(bars := timeline.bars[k := bar.(beats := bar.beats[j := moved])]))
  {
    BeatIsMovedIn(timeline.bars, beatId, atSample, k, j);
  }

  lemma {:induction false} NoBeatIn(bars: seq<Bar>, beatId: Id, atSample: nat)
    requires forall bar, beat :: bar in bars && beat in bar.beats ==> beat.id != beatId
    ensures MoveBeatIn(bars, beatId, atSample).Err?
  {
    if bars != [] {
      NoBeatIn(bars[1..], beatId, atSample);
    }
  }

  lemma NoBeatToMove(timeline: Timeline, beatId: Id, atSample: nat)
    requires forall bar, beat :: bar in timeline.bars && beat in bar.beats ==> beat.id != beatId
    ensures EditTimeline(timeline, MoveBeat(beatId, atSample)).Err?
  {
    NoBeatIn(timeline.bars, beatId, atSample);
  }

  lemma MovedBarBoundary(timeline: Timeline, left: Id, right: Id, atSample: nat, k: nat)
    requires Distinct(BarIds(timeline.bars)) && k + 1 < |timeline.bars|
    requires timeline.bars[k].id == left && timeline.bars[k + 1].id == right
    ensures var a, b := timeline.bars[k], timeline.bars[k + 1];
            EditTimeline(timeline, MoveBarBoundary(left, right, atSample))
            == if b.beats == [] then Err
               else
                 var downbeat := Beat(b.beats[0].id, atSample, b.beats[0].role);
                 var ended := Bar(left, a.startSample, atSample, a.beats, a.meter, a.status);
                 var begun := Bar(right, atSample, b.endSample, [downbeat] + b.beats[1..], b.meter, b.status);
                 Ok(timeline.(bars := timeline.bars[k := ended][k + 1 := begun]))
  {
    var ids, b := BarIds(timeline.bars), timeline.bars[k + 1];
    FoundAt(ids, k, left);
    FoundAt(ids, k + 1, right);
    if b.beats != [] {
      assert b.beats[0 := b.beats[0].(atSample := atSample)] == [b.beats[0].(atSample := atSample)] + b.beats[1..];
    }
  }

  lemma NoBarBoundary(timeline: Timeline, left: Id, right: Id, atSample: nat, meter: Meter, status: BarStatus)
    requires forall k :: 0 <= k && k + 1 < |timeline.bars| ==>
               timeline.bars[k].id != left || timeline.bars[k + 1].id != right
    ensures EditTimeline(timeline, MoveBarBoundary(left, right, atSample)).Err?
    ensures EditTimeline(timeline, MergeBars(left, right, meter, status)).Err?
  {
    NeighboursAreNamed(BarIds(timeline.bars), left, right);
  }

  lemma MeterIsSet(timeline: Timeline, barId: Id, meter: Meter, k: nat)
    requires Distinct(BarIds(timeline.bars)) && k < |timeline.bars| && timeline.bars[k].id == barId
    ensures var bar := timeline.bars[k];
            var after := Bar(barId, bar.startSample, bar.endSample, bar.beats, meter, bar.status);
            EditTimeline(timeline, SetBarMeter(barId, meter)) == Ok(timeline.(bars := timeline.bars[k := after]))
  {
    FoundAt(BarIds(timeline.bars), k, barId);
  }

  lemma NoBarToEdit(timeline: Timeline, barId: Id, meter: Meter, split: Operation)
    requires forall bar :: bar in timeline.bars ==> bar.id != barId
    requires split.SplitBar? && split.barId == barId
    ensures EditTimeline(timeline, SetBarMeter(barId, meter)).Err? && EditTimeline(timeline, split).Err?
  {
  }

  /** A beat as it was, but no downbeat. */
  predicate Demoted(after: Beat, before: Beat) {
    after.id == before.id && after.atSample == before.atSample && after.role == OrdinaryBeat
  }

  predicate AllDemoted(after: seq<Beat>, before: seq<Beat>) {
    |after| == |before| && forall i :: 0 <= i < |before| ==> Demoted(after[i], before[i])
  }

  /** The first `c` beats lie before a sample, the others behind it. */
  predicate CutBetween(beats: seq<Beat>, c: nat, atSample: nat) {
    && c <= |beats|
    && (forall i :: 0 <= i < c ==> beats[i].atSample < atSample)
    && (forall i :: c <= i < |beats| ==> beats[i].atSample > atSample)
  }

  lemma {:induction false} BeatsAreCut(beats: seq<Beat>, c: nat, atSample: nat)
    requires CutBetween(beats, c, atSample)
    ensures BeatsBefore(beats, atSample) == beats[..c] && BeatsAfter(beats, atSample) == beats[c..]
  {
    if beats != [] {
      if c > 0 {
        BeatsAreCut(beats[1..], c - 1, atSample);
        CutBehindHead(beats, c);
      } else {
        BeatsAreCut(beats[1..], 0, atSample);
        assert [beats[0]] + beats[1..][0..] == beats[0..];
      }
    }
  }

  lemma CutBehindHead<T>(s: seq<T>, c: nat)
    requires 0 < c <= |s|
    ensures s[..c] == [s[0]] + s[1..][..c - 1] && s[c..] == s[1..][c - 1..]
  {
  }

  lemma BarIsSplit(timeline: Timeline, edit: Operation, k: nat, c: nat)
    requires edit.SplitBar? && Distinct(BarIds(timeline.bars)) && k < |timeline.bars|
    requires timeline.bars[k].id == edit.barId && CutBetween(timeline.bars[k].beats, c, edit.atSample)
    ensures var bars, bar := timeline.bars, timeline.bars[k];
            var result := EditTimeline(timeline, edit);
            && result.Ok? && result.value == timeline.(bars := result.value.bars)
            && |result.value.bars| == |bars| + 1
            && var left, right := result.value.bars[k], result.value.bars[k + 1];
            && result.value.bars == bars[..k] + [left, right] + bars[k + 1..]
            && left == Bar(bar.id, bar.startSample, edit.atSample, bar.beats[..c], bar.meter, edit.leftStatus)
            && right.id == edit.newBarId && right.startSample == edit.atSample && right.endSample == bar.endSample
            && right.meter == edit.rightMeter && right.status == edit.rightStatus
            && right.beats != [] && right.beats[0] == Beat(edit.newDownbeatId, edit.atSample, Downbeat)
            && AllDemoted(right.beats[1..], bar.beats[c..])
  {
    var bars, bar := timeline.bars, timeline.bars[k];
    FoundAt(BarIds(bars), k, edit.barId);
    BeatsAreCut(bar.beats, c, edit.atSample);
    var right := RightHalf(bar, edit);
    assert right.beats[1..] == Ordinaries(bar.beats[c..]);
  }

  lemma BeatAtTheCut(timeline: Timeline, edit: Operation, k: nat, beat: Beat)
    requires edit.SplitBar? && Distinct(BarIds(timeline.bars)) && k < |timeline.bars|
    requires timeline.bars[k].id == edit.barId && beat in timeline.bars[k].beats && beat.atSample == edit.atSample
    ensures EditTimeline(timeline, edit).Err?
  {
    FoundAt(BarIds(timeline.bars), k, edit.barId);
  }

  lemma BarsAreMerged(timeline: Timeline, left: Id, right: Id, meter: Meter, status: BarStatus, k: nat)
    requires Distinct(BarIds(timeline.bars)) && k + 1 < |timeline.bars|
    requires timeline.bars[k].id == left && timeline.bars[k + 1].id == right
    ensures var bars, a, b := timeline.bars, timeline.bars[k], timeline.bars[k + 1];
            var result := EditTimeline(timeline, MergeBars(left, right, meter, status));
            && result.Ok? && result.value == timeline.(bars := result.value.bars)
            && |result.value.bars| == |bars| - 1
            && var merged := result.value.bars[k];
            && result.value.bars == bars[..k] + [merged] + bars[k + 2..]
            && merged.id == left && merged.startSample == a.startSample && merged.endSample == b.endSample
            && merged.meter == meter && merged.status == status
            && |merged.beats| == |a.beats| + |b.beats| && merged.beats[..|a.beats|] == a.beats
            && AllDemoted(merged.beats[|a.beats|..], b.beats)
  {
    var bars, a, b := timeline.bars, timeline.bars[k], timeline.bars[k + 1];
    FoundAt(BarIds(bars), k, left);
    FoundAt(BarIds(bars), k + 1, right);
    var merged := Merged(a, b, meter, status);
    assert merged.beats[|a.beats|..] == Ordinaries(b.beats);
  }

  // ----- sections

  lemma ReplacedLabel(timeline: Timeline, regionId: Id, sectionLabel: SectionLabel, k: nat)
    requires Distinct(SectionIds(timeline.sectionRegions)) && k < |timeline.sectionRegions|
    requires timeline.sectionRegions[k].id == regionId
    ensures var before := timeline.sectionRegions[k];
            var after := SectionRegion(regionId, before.startSample, before.endSample, sectionLabel, UserAuthored);
            EditTimeline(timeline, ReplaceSectionLabel(regionId, sectionLabel))
            == Ok(timeline.(sectionRegions := timeline.sectionRegions[k := after]))
  {
    FoundAt(SectionIds(timeline.sectionRegions), k, regionId);
  }

  lemma NoLabelToReplace(timeline: Timeline, regionId: Id, sectionLabel: SectionLabel)
    requires forall region :: region in timeline.sectionRegions ==> region.id != regionId
    ensures EditTimeline(timeline, ReplaceSectionLabel(regionId, sectionLabel)).Err?
  {
  }

  // ----- lyrics

  lemma RetimedToken(alignment: LyricsAlignment, tokenId: Id, timing: Timing, k: nat)
    requires Distinct(Targets(alignment.occurrences)) && k < |alignment.occurrences|
    requires alignment.occurrences[k].target == tokenId
    ensures EditAlignment(alignment, SetLyricsTiming(alignment.id, tokenId, timing))
            == Ok(alignment.(occurrences := alignment.occurrences[k := Occurrence(tokenId, timing)]))
  {
    FoundAt(Targets(alignment.occurrences), k, tokenId);
  }

  lemma RetimedLine(alignment: LyricsAlignment, lineId: Id, timing: Timing, k: nat)
    requires Distinct(Targets(alignment.lineOccurrences)) && k < |alignment.lineOccurrences|
    requires alignment.lineOccurrences[k].target == lineId
    ensures EditAlignment(alignment, SetLyricsLineTiming(alignment.id, lineId, timing))
            == Ok(alignment.(lineOccurrences := alignment.lineOccurrences[k := Occurrence(lineId, timing)]))
  {
    FoundAt(Targets(alignment.lineOccurrences), k, lineId);
  }

  lemma NothingToRetime(alignment: LyricsAlignment, id: Id, timing: Timing)
    ensures (forall occurrence :: occurrence in alignment.occurrences ==> occurrence.target != id) ==>
              EditAlignment(alignment, SetLyricsTiming(alignment.id, id, timing)).Err?
    ensures (forall occurrence :: occurrence in alignment.lineOccurrences ==> occurrence.target != id) ==>
              EditAlignment(alignment, SetLyricsLineTiming(alignment.id, id, timing)).Err?
  {
  }

  /** Edits of a timeline leave lyrics alone, lyrics timings the timeline and other alignments, and anchors both. */
  lemma OthersStay(state: Effective, edit: Operation)
    ensures edit.SetLyricsAnchor? || edit.RemoveLyricsAnchor? ==> Edit(state, edit) == Ok(state)
    ensures (edit.SetLyricsTiming? || edit.SetLyricsLineTiming?)
            && (state.alignment == None || state.alignment.value.id != edit.alignmentId) ==>
              Edit(state, edit) == Ok(state)
    ensures edit.SetLyricsTiming? || edit.SetLyricsLineTiming? ==>
              && (Edit(state, edit).Ok? <==> state.alignment == None || EditAlignment(state.alignment.value, edit).Ok?)
              && (Edit(state, edit).Ok? ==>
                    && Edit(state, edit).value.timeline == state.timeline
                    && (state.alignment.Some? ==>
                          Edit(state, edit).value.alignment == Some(EditAlignment(state.alignment.value, edit).value)))
    ensures !edit.SetLyricsTiming? && !edit.SetLyricsLineTiming? ==>
              && (Edit(state, edit).Ok? <==> EditTimeline(state.timeline, edit).Ok?)
              && (Edit(state, edit).Ok? ==>
                    Edit(state, edit).value == Effective(EditTimeline(state.timeline, edit).value, state.alignment))
  {
  }

  // ----- valid timelines

  lemma {:induction false} BeatIsAmongAll(bars: seq<Bar>, k: nat, j: nat) returns (p: nat)
    requires k < |bars| && j < |bars[k].beats|
    ensures p < |AllBeats(bars)| && AllBeats(bars)[p] == bars[k].beats[j]
    ensures k > 0 ==> p >= |bars[0].beats|
  {
    if k == 0 {
      p := j;
    } else {
      var q := BeatIsAmongAll(bars[1..], k - 1, j);
      p := |bars[0].beats| + q;
    }
  }

  lemma FirstBarApart(bars: seq<Bar>, j: nat, l: nat, i: nat)
    requires Distinct(BeatIds(AllBeats(bars))) && bars != [] && j < |bars[0].beats|
    requires 0 < l < |bars| && i < |bars[l].beats|
    ensures bars[0].beats[j].id != bars[l].beats[i].id
  {
    var q := BeatIsAmongAll(bars, l, i);
    assert AllBeats(bars)[j] == bars[0].beats[j];
    assert BeatIds(AllBeats(bars))[j] != BeatIds(AllBeats(bars))[q];
  }

  lemma {:induction false} AllBeatsDistinct(bars: seq<Bar>)
    requires Distinct(BeatIds(AllBeats(bars)))
    ensures BeatsAreDistinct(bars)
  {
    if bars != [] {
      var all, rest := AllBeats(bars), AllBeats(bars[1..]);
      assert forall p :: 0 <= p < |rest| ==> BeatIds(rest)[p] == BeatIds(all)[|bars[0].beats| + p];
      AllBeatsDistinct(bars[1..]);
      forall k, j, l, i | 0 <= k < |bars| && 0 <= j < |bars[k].beats| && 0 <= l < |bars| && 0 <= i < |bars[l].beats|
                          && bars[k].beats[j].id == bars[l].beats[i].id
        ensures k == l && j == i
      {
        if k == 0 && l == 0 {
          assert BeatIds(all)[j] == BeatIds(all)[i];
        } else if k == 0 {
          FirstBarApart(bars, j, l, i);
        } else if l == 0 {
          FirstBarApart(bars, i, k, j);
        } else {
          assert bars[k] == bars[1..][k - 1] && bars[l] == bars[1..][l - 1];
        }
      }
    }
  }

  /** What is said of edits above holds in every valid timeline: its ids are distinct, those of beats in all bars. */
  lemma ValidTimelinesQualify(timeline: Timeline, duration: nat)
    requires ValidTimeline(timeline, duration)
    ensures Distinct(ChordIds(timeline.chordEvents)) && Distinct(BarIds(timeline.bars))
            && Distinct(SectionIds(timeline.sectionRegions)) && BeatsAreDistinct(timeline.bars)
  {
    AllBeatsDistinct(timeline.bars);
  }

  /** A sample cuts the beats of a valid bar in two, unless a beat is there. */
  lemma ValidBarsCanBeCut(bar: Bar, atSample: nat) returns (c: nat)
    requires ValidBar(bar) && forall beat :: beat in bar.beats ==> beat.atSample != atSample
    ensures CutBetween(bar.beats, c, atSample)
  {
    c := CutAmong(bar, atSample, |bar.beats|);
    assert bar.beats[..|bar.beats|] == bar.beats;
  }

  lemma {:induction false} CutAmong(bar: Bar, atSample: nat, n: nat) returns (c: nat)
    requires ValidBar(bar) && n <= |bar.beats| && forall beat :: beat in bar.beats ==> beat.atSample != atSample
    ensures CutBetween(bar.beats[..n], c, atSample)
    ensures n > 0 && bar.beats[n - 1].atSample < atSample ==> c == n
  {
    if n == 0 {
      c := 0;
    } else {
      var before := CutAmong(bar, atSample, n - 1);
      assert bar.beats[n - 1] in bar.beats && BeatFits(bar, n - 1);
      c := if bar.beats[n - 1].atSample < atSample then n else before;
    }
  }
}
