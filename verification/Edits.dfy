/**
 Edit operations: what each one means for a timeline or a lyrics alignment, and the procedure that
 carries them out in place.
*/
module Edits {
  import opened Wrappers
  import opened Sequences
  import opened Schema

  // ----- chords

  /** An event keeps its assertion only when neither its interval nor its value changed. */
  function Authored(draft: ChordDraft, original: ChordEvent): ChordEvent {
    var changed := original.startSample != draft.startSample || original.endSample != draft.endSample
                   || original.value != draft.value;
    ChordEvent(draft.id, draft.startSample, draft.endSample, draft.value,
               if changed then UserAuthored else original.assertion)
  }

  function SpanAt<T>(s: seq<T>, index: nat, length: nat): seq<T> {
    if index + length <= |s| then s[index..index + length] else if index <= |s| then s[index..] else []
  }

  /** The saved span that a chord sequence edit names, if it names one. */
  function NamedSpan(events: seq<ChordEvent>, targets: seq<Id>): (span: Option<nat>)
    ensures span.Some? ==>
              0 < |targets| <= |events| - span.value && ChordIds(SpanAt(events, span.value, |targets|)) == targets
  {
    if targets == [] then None
    else
      var index := Find(ChordIds(events), targets[0]);
      if index < 0 || ChordIds(SpanAt(events, index, |targets|)) != targets then None
      else
        assert |SpanAt(events, index, |targets|)| == |targets|;
        Some(index)
  }

  /** The new events are the old ones by identity, with the same outer boundaries. */
  ghost predicate KeepsIdentityAndBounds(previous: seq<ChordEvent>, drafts: seq<ChordDraft>) {
    && |drafts| == |previous| > 0
    && Distinct(DraftIds(drafts))
    && (forall draft :: draft in drafts ==> draft.id in ChordIds(previous))
    && drafts[0].startSample == previous[0].startSample
    && drafts[|drafts| - 1].endSample == previous[|previous| - 1].endSample
  }

  function Redraw(previous: seq<ChordEvent>, drafts: seq<ChordDraft>): (r: seq<ChordEvent>)
    requires forall draft :: draft in drafts ==> draft.id in ChordIds(previous)
    ensures |r| == |drafts|
    ensures forall k :: 0 <= k < |drafts| ==>
              r[k] == Authored(drafts[k], previous[Find(ChordIds(previous), drafts[k].id)])
  {
    if drafts == [] then []
    else
      var last := drafts[|drafts| - 1];
      Redraw(previous, drafts[..|drafts| - 1]) + [Authored(last, previous[Find(ChordIds(previous), last.id)])]
  }

  /** Array splice: `count` items at `index` make way for others. */
  function Splice<T>(s: seq<T>, index: nat, count: nat, items: seq<T>): seq<T>
    requires index + count <= |s|
  {
    s[..index] + items + s[index + count..]
  }

  ghost function ReplaceChords(events: seq<ChordEvent>, targets: seq<Id>,
                               drafts: seq<ChordDraft>): Result<seq<ChordEvent>> {
    var span := NamedSpan(events, targets);
    if span == None then Err
    else
      var previous := SpanAt(events, span.value, |targets|);
      if KeepsIdentityAndBounds(previous, drafts)
      then Ok(Splice(events, span.value, |targets|, Redraw(previous, drafts)))
      else Err
  }

  // ----- bars

  /** Positions of two neighbours named left to right. */
  predicate Adjacent(ids: seq<Id>, left: Id, right: Id) {
    Find(ids, left) >= 0 && Find(ids, right) == Find(ids, left) + 1
  }

  ghost function MoveBeatIn(bars: seq<Bar>, beatId: Id, atSample: nat): Result<seq<Bar>> {
    if bars == [] then Err
    else
      var bar := bars[0];
      var index := Find(BeatIds(bar.beats), beatId);
      if index >= 0 then
        Ok([bar.(beats := bar.beats[index := bar.beats[index].(atSample := atSample)])] + bars[1..])
      else
        var rest := MoveBeatIn(bars[1..], beatId, atSample);
        if rest.Err? then Err else Ok([bar] + rest.value)
  }

  /** One step of the search through the bars. */
  lemma MoveBeatStep(bars: seq<Bar>, n: nat, beatId: Id, atSample: nat)
    requires n < |bars|
    ensures var bar := bars[n];
            var index := Find(BeatIds(bar.beats), beatId);
            var here, later := MoveBeatIn(bars[n..], beatId, atSample), MoveBeatIn(bars[n + 1..], beatId, atSample);
            if index >= 0 then
              here.Ok? && bars[..n] + here.value
                          == bars[n := bar.(beats := bar.beats[index := bar.beats[index].(atSample := atSample)])]
            else
              && (here.Ok? <==> later.Ok?)
              && (here.Ok? ==> bars[..n] + here.value == bars[..n + 1] + later.value)
  {
    assert bars[n..][1..] == bars[n + 1..];
  }

  function BeatsBefore(beats: seq<Beat>, atSample: nat): seq<Beat> {
    if beats == [] then []
    else if beats[0].atSample < atSample then [beats[0]] + BeatsBefore(beats[1..], atSample)
    else BeatsBefore(beats[1..], atSample)
  }

  function BeatsAfter(beats: seq<Beat>, atSample: nat): seq<Beat> {
    if beats == [] then []
    else if beats[0].atSample > atSample then [beats[0]] + BeatsAfter(beats[1..], atSample)
    else BeatsAfter(beats[1..], atSample)
  }

  function Ordinary(beat: Beat): Beat { beat.(role := OrdinaryBeat) }

  function Ordinaries(beats: seq<Beat>): seq<Beat> { Map(Ordinary, beats) }

  /** The two halves of a bar cut at a sample. */
  function LeftHalf(bar: Bar, edit: Operation): Bar
    requires edit.SplitBar?
  {
    bar.(beats := BeatsBefore(bar.beats, edit.atSample), endSample := edit.atSample, status := edit.leftStatus)
  }

  function RightHalf(bar: Bar, edit: Operation): Bar
    requires edit.SplitBar?
  {
    Bar(edit.newBarId, edit.atSample, bar.endSample,
        [Beat(edit.newDownbeatId, edit.atSample, Downbeat)] + Ordinaries(BeatsAfter(bar.beats, edit.atSample)),
        edit.rightMeter, edit.rightStatus)
  }

  /** Two bars as one: the right downbeat becomes an ordinary beat. */
  function Merged(left: Bar, right: Bar, meter: Meter, status: BarStatus): Bar {
    left.(endSample := right.endSample, beats := left.beats + Ordinaries(right.beats), meter := meter, status := status)
  }

  ghost function MoveBarBoundaryIn(bars: seq<Bar>, left: Id, right: Id, atSample: nat): Result<seq<Bar>> {
    if !Adjacent(BarIds(bars), left, right) then Err
    else
      var index := Find(BarIds(bars), left);
      var next := bars[index + 1];
      if next.beats == [] then Err
      else Ok(bars[index := bars[index].(endSample := atSample)]
                  [index + 1 := next.(startSample := atSample,
                                      beats := next.beats[0 := next.beats[0].(atSample := atSample)])])
  }

  ghost function SetMeterIn(bars: seq<Bar>, barId: Id, meter: Meter): Result<seq<Bar>> {
    var index := Find(BarIds(bars), barId);
    if index < 0 then Err else Ok(bars[index := bars[index].(meter := meter)])
  }

  ghost function SplitBarIn(bars: seq<Bar>, edit: Operation): Result<seq<Bar>>
    requires edit.SplitBar?
  {
    var index := Find(BarIds(bars), edit.barId);
    if index < 0 || (exists beat :: beat in bars[index].beats && beat.atSample == edit.atSample) then Err
    else Ok(bars[..index] + [LeftHalf(bars[index], edit), RightHalf(bars[index], edit)] + bars[index + 1..])
  }

  ghost function MergeBarsIn(bars: seq<Bar>, left: Id, right: Id, meter: Meter, status: BarStatus): Result<seq<Bar>> {
    if !Adjacent(BarIds(bars), left, right) then Err
    else
      var index := Find(BarIds(bars), left);
      Ok(bars[..index] + [Merged(bars[index], bars[index + 1], meter, status)] + bars[index + 2..])
  }

  predicate EditsBars(edit: Operation) {
    edit.MoveBeat? || edit.MoveBarBoundary? || edit.SetBarMeter? || edit.SplitBar? || edit.MergeBars?
  }

  ghost function EditBars(bars: seq<Bar>, edit: Operation): Result<seq<Bar>>
    requires EditsBars(edit)
  {
    match edit
    case MoveBeat(beatId, atSample) => MoveBeatIn(bars, beatId, atSample)
    case MoveBarBoundary(left, right, atSample) => MoveBarBoundaryIn(bars, left, right, atSample)
    case SetBarMeter(barId, meter) => SetMeterIn(bars, barId, meter)
    case SplitBar(_, _, _, _, _, _, _) => SplitBarIn(bars, edit)
    case MergeBars(left, right, meter, status) => MergeBarsIn(bars, left, right, meter, status)
  }

  ghost function ReplaceValueIn(events: seq<ChordEvent>, eventId: Id, value: ChordValue): Result<seq<ChordEvent>> {
    var index := Find(ChordIds(events), eventId);
    if index < 0 then Err
    else Ok(events[index := events[index].(value := value, assertion := UserAuthored)])
  }

  ghost function MoveChordBoundaryIn(events: seq<ChordEvent>, left: Id, right: Id,
                                     atSample: nat): Result<seq<ChordEvent>> {
    if !Adjacent(ChordIds(events), left, right) then Err
    else
      var index := Find(ChordIds(events), left);
      Ok(events[index := events[index].(endSample := atSample)]
               [index + 1 := events[index + 1].(startSample := atSample)])
  }

  predicate EditsChords(edit: Operation) {
    edit.ReplaceChordSequence? || edit.ReplaceChordValue? || edit.MoveChordBoundary?
  }

  ghost function EditChords(events: seq<ChordEvent>, edit: Operation): Result<seq<ChordEvent>>
    requires EditsChords(edit)
  {
    match edit
    case ReplaceChordSequence(targets, drafts) => ReplaceChords(events, targets, drafts)
    case ReplaceChordValue(eventId, value) => ReplaceValueIn(events, eventId, value)
    case MoveChordBoundary(left, right, atSample) => MoveChordBoundaryIn(events, left, right, atSample)
  }

  ghost function RelabelIn(regions: seq<SectionRegion>, regionId: Id,
                           sectionLabel: SectionLabel): Result<seq<SectionRegion>> {
    var index := Find(SectionIds(regions), regionId);
    if index < 0 then Err
    else Ok(regions[index := regions[index].(sectionLabel := sectionLabel, assertion := UserAuthored)])
  }

  /** What an operation means for a timeline. Lyrics edits leave it alone; nothing edits keys or unmetered regions. */
  ghost function EditTimeline(timeline: Timeline, edit: Operation): Result<Timeline> {
    if EditsBars(edit) then
      var bars := EditBars(timeline.bars, edit);
      if bars.Err? then Err else Ok(timeline.(bars := bars.value))
    else if EditsChords(edit) then
      var events := EditChords(timeline.chordEvents, edit);
      if events.Err? then Err else Ok(timeline.(chordEvents := events.value))
    else if edit.ReplaceSectionLabel? then
      var regions := RelabelIn(timeline.sectionRegions, edit.regionId, edit.sectionLabel);
      if regions.Err? then Err else Ok(timeline.(sectionRegions := regions.value))
    else Ok(timeline)
  }

  // ----- lyrics timing

  predicate EditsLyrics(edit: Operation) {
    edit.SetLyricsTiming? || edit.SetLyricsLineTiming?
  }

  ghost function Retimed(occurrences: seq<Occurrence>, target: Id, timing: Timing): Result<seq<Occurrence>> {
    var index := Find(Targets(occurrences), target);
    if index < 0 then Err else Ok(occurrences[index := occurrences[index].(timing := timing)])
  }

  /** What an operation means for one alignment: nothing, unless it names that alignment. */
  ghost function EditAlignment(alignment: LyricsAlignment, edit: Operation): Result<LyricsAlignment> {
    match edit
    case SetLyricsTiming(alignmentId, tokenId, timing) =>
      if alignmentId != alignment.id then Ok(alignment)
      else
        var occurrences := Retimed(alignment.occurrences, tokenId, timing);
        if occurrences.Err? then Err else Ok(alignment.(occurrences := occurrences.value))
    case SetLyricsLineTiming(alignmentId, lineId, timing) =>
      if alignmentId != alignment.id then Ok(alignment)
      else
        var occurrences := Retimed(alignment.lineOccurrences, lineId, timing);
        if occurrences.Err? then Err else Ok(alignment.(lineOccurrences := occurrences.value))
    case _ => Ok(alignment)
  }

  /** A timeline and the alignment selected with it. */
  datatype Effective = Effective(timeline: Timeline, alignment: Option<LyricsAlignment>)

  ghost function Edit(state: Effective, edit: Operation): Result<Effective> {
    var timeline := EditTimeline(state.timeline, edit);
    if timeline.Err? then Err
    else if state.alignment == None then Ok(state.(timeline := timeline.value))
    else
      var alignment := EditAlignment(state.alignment.value, edit);
      if alignment.Err? then Err else Ok(Effective(timeline.value, Some(alignment.value)))
  }

  /** Operations one after another; the first that throws ends the run. */
  ghost function EditAll(state: Effective, edits: seq<Operation>): Result<Effective> {
    if edits == [] then Ok(state)
    else
      var before := EditAll(state, edits[..|edits| - 1]);
      if before.Err? then Err else Edit(before.value, edits[|edits| - 1])
  }

  // ----- in place

  /** A timeline whose tracks are edited in place. */
  class MutableTimeline {
    var bars: seq<Bar>
    var chordEvents: seq<ChordEvent>
    var keyRegions: seq<KeyRegion>
    var sectionRegions: seq<SectionRegion>
    var unmeteredRegions: seq<UnmeteredRegion>

    function Value(): Timeline
      reads this
    {
      Timeline(bars, chordEvents, keyRegions, sectionRegions, unmeteredRegions)
    }

    constructor Clone(timeline: Timeline)
      ensures Value() == timeline
    {
      bars := timeline.bars;
      chordEvents := timeline.chordEvents;
      keyRegions := timeline.keyRegions;
      sectionRegions := timeline.sectionRegions;
      unmeteredRegions := timeline.unmeteredRegions;
    }

    /** Searches all beats, bar by bar. */
    method MoveBeat(beatId: Id, atSample: nat) returns (ok: bool)
      modifies this`bars
      ensures ok <==> MoveBeatIn(old(bars), beatId, atSample).Ok?
      ensures ok ==> bars == MoveBeatIn(old(bars), beatId, atSample).value
    {
      ghost var answer := MoveBeatIn(bars, beatId, atSample);
      for n := 0 to |bars|
        invariant bars == old(bars)
        invariant answer.Ok? <==> MoveBeatIn(bars[n..], beatId, atSample).Ok?
        invariant answer.Ok? ==> answer.value == bars[..n] + MoveBeatIn(bars[n..], beatId, atSample).value
      {
        var bar := bars[n];
        var index := Find(BeatIds(bar.beats), beatId);
        MoveBeatStep(bars, n, beatId, atSample);
        if index >= 0 {
          bars := bars[n := bar.(beats := bar.beats[index := bar.beats[index].(atSample := atSample)])];
          return true;
        }
      }
      return false;
    }

    method RedrawAll(previous: seq<ChordEvent>, drafts: seq<ChordDraft>) returns (redrawn: seq<ChordEvent>)
      requires forall draft :: draft in drafts ==> draft.id in ChordIds(previous)
      ensures redrawn == Redraw(previous, drafts)
    {
      redrawn := [];
      for n := 0 to |drafts|
        invariant redrawn == Redraw(previous, drafts[..n])
      {
        var original := previous[Find(ChordIds(previous), drafts[n].id)];
        redrawn := redrawn + [Authored(drafts[n], original)];
        assert drafts[..n + 1][..n] == drafts[..n];
      }
      assert drafts[..|drafts|] == drafts;
    }

    method PreservesSpan(previous: seq<ChordEvent>, targets: seq<Id>, drafts: seq<ChordDraft>) returns (ok: bool)
      requires |previous| > 0 && ChordIds(previous) == targets
      ensures ok <==> KeepsIdentityAndBounds(previous, drafts)
    {
      var ids: set<Id> := set draft | draft in drafts :: draft.id;
      SetSizeDecidesDistinct(drafts);
      if |ids| != |previous| || |drafts| != |previous| || exists draft | draft in drafts :: draft.id !in targets {
        return false;
      }
      return drafts[0].startSample == previous[0].startSample
             && drafts[|drafts| - 1].endSample == previous[|previous| - 1].endSample;
    }

    method ReplaceChordSequence(targets: seq<Id>, drafts: seq<ChordDraft>) returns (ok: bool)
      modifies this`chordEvents
      ensures ok <==> ReplaceChords(old(chordEvents), targets, drafts).Ok?
      ensures ok ==> chordEvents == ReplaceChords(old(chordEvents), targets, drafts).value
    {
      var span := NamedSpan(chordEvents, targets);
      if span == None {
        return false;
      }
      var previous := SpanAt(chordEvents, span.value, |targets|);
      var keeps := PreservesSpan(previous, targets, drafts);
      if !keeps {
        return false;
      }
      var redrawn := RedrawAll(previous, drafts);
      chordEvents := Splice(chordEvents, span.value, |targets|, redrawn);
      return true;
    }

    method SplitBar(edit: Operation) returns (ok: bool)
      requires edit.SplitBar?
      modifies this`bars
      ensures ok <==> SplitBarIn(old(bars), edit).Ok?
      ensures ok ==> bars == SplitBarIn(old(bars), edit).value
    {
      var index := Find(BarIds(bars), edit.barId);
      if index < 0 {
        return false;
      }
      var bar := bars[index];
      if exists beat | beat in bar.beats :: beat.atSample == edit.atSample {
        return false;
      }
      var originalEnd := bar.endSample;
      var rightBeats := BeatsAfter(bar.beats, edit.atSample);
      bar := bar.(beats := BeatsBefore(bar.beats, edit.atSample));
      bar := bar.(endSample := edit.atSample);
      bar := bar.(status := edit.leftStatus);
      var right := Bar(edit.newBarId, edit.atSample, originalEnd,
                       [Beat(edit.newDownbeatId, edit.atSample, Downbeat)] + Ordinaries(rightBeats),
                       edit.rightMeter, edit.rightStatus);
      bars := bars[..index] + [bar, right] + bars[index + 1..];
      return true;
    }

    /** A throw for a missing downbeat leaves the boundary half moved. */
    method MoveBarBoundary(left: Id, right: Id, atSample: nat) returns (ok: bool)
      modifies this`bars
      ensures ok <==> MoveBarBoundaryIn(old(bars), left, right, atSample).Ok?
      ensures ok ==> bars == MoveBarBoundaryIn(old(bars), left, right, atSample).value
    {
      var leftIndex := Find(BarIds(bars), left);
      var rightIndex := Find(BarIds(bars), right);
      if leftIndex < 0 || rightIndex != leftIndex + 1 {
        return false;
      }
      bars := bars[leftIndex := bars[leftIndex].(endSample := atSample)];
      bars := bars[rightIndex := bars[rightIndex].(startSample := atSample)];
      var beats := bars[rightIndex].beats;
      if |beats| == 0 {
        return false;
      }
      bars := bars[rightIndex := bars[rightIndex].(beats := beats[0 := beats[0].(atSample := atSample)])];
      return true;
    }

    method SetBarMeter(barId: Id, meter: Meter) returns (ok: bool)
      modifies this`bars
      ensures ok <==> SetMeterIn(old(bars), barId, meter).Ok?
      ensures ok ==> bars == SetMeterIn(old(bars), barId, meter).value
    {
      var index := Find(BarIds(bars), barId);
      if index < 0 {
        return false;
      }
      bars := bars[index := bars[index].(meter := meter)];
      return true;
    }

    method MergeBars(leftId: Id, rightId: Id, meter: Meter, status: BarStatus) returns (ok: bool)
      modifies this`bars
      ensures ok <==> MergeBarsIn(old(bars), leftId, rightId, meter, status).Ok?
      ensures ok ==> bars == MergeBarsIn(old(bars), leftId, rightId, meter, status).value
    {
      var leftIndex := Find(BarIds(bars), leftId);
      var rightIndex := Find(BarIds(bars), rightId);
      if leftIndex < 0 || rightIndex != leftIndex + 1 {
        return false;
      }
      var left, right := bars[leftIndex], bars[rightIndex];
      left := left.(endSample := right.endSample);
      left := left.(beats := left.beats + Ordinaries(right.beats));
      left := left.(meter := meter, status := status);
      bars := bars[leftIndex := left];
      bars := bars[..rightIndex] + bars[rightIndex + 1..];
      return true;
    }

    method EditBarsInPlace(edit: Operation) returns (ok: bool)
      requires EditsBars(edit)
      modifies this`bars
      ensures ok <==> EditBars(old(bars), edit).Ok?
      ensures ok ==> bars == EditBars(old(bars), edit).value
    {
      match edit {
        case MoveBeat(beatId, atSample) => ok := MoveBeat(beatId, atSample);
        case MoveBarBoundary(left, right, atSample) => ok := MoveBarBoundary(left, right, atSample);
        case SetBarMeter(barId, meter) => ok := SetBarMeter(barId, meter);
        case SplitBar(_, _, _, _, _, _, _) => ok := SplitBar(edit);
        case MergeBars(left, right, meter, status) => ok := MergeBars(left, right, meter, status);
      }
    }

    method ReplaceChordValue(eventId: Id, value: ChordValue) returns (ok: bool)
      modifies this`chordEvents
      ensures ok <==> ReplaceValueIn(old(chordEvents), eventId, value).Ok?
      ensures ok ==> chordEvents == ReplaceValueIn(old(chordEvents), eventId, value).value
    {
      var index := Find(ChordIds(chordEvents), eventId);
      if index < 0 {
        return false;
      }
      chordEvents := chordEvents[index := chordEvents[index].(value := value)];
      chordEvents := chordEvents[index := chordEvents[index].(assertion := UserAuthored)];
      return true;
    }

    method MoveChordBoundary(left: Id, right: Id, atSample: nat) returns (ok: bool)
      modifies this`chordEvents
      ensures ok <==> MoveChordBoundaryIn(old(chordEvents), left, right, atSample).Ok?
      ensures ok ==> chordEvents == MoveChordBoundaryIn(old(chordEvents), left, right, atSample).value
    {
      var leftIndex := Find(ChordIds(chordEvents), left);
      var rightIndex := Find(ChordIds(chordEvents), right);
      if leftIndex < 0 || rightIndex != leftIndex + 1 {
        return false;
      }
      chordEvents := chordEvents[leftIndex := chordEvents[leftIndex].(endSample := atSample)];
      chordEvents := chordEvents[rightIndex := chordEvents[rightIndex].(startSample := atSample)];
      return true;
    }

    method EditChordsInPlace(edit: Operation) returns (ok: bool)
      requires EditsChords(edit)
      modifies this`chordEvents
      ensures ok <==> EditChords(old(chordEvents), edit).Ok?
      ensures ok ==> chordEvents == EditChords(old(chordEvents), edit).value
    {
      match edit {
        case ReplaceChordSequence(targets, drafts) => ok := ReplaceChordSequence(targets, drafts);
        case ReplaceChordValue(eventId, value) => ok := ReplaceChordValue(eventId, value);
        case MoveChordBoundary(left, right, atSample) => ok := MoveChordBoundary(left, right, atSample);
      }
    }

    method ReplaceSectionLabel(regionId: Id, sectionLabel: SectionLabel) returns (ok: bool)
      modifies this`sectionRegions
      ensures ok <==> RelabelIn(old(sectionRegions), regionId, sectionLabel).Ok?
      ensures ok ==> sectionRegions == RelabelIn(old(sectionRegions), regionId, sectionLabel).value
    {
      var index := Find(SectionIds(sectionRegions), regionId);
      if index < 0 {
        return false;
      }
      sectionRegions := sectionRegions[index := sectionRegions[index].(sectionLabel := sectionLabel)];
      sectionRegions := sectionRegions[index := sectionRegions[index].(assertion := UserAuthored)];
      return true;
    }

    method EditInPlace(edit: Operation) returns (ok: bool)
      modifies this
      ensures ok <==> EditTimeline(old(Value()), edit).Ok?
      ensures ok ==> Value() == EditTimeline(old(Value()), edit).value
    {
      if EditsBars(edit) {
        ok := EditBarsInPlace(edit);
      } else if EditsChords(edit) {
        ok := EditChordsInPlace(edit);
      } else if edit.ReplaceSectionLabel? {
        ok := ReplaceSectionLabel(edit.regionId, edit.sectionLabel);
      } else {
        ok := true;
      }
    }
  }

  /** Counting the distinct ids is enough to see whether any repeats. */
  lemma SetSizeDecidesDistinct(drafts: seq<ChordDraft>)
    ensures |set draft | draft in drafts :: draft.id| == |drafts| <==> Distinct(DraftIds(drafts))
  {
    assert (set draft | draft in drafts :: draft.id) == Elements(DraftIds(drafts)) by {
      assert forall draft :: draft in drafts ==> draft.id in DraftIds(drafts) by {
        forall draft | draft in drafts
          ensures draft.id in DraftIds(drafts)
        {
          var k :| 0 <= k < |drafts| && drafts[k] == draft;
          assert DraftIds(drafts)[k] == draft.id;
        }
      }
    }
    SizeDecidesDistinct(DraftIds(drafts));
  }

  lemma {:induction false} SizeDecidesDistinct<T>(s: seq<T>)
    ensures |Elements(s)| <= |s|
    ensures |Elements(s)| == |s| <==> Distinct(s)
  {
    if s != [] {
      var init, last := s[..|s| - 1], s[|s| - 1];
      SizeDecidesDistinct(init);
      assert s == init + [last];
      assert Elements(s) == Elements(init) + {last};
      if last in Elements(init) {
        var k :| 0 <= k < |init| && init[k] == last;
        assert s[k] == s[|s| - 1];
      }
    }
  }

  /** An alignment whose occurrences are retimed in place. */
  class MutableAlignment {
    const id: Id
    const lyricsDocumentId: Id
    const analysisRevisionId: Id
    const recipe: Option<Recipe>
    var occurrences: seq<Occurrence>
    var lineOccurrences: seq<Occurrence>

    function Value(): LyricsAlignment
      reads this
    {
      LyricsAlignment(id, lyricsDocumentId, analysisRevisionId, occurrences, lineOccurrences, recipe)
    }

    constructor Clone(alignment: LyricsAlignment)
      ensures Value() == alignment
    {
      id := alignment.id;
      lyricsDocumentId := alignment.lyricsDocumentId;
      analysisRevisionId := alignment.analysisRevisionId;
      recipe := alignment.recipe;
      occurrences := alignment.occurrences;
      lineOccurrences := alignment.lineOccurrences;
    }

    method EditInPlace(edit: Operation) returns (ok: bool)
      modifies this
      ensures ok <==> EditAlignment(old(Value()), edit).Ok?
      ensures ok ==> Value() == EditAlignment(old(Value()), edit).value
    {
      ok := true;
      match edit {
        case SetLyricsTiming(alignmentId, tokenId, timing) =>
          if id != alignmentId {
            return true;
          }
          var index := Find(Targets(occurrences), tokenId);
          if index < 0 {
            return false;
          }
          occurrences := occurrences[index := occurrences[index].(timing := timing)];
        case SetLyricsLineTiming(alignmentId, lineId, timing) =>
          if id != alignmentId {
            return true;
          }
          var index := Find(Targets(lineOccurrences), lineId);
          if index < 0 {
            return false;
          }
          lineOccurrences := lineOccurrences[index := lineOccurrences[index].(timing := timing)];
        case _ =>
      }
    }
  }

  ghost function ValueOf(timeline: MutableTimeline, alignment: MutableAlignment?): Effective
    reads timeline, alignment
  {
    Effective(timeline.Value(), if alignment == null then None else Some(alignment.Value()))
  }

  /** Carries out one operation in place; `ok` is false when the program throws. */
  method ApplyOperation(timeline: MutableTimeline, alignment: MutableAlignment?, edit: Operation) returns (ok: bool)
    modifies timeline, alignment
    ensures ok <==> Edit(old(ValueOf(timeline, alignment)), edit).Ok?
    ensures ok ==> ValueOf(timeline, alignment) == Edit(old(ValueOf(timeline, alignment)), edit).value
  {
    if EditsLyrics(edit) {
      ok := true;
      if alignment != null {
        ok := alignment.EditInPlace(edit);
      }
    } else {
      ok := timeline.EditInPlace(edit);
    }
  }
}
