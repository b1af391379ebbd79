/**
 The domain validators. Each is a loop that collects issues; here it answers whether there were none,
 and is proved to say so exactly when the record is well formed.
*/
module Invariants {
  import opened Sequences
  import opened Schema

  datatype Interval = Interval(startSample: nat, endSample: nat)

  // ----- tracks

  method ValidateUniqueIds(ids: seq<Id>) returns (ok: bool)
    ensures ok <==> Distinct(ids)
  {
    ok := true;
    var seen: set<Id> := {};
    for n := 0 to |ids|
      invariant seen == Elements(ids[..n])
      invariant ok <==> Distinct(ids[..n])
    {
      if ids[n] in seen {
        ok := false;
        var k :| 0 <= k < n && ids[k] == ids[n];
        assert ids[..n + 1][k] == ids[..n + 1][n];
      }
      assert ids[..n + 1] == ids[..n] + [ids[n]];
      seen := seen + {ids[n]};
    }
    assert ids[..|ids|] == ids;
  }

  /** Non-empty intervals laid end to end from sample 0 to the duration. */
  ghost predicate Tiles(track: seq<Interval>, duration: nat) {
    && track != []
    && track[0].startSample == 0
    && (forall i :: 0 <= i < |track| ==> track[i].startSample < track[i].endSample)
    && (forall i, j :: 0 <= i && j == i + 1 < |track| ==> track[i].endSample == track[j].startSample)
    && track[|track| - 1].endSample == duration
  }

  method ValidateCover(track: seq<Interval>, duration: nat) returns (ok: bool)
    ensures ok <==> Tiles(track, duration)
  {
    if |track| == 0 {
      return false;
    }
    ok := true;
    var cursor := 0;
    for n := 0 to |track|
      invariant ok ==> cursor == EndOf(track[..n])
      invariant ok <==> n == 0 || Tiles(track[..n], EndOf(track[..n]))
    {
      var item := track[n];
      TilesSnoc(track[..n], item);
      assert track[..n + 1] == track[..n] + [item];
      if item.endSample <= item.startSample { ok := false; }
      if item.startSample < cursor { ok := false; }
      if item.startSample > cursor { ok := false; }
      cursor := if cursor > item.endSample then cursor else item.endSample;
    }
    assert track[..|track|] == track;
    if cursor != duration {
      ok := false;
    }
  }

  function EndOf(track: seq<Interval>): nat {
    if track == [] then 0 else track[|track| - 1].endSample
  }

  lemma TilesSnoc(track: seq<Interval>, item: Interval)
    ensures Tiles(track + [item], item.endSample) <==>
            && (track == [] || Tiles(track, EndOf(track)))
            && EndOf(track) == item.startSample < item.endSample
  {
    var all := track + [item];
    if Tiles(all, item.endSample) && track != [] {
      assert forall i :: 0 <= i < |track| ==> all[i] == track[i];
      assert all[|track| - 1].endSample == all[|track|].startSample;
    }
  }

  method ValidateOrdered(starts: seq<nat>) returns (ok: bool)
    ensures ok <==> StrictlyIncreasing(starts)
  {
    ok := true;
    var n := 1;
    while n < |starts|
      invariant n >= 1
      invariant ok <==> forall i :: 0 < i < n && i < |starts| ==> starts[i - 1] < starts[i]
    {
      if starts[n - 1] >= starts[n] {
        ok := false;
      }
      n := n + 1;
    }
    IncreasingByNeighbours(starts);
  }

  ghost predicate StrictlyIncreasing(s: seq<nat>) {
    forall i, j :: 0 <= i < j < |s| ==> s[i] < s[j]
  }

  lemma {:induction false} IncreasingByNeighbours(s: seq<nat>)
    ensures StrictlyIncreasing(s) <==> forall i :: 0 < i < |s| ==> s[i - 1] < s[i]
  {
    if |s| > 0 {
      var init := s[..|s| - 1];
      IncreasingByNeighbours(init);
      if forall i :: 0 < i < |s| ==> s[i - 1] < s[i] {
        forall i, j | 0 <= i < j < |s|
          ensures s[i] < s[j]
        {
          if j == |s| - 1 && i < j - 1 {
            assert init[i] < init[j - 1];
            assert s[j - 1] < s[j];
          }
        }
      }
    }
  }

  // ----- chord component lists

  /** The order of two strings by their characters. */
  predicate Precedes(left: string, right: string) {
    if right == [] then false
    else if left == [] then true
    else left[0] < right[0] || (left[0] == right[0] && Precedes(left[1..], right[1..]))
  }

  ghost predicate SortedUnique(values: seq<string>) {
    forall i :: 0 < i < |values| ==> Precedes(values[i - 1], values[i])
  }

  method ValidateSortedUnique(values: seq<string>) returns (ok: bool)
    ensures ok <==> SortedUnique(values)
  {
    ok := true;
    var n := 1;
    while n < |values|
      invariant n >= 1
      invariant ok <==> forall i :: 0 < i < n && i < |values| ==> Precedes(values[i - 1], values[i])
    {
      if !Precedes(values[n - 1], values[n]) {
        ok := false;
      }
      n := n + 1;
    }
  }

  ghost predicate ComponentsSorted(value: ChordValue) {
    value.Chord? ==>
      && SortedUnique(value.additions) && SortedUnique(value.alterations)
      && SortedUnique(value.extensions) && SortedUnique(value.omissions)
  }

  // ----- bars and beats

  ghost predicate BeatFits(bar: Bar, index: nat)
    requires index < |bar.beats|
  {
    var beat := bar.beats[index];
    && bar.startSample <= beat.atSample < bar.endSample
    && (index == 0 ==> beat.role == Downbeat && beat.atSample == bar.startSample)
    && (index > 0 ==> beat.role == OrdinaryBeat && bar.beats[index - 1].atSample < beat.atSample)
  }

  /** A downbeat at the start, later beats in order inside the bar, and a count that suits meter and status. */
  ghost predicate ValidBar(bar: Bar) {
    && Distinct(BeatIds(bar.beats))
    && (forall index :: 0 <= index < |bar.beats| ==> BeatFits(bar, index))
    && (bar.status == Complete ==> |bar.beats| == bar.meter.numerator)
    && |bar.beats| <= bar.meter.numerator
  }

  method ValidateBar(bar: Bar) returns (ok: bool)
    ensures ok <==> ValidBar(bar)
  {
    var unique := ValidateUniqueIds(BeatIds(bar.beats));
    ok := unique;
    for index := 0 to |bar.beats|
      invariant ok <==> unique && forall i :: 0 <= i < index ==> BeatFits(bar, i)
    {
      var beat := bar.beats[index];
      ghost var before := ok;
      if beat.atSample < bar.startSample || beat.atSample >= bar.endSample { ok := false; }
      if index == 0 && beat.role != Downbeat { ok := false; }
      if index == 0 && beat.atSample != bar.startSample { ok := false; }
      if index > 0 && beat.role != OrdinaryBeat { ok := false; }
      if index > 0 && beat.atSample <= bar.beats[index - 1].atSample { ok := false; }
      assert ok <==> before && BeatFits(bar, index);
    }
    if bar.status == Complete && |bar.beats| != bar.meter.numerator { ok := false; }
    if |bar.beats| > bar.meter.numerator { ok := false; }
  }

  // ----- the merged metered track

  function BarSpan(bar: Bar): Interval { Interval(bar.startSample, bar.endSample) }
  function UnmeteredSpan(region: UnmeteredRegion): Interval { Interval(region.startSample, region.endSample) }
  function ChordSpan(event: ChordEvent): Interval { Interval(event.startSample, event.endSample) }
  function SectionSpan(region: SectionRegion): Interval { Interval(region.startSample, region.endSample) }
  function KeySpan(region: KeyRegion): Interval { Interval(region.startSample, region.endSample) }
  function StartOf(span: Interval): int { span.startSample }

  function MeteredSpans(timeline: Timeline): seq<Interval> {
    Map(BarSpan, timeline.bars) + Map(UnmeteredSpan, timeline.unmeteredRegions)
  }

  /** In some order, the intervals tile the project. */
  ghost predicate CoverInSomeOrder(spans: seq<Interval>, duration: nat) {
    exists order: seq<Interval> :: multiset(order) == multiset(spans) && Tiles(order, duration)
  }

  lemma {:induction false} TilesAreSorted(track: seq<Interval>, duration: nat)
    requires Tiles(track, duration)
    ensures StrictlySortedBy(track, StartOf)
  {
    forall i, j | 0 <= i < j < |track|
      ensures StartOf(track[i]) < StartOf(track[j])
    {
      TileStartsIncrease(track, duration, i, j);
    }
  }

  lemma {:induction false} TileStartsIncrease(track: seq<Interval>, duration: nat, i: nat, j: nat)
    requires Tiles(track, duration) && i < j < |track|
    ensures track[i].endSample <= track[j].startSample
    decreases j
  {
    assert track[j - 1].endSample == track[j].startSample;
    if i < j - 1 {
      TileStartsIncrease(track, duration, i, j - 1);
    }
  }

  /**
   Sorting by start decides the question, however equal starts are ordered among themselves: the
   program breaks ties by id, and two intervals with one start never tile.
  */
  lemma AnySortedOrderDecides(sorted: seq<Interval>, spans: seq<Interval>, duration: nat)
    requires SortedBy(sorted, StartOf) && multiset(sorted) == multiset(spans)
    ensures Tiles(sorted, duration) <==> CoverInSomeOrder(spans, duration)
  {
    if order: seq<Interval> :| multiset(order) == multiset(spans) && Tiles(order, duration) {
      TilesAreSorted(order, duration);
      SortedOrderIsUnique(order, sorted, StartOf);
    }
  }

  // ----- the whole timeline

  function BarStarts(bars: seq<Bar>): seq<nat> { seq(|bars|, i requires 0 <= i < |bars| => bars[i].startSample) }
  function UnmeteredStarts(regions: seq<UnmeteredRegion>): seq<nat> {
    seq(|regions|, i requires 0 <= i < |regions| => regions[i].startSample)
  }

  ghost predicate ValidIds(timeline: Timeline) {
    && Distinct(BarIds(timeline.bars))
    && Distinct(Map(UnmeteredId, timeline.unmeteredRegions))
    && Distinct(ChordIds(timeline.chordEvents))
    && Distinct(SectionIds(timeline.sectionRegions))
    && Distinct(Map(KeyId, timeline.keyRegions))
    && Distinct(BeatIds(AllBeats(timeline.bars)))
  }

  ghost predicate ValidTracks(timeline: Timeline, duration: nat) {
    && StrictlyIncreasing(BarStarts(timeline.bars))
    && StrictlyIncreasing(UnmeteredStarts(timeline.unmeteredRegions))
    && Tiles(Map(ChordSpan, timeline.chordEvents), duration)
    && Tiles(Map(SectionSpan, timeline.sectionRegions), duration)
    && Tiles(Map(KeySpan, timeline.keyRegions), duration)
    && CoverInSomeOrder(MeteredSpans(timeline), duration)
  }

  ghost predicate ValidTimeline(timeline: Timeline, duration: nat) {
    && ValidIds(timeline)
    && ValidTracks(timeline, duration)
    && (forall bar :: bar in timeline.bars ==> ValidBar(bar))
    && (forall event :: event in timeline.chordEvents ==> ComponentsSorted(event.value))
  }

  lemma SpanIsInCover(timeline: Timeline, order: seq<Interval>, k: nat) returns (p: nat)
    requires multiset(order) == multiset(MeteredSpans(timeline)) && k < |timeline.bars|
    ensures p < |order| && order[p] == BarSpan(timeline.bars[k])
  {
    SamePermutation(order, MeteredSpans(timeline));
    assert MeteredSpans(timeline)[k] == BarSpan(timeline.bars[k]);
    assert BarSpan(timeline.bars[k]) in order;
    p :| p < |order| && order[p] == BarSpan(timeline.bars[k]);
  }

  /** Bars in a valid timeline do not overlap. */
  lemma BarsAreDisjoint(timeline: Timeline, duration: nat, i: nat, j: nat)
    requires ValidTracks(timeline, duration) && i < j < |timeline.bars|
    ensures timeline.bars[i].endSample <= timeline.bars[j].startSample
  {
    var order: seq<Interval> :| multiset(order) == multiset(MeteredSpans(timeline)) && Tiles(order, duration);
    var p := SpanIsInCover(timeline, order, i);
    var q := SpanIsInCover(timeline, order, j);
    assert BarStarts(timeline.bars)[i] < BarStarts(timeline.bars)[j];
    TilesAreSorted(order, duration);
    assert p < q;
    TileStartsIncrease(order, duration, p, q);
  }

  lemma BarsAreNotEmpty(timeline: Timeline, duration: nat, k: nat)
    requires ValidTracks(timeline, duration) && k < |timeline.bars|
    ensures timeline.bars[k].startSample < timeline.bars[k].endSample
  {
    var order: seq<Interval> :| multiset(order) == multiset(MeteredSpans(timeline)) && Tiles(order, duration);
    var p := SpanIsInCover(timeline, order, k);
  }

  method ValidateTimeline(timeline: Timeline, duration: nat) returns (ok: bool)
    ensures ok <==> ValidTimeline(timeline, duration)
  {
    var ids := ValidateTimelineIds(timeline);
    var tracks := ValidateTimelineTracks(timeline, duration);
    ok := ids && tracks;
    for n := 0 to |timeline.bars|
      invariant ok <==> ids && tracks && forall i :: 0 <= i < n ==> ValidBar(timeline.bars[i])
    {
      var fits := ValidateBar(timeline.bars[n]);
      ok := ok && fits;
    }
    ghost var before := ok;
    for n := 0 to |timeline.chordEvents|
      invariant ok <==> before && forall i :: 0 <= i < n ==> ComponentsSorted(timeline.chordEvents[i].value)
    {
      var value := timeline.chordEvents[n].value;
      if value.Chord? {
        var additions := ValidateSortedUnique(value.additions);
        var alterations := ValidateSortedUnique(value.alterations);
        var extensions := ValidateSortedUnique(value.extensions);
        var omissions := ValidateSortedUnique(value.omissions);
        ok := ok && additions && alterations && extensions && omissions;
      }
    }
  }

  method ValidateTimelineIds(timeline: Timeline) returns (ok: bool)
    ensures ok <==> ValidIds(timeline)
  {
    var bars := ValidateUniqueIds(BarIds(timeline.bars));
    var unmetered := ValidateUniqueIds(Map(UnmeteredId, timeline.unmeteredRegions));
    var chords := ValidateUniqueIds(ChordIds(timeline.chordEvents));
    var sections := ValidateUniqueIds(SectionIds(timeline.sectionRegions));
    var keys := ValidateUniqueIds(Map(KeyId, timeline.keyRegions));
    var beats := ValidateUniqueIds(BeatIds(AllBeats(timeline.bars)));
    ok := bars && unmetered && chords && sections && keys && beats;
  }

  method ValidateTimelineTracks(timeline: Timeline, duration: nat) returns (ok: bool)
    ensures ok <==> ValidTracks(timeline, duration)
  {
    var bars := ValidateOrdered(BarStarts(timeline.bars));
    var unmetered := ValidateOrdered(UnmeteredStarts(timeline.unmeteredRegions));
    var chords := ValidateCover(Map(ChordSpan, timeline.chordEvents), duration);
    var sections := ValidateCover(Map(SectionSpan, timeline.sectionRegions), duration);
    var keys := ValidateCover(Map(KeySpan, timeline.keyRegions), duration);
    var sorted := SortBy(MeteredSpans(timeline), StartOf);
    SortBySorts(MeteredSpans(timeline), StartOf);
    AnySortedOrderDecides(sorted, MeteredSpans(timeline), duration);
    var metered := ValidateCover(sorted, duration);
    ok := bars && unmetered && chords && sections && keys && metered;
  }

  // ----- lyrics alignments

  /** Matched timings are non-empty, in order, without overlap, and inside the project. */
  ghost predicate TimingsInOrder(timings: seq<Timing>, duration: nat) {
    && (forall i :: 0 <= i < |timings| && timings[i].Matched? ==>
          timings[i].startSample < timings[i].endSample <= duration)
    && (forall i, j :: 0 <= i < j < |timings| && timings[i].Matched? && timings[j].Matched? ==>
          timings[i].endSample <= timings[j].startSample)
  }

  function TimingOf(occurrence: Occurrence): Timing { occurrence.timing }
  function Timings(occurrences: seq<Occurrence>): seq<Timing> { Map(TimingOf, occurrences) }

  method ValidateTimingSequence(timings: seq<Timing>, duration: nat) returns (ok: bool)
    ensures ok <==> TimingsInOrder(timings, duration)
  {
    ok := true;
    var cursor := 0;
    ghost var last := -1;
    for n := 0 to |timings|
      invariant -1 <= last < n
      invariant last >= 0 ==> timings[last].Matched? && cursor == timings[last].endSample
      invariant last < 0 ==> cursor == 0
      invariant forall i :: last < i < n ==> !timings[i].Matched?
      invariant ok <==> TimingsInOrder(timings[..n], duration)
    {
      assert timings[..n + 1] == timings[..n] + [timings[n]];
      TimingsSnoc(timings[..n], timings[n], last, duration);
      if timings[n].Matched? {
        if timings[n].startSample < cursor { ok := false; }
        if timings[n].endSample <= timings[n].startSample { ok := false; }
        if timings[n].endSample > duration { ok := false; }
        cursor := timings[n].endSample;
        last := n;
      }
    }
    assert timings[..|timings|] == timings;
  }

  /** To extend a sequence, it is enough to look at its last matched timing. */
  lemma TimingsSnoc(timings: seq<Timing>, next: Timing, last: int, duration: nat)
    requires -1 <= last < |timings|
    requires last >= 0 ==> timings[last].Matched?
    requires forall i :: last < i < |timings| ==> !timings[i].Matched?
    ensures TimingsInOrder(timings + [next], duration) <==>
            && TimingsInOrder(timings, duration)
            && (next.Matched? ==>
                  && next.startSample < next.endSample <= duration
                  && (last >= 0 ==> timings[last].endSample <= next.startSample))
  {
    var all := timings + [next];
    if TimingsInOrder(all, duration) {
      assert forall i :: 0 <= i < |timings| ==> all[i] == timings[i];
      assert all[|timings|] == next;
    }
    if TimingsInOrder(timings, duration) && next.Matched? && last >= 0
       && timings[last].endSample <= next.startSample && next.startSample < next.endSample <= duration {
      forall i | 0 <= i < |timings| && timings[i].Matched?
        ensures timings[i].endSample <= next.startSample
      {
        assert timings[last].startSample < timings[last].endSample;
        assert i == last || i < last;
      }
    }
  }

  ghost predicate ValidAlignment(alignment: LyricsAlignment, document: LyricsDocument, duration: nat) {
    && Targets(alignment.occurrences) == TokenIds(document.tokens)
    && Targets(alignment.lineOccurrences) == LineIds(document.lines)
    && TimingsInOrder(Timings(alignment.occurrences), duration)
    && TimingsInOrder(Timings(alignment.lineOccurrences), duration)
  }

  method ValidateAlignment(alignment: LyricsAlignment, document: LyricsDocument, duration: nat) returns (ok: bool)
    ensures ok <==> ValidAlignment(alignment, document, duration)
  {
    var tokens := Targets(alignment.occurrences) == TokenIds(document.tokens);
    var lines := Targets(alignment.lineOccurrences) == LineIds(document.lines);
    var tokenTimings := ValidateTimingSequence(Timings(alignment.occurrences), duration);
    var lineTimings := ValidateTimingSequence(Timings(alignment.lineOccurrences), duration);
    ok := tokens && lines && tokenTimings && lineTimings;
  }
}
