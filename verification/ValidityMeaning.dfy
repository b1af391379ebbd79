/** What valid records are, said of samples, characters and the records that belong together. */
module ValidityMeaning {
  import opened Wrappers
  import opened Sequences
  import opened Schema
  import opened Invariants
  import opened Edits
  import opened Anchors
  import opened ProjectRules

  // ----- tracks

  predicate Inside(sample: nat, startSample: nat, endSample: nat) { startSample <= sample < endSample }

  ghost predicate Holds(track: seq<Interval>, i: int, sample: nat) {
    0 <= i < |track| && Inside(sample, track[i].startSample, track[i].endSample)
  }

  ghost predicate Covered(track: seq<Interval>, sample: nat) { exists i :: Holds(track, i, sample) }

  /** Every sample below the duration, and no other, is in an interval, and in no second one. */
  ghost predicate Partitions(track: seq<Interval>, duration: nat) {
    && (forall sample: nat :: Covered(track, sample) <==> sample < duration)
    && (forall sample: nat, i, j :: Holds(track, i, sample) && Holds(track, j, sample) ==> i == j)
  }

  ghost predicate NonEmptyInOrder(track: seq<Interval>) {
    && (forall i :: 0 <= i < |track| ==> track[i].startSample < track[i].endSample)
    && (forall i, j :: 0 <= i < j < |track| ==> track[i].startSample < track[j].startSample)
  }

  lemma {:induction false} TileAt(track: seq<Interval>, duration: nat, sample: nat, n: nat) returns (i: nat)
    requires Tiles(track, duration) && n < |track| && sample < track[n].endSample
    ensures Holds(track, i, sample)
  {
    if n == 0 || track[n].startSample <= sample {
      i := n;
    } else {
      assert track[n - 1].endSample == track[n].startSample;
      i := TileAt(track, duration, sample, n - 1);
    }
  }

  lemma TilesPartition(track: seq<Interval>, duration: nat)
    requires Tiles(track, duration)
    ensures NonEmptyInOrder(track) && Partitions(track, duration)
  {
    forall i, j | 0 <= i < j < |track|
      ensures track[i].endSample <= track[j].startSample
    {
      TileStartsIncrease(track, duration, i, j);
    }
    forall sample: nat
      ensures Covered(track, sample) <==> sample < duration
    {
      if sample < duration {
        var i := TileAt(track, duration, sample, |track| - 1);
      }
    }
  }

  lemma NoOverlap(track: seq<Interval>, duration: nat, i: nat, j: nat)
    requires NonEmptyInOrder(track) && Partitions(track, duration) && i < j < |track|
    ensures track[i].endSample <= track[j].startSample
  {
    if track[i].endSample > track[j].startSample {
      assert Holds(track, i, track[j].startSample) && Holds(track, j, track[j].startSample);
      assert false;
    }
  }

  lemma NoGap(track: seq<Interval>, duration: nat, i: nat)
    requires NonEmptyInOrder(track) && Partitions(track, duration) && i < |track|
    ensures track[i].endSample <= duration
    ensures track[i].endSample < duration ==> i + 1 < |track| && track[i + 1].startSample <= track[i].endSample
  {
    var end := track[i].endSample;
    assert Holds(track, i, end - 1) && Covered(track, end - 1);
    if end < duration {
      assert Covered(track, end);
      var k :| Holds(track, k, end);
      if k < i {
        NoOverlap(track, duration, k, i);
      }
      assert k > i && (k > i + 1 ==> track[i + 1].startSample < track[k].startSample);
    }
  }

  /** A track covers the project exactly when its intervals, in order, hold every sample of it once. */
  lemma CoversMeanPartitions(track: seq<Interval>, duration: nat)
    ensures Tiles(track, duration)
            <==> track != [] && NonEmptyInOrder(track) && Partitions(track, duration)
  {
    if Tiles(track, duration) {
      TilesPartition(track, duration);
    }
    if track != [] && NonEmptyInOrder(track) && Partitions(track, duration) {
      PartitionsTile(track, duration);
    }
  }

  lemma PartitionsTile(track: seq<Interval>, duration: nat)
    requires track != [] && NonEmptyInOrder(track) && Partitions(track, duration)
    ensures Tiles(track, duration)
  {
    var last := |track| - 1;
    assert Holds(track, 0, track[0].startSample) && Covered(track, track[0].startSample);
    assert Covered(track, 0);
    var first :| Holds(track, first, 0);
    assert first == 0;
    forall i, j | 0 <= i && j == i + 1 < |track|
      ensures track[i].endSample == track[j].startSample
    {
      NoOverlap(track, duration, i, j);
      NoGap(track, duration, i);
      NoGap(track, duration, j);
    }
    NoGap(track, duration, last);
  }

  // ----- the tracks of a timeline

  /** Exactly one record of a track holds a sample. */
  ghost predicate OneChord(events: seq<ChordEvent>, sample: nat) {
    exists i :: 0 <= i < |events| && Inside(sample, events[i].startSample, events[i].endSample)
      && forall j :: 0 <= j < |events| && Inside(sample, events[j].startSample, events[j].endSample) ==> j == i
  }

  ghost predicate OneSection(regions: seq<SectionRegion>, sample: nat) {
    exists i :: 0 <= i < |regions| && Inside(sample, regions[i].startSample, regions[i].endSample)
      && forall j :: 0 <= j < |regions| && Inside(sample, regions[j].startSample, regions[j].endSample) ==> j == i
  }

  ghost predicate OneKey(regions: seq<KeyRegion>, sample: nat) {
    exists i :: 0 <= i < |regions| && Inside(sample, regions[i].startSample, regions[i].endSample)
      && forall j :: 0 <= j < |regions| && Inside(sample, regions[j].startSample, regions[j].endSample) ==> j == i
  }

  lemma OneSpan(track: seq<Interval>, duration: nat, sample: nat) returns (i: nat)
    requires Tiles(track, duration) && sample < duration
    ensures Holds(track, i, sample) && forall j :: Holds(track, j, sample) ==> j == i
  {
    TilesPartition(track, duration);
    i := TileAt(track, duration, sample, |track| - 1);
  }

  /** In a valid timeline every sample of the project has one chord, one section and one key. */
  lemma EverySampleOnce(timeline: Timeline, duration: nat, sample: nat)
    requires ValidTimeline(timeline, duration) && sample < duration
    ensures OneChord(timeline.chordEvents, sample) && OneSection(timeline.sectionRegions, sample)
            && OneKey(timeline.keyRegions, sample)
  {
    SampleHasAChord(timeline.chordEvents, duration, sample);
    SampleHasASection(timeline.sectionRegions, duration, sample);
    SampleHasAKey(timeline.keyRegions, duration, sample);
  }

  lemma SampleHasAChord(events: seq<ChordEvent>, duration: nat, sample: nat)
    requires Tiles(Map(ChordSpan, events), duration) && sample < duration
    ensures OneChord(events, sample)
  {
    var track := Map(ChordSpan, events);
    var i := OneSpan(track, duration, sample);
    forall j | 0 <= j < |events| && Inside(sample, events[j].startSample, events[j].endSample)
      ensures j == i
    {
      assert Holds(track, j, sample);
    }
  }

  lemma SampleHasASection(regions: seq<SectionRegion>, duration: nat, sample: nat)
    requires Tiles(Map(SectionSpan, regions), duration) && sample < duration
    ensures OneSection(regions, sample)
  {
    var track := Map(SectionSpan, regions);
    var i := OneSpan(track, duration, sample);
    forall j | 0 <= j < |regions| && Inside(sample, regions[j].startSample, regions[j].endSample)
      ensures j == i
    {
      assert Holds(track, j, sample);
    }
  }

  lemma SampleHasAKey(regions: seq<KeyRegion>, duration: nat, sample: nat)
    requires Tiles(Map(KeySpan, regions), duration) && sample < duration
    ensures OneKey(regions, sample)
  {
    var track := Map(KeySpan, regions);
    var i := OneSpan(track, duration, sample);
    forall j | 0 <= j < |regions| && Inside(sample, regions[j].startSample, regions[j].endSample)
      ensures j == i
    {
      assert Holds(track, j, sample);
    }
  }

  // ----- bars and what has no meter

  ghost predicate InBar(timeline: Timeline, k: int, sample: nat) {
    0 <= k < |timeline.bars| && Inside(sample, timeline.bars[k].startSample, timeline.bars[k].endSample)
  }

  ghost predicate InRegion(timeline: Timeline, k: int, sample: nat) {
    && 0 <= k < |timeline.unmeteredRegions|
    && Inside(sample, timeline.unmeteredRegions[k].startSample, timeline.unmeteredRegions[k].endSample)
  }

  lemma RemoveOne<T>(s: seq<T>, p: nat)
    requires p < |s|
    ensures multiset(s[..p] + s[p + 1..]) == multiset(s) - multiset{s[p]}
  {
    assert s == s[..p] + ([s[p]] + s[p + 1..]);
    assert multiset(s) == multiset(s[..p]) + (multiset{s[p]} + multiset(s[p + 1..]));
  }

  /** Two places of a sequence have two places in any reordering of it. */
  lemma TwoPlaces<T>(s: seq<T>, t: seq<T>, i: nat, j: nat) returns (p: nat, q: nat)
    requires multiset(s) == multiset(t) && i < j < |s|
    ensures p < |t| && q < |t| && p != q && t[p] == s[i] && t[q] == s[j]
  {
    assert s[i] in multiset(s);
    assert s[i] in t;
    p :| p < |t| && t[p] == s[i];
    RemoveOne(s, i);
    RemoveOne(t, p);
    var rest := t[..p] + t[p + 1..];
    assert (s[..i] + s[i + 1..])[j - 1] == s[j];
    assert s[j] in multiset(s[..i] + s[i + 1..]);
    assert s[j] in rest;
    var r :| 0 <= r < |rest| && rest[r] == s[j];
    q := if r < p then r else r + 1;
  }

  lemma MeteredOnce(timeline: Timeline, duration: nat, a: nat, b: nat, sample: nat)
    requires ValidTimeline(timeline, duration) && a < b < |MeteredSpans(timeline)|
    ensures !(Holds(MeteredSpans(timeline), a, sample) && Holds(MeteredSpans(timeline), b, sample))
  {
    var spans := MeteredSpans(timeline);
    var order: seq<Interval> :| multiset(order) == multiset(spans) && Tiles(order, duration);
    var p, q := TwoPlaces(spans, order, a, b);
    TilesPartition(order, duration);
    if Holds(spans, a, sample) && Holds(spans, b, sample) {
      assert Holds(order, p, sample) && Holds(order, q, sample);
      assert false;
    }
  }

  lemma SpansAre(timeline: Timeline, k: nat, sample: nat)
    ensures k < |timeline.bars| ==> (Holds(MeteredSpans(timeline), k, sample) <==> InBar(timeline, k, sample))
    ensures k < |timeline.unmeteredRegions| ==>
              (Holds(MeteredSpans(timeline), |timeline.bars| + k, sample) <==> InRegion(timeline, k, sample))
  {
    var spans := MeteredSpans(timeline);
    assert k < |timeline.bars| ==> spans[k] == Map(BarSpan, timeline.bars)[k];
    assert k < |timeline.unmeteredRegions| ==>
        spans[|timeline.bars| + k] == Map(UnmeteredSpan, timeline.unmeteredRegions)[k];
  }

  /** Every sample of the project is in a bar or in a region without meter. */
  lemma EverySampleIsMeteredOrNot(timeline: Timeline, duration: nat, sample: nat)
    requires ValidTimeline(timeline, duration) && sample < duration
    ensures (exists k :: InBar(timeline, k, sample)) || exists k :: InRegion(timeline, k, sample)
  {
    var spans := MeteredSpans(timeline);
    var order: seq<Interval> :| multiset(order) == multiset(spans) && Tiles(order, duration);
    var i := OneSpan(order, duration, sample);
    SamePermutation(order, spans);
    assert order[i] in spans;
    var k :| 0 <= k < |spans| && spans[k] == order[i];
    if k < |timeline.bars| {
      SpansAre(timeline, k, sample);
      assert InBar(timeline, k, sample);
    } else {
      SpansAre(timeline, k - |timeline.bars|, sample);
      assert InRegion(timeline, k - |timeline.bars|, sample);
    }
  }

  lemma BarsApart(timeline: Timeline, duration: nat, sample: nat, k: int, l: int)
    requires ValidTimeline(timeline, duration) && k < l
    ensures !(InBar(timeline, k, sample) && InBar(timeline, l, sample))
  {
    if InBar(timeline, k, sample) && InBar(timeline, l, sample) {
      SpansAre(timeline, k, sample);
      SpansAre(timeline, l, sample);
      MeteredOnce(timeline, duration, k, l, sample);
    }
  }

  lemma RegionsApart(timeline: Timeline, duration: nat, sample: nat, k: int, l: int)
    requires ValidTimeline(timeline, duration) && k < l
    ensures !(InRegion(timeline, k, sample) && InRegion(timeline, l, sample))
  {
    if InRegion(timeline, k, sample) && InRegion(timeline, l, sample) {
      SpansAre(timeline, k, sample);
      SpansAre(timeline, l, sample);
      MeteredOnce(timeline, duration, |timeline.bars| + k, |timeline.bars| + l, sample);
    }
  }

  /** No sample is in two of them. */
  lemma NoSampleTwice(timeline: Timeline, duration: nat, sample: nat, k: int, l: int)
    requires ValidTimeline(timeline, duration)
    ensures !(InBar(timeline, k, sample) && InRegion(timeline, l, sample))
    ensures InBar(timeline, k, sample) && InBar(timeline, l, sample) ==> k == l
    ensures InRegion(timeline, k, sample) && InRegion(timeline, l, sample) ==> k == l
  {
    if InBar(timeline, k, sample) && InRegion(timeline, l, sample) {
      SpansAre(timeline, k, sample);
      SpansAre(timeline, l, sample);
      MeteredOnce(timeline, duration, k, |timeline.bars| + l, sample);
    }
    if InBar(timeline, k, sample) && InBar(timeline, l, sample) && k != l {
      BarsApart(timeline, duration, sample, if k < l then k else l, if k < l then l else k);
    }
    if InRegion(timeline, k, sample) && InRegion(timeline, l, sample) && k != l {
      RegionsApart(timeline, duration, sample, if k < l then k else l, if k < l then l else k);
    }
  }

  // ----- chord components

  ghost predicate DiffersAt(left: string, right: string, k: nat) {
    && k <= |left| && k < |right| && (forall i :: 0 <= i < k ==> left[i] == right[i])
    && (k == |left| || left[k] < right[k])
  }

  /** Components are ordered by the first character in which they differ, a beginning before what it begins. */
  lemma {:induction false} PrecedesMeans(left: string, right: string)
    ensures Precedes(left, right) <==> exists k: nat :: DiffersAt(left, right, k)
  {
    if left == [] || right == [] || left[0] != right[0] {
      FirstCharacterDecides(left, right);
    } else {
      PrecedesMeans(left[1..], right[1..]);
      if k: nat :| DiffersAt(left[1..], right[1..], k) {
        assert forall i :: 0 <= i < k + 1 ==> left[i] == right[i];
        assert DiffersAt(left, right, k + 1);
      }
      if k: nat :| DiffersAt(left, right, k) {
        assert DiffersAt(left[1..], right[1..], k - 1);
      }
    }
  }

  lemma FirstCharacterDecides(left: string, right: string)
    requires left == [] || right == [] || left[0] != right[0]
    ensures Precedes(left, right) <==> exists k: nat :: DiffersAt(left, right, k)
  {
    if right != [] && (left == [] || left[0] < right[0]) {
      assert DiffersAt(left, right, 0);
    }
  }

  lemma {:induction false} PrecedesGoesOn(a: string, b: string, c: string)
    requires Precedes(a, b) && Precedes(b, c)
    ensures Precedes(a, c)
  {
    if a != [] && a[0] == b[0] == c[0] {
      PrecedesGoesOn(a[1..], b[1..], c[1..]);
    }
  }

  lemma {:induction false} LaterPrecedes(values: seq<string>, i: nat, j: nat)
    requires SortedUnique(values) && i < j < |values|
    ensures Precedes(values[i], values[j])
    decreases j
  {
    if i < j - 1 {
      LaterPrecedes(values, i, j - 1);
      PrecedesGoesOn(values[i], values[j - 1], values[j]);
    }
  }

  ghost predicate AscendingWords(values: seq<string>) {
    forall i: nat, j: nat {:trigger values[i], values[j]} :: i < j < |values| ==> Precedes(values[i], values[j])
  }

  lemma SortedMeans(values: seq<string>)
    ensures SortedUnique(values) <==> AscendingWords(values)
  {
    if SortedUnique(values) {
      forall i: nat, j: nat | i < j < |values|
        ensures Precedes(values[i], values[j])
      {
        LaterPrecedes(values, i, j);
      }
    }
    if AscendingWords(values) {
      forall i | 0 < i < |values|
        ensures Precedes(values[i - 1], values[i])
      {
        var before: nat := i - 1;
        assert Precedes(values[before], values[i]);
      }
    }
  }

  /** In each of the four lists of a chord, every component precedes all later ones. */
  lemma ComponentsAscend(value: ChordValue)
    requires value.Chord?
    ensures ComponentsSorted(value) <==>
            && AscendingWords(value.additions) && AscendingWords(value.alterations)
            && AscendingWords(value.extensions) && AscendingWords(value.omissions)
  {
    SortedMeans(value.additions);
    SortedMeans(value.alterations);
    SortedMeans(value.extensions);
    SortedMeans(value.omissions);
  }

  // ----- ids

  /** No two records of a kind share an id. */
  lemma RecordsAreNamedApart(timeline: Timeline, duration: nat)
    requires ValidTimeline(timeline, duration)
    ensures forall i, j :: 0 <= i < j < |timeline.bars| ==> timeline.bars[i].id != timeline.bars[j].id
    ensures forall i, j :: 0 <= i < j < |timeline.unmeteredRegions| ==>
              timeline.unmeteredRegions[i].id != timeline.unmeteredRegions[j].id
    ensures forall i, j :: 0 <= i < j < |timeline.chordEvents| ==>
              timeline.chordEvents[i].id != timeline.chordEvents[j].id
    ensures forall i, j :: 0 <= i < j < |timeline.sectionRegions| ==>
              timeline.sectionRegions[i].id != timeline.sectionRegions[j].id
    ensures forall i, j :: 0 <= i < j < |timeline.keyRegions| ==>
              timeline.keyRegions[i].id != timeline.keyRegions[j].id
  {
    var bars, regions := BarIds(timeline.bars), Map(UnmeteredId, timeline.unmeteredRegions);
    var chords, sections := ChordIds(timeline.chordEvents), SectionIds(timeline.sectionRegions);
    var keys := Map(KeyId, timeline.keyRegions);
    assert forall i, j :: 0 <= i < j < |bars| ==> bars[i] != bars[j];
    assert forall i, j :: 0 <= i < j < |regions| ==> regions[i] != regions[j];
    assert forall i, j :: 0 <= i < j < |chords| ==> chords[i] != chords[j];
    assert forall i, j :: 0 <= i < j < |sections| ==> sections[i] != sections[j];
    assert forall i, j :: 0 <= i < j < |keys| ==> keys[i] != keys[j];
  }

  // ----- alignments

  ghost predicate ListsTokens(occurrences: seq<Occurrence>, tokens: seq<LyricsToken>) {
    |occurrences| == |tokens| && forall i :: 0 <= i < |tokens| ==> occurrences[i].target == tokens[i].id
  }

  ghost predicate ListsLines(occurrences: seq<Occurrence>, lines: seq<LyricsLine>) {
    |occurrences| == |lines| && forall i :: 0 <= i < |lines| ==> occurrences[i].target == lines[i].id
  }

  /** Each has time of its own in the project, and none is sung before an earlier one is over. */
  ghost predicate SungInOrder(occurrences: seq<Occurrence>, duration: nat) {
    && (forall i :: 0 <= i < |occurrences| && occurrences[i].timing.Matched? ==>
          occurrences[i].timing.startSample < occurrences[i].timing.endSample <= duration)
    && (forall i, j :: 0 <= i < j < |occurrences|
                       && occurrences[i].timing.Matched? && occurrences[j].timing.Matched? ==>
          occurrences[i].timing.endSample <= occurrences[j].timing.startSample)
  }

  lemma OrderOfOccurrences(occurrences: seq<Occurrence>, duration: nat)
    ensures TimingsInOrder(Timings(occurrences), duration) <==> SungInOrder(occurrences, duration)
  {
    var timings := Timings(occurrences);
    assert forall i :: 0 <= i < |timings| ==> timings[i] == occurrences[i].timing;
  }

  /** An alignment is valid when it lists all tokens and lines of its document in order, and sings them so. */
  lemma AlignmentsList(alignment: LyricsAlignment, document: LyricsDocument, duration: nat)
    ensures ValidAlignment(alignment, document, duration) <==>
            && ListsTokens(alignment.occurrences, document.tokens)
            && ListsLines(alignment.lineOccurrences, document.lines)
            && SungInOrder(alignment.occurrences, duration) && SungInOrder(alignment.lineOccurrences, duration)
  {
    OrderOfOccurrences(alignment.occurrences, duration);
    OrderOfOccurrences(alignment.lineOccurrences, duration);
    ListedTokens(alignment.occurrences, document.tokens);
    ListedLines(alignment.lineOccurrences, document.lines);
  }

  lemma ListedTokens(occurrences: seq<Occurrence>, tokens: seq<LyricsToken>)
    ensures Targets(occurrences) == TokenIds(tokens) <==> ListsTokens(occurrences, tokens)
  {
    var targets, ids := Targets(occurrences), TokenIds(tokens);
    assert |targets| == |occurrences| && |ids| == |tokens|;
    if targets == ids {
      assert forall i :: 0 <= i < |ids| ==> targets[i] == ids[i];
    }
  }

  lemma ListedLines(occurrences: seq<Occurrence>, lines: seq<LyricsLine>)
    ensures Targets(occurrences) == LineIds(lines) <==> ListsLines(occurrences, lines)
  {
    var targets, ids := Targets(occurrences), LineIds(lines);
    assert |targets| == |occurrences| && |ids| == |lines|;
    if targets == ids {
      assert forall i :: 0 <= i < |ids| ==> targets[i] == ids[i];
    }
  }

  // ----- records that belong together

  ghost predicate HasTarget(occurrences: seq<Occurrence>, id: Id) {
    exists i :: 0 <= i < |occurrences| && occurrences[i].target == id
  }

  lemma TargetsAre(occurrences: seq<Occurrence>, id: Id)
    ensures id in Targets(occurrences) <==> HasTarget(occurrences, id)
  {
    if i :| 0 <= i < |occurrences| && occurrences[i].target == id {
      assert Targets(occurrences)[i] == id;
    }
  }

  /** A word or line can be retimed if it is listed in an alignment of the revision that the layer is for. */
  lemma KnownTargets(alignments: seq<LyricsAlignment>, revisionId: Id, alignmentId: Id, id: Id, timing: Timing, k: nat)
    requires Distinct(AlignmentIds(alignments)) && k < |alignments| && alignments[k].id == alignmentId
    ensures KnowsTarget(SetLyricsTiming(alignmentId, id, timing), alignments, revisionId)
            <==> alignments[k].analysisRevisionId == revisionId && HasTarget(alignments[k].occurrences, id)
    ensures KnowsTarget(SetLyricsLineTiming(alignmentId, id, timing), alignments, revisionId)
            <==> alignments[k].analysisRevisionId == revisionId && HasTarget(alignments[k].lineOccurrences, id)
  {
    FindIsUnique(AlignmentIds(alignments), k);
    TargetsAre(alignments[k].occurrences, id);
    TargetsAre(alignments[k].lineOccurrences, id);
  }

  lemma UnknownTargets(alignments: seq<LyricsAlignment>, revisionId: Id, alignmentId: Id, id: Id, timing: Timing)
    requires forall alignment :: alignment in alignments ==> alignment.id != alignmentId
    ensures !KnowsTarget(SetLyricsTiming(alignmentId, id, timing), alignments, revisionId)
            && !KnowsTarget(SetLyricsLineTiming(alignmentId, id, timing), alignments, revisionId)
  {
  }

  /** The project, or one it was imported from. */
  ghost predicate WasProject(project: Project, id: Id) { id == project.id || id in project.importOrigins }

  /** A valid recipe was made for the alignment's document and revision, and for this audio, from accepted anchors. */
  lemma RecipeScope(recipe: Recipe, alignment: LyricsAlignment, project: Project)
    ensures ValidRecipe(recipe, alignment, project) <==>
            && ValidAnchors(recipe.anchors, project.lyricsDocuments, alignment.analysisRevisionId,
                            project.durationSamples)
            && WasProject(project, recipe.projectId)
            && (recipe.lyricsDocumentId, recipe.analysisRevisionId)
                 == (alignment.lyricsDocumentId, alignment.analysisRevisionId)
            && (recipe.sampleRate, recipe.durationSamples) == (project.sampleRate, project.durationSamples)
            && forall k :: 0 <= k < |recipe.anchors| ==>
                 recipe.anchors[k].lyricsDocumentId == alignment.lyricsDocumentId
  {
    assert recipe.projectId in HistoryProjects(project) <==> WasProject(project, recipe.projectId);
    if forall k :: 0 <= k < |recipe.anchors| ==> recipe.anchors[k].lyricsDocumentId == alignment.lyricsDocumentId {
      forall anchor | anchor in recipe.anchors
        ensures anchor.lyricsDocumentId == alignment.lyricsDocumentId
      {
        var k :| 0 <= k < |recipe.anchors| && recipe.anchors[k] == anchor;
      }
    }
  }

  lemma RevisionScope(revision: AnalysisRevision, project: Project)
    ensures ValidRevision(revision, project) <==>
            && ValidTimeline(revision.timeline, project.durationSamples)
            && WasProject(project, revision.projectId)
            && forall k :: 0 <= k < |revision.supportClaimIds| ==>
                 revision.supportClaimIds[k] in project.supportClaims
  {
    assert revision.projectId in HistoryProjects(project) <==> WasProject(project, revision.projectId);
    if forall k :: 0 <= k < |revision.supportClaimIds| ==> revision.supportClaimIds[k] in project.supportClaims {
      forall claim | claim in revision.supportClaimIds
        ensures claim in project.supportClaims
      {
        var k :| 0 <= k < |revision.supportClaimIds| && revision.supportClaimIds[k] == claim;
      }
    }
  }

  ghost predicate IsDocumentOf(document: LyricsDocument, alignment: LyricsAlignment, project: Project) {
    document in project.lyricsDocuments && document.id == alignment.lyricsDocumentId
  }

  /** A valid alignment record is for a revision and a document of the project, and its recipe, if any, is valid. */
  lemma RecordScope(alignment: LyricsAlignment, project: Project)
    requires Distinct(DocumentIds(project.lyricsDocuments))
    ensures ValidRecord(alignment, project) <==>
            && (alignment.recipe.Some? ==> ValidRecipe(alignment.recipe.value, alignment, project))
            && (exists revision :: revision in project.analysisRevisions
                                   && revision.id == alignment.analysisRevisionId)
            && (exists document :: IsDocumentOf(document, alignment, project)
                                   && ValidAlignment(alignment, document, project.durationSamples))
  {
    var revisions, documents := RevisionIds(project.analysisRevisions), DocumentIds(project.lyricsDocuments);
    if alignment.analysisRevisionId in revisions {
      var i :| 0 <= i < |revisions| && revisions[i] == alignment.analysisRevisionId;
      assert project.analysisRevisions[i] in project.analysisRevisions;
      assert project.analysisRevisions[i].id == alignment.analysisRevisionId;
    }
    if revision :| revision in project.analysisRevisions && revision.id == alignment.analysisRevisionId {
      var i :| 0 <= i < |project.analysisRevisions| && project.analysisRevisions[i] == revision;
      assert revisions[i] == alignment.analysisRevisionId;
    }
    var found := Find(documents, alignment.lyricsDocumentId);
    if found >= 0 {
      assert documents[found] == project.lyricsDocuments[found].id;
      assert IsDocumentOf(project.lyricsDocuments[found], alignment, project);
    }
    if document :| IsDocumentOf(document, alignment, project)
                   && ValidAlignment(alignment, document, project.durationSamples) {
      var i :| 0 <= i < |project.lyricsDocuments| && project.lyricsDocuments[i] == document;
      assert documents[i] == alignment.lyricsDocumentId;
      FindIsUnique(documents, i);
    }
  }

  ghost predicate Selects(project: Project, view: ActiveView, layer: EditLayer) {
    && layer in project.editLayers && layer.id == view.editLayerId
    && layer.analysisRevisionId == view.analysisRevisionId
    && view.editHistoryPosition <= |layer.transactions|
    && exists revision :: revision in project.analysisRevisions && revision.id == view.analysisRevisionId
  }

  ghost predicate SelectsLyrics(project: Project, view: ActiveView, document: LyricsDocument,
                                alignment: LyricsAlignment)
  {
    && document in project.lyricsDocuments && alignment in project.lyricsAlignments
    && view.lyricsDocumentId == Some(document.id) && view.lyricsAlignmentId == Some(alignment.id)
    && alignment.lyricsDocumentId == document.id && alignment.analysisRevisionId == view.analysisRevisionId
  }

  ghost predicate NoLyricsSelected(view: ActiveView) {
    view.lyricsDocumentId == None && view.lyricsAlignmentId == None
  }

  /** The view selects a position of a layer on its revision, and either no lyrics or a document with its alignment. */
  lemma ViewMeans(project: Project, view: ActiveView)
    requires ValidIdentities(project) && project.activeView == Some(view)
    ensures ValidView(project) <==>
            && (exists layer :: Selects(project, view, layer))
            && (NoLyricsSelected(view)
                || exists document, alignment :: SelectsLyrics(project, view, document, alignment))
  {
    LayerIsSelected(project, view);
    LyricsAreSelected(project, view);
  }

  lemma LayerIsSelected(project: Project, view: ActiveView)
    requires ValidIdentities(project)
    ensures var k := Find(LayerIds(project.editLayers), view.editLayerId);
            (exists layer :: Selects(project, view, layer)) <==>
            && view.analysisRevisionId in RevisionIds(project.analysisRevisions)
            && k >= 0 && project.editLayers[k].analysisRevisionId == view.analysisRevisionId
            && view.editHistoryPosition <= |project.editLayers[k].transactions|
  {
    var ids := LayerIds(project.editLayers);
    var k := Find(ids, view.editLayerId);
    assert view.analysisRevisionId in RevisionIds(project.analysisRevisions) <==>
           exists revision :: revision in project.analysisRevisions && revision.id == view.analysisRevisionId by {
      RevisionsAre(project.analysisRevisions, view.analysisRevisionId);
    }
    if layer :| Selects(project, view, layer) {
      var l :| 0 <= l < |project.editLayers| && project.editLayers[l] == layer;
      FindIsUnique(ids, l);
      assert ids[l] == view.editLayerId;
    }
    if k >= 0 && project.editLayers[k].analysisRevisionId == view.analysisRevisionId
       && view.editHistoryPosition <= |project.editLayers[k].transactions|
       && view.analysisRevisionId in RevisionIds(project.analysisRevisions) {
      assert Selects(project, view, project.editLayers[k]);
    }
  }

  lemma RevisionsAre(revisions: seq<AnalysisRevision>, id: Id)
    ensures id in RevisionIds(revisions) <==> exists revision :: revision in revisions && revision.id == id
  {
    if id in RevisionIds(revisions) {
      var k :| 0 <= k < |revisions| && RevisionIds(revisions)[k] == id;
      assert revisions[k] in revisions;
    }
    if revision :| revision in revisions && revision.id == id {
      var k :| 0 <= k < |revisions| && revisions[k] == revision;
      assert RevisionIds(revisions)[k] == id;
    }
  }

  lemma LyricsAreSelected(project: Project, view: ActiveView)
    requires ValidIdentities(project)
    ensures (NoLyricsSelected(view) || exists document, alignment :: SelectsLyrics(project, view, document, alignment))
            <==>
            && (view.lyricsDocumentId == None <==> view.lyricsAlignmentId == None)
            && (view.lyricsDocumentId.Some? ==> view.lyricsDocumentId.value in DocumentIds(project.lyricsDocuments))
            && (view.lyricsAlignmentId.Some? ==>
                  var index := Find(AlignmentIds(project.lyricsAlignments), view.lyricsAlignmentId.value);
                  && index >= 0
                  && project.lyricsAlignments[index].analysisRevisionId == view.analysisRevisionId
                  && Some(project.lyricsAlignments[index].lyricsDocumentId) == view.lyricsDocumentId)
  {
    var ids := AlignmentIds(project.lyricsAlignments);
    if document, alignment :| SelectsLyrics(project, view, document, alignment) {
      var k :| 0 <= k < |project.lyricsAlignments| && project.lyricsAlignments[k] == alignment;
      FindIsUnique(ids, k);
      var l :| 0 <= l < |project.lyricsDocuments| && project.lyricsDocuments[l] == document;
      assert ids[k] == alignment.id && DocumentIds(project.lyricsDocuments)[l] == document.id;
    }
    if view.lyricsDocumentId.Some? && view.lyricsAlignmentId.Some?
       && view.lyricsDocumentId.value in DocumentIds(project.lyricsDocuments)
       && view.lyricsAlignmentId.value in ids {
      var l :| 0 <= l < |project.lyricsDocuments|
        && DocumentIds(project.lyricsDocuments)[l] == view.lyricsDocumentId.value;
      var alignment := project.lyricsAlignments[Find(ids, view.lyricsAlignmentId.value)];
      if alignment.analysisRevisionId == view.analysisRevisionId
         && Some(alignment.lyricsDocumentId) == view.lyricsDocumentId {
        assert SelectsLyrics(project, view, project.lyricsDocuments[l], alignment);
      }
    }
  }
}
