/**
 What a mapping review reports and offers, said of pairs, records and the parents of transactions alone, and
 that the edits it hands on without a conflict find their records in the target.
*/
module ReviewMeaning {
  import opened Wrappers
  import opened Sequences
  import opened Schema
  import opened Edits
  import opened History
  import opened Projection
  import opened Renaming
  import opened EditMapping

  // ----- pairs

  /** The last pair for a source counts. */
  ghost predicate MapsAt(mappings: seq<Pair>, i: nat, a: Id, b: Id) {
    && i < |mappings| && mappings[i] == Pair(a, b)
    && forall j :: i < j < |mappings| ==> mappings[j].sourceId != a
  }

  ghost predicate Maps(mappings: seq<Pair>, a: Id, b: Id) {
    exists i: nat :: MapsAt(mappings, i, a, b)
  }

  lemma {:induction false} TableMaps(mappings: seq<Pair>, a: Id, b: Id)
    ensures a in Table(mappings) && Table(mappings)[a] == b <==> Maps(mappings, a, b)
  {
    if mappings != [] {
      var init, last := mappings[..|mappings| - 1], mappings[|mappings| - 1];
      TableMaps(init, a, b);
      if last == Pair(a, b) {
        assert MapsAt(mappings, |init|, a, b);
      }
      if last.sourceId != a && Maps(init, a, b) {
        var i: nat :| MapsAt(init, i, a, b);
        assert MapsAt(mappings, i, a, b);
      }
      if last.sourceId != a && Maps(mappings, a, b) {
        var i: nat :| MapsAt(mappings, i, a, b);
        assert MapsAt(init, i, a, b);
      }
    }
  }

  /** No source and no target stands in two pairs. */
  ghost predicate OneToOnePairs(mappings: seq<Pair>) {
    forall i, j :: 0 <= i < j < |mappings| ==>
      mappings[i].sourceId != mappings[j].sourceId && mappings[i].targetId != mappings[j].targetId
  }

  function Sources(mappings: seq<Pair>): (r: seq<Id>)
    ensures |r| == |mappings| && forall i :: 0 <= i < |r| ==> r[i] == mappings[i].sourceId
  {
    seq(|mappings|, i requires 0 <= i < |mappings| => mappings[i].sourceId)
  }

  lemma {:induction false} SourcesAreKeys(mappings: seq<Pair>)
    ensures Table(mappings).Keys == Elements(Sources(mappings))
  {
    if mappings != [] {
      var init, last := mappings[..|mappings| - 1], mappings[|mappings| - 1];
      SourcesAreKeys(init);
      assert Sources(mappings) == Sources(init) + [last.sourceId];
      assert Elements(Sources(init) + [last.sourceId]) == Elements(Sources(init)) + {last.sourceId};
    }
  }

  function TargetIds(mappings: seq<Pair>): (r: seq<Id>)
    ensures |r| == |mappings| && forall i :: 0 <= i < |r| ==> r[i] == mappings[i].targetId
  {
    seq(|mappings|, i requires 0 <= i < |mappings| => mappings[i].targetId)
  }

  lemma {:induction false} TargetsAreValues(mappings: seq<Pair>)
    requires Distinct(Sources(mappings))
    ensures Table(mappings).Values == Elements(TargetIds(mappings))
  {
    if mappings != [] {
      var init, last := mappings[..|mappings| - 1], mappings[|mappings| - 1];
      assert Sources(mappings) == Sources(init) + [last.sourceId];
      assert forall i :: 0 <= i < |init| ==> Sources(init)[i] == Sources(mappings)[i];
      TargetsAreValues(init);
      SourcesAreKeys(init);
      assert last.sourceId !in Table(init);
      assert TargetIds(mappings) == TargetIds(init) + [last.targetId];
      assert Elements(TargetIds(init) + [last.targetId]) == Elements(TargetIds(init)) + {last.targetId};
      NewKeyAddsItsValue(Table(init), last.sourceId, last.targetId);
    }
  }

  lemma NewKeyAddsItsValue(mapping: map<Id, Id>, a: Id, b: Id)
    requires a !in mapping
    ensures mapping[a := b].Values == mapping.Values + {b}
  {
    var after := mapping[a := b];
    assert after[a] == b;
    forall v | v in mapping.Values
      ensures v in after.Values
    {
      var k :| k in mapping && mapping[k] == v;
      assert after[k] == v;
    }
  }

  lemma BijectiveIsOneToOne(mappings: seq<Pair>)
    ensures Bijective(mappings) <==> OneToOnePairs(mappings)
  {
    SourcesAreKeys(mappings);
    SizeDecidesDistinct(Sources(mappings));
    assert |Table(mappings)| == |Table(mappings).Keys|;
    if Distinct(Sources(mappings)) {
      TargetsAreValues(mappings);
      SizeDecidesDistinct(TargetIds(mappings));
    }
    assert OneToOnePairs(mappings) <==> Distinct(Sources(mappings)) && Distinct(TargetIds(mappings)) by {
      assert forall i, j :: 0 <= i < j < |mappings| ==>
               (mappings[i].sourceId != mappings[j].sourceId <==> Sources(mappings)[i] != Sources(mappings)[j]);
      assert forall i, j :: 0 <= i < j < |mappings| ==>
               (mappings[i].targetId != mappings[j].targetId <==> TargetIds(mappings)[i] != TargetIds(mappings)[j]);
    }
  }

  // ----- what an edit names, and what a timeline has

  predicate NamesChord(edit: Operation, id: Id) {
    match edit
    case ReplaceChordValue(eventId, _) => id == eventId
    case ReplaceChordSequence(targets, drafts) => id in targets || exists draft :: draft in drafts && draft.id == id
    case MoveChordBoundary(left, right, _) => id == left || id == right
    case _ => false
  }

  predicate NamesBeat(edit: Operation, id: Id) { edit.MoveBeat? && edit.beatId == id }

  predicate NamesBar(edit: Operation, id: Id) {
    match edit
    case SetBarMeter(barId, _) => id == barId
    case MoveBarBoundary(left, right, _) => id == left || id == right
    case _ => false
  }

  predicate NamesSection(edit: Operation, id: Id) { edit.ReplaceSectionLabel? && edit.regionId == id }

  predicate Names(edit: Operation, id: Id) {
    NamesChord(edit, id) || NamesBeat(edit, id) || NamesBar(edit, id) || NamesSection(edit, id)
  }

  predicate HasChord(timeline: Timeline, id: Id) { exists event :: event in timeline.chordEvents && event.id == id }
  predicate HasBeat(timeline: Timeline, id: Id) {
    exists bar :: bar in timeline.bars && exists beat :: beat in bar.beats && beat.id == id
  }
  predicate HasBar(timeline: Timeline, id: Id) { exists bar :: bar in timeline.bars && bar.id == id }
  predicate HasSection(timeline: Timeline, id: Id) {
    exists region :: region in timeline.sectionRegions && region.id == id
  }

  /** Bars that are cut or joined, lyrics timings and anchors stay behind. */
  predicate StaysBehind(edit: Operation) {
    || edit.SplitBar? || edit.MergeBars? || edit.SetLyricsTiming? || edit.SetLyricsLineTiming?
    || edit.SetLyricsAnchor? || edit.RemoveLyricsAnchor?
  }

  /** An edit names an id that the pairs lead to no record of the track it edits. */
  ghost predicate LeavesOpen(edit: Operation, id: Id, mappings: seq<Pair>, timeline: Timeline) {
    || (NamesChord(edit, id) && !exists target :: Maps(mappings, id, target) && HasChord(timeline, target))
    || (NamesBeat(edit, id) && !exists target :: Maps(mappings, id, target) && HasBeat(timeline, target))
    || (NamesBar(edit, id) && !exists target :: Maps(mappings, id, target) && HasBar(timeline, target))
    || (NamesSection(edit, id) && !exists target :: Maps(mappings, id, target) && HasSection(timeline, target))
  }

  lemma {:induction false} BeatsAreInBars(bars: seq<Bar>, id: Id)
    ensures id in BeatIds(AllBeats(bars))
            <==> exists bar :: bar in bars && exists beat :: beat in bar.beats && beat.id == id
  {
    if bars != [] {
      var first, rest := bars[0].beats, AllBeats(bars[1..]);
      BeatsAreInBars(bars[1..], id);
      assert BeatIds(first + rest) == BeatIds(first) + BeatIds(rest);
      BeatIsThere(first, id);
      assert bars == [bars[0]] + bars[1..];
    }
  }

  lemma BeatIsThere(beats: seq<Beat>, id: Id)
    ensures id in BeatIds(beats) <==> exists beat :: beat in beats && beat.id == id
  {
    if beat :| beat in beats && beat.id == id {
      var k :| 0 <= k < |beats| && beats[k] == beat;
      assert BeatIds(beats)[k] == id;
    }
  }

  lemma ChordIsThere(events: seq<ChordEvent>, id: Id)
    ensures id in ChordIds(events) <==> exists event :: event in events && event.id == id
  {
    if event :| event in events && event.id == id {
      var k :| 0 <= k < |events| && events[k] == event;
      assert ChordIds(events)[k] == id;
    }
  }

  lemma BarIsThere(bars: seq<Bar>, id: Id)
    ensures id in BarIds(bars) <==> exists bar :: bar in bars && bar.id == id
  {
    if bar :| bar in bars && bar.id == id {
      var k :| 0 <= k < |bars| && bars[k] == bar;
      assert BarIds(bars)[k] == id;
    }
  }

  lemma SectionIsThere(regions: seq<SectionRegion>, id: Id)
    ensures id in SectionIds(regions) <==> exists region :: region in regions && region.id == id
  {
    if region :| region in regions && region.id == id {
      var k :| 0 <= k < |regions| && regions[k] == region;
      assert SectionIds(regions)[k] == id;
    }
  }

  /** The track that edits of a kind name records of has a record of an id. */
  predicate Has(kind: Kind, timeline: Timeline, id: Id) {
    match kind
    case ChordKind => HasChord(timeline, id)
    case BeatKind => HasBeat(timeline, id)
    case BarKind => HasBar(timeline, id)
    case SectionKind => HasSection(timeline, id)
  }

  lemma CandidatesAreRecords(kind: Kind, timeline: Timeline, id: Id)
    ensures id in Candidates(kind, timeline) <==> Has(kind, timeline, id)
  {
    match kind {
      case ChordKind => ChordIsThere(timeline.chordEvents, id);
      case BeatKind => BeatsAreInBars(timeline.bars, id);
      case BarKind => BarIsThere(timeline.bars, id);
      case SectionKind => SectionIsThere(timeline.sectionRegions, id);
    }
  }

  predicate NamesAs(edit: Operation, id: Id, kind: Kind) {
    match kind
    case ChordKind => NamesChord(edit, id)
    case BeatKind => NamesBeat(edit, id)
    case BarKind => NamesBar(edit, id)
    case SectionKind => NamesSection(edit, id)
  }

  lemma ReferencesAreNamed(edit: Operation, reference: Reference)
    ensures reference in References(edit) <==> NamesAs(edit, reference.id, reference.kind)
  {
    match edit {
      case ReplaceChordSequence(targets, drafts) => RedrawReferences(targets, drafts, reference);
      case ReplaceChordValue(eventId, _) => assert References(edit)[0] == Reference(eventId, ChordKind);
      case MoveBeat(beatId, _) => assert References(edit)[0] == Reference(beatId, BeatKind);
      case SetBarMeter(barId, _) => assert References(edit)[0] == Reference(barId, BarKind);
      case ReplaceSectionLabel(regionId, _) => assert References(edit)[0] == Reference(regionId, SectionKind);
      case MoveChordBoundary(left, right, _) =>
        assert References(edit)[0] == Reference(left, ChordKind) && References(edit)[1] == Reference(right, ChordKind);
      case MoveBarBoundary(left, right, _) =>
        assert References(edit)[0] == Reference(left, BarKind) && References(edit)[1] == Reference(right, BarKind);
      case _ =>
    }
  }

  lemma RedrawReferences(targets: seq<Id>, drafts: seq<ChordDraft>, reference: Reference)
    ensures reference in References(ReplaceChordSequence(targets, drafts))
            <==> reference.kind == ChordKind
                 && (reference.id in targets || exists draft :: draft in drafts && draft.id == reference.id)
  {
    var all := References(ReplaceChordSequence(targets, drafts));
    if reference.kind == ChordKind && reference.id in targets {
      var k :| 0 <= k < |targets| && targets[k] == reference.id;
      assert all[k] == reference;
    }
    if draft :| reference.kind == ChordKind && draft in drafts && draft.id == reference.id {
      var k :| 0 <= k < |drafts| && drafts[k] == draft;
      assert all[|targets| + k] == reference;
    }
    if reference in all {
      var k :| 0 <= k < |all| && all[k] == reference;
      if k < |targets| {
        assert targets[k] == reference.id;
      } else {
        assert drafts[k - |targets|] in drafts && drafts[k - |targets|].id == reference.id;
      }
    }
  }

  ghost predicate LeadsTo(kind: Kind, id: Id, mappings: seq<Pair>, timeline: Timeline) {
    exists target :: Maps(mappings, id, target) && Has(kind, timeline, target)
  }

  lemma ResolvedMeans(reference: Reference, mappings: seq<Pair>, timeline: Timeline)
    ensures Resolved(reference, Table(mappings), timeline)
            <==> LeadsTo(reference.kind, reference.id, mappings, timeline)
  {
    var table := Table(mappings);
    if reference.id in table {
      TableMaps(mappings, reference.id, table[reference.id]);
      CandidatesAreRecords(reference.kind, timeline, table[reference.id]);
    }
    if target :| Maps(mappings, reference.id, target) && Has(reference.kind, timeline, target) {
      TableMaps(mappings, reference.id, target);
      CandidatesAreRecords(reference.kind, timeline, target);
    }
  }

  // ----- what is reported

  lemma {:induction false} UnresolvedMeans(references: seq<Reference>, mapping: map<Id, Id>, timeline: Timeline, id: Id)
    ensures id in Unresolved(references, mapping, timeline)
            <==> exists reference :: reference in references && reference.id == id
                   && !Resolved(reference, mapping, timeline)
  {
    if references != [] {
      var init, last := references[..|references| - 1], references[|references| - 1];
      UnresolvedMeans(init, mapping, timeline, id);
      assert references == init + [last];
    }
  }

  lemma OpenIsUnresolved(edit: Operation, mappings: seq<Pair>, timeline: Timeline, id: Id)
    ensures id in Unresolved(References(edit), Table(mappings), timeline) <==> LeavesOpen(edit, id, mappings, timeline)
  {
    UnresolvedMeans(References(edit), Table(mappings), timeline, id);
    if LeavesOpen(edit, id, mappings, timeline) {
      var kind := OpenKind(edit, id, mappings, timeline);
      ReferencesAreNamed(edit, Reference(id, kind));
      ResolvedMeans(Reference(id, kind), mappings, timeline);
    }
    if reference :| reference in References(edit) && reference.id == id
                    && !Resolved(reference, Table(mappings), timeline) {
      ReferencesAreNamed(edit, reference);
      ResolvedMeans(reference, mappings, timeline);
      assert !LeadsTo(reference.kind, id, mappings, timeline);
    }
  }

  lemma OpenKind(edit: Operation, id: Id, mappings: seq<Pair>, timeline: Timeline) returns (kind: Kind)
    requires LeavesOpen(edit, id, mappings, timeline)
    ensures NamesAs(edit, id, kind) && !LeadsTo(kind, id, mappings, timeline)
  {
    kind := if NamesChord(edit, id) then ChordKind else if NamesBeat(edit, id) then BeatKind
            else if NamesBar(edit, id) then BarKind else SectionKind;
  }

  ghost predicate EditReports(transactionId: Id, edit: Operation, mappings: seq<Pair>, timeline: Timeline, id: Id) {
    if StaysBehind(edit) then id == transactionId else LeavesOpen(edit, id, mappings, timeline)
  }

  lemma EditIsReported(transactionId: Id, edit: Operation, mappings: seq<Pair>, timeline: Timeline, id: Id)
    ensures id in EditConflicts(transactionId, edit, Table(mappings), timeline)
            <==> EditReports(transactionId, edit, mappings, timeline, id)
  {
    OpenIsUnresolved(edit, mappings, timeline, id);
    assert StaysBehind(edit) <==> !Movable(edit);
  }

  lemma {:induction false} EditsAreReported(transactionId: Id, edits: seq<Operation>, mappings: seq<Pair>,
                                            timeline: Timeline, id: Id)
    ensures id in EditsConflicts(transactionId, edits, Table(mappings), timeline)
            <==> exists edit :: edit in edits && EditReports(transactionId, edit, mappings, timeline, id)
  {
    if edits != [] {
      var init, last := edits[..|edits| - 1], edits[|edits| - 1];
      EditsAreReported(transactionId, init, mappings, timeline, id);
      EditIsReported(transactionId, last, mappings, timeline, id);
      assert forall edit :: edit in edits <==> edit in init || edit == last;
    }
  }

  ghost predicate TransactionReports(transaction: Transaction, mappings: seq<Pair>, timeline: Timeline, id: Id) {
    exists edit :: edit in transaction.operations && EditReports(transaction.id, edit, mappings, timeline, id)
  }

  lemma {:induction false} ChainIsReported(chain: seq<Transaction>, mappings: seq<Pair>, timeline: Timeline, id: Id)
    ensures id in ChainConflicts(chain, Table(mappings), timeline)
            <==> exists transaction :: transaction in chain && TransactionReports(transaction, mappings, timeline, id)
  {
    if chain != [] {
      var init, last := chain[..|chain| - 1], chain[|chain| - 1];
      ChainIsReported(init, mappings, timeline, id);
      EditsAreReported(last.id, last.operations, mappings, timeline, id);
      assert id in EditsConflicts(last.id, last.operations, Table(mappings), timeline)
             <==> TransactionReports(last, mappings, timeline, id);
      assert forall transaction :: transaction in chain <==> transaction in init || transaction == last;
    }
  }

  lemma {:induction false} IdsAreReferenced(references: seq<Reference>, id: Id)
    ensures id in IdsOf(references) <==> exists reference :: reference in references && reference.id == id
  {
    if references != [] {
      var init, last := references[..|references| - 1], references[|references| - 1];
      IdsAreReferenced(init, id);
      assert references == init + [last];
    }
  }

  lemma EditNames(edit: Operation, id: Id)
    ensures id in IdsOf(References(edit)) <==> Names(edit, id)
  {
    IdsAreReferenced(References(edit), id);
    if reference :| reference in References(edit) && reference.id == id {
      ReferencesAreNamed(edit, reference);
    }
    if kind: Kind :| NamesAs(edit, id, kind) {
      ReferencesAreNamed(edit, Reference(id, kind));
    }
    assert Names(edit, id) <==>
           || NamesAs(edit, id, ChordKind) || NamesAs(edit, id, BeatKind) || NamesAs(edit, id, BarKind)
           || NamesAs(edit, id, SectionKind);
  }

  lemma {:induction false} NamedIds(edits: seq<Operation>, id: Id)
    ensures id in ReferencedIds(edits) <==> exists edit :: edit in edits && Names(edit, id)
  {
    if edits != [] {
      var init, last := edits[..|edits| - 1], edits[|edits| - 1];
      NamedIds(init, id);
      EditNames(last, id);
      assert forall edit :: edit in edits <==> edit in init || edit == last;
    }
  }

  /**
   A review reports the layer when the pairs are not one-to-one, a transaction when one of its edits stays
   behind, an id when an edit names it and the pairs lead it to no record of the edited track, and an id of
   a pair when no edit names it; and it reports nothing else.
  */
  lemma ReportedExactly(source: EditLayer, position: nat, chain: seq<Transaction>, mappings: seq<Pair>,
                        timeline: Timeline, id: Id)
    requires WellFounded(source.transactions) && 0 < position <= |source.transactions|
    requires ParentChain(chain, source.transactions[position - 1], source.transactions)
    ensures id in LayerConflicts(source, position, mappings, timeline) <==>
              || (id == source.id && !OneToOnePairs(mappings))
              || (exists transaction :: transaction in chain && TransactionReports(transaction, mappings, timeline, id))
              || ((exists target :: Maps(mappings, id, target))
                  && !exists edit :: edit in OperationsOf(chain) && Names(edit, id))
  {
    OneChainOfParents(source.transactions, position, chain);
    ChainOperationsAreOfTheChain(source.transactions, position);
    BijectiveIsOneToOne(mappings);
    ChainIsReported(chain, mappings, timeline, id);
    NamedIds(OperationsOf(chain), id);
    IsMapped(mappings, id);
  }

  lemma IsMapped(mappings: seq<Pair>, id: Id)
    ensures id in Table(mappings).Keys <==> exists target :: Maps(mappings, id, target)
  {
    if id in Table(mappings) {
      TableMaps(mappings, id, Table(mappings)[id]);
    }
    if target :| Maps(mappings, id, target) {
      TableMaps(mappings, id, target);
    }
  }

  // ----- what can be reviewed

  ghost predicate IsSource(project: Project, action: MappingAction, layer: EditLayer) {
    layer in project.editLayers && layer.id == action.sourceEditLayerId
  }

  ghost predicate IsTarget(project: Project, action: MappingAction, revision: AnalysisRevision) {
    revision in project.analysisRevisions && revision.id == action.targetAnalysisRevisionId
  }

  lemma SourceIsALayer(project: Project, action: MappingAction, layer: EditLayer)
    requires Distinct(LayerIds(project.editLayers))
    ensures SourceLayer(project, action) == Some(layer) <==> IsSource(project, action, layer)
  {
    var ids := LayerIds(project.editLayers);
    if IsSource(project, action, layer) {
      var k :| 0 <= k < |project.editLayers| && project.editLayers[k] == layer;
      FindIsUnique(ids, k);
      assert ids[k] == action.sourceEditLayerId;
    }
  }

  lemma TargetIsARevision(project: Project, action: MappingAction, revision: AnalysisRevision)
    requires Distinct(RevisionIds(project.analysisRevisions))
    ensures TargetRevision(project, action) == Some(revision) <==> IsTarget(project, action, revision)
  {
    var ids := RevisionIds(project.analysisRevisions);
    if IsTarget(project, action, revision) {
      var k :| 0 <= k < |project.analysisRevisions| && project.analysisRevisions[k] == revision;
      FindIsUnique(ids, k);
      assert ids[k] == action.targetAnalysisRevisionId;
    }
  }

  /**
   An action can be reviewed exactly when it names a layer, one of its saved positions,
   and a revision other than the one the layer is based on.
  */
  lemma WhatCanBeReviewed(project: Project, action: MappingAction)
    requires Distinct(LayerIds(project.editLayers)) && Distinct(RevisionIds(project.analysisRevisions))
    ensures Selectable(project, action) <==>
            exists layer, revision ::
              && IsSource(project, action, layer) && IsTarget(project, action, revision)
              && layer.analysisRevisionId != revision.id
              && 0 < action.sourceHistoryPosition <= |layer.transactions|
  {
    if layer, revision :| IsSource(project, action, layer) && IsTarget(project, action, revision)
                          && layer.analysisRevisionId != revision.id
                          && 0 < action.sourceHistoryPosition <= |layer.transactions| {
      SourceIsALayer(project, action, layer);
      TargetIsARevision(project, action, revision);
    }
    if Selectable(project, action) {
      SourceIsALayer(project, action, SourceLayer(project, action).value);
      TargetIsARevision(project, action, TargetRevision(project, action).value);
    }
  }

  /** The layer under review is based on this revision. */
  lemma SourceRevisionIsItsOwn(project: Project, action: MappingAction, layer: EditLayer, revision: AnalysisRevision)
    requires Selectable(project, action) && Distinct(LayerIds(project.editLayers)) && IsSource(project, action, layer)
    requires Distinct(RevisionIds(project.analysisRevisions)) && revision in project.analysisRevisions
    ensures SourceRevision(project, action) == Some(revision) <==> revision.id == layer.analysisRevisionId
  {
    SourceIsALayer(project, action, layer);
    var ids := RevisionIds(project.analysisRevisions);
    var k :| 0 <= k < |project.analysisRevisions| && project.analysisRevisions[k] == revision;
    FindIsUnique(ids, k);
  }

  // ----- what is offered

  /** An id is offered the ids of a track that some edit names it as a record of. */
  lemma OfferedIds(requirements: map<Id, seq<Id>>, edits: seq<Operation>, timeline: Timeline, id: Id)
    returns (edit: Operation, kind: Kind)
    requires AllNeeded(requirements, edits, timeline) && id in requirements
    ensures edit in edits && NamesAs(edit, id, kind)
    ensures forall target :: target in requirements[id] <==> Has(kind, timeline, target)
  {
    assert Needed(id, requirements[id], edits, timeline);
    var reference;
    edit, reference :| edit in edits && reference in References(edit) && reference.id == id
                       && requirements[id] == Candidates(reference.kind, timeline);
    kind := reference.kind;
    ReferencesAreNamed(edit, reference);
    forall target
      ensures target in requirements[id] <==> Has(kind, timeline, target)
    {
      CandidatesAreRecords(kind, timeline, target);
    }
  }

  // ----- what can be done with moved edits

  /** A moved edit finds the records it names in the target. */
  ghost predicate FindsItsRecords(timeline: Timeline, edit: Operation) {
    match edit
    case ReplaceChordValue(_, _) => EditTimeline(timeline, edit).Ok?
    case MoveBeat(_, _) => EditTimeline(timeline, edit).Ok?
    case SetBarMeter(_, _) => EditTimeline(timeline, edit).Ok?
    case ReplaceSectionLabel(_, _) => EditTimeline(timeline, edit).Ok?
    case MoveChordBoundary(left, right, _) => HasChord(timeline, left) && HasChord(timeline, right)
    case MoveBarBoundary(left, right, _) => HasBar(timeline, left) && HasBar(timeline, right)
    case ReplaceChordSequence(targets, drafts) =>
      && (forall id :: id in targets ==> HasChord(timeline, id))
      && (forall draft :: draft in drafts ==> HasChord(timeline, draft.id))
    case _ => false
  }

  lemma {:induction false} BeatCanMove(bars: seq<Bar>, beatId: Id, atSample: nat)
    requires beatId in BeatIds(AllBeats(bars))
    ensures MoveBeatIn(bars, beatId, atSample).Ok?
  {
    var first, rest := bars[0].beats, AllBeats(bars[1..]);
    assert BeatIds(first + rest) == BeatIds(first) + BeatIds(rest);
    if beatId !in BeatIds(first) {
      BeatCanMove(bars[1..], beatId, atSample);
    }
  }

  lemma AnsweredEditFinds(edit: Operation, mapping: map<Id, Id>, timeline: Timeline)
    requires Answered(edit, mapping, timeline)
    ensures FindsItsRecords(timeline, RenameEdit(Along(mapping), edit))
  {
    match edit {
      case ReplaceChordValue(eventId, _) => AnswerIsThere(edit, Reference(eventId, ChordKind), mapping, timeline);
      case MoveBeat(beatId, atSample) =>
        AnswerIsThere(edit, Reference(beatId, BeatKind), mapping, timeline);
        BeatCanMove(timeline.bars, mapping[beatId], atSample);
      case SetBarMeter(barId, _) => AnswerIsThere(edit, Reference(barId, BarKind), mapping, timeline);
      case ReplaceSectionLabel(regionId, _) => AnswerIsThere(edit, Reference(regionId, SectionKind), mapping, timeline);
      case MoveChordBoundary(left, right, _) =>
        AnswerIsThere(edit, Reference(left, ChordKind), mapping, timeline);
        AnswerIsThere(edit, Reference(right, ChordKind), mapping, timeline);
      case MoveBarBoundary(left, right, _) =>
        AnswerIsThere(edit, Reference(left, BarKind), mapping, timeline);
        AnswerIsThere(edit, Reference(right, BarKind), mapping, timeline);
      case ReplaceChordSequence(targets, drafts) => RedrawFinds(targets, drafts, mapping, timeline);
    }
  }

  lemma AnswerIsThere(edit: Operation, reference: Reference, mapping: map<Id, Id>, timeline: Timeline)
    requires Answered(edit, mapping, timeline) && NamesAs(edit, reference.id, reference.kind)
    ensures reference.id in mapping && mapping[reference.id] in Candidates(reference.kind, timeline)
    ensures Has(reference.kind, timeline, mapping[reference.id])
  {
    ReferencesAreNamed(edit, reference);
    assert Resolved(reference, mapping, timeline);
    CandidatesAreRecords(reference.kind, timeline, mapping[reference.id]);
  }

  lemma RedrawFinds(targets: seq<Id>, drafts: seq<ChordDraft>, mapping: map<Id, Id>, timeline: Timeline)
    requires Answered(ReplaceChordSequence(targets, drafts), mapping, timeline)
    ensures FindsItsRecords(timeline, RenameEdit(Along(mapping), ReplaceChordSequence(targets, drafts)))
  {
    var edit, f := ReplaceChordSequence(targets, drafts), Along(mapping);
    forall k | 0 <= k < |targets|
      ensures HasChord(timeline, f(targets[k]))
    {
      AnswerIsThere(edit, Reference(targets[k], ChordKind), mapping, timeline);
    }
    forall k | 0 <= k < |drafts|
      ensures HasChord(timeline, f(drafts[k].id))
    {
      assert drafts[k] in drafts;
      AnswerIsThere(edit, Reference(drafts[k].id, ChordKind), mapping, timeline);
    }
  }

  /** Without a conflict, every edit that is handed on finds its records in the target. */
  lemma MovedEditsFindTheirRecords(project: Project, action: MappingAction)
    requires HistoriesWellFounded(project) && NoConflicts(project, action)
    ensures forall edit :: edit in MovedEdits(project, action) ==>
              FindsItsRecords(TargetRevision(project, action).value.timeline, edit)
  {
    var edits, table := SelectedEdits(project, action), Table(action.mappings);
    var timeline := TargetRevision(project, action).value.timeline;
    forall k | 0 <= k < |edits|
      ensures FindsItsRecords(timeline, RenameEdit(Along(table), edits[k]))
    {
      assert Answered(edits[k], table, timeline);
      AnsweredEditFinds(edits[k], table, timeline);
    }
  }
}
