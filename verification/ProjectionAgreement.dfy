/**
 On a project that both validators accept, walking the chain of a history position never throws and gives
 exactly what the memo table stores for that transaction.
*/
module ProjectionAgreement {
  import opened Wrappers
  import opened Sequences
  import opened Schema
  import opened Edits
  import opened History
  import opened Anchors
  import opened ProjectRules
  import opened Projection

  /** The selected alignment of a committed state, or none. */
  function Pick(state: Committed, alignmentId: Option<Id>): Option<LyricsAlignment> {
    if alignmentId == None then None
    else
      var index := Find(AlignmentIds(state.alignments), alignmentId.value);
      if index < 0 then None else Some(state.alignments[index])
  }

  /** The reader's view of a committed state. */
  function Seen(state: Committed, alignmentId: Option<Id>): Effective {
    Effective(state.timeline, Pick(state, alignmentId))
  }

  lemma EditKeepsAlignmentIds(state: Committed, edit: Operation)
    requires EditCommitted(state, edit).Ok?
    ensures AlignmentIds(EditCommitted(state, edit).value.alignments) == AlignmentIds(state.alignments)
  {
  }

  /** One edit of all alignments looks, to a reader of one, like an edit of that one. */
  lemma EditIsSeen(state: Committed, edit: Operation, alignmentId: Option<Id>)
    requires EditCommitted(state, edit).Ok?
    requires alignmentId.Some? ==> alignmentId.value in AlignmentIds(state.alignments)
    ensures Edit(Seen(state, alignmentId), edit) == Ok(Seen(EditCommitted(state, edit).value, alignmentId))
  {
    var ids := AlignmentIds(state.alignments);
    EditKeepsAlignmentIds(state, edit);
    if alignmentId.Some? {
      var seen := Find(ids, alignmentId.value);
      assert ids[seen] == state.alignments[seen].id;
      if EditsLyrics(edit) {
        var named := Find(ids, edit.alignmentId);
        assert ids[named] == state.alignments[named].id;
      }
    }
  }

  /** It fails exactly when the named alignment is missing or the edit fails for the reader of that alignment. */
  lemma EditFailsAsSeen(state: Committed, edit: Operation)
    ensures if EditsLyrics(edit) then
              EditCommitted(state, edit).Ok? <==>
                (exists alignment :: alignment in state.alignments && alignment.id == edit.alignmentId)
                && Edit(Seen(state, Some(edit.alignmentId)), edit).Ok?
            else EditCommitted(state, edit).Ok? <==> Edit(Seen(state, None), edit).Ok?
  {
    if EditsLyrics(edit) {
      var ids := AlignmentIds(state.alignments);
      if alignment :| alignment in state.alignments && alignment.id == edit.alignmentId {
        var k :| 0 <= k < |state.alignments| && state.alignments[k] == alignment;
        assert ids[k] == edit.alignmentId;
      }
      if edit.alignmentId in ids {
        var found := Find(ids, edit.alignmentId);
        assert ids[found] == state.alignments[found].id;
        assert state.alignments[found] in state.alignments;
      }
    }
  }

  lemma {:induction false} EditsAreSeen(state: Committed, edits: seq<Operation>, alignmentId: Option<Id>)
    requires EditCommittedAll(state, edits).Ok?
    requires alignmentId.Some? ==> alignmentId.value in AlignmentIds(state.alignments)
    ensures EditAll(Seen(state, alignmentId), edits) == Ok(Seen(EditCommittedAll(state, edits).value, alignmentId))
    ensures AlignmentIds(EditCommittedAll(state, edits).value.alignments) == AlignmentIds(state.alignments)
  {
    if edits != [] {
      var init, last := edits[..|edits| - 1], edits[|edits| - 1];
      EditsAreSeen(state, init, alignmentId);
      var before := EditCommittedAll(state, init).value;
      EditIsSeen(before, last, alignmentId);
      EditKeepsAlignmentIds(before, last);
    }
  }

  /** The fold over the chain is what the table holds. */
  lemma {:induction false} ChainIsCommitted(project: Project, initial: Committed, transactions: seq<Transaction>,
                                            position: nat, alignmentId: Option<Id>)
    requires WellFounded(transactions) && position <= |transactions|
    requires CommittedAt(project, initial, transactions, position).Ok?
    requires alignmentId.Some? ==> alignmentId.value in AlignmentIds(initial.alignments)
    ensures EditAll(Seen(initial, alignmentId), ChainOperations(transactions, position))
            == Ok(Seen(CommittedAt(project, initial, transactions, position).value, alignmentId))
    ensures AlignmentIds(CommittedAt(project, initial, transactions, position).value.alignments)
            == AlignmentIds(initial.alignments)
    decreases position
  {
    if position > 0 {
      var parent := ParentPosition(transactions, position);
      ChainIsCommitted(project, initial, transactions, parent, alignmentId);
      var operations := transactions[position - 1].operations;
      EditAllConcat(Seen(initial, alignmentId), ChainOperations(transactions, parent), operations);
      EditsAreSeen(CommittedAt(project, initial, transactions, parent).value, operations, alignmentId);
    }
  }

  lemma FindSkips<T>(head: T, tail: seq<T>, x: T)
    requires head != x
    ensures Find([head] + tail, x) == if Find(tail, x) < 0 then -1 else Find(tail, x) + 1
  {
    assert ([head] + tail)[1..] == tail;
  }

  lemma IdsOfCons(head: LyricsAlignment, tail: seq<LyricsAlignment>)
    ensures AlignmentIds([head] + tail) == [head.id] + AlignmentIds(tail)
  {
  }

  /** The alignment found by id, if any. */
  function AlignmentOf(alignments: seq<LyricsAlignment>, id: Id): Option<LyricsAlignment> {
    var index := Find(AlignmentIds(alignments), id);
    if index < 0 then None else Some(alignments[index])
  }

  lemma AlignmentOfCons(head: LyricsAlignment, tail: seq<LyricsAlignment>, id: Id)
    ensures AlignmentOf([head] + tail, id) == if head.id == id then Some(head) else AlignmentOf(tail, id)
  {
    IdsOfCons(head, tail);
    if head.id != id {
      FindSkips(head.id, AlignmentIds(tail), id);
    } else {
      assert ([head.id] + AlignmentIds(tail))[0] == id;
    }
  }

  lemma AlignmentsOfCons(head: LyricsAlignment, tail: seq<LyricsAlignment>, revisionId: Id)
    ensures AlignmentsOf([head] + tail, revisionId)
            == if head.analysisRevisionId == revisionId then [head] + AlignmentsOf(tail, revisionId)
              else AlignmentsOf(tail, revisionId)
  {
    assert ([head] + tail)[1..] == tail;
  }

  /** Looking among a revision's alignments finds the same record. */
  lemma {:induction false} OwnAlignments(alignments: seq<LyricsAlignment>, revisionId: Id, id: Id)
    requires AlignmentOf(alignments, id).Some? && AlignmentOf(alignments, id).value.analysisRevisionId == revisionId
    ensures AlignmentOf(AlignmentsOf(alignments, revisionId), id) == AlignmentOf(alignments, id)
  {
    var first, rest := alignments[0], alignments[1..];
    assert alignments == [first] + rest;
    AlignmentOfCons(first, rest, id);
    AlignmentOfCons(first, AlignmentsOf(rest, revisionId), id);
    AlignmentsOfCons(first, rest, revisionId);
    if first.id != id {
      OwnAlignments(rest, revisionId, id);
    }
  }

  // ----- the active records

  predicate HasActiveRecords(project: Project) {
    && project.activeView.Some?
    && Find(LayerIds(project.editLayers), project.activeView.value.editLayerId) >= 0
    && Find(RevisionIds(project.analysisRevisions), project.activeView.value.analysisRevisionId) >= 0
  }

  function ActiveLayer(project: Project): EditLayer
    requires HasActiveRecords(project)
  {
    project.editLayers[Find(LayerIds(project.editLayers), project.activeView.value.editLayerId)]
  }

  function ActiveRevision(project: Project): AnalysisRevision
    requires HasActiveRecords(project)
  {
    project.analysisRevisions[Find(RevisionIds(project.analysisRevisions), project.activeView.value.analysisRevisionId)]
  }

  lemma ActiveRecords(project: Project)
    requires ValidProject(project) && project.activeView.Some?
    ensures HasActiveRecords(project)
    ensures ActiveRevision(project) in project.analysisRevisions && ActiveLayer(project) in project.editLayers
    ensures ActiveRevision(project).id == ActiveLayer(project).analysisRevisionId
            == project.activeView.value.analysisRevisionId
    ensures WellFounded(ActiveLayer(project).transactions)
    ensures project.activeView.value.editHistoryPosition <= |ActiveLayer(project).transactions|
  {
    var ids := RevisionIds(project.analysisRevisions);
    var k := Find(ids, project.activeView.value.analysisRevisionId);
    assert ids[k] == project.analysisRevisions[k].id;
    assert ActiveLayer(project) in project.editLayers;
    assert ValidLayer(ActiveLayer(project), project);
  }

  /** Both validators accept the project, and it has an active view. */
  ghost predicate Accepted(project: Project) {
    && ValidProject(project)
    && project.activeView.Some?
    && (forall layer :: layer in project.editLayers ==> LayerCommits(project, layer))
  }

  /** The table entry for a history position of the active layer. */
  ghost function StoredAt(project: Project, position: nat): Result<Committed>
    requires HasActiveRecords(project) && WellFounded(ActiveLayer(project).transactions)
    requires position <= |ActiveLayer(project).transactions|
  {
    CommittedAt(project, Initial(project, ActiveRevision(project)), ActiveLayer(project).transactions, position)
  }

  lemma StoredIsDefined(project: Project, position: nat)
    requires Accepted(project) && HasActiveRecords(project) && WellFounded(ActiveLayer(project).transactions)
    requires position <= |ActiveLayer(project).transactions|
    ensures StoredAt(project, position).Ok?
  {
    ActiveRecords(project);
    assert LayerCommits(project, ActiveLayer(project));
  }

  lemma StartIsSeen(project: Project)
    requires ValidProject(project) && HasActiveRecords(project)
    ensures var alignmentId := project.activeView.value.lyricsAlignmentId;
            var initial := Initial(project, ActiveRevision(project));
            && Seen(initial, alignmentId)
                 == Effective(ActiveRevision(project).timeline, SelectedAlignment(project, project.activeView.value))
            && (alignmentId.Some? ==> alignmentId.value in AlignmentIds(initial.alignments))
  {
    ActiveRecords(project);
    var alignmentId := project.activeView.value.lyricsAlignmentId;
    if alignmentId.Some? {
      assert AlignmentOf(project.lyricsAlignments, alignmentId.value).Some?;
      OwnAlignments(project.lyricsAlignments, ActiveRevision(project).id, alignmentId.value);
    }
  }

  lemma StartIsValid(project: Project)
    requires ValidProject(project) && HasActiveRecords(project)
    ensures ValidEffective(Effective(ActiveRevision(project).timeline,
                                     SelectedAlignment(project, project.activeView.value)), project)
  {
    ActiveRecords(project);
    var selected := SelectedAlignment(project, project.activeView.value);
    if selected.Some? {
      assert selected.value in project.lyricsAlignments;
      assert ValidRecord(selected.value, project);
    }
  }

  lemma StoredIsValid(project: Project, position: nat)
    requires Accepted(project) && HasActiveRecords(project) && WellFounded(ActiveLayer(project).transactions)
    requires position <= |ActiveLayer(project).transactions|
    ensures StoredAt(project, position).Ok?
    ensures ValidEffective(Seen(StoredAt(project, position).value, project.activeView.value.lyricsAlignmentId), project)
  {
    StoredIsDefined(project, position);
    var seen := Seen(StoredAt(project, position).value, project.activeView.value.lyricsAlignmentId);
    if position == 0 {
      StartIsSeen(project);
      StartIsValid(project);
    } else if seen.alignment.Some? {
      assert seen.alignment.value in StoredAt(project, position).value.alignments;
    }
  }

  /** The same project, seen from another history position. */
  function At(project: Project, position: nat): Project
    requires project.activeView.Some?
  {
    project.(activeView := Some(project.activeView.value.(editHistoryPosition := position)))
  }

  lemma WhatIsRead(project: Project, position: nat)
    requires HasActiveRecords(project) && HistoriesWellFounded(project)
    requires WellFounded(ActiveLayer(project).transactions) && position <= |ActiveLayer(project).transactions|
    ensures var start := Effective(ActiveRevision(project).timeline,
                                   SelectedAlignment(project, project.activeView.value));
            var edited := EditAll(start, ChainOperations(ActiveLayer(project).transactions, position));
            Materialized(At(project, position))
              == if edited.Err? || !ValidEffective(edited.value, project) then Err else edited
  {
    var start := Effective(ActiveRevision(project).timeline, SelectedAlignment(project, project.activeView.value));
    var edited := EditAll(start, ChainOperations(ActiveLayer(project).transactions, position));
    if edited.Ok? {
      ValidityIgnoresTheView(edited.value, project, position);
    }
  }

  /**
   At every history position of the active layer, reading an accepted project never throws and gives the
   stored timeline together with the stored copy of the selected alignment.
  */
  lemma ChainWalkAgreesWithMemo(project: Project, position: nat)
    requires Accepted(project)
    ensures HasActiveRecords(project) && WellFounded(ActiveLayer(project).transactions) && HistoriesWellFounded(project)
    ensures position <= |ActiveLayer(project).transactions| ==>
              && StoredAt(project, position).Ok?
              && Materialized(At(project, position))
                   == Ok(Seen(StoredAt(project, position).value, project.activeView.value.lyricsAlignmentId))
  {
    ActiveRecords(project);
    assert HistoriesWellFounded(project) by {
      assert forall layer :: layer in project.editLayers ==> ValidLayer(layer, project);
    }
    if position <= |ActiveLayer(project).transactions| {
      StartIsSeen(project);
      StoredIsValid(project, position);
      WhatIsRead(project, position);
      ChainIsCommitted(project, Initial(project, ActiveRevision(project)), ActiveLayer(project).transactions, position,
                       project.activeView.value.lyricsAlignmentId);
    }
  }

  lemma ValidityIgnoresTheView(state: Effective, project: Project, position: nat)
    requires project.activeView.Some?
    ensures ValidEffective(state, At(project, position)) <==> ValidEffective(state, project)
  {
  }

  // ----- anchors

  /** The validator's table entry for a history position; nothing is anchored at position 0. */
  function AnchorEntry(anchorHistory: map<Id, seq<LyricsAnchor>>, transactions: seq<Transaction>,
                       position: nat): seq<LyricsAnchor>
    requires position <= |transactions|
  {
    if position == 0 || transactions[position - 1].id !in anchorHistory then []
    else anchorHistory[transactions[position - 1].id]
  }

  /** The anchors read along the chain are the selected ones of the validator's table entry, and that entry is valid. */
  lemma AnchorWalkAgreesWithMemo(project: Project, anchorHistory: map<Id, seq<LyricsAnchor>>)
    requires ValidProject(project) && HasActiveRecords(project) && HistoriesWellFounded(project)
    requires var transactions := ActiveLayer(project).transactions;
             WellFounded(transactions) && RecordsUpTo(anchorHistory, transactions, |transactions|)
    ensures project.activeView.value.editHistoryPosition <= |ActiveLayer(project).transactions|
    ensures var view := project.activeView.value;
            var entry := AnchorEntry(anchorHistory, ActiveLayer(project).transactions, view.editHistoryPosition);
            && ResolvedAnchors(project) == Selected(entry, view)
            && ValidAnchors(entry, project.lyricsDocuments, view.analysisRevisionId, project.durationSamples)
  {
    var position := project.activeView.value.editHistoryPosition;
    ActiveRecords(project);
    var layer := ActiveLayer(project);
    assert ValidLayer(layer, project);
    if position > 0 {
      assert Records(anchorHistory, layer.transactions, position);
      assert ValidAnchorsAt(layer, position, project.lyricsDocuments, project.durationSamples);
    } else {
      assert AnchorsAt(layer.transactions, 0) == [];
    }
  }
}
