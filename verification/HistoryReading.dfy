/** What readers of an edit history get, said of the records they name and of the parents of transactions alone. */
module HistoryReading {
  import opened Wrappers
  import opened Sequences
  import opened Schema
  import opened History
  import opened Anchors
  import opened Edits
  import opened Projection

  /** The layer of a view, and the transactions from a root down to its position. */
  ghost predicate Shows(project: Project, view: ActiveView, layer: EditLayer, chain: seq<Transaction>) {
    && project.activeView == Some(view)
    && Distinct(LayerIds(project.editLayers)) && layer in project.editLayers && layer.id == view.editLayerId
    && view.editHistoryPosition <= |layer.transactions|
    && if view.editHistoryPosition == 0 then chain == []
       else ParentChain(chain, layer.transactions[view.editHistoryPosition - 1], layer.transactions)
  }

  lemma OperationsOfTheChain(transactions: seq<Transaction>, position: nat, chain: seq<Transaction>)
    requires WellFounded(transactions) && position <= |transactions|
    requires if position == 0 then chain == [] else ParentChain(chain, transactions[position - 1], transactions)
    ensures ChainOperations(transactions, position) == OperationsOf(chain)
  {
    ChainOperationsAreOfTheChain(transactions, position);
    if position > 0 {
      OneChainOfParents(transactions, position, chain);
    }
  }

  lemma OperationsShown(project: Project, view: ActiveView, layer: EditLayer, chain: seq<Transaction>)
    requires Shows(project, view, layer, chain) && WellFounded(layer.transactions)
    ensures ChainOperations(layer.transactions, view.editHistoryPosition) == OperationsOf(chain)
  {
    OperationsOfTheChain(layer.transactions, view.editHistoryPosition, chain);
  }

  lemma LayerIsFound(project: Project, view: ActiveView, layer: EditLayer, chain: seq<Transaction>)
    requires Shows(project, view, layer, chain)
    ensures var index := Find(LayerIds(project.editLayers), view.editLayerId);
            index >= 0 && project.editLayers[index] == layer
  {
    var k :| 0 <= k < |project.editLayers| && project.editLayers[k] == layer;
    assert LayerIds(project.editLayers)[k] == layer.id;
    FindIsUnique(LayerIds(project.editLayers), k);
  }

  /** The alignment with the id that a view selects, if it selects one. */
  ghost predicate IsSelected(project: Project, view: ActiveView, alignment: Option<LyricsAlignment>) {
    match alignment
    case None => view.lyricsAlignmentId == None
      || view.lyricsAlignmentId.value !in AlignmentIds(project.lyricsAlignments)
    case Some(found) =>
      && Distinct(AlignmentIds(project.lyricsAlignments)) && found in project.lyricsAlignments
      && view.lyricsAlignmentId == Some(found.id)
  }

  lemma SelectedIsFound(project: Project, view: ActiveView, alignment: Option<LyricsAlignment>)
    requires IsSelected(project, view, alignment)
    ensures SelectedAlignment(project, view) == alignment
  {
    if alignment.Some? {
      var ids := AlignmentIds(project.lyricsAlignments);
      var k :| 0 <= k < |project.lyricsAlignments| && project.lyricsAlignments[k] == alignment.value;
      assert ids[k] == alignment.value.id;
      FindIsUnique(ids, k);
    }
  }

  /** A reader gets the named revision and alignment, edited by the operations of the chain from its root on. */
  lemma ReadingFollowsParents(project: Project, view: ActiveView, revision: AnalysisRevision, layer: EditLayer,
                              alignment: Option<LyricsAlignment>, chain: seq<Transaction>)
    requires HistoriesWellFounded(project) && Shows(project, view, layer, chain) && IsSelected(project, view, alignment)
    requires Distinct(RevisionIds(project.analysisRevisions)) && revision in project.analysisRevisions
    requires revision.id == view.analysisRevisionId
    ensures var edited := EditAll(Effective(revision.timeline, alignment), OperationsOf(chain));
            Materialized(project) == if edited.Err? || !ValidEffective(edited.value, project) then Err else edited
  {
    LayerIsFound(project, view, layer, chain);
    OperationsShown(project, view, layer, chain);
    SelectedIsFound(project, view, alignment);
    var k :| 0 <= k < |project.analysisRevisions| && project.analysisRevisions[k] == revision;
    assert RevisionIds(project.analysisRevisions)[k] == revision.id;
    FindIsUnique(RevisionIds(project.analysisRevisions), k);
  }

  /** The anchors seen are those of the selected document and revision that the chain sets and does not touch again. */
  lemma AnchorsSeen(project: Project, view: ActiveView, layer: EditLayer, chain: seq<Transaction>, anchor: LyricsAnchor)
    requires HistoriesWellFounded(project) && Shows(project, view, layer, chain)
    ensures anchor in ResolvedAnchors(project) <==>
              && LastSet(OperationsOf(chain), anchor)
              && Some(anchor.lyricsDocumentId) == view.lyricsDocumentId
              && anchor.analysisRevisionId == view.analysisRevisionId
  {
    LayerIsFound(project, view, layer, chain);
    OperationsShown(project, view, layer, chain);
    LastEditCounts(OperationsOf(chain), anchor);
    FilterKeeps(EditAnchorsAll([], OperationsOf(chain)), (anchor: LyricsAnchor) =>
      Some(anchor.lyricsDocumentId) == view.lyricsDocumentId && anchor.analysisRevisionId == view.analysisRevisionId);
  }

  /** A committed layer starts from the timeline of its revision and from all alignments made for it. */
  lemma {:induction false} AlignmentsOfRevision(alignments: seq<LyricsAlignment>, revisionId: Id,
                                                alignment: LyricsAlignment)
    ensures alignment in AlignmentsOf(alignments, revisionId)
            <==> alignment in alignments && alignment.analysisRevisionId == revisionId
  {
    if alignments != [] {
      AlignmentsOfRevision(alignments[1..], revisionId, alignment);
      assert alignments == [alignments[0]] + alignments[1..];
    }
  }
}
