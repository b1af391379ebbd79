/** From the request for an alignment to the project that holds it. */
module AlignmentPublication {
  import opened Wrappers
  import opened Sequences
  import opened Schema
  import opened Invariants
  import opened Anchors
  import opened ProjectRules
  import opened AlignmentWorker
  import opened AlignmentWords
  import AddLyrics

  /** What is aligned for a project: a document, at a revision, with the anchors the user sees. */
  ghost function RecipeFor(project: Project, document: LyricsDocument, revisionId: Id): Recipe
    requires ValidProject(project)
  {
    Recipe(project.id, document.id, revisionId, project.durationSamples, project.sampleRate,
           RecipeAnchors(project, document.id, revisionId))
  }

  /** Edits may come between the request and the publication; document and revision have to be the same. */
  ghost predicate SameInputs(project: Project, later: Project, document: LyricsDocument, revisionId: Id) {
    && ValidProject(project) && ValidProject(later)
    && project.id in HistoryProjects(later)
    && later.durationSamples == project.durationSamples && later.sampleRate == project.sampleRate
    && document in project.lyricsDocuments && document in later.lyricsDocuments
    && revisionId in RevisionIds(later.analysisRevisions)
  }

  function WithAlignment(project: Project, alignment: LyricsAlignment): Project {
    project.(lyricsAlignments := project.lyricsAlignments + [alignment])
  }

  /** Anchors of one document are accepted wherever that document is. */
  lemma AcceptedElsewhere(anchors: seq<LyricsAnchor>, document: LyricsDocument, documents: seq<LyricsDocument>,
                          others: seq<LyricsDocument>, revisionId: Id, duration: nat)
    requires Accepted(anchors, document, documents, revisionId, duration)
    requires document in others && Distinct(DocumentIds(others))
    ensures Accepted(anchors, document, others, revisionId, duration)
  {
    var k :| 0 <= k < |documents| && documents[k] == document;
    var l :| 0 <= l < |others| && others[l] == document;
    FindIsUnique(DocumentIds(documents), k);
    FindIsUnique(DocumentIds(others), l);
    forall anchor | anchor in anchors
      ensures InScope(anchor, others, revisionId, duration)
    {
      assert InScope(anchor, documents, revisionId, duration);
    }
    forall other | other in others
      ensures Apart(anchors, other)
    {
      OfDocumentKeeps(anchors, other.id);
      if OfDocument(anchors, other.id) != [] {
        assert OfDocument(anchors, other.id)[0] in OfDocument(anchors, other.id);
        assert other.id == document.id;
        var m :| 0 <= m < |others| && others[m] == other;
        FindIsUnique(DocumentIds(others), m);
      }
    }
  }

  lemma NewRecordIsValid(later: Project, document: LyricsDocument, alignment: LyricsAlignment)
    requires ValidProject(later) && document in later.lyricsDocuments && alignment.lyricsDocumentId == document.id
    requires alignment.analysisRevisionId in RevisionIds(later.analysisRevisions)
    requires ValidAlignment(alignment, document, later.durationSamples)
    requires alignment.recipe.Some? && ValidRecipe(alignment.recipe.value, alignment, later)
    ensures ValidRecord(alignment, WithAlignment(later, alignment))
  {
    var k :| 0 <= k < |later.lyricsDocuments| && later.lyricsDocuments[k] == document;
    FindIsUnique(DocumentIds(later.lyricsDocuments), k);
  }

  lemma NewIdentities(later: Project, alignment: LyricsAlignment)
    requires ValidIdentities(later)
    ensures ValidIdentities(WithAlignment(later, alignment)) <==> alignment.id !in AlignmentIds(later.lyricsAlignments)
  {
    assert AlignmentIds(later.lyricsAlignments + [alignment]) == AlignmentIds(later.lyricsAlignments) + [alignment.id];
    AddLyrics.DistinctAppend(AlignmentIds(later.lyricsAlignments), alignment.id);
  }

  lemma ViewStaysValid(later: Project, alignment: LyricsAlignment)
    requires ValidView(later) && later.activeView.Some?
    ensures ValidView(WithAlignment(later, alignment))
  {
    var view := later.activeView.value;
    if view.lyricsAlignmentId.Some? {
      AddLyrics.FindAlignment(later.lyricsAlignments, alignment, view.lyricsAlignmentId.value);
    }
  }

  /** A project with a proper new alignment is valid exactly when the alignment's id was free. */
  lemma LongerProjectIsValid(later: Project, document: LyricsDocument, alignment: LyricsAlignment)
    requires ValidProject(later) && document in later.lyricsDocuments && alignment.lyricsDocumentId == document.id
    requires alignment.analysisRevisionId in RevisionIds(later.analysisRevisions)
    requires ValidAlignment(alignment, document, later.durationSamples)
    requires alignment.recipe.Some? && ValidRecipe(alignment.recipe.value, alignment, later)
    ensures ValidProject(WithAlignment(later, alignment)) <==> alignment.id !in AlignmentIds(later.lyricsAlignments)
  {
    var after := WithAlignment(later, alignment);
    NewIdentities(later, alignment);
    forall layer | layer in after.editLayers
      ensures ValidLayer(layer, after)
    {
      assert ValidLayer(layer, later);
      AddLyrics.TargetsStayKnown(layer.transactions, later.lyricsAlignments, alignment, layer.analysisRevisionId);
    }
    NewRecordIsValid(later, document, alignment);
    forall record | record in later.lyricsAlignments
      ensures ValidRecord(record, after)
    {
      assert ValidRecord(record, later);
    }
    ViewStaysValid(later, alignment);
  }

  /**
   End to end: for whatever a valid project shows when an alignment is requested, the worker succeeds, no
   anchor is violated, and the alignment with its recipe makes a valid project out of any later version with
   the same inputs, unless its id is taken.
  */
  lemma PublicationIsValid(project: Project, later: Project, document: LyricsDocument, revisionId: Id,
                           eligible: seq<bool>, reasons: seq<string>, engine: Engine, rounding: Rounding, id: Id,
                           assertion: Assertion)
    requires SameInputs(project, later, document, revisionId) && LineByLine(document)
    requires |eligible| == |reasons| == |document.tokens| && ProperEngine(engine) && Monotone(rounding)
    ensures var recipe := RecipeFor(project, document, revisionId);
            var words := Aligned(recipe.anchors, document, recipe.durationSamples, recipe.sampleRate, eligible, reasons,
                                 engine, rounding);
            && words.Ok? && ProperOutput(words.value, recipe.anchors, document, recipe.durationSamples)
            && var alignment := AlignmentFrom(words.value, document, id, revisionId,
                                              assertion).(recipe := Some(recipe));
            && (ValidProject(WithAlignment(later, alignment)) <==> id !in AlignmentIds(later.lyricsAlignments))
  {
    var recipe := RecipeFor(project, document, revisionId);
    RecipeAnchorsAreAccepted(project, document, revisionId);
    AcceptedElsewhere(recipe.anchors, document, project.lyricsDocuments, later.lyricsDocuments, revisionId,
                      later.durationSamples);
    AcceptedAnchorsAlign(recipe.anchors, document, later.lyricsDocuments, revisionId, recipe.durationSamples,
                         recipe.sampleRate, eligible, reasons, engine, rounding, id, assertion);
    var words := Aligned(recipe.anchors, document, recipe.durationSamples, recipe.sampleRate, eligible, reasons, engine,
                         rounding).value;
    var alignment := AlignmentFrom(words, document, id, revisionId, assertion).(recipe := Some(recipe));
    LongerProjectIsValid(later, document, alignment);
  }
}
