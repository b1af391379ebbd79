/** What makes a whole project well formed, and the validator that decides it. */
module ProjectRules {
  import opened Wrappers
  import opened Sequences
  import opened Schema
  import opened Invariants
  import opened Edits
  import opened History
  import opened Anchors

  // ----- lyrics documents

  datatype Offsets = Offsets(startOffset: nat, endOffset: nat)

  function LineOffsets(line: LyricsLine): Offsets { Offsets(line.startOffset, line.endOffset) }
  function TokenOffsets(token: LyricsToken): Offsets { Offsets(token.startOffset, token.endOffset) }

  /** Non-empty stretches of a text, in order and without overlap. */
  ghost predicate OffsetsInOrder(offsets: seq<Offsets>, length: nat) {
    && (forall i :: 0 <= i < |offsets| ==> offsets[i].startOffset < offsets[i].endOffset <= length)
    && (forall i, j :: 0 <= i < j < |offsets| ==> offsets[i].endOffset <= offsets[j].startOffset)
  }

  function EndOffset(offsets: seq<Offsets>): nat {
    if offsets == [] then 0 else offsets[|offsets| - 1].endOffset
  }

  lemma OffsetsSnoc(offsets: seq<Offsets>, next: Offsets, length: nat)
    ensures OffsetsInOrder(offsets + [next], length) <==>
            OffsetsInOrder(offsets, length) && EndOffset(offsets) <= next.startOffset < next.endOffset <= length
  {
    var all := offsets + [next];
    if OffsetsInOrder(all, length) {
      assert forall i :: 0 <= i < |offsets| ==> all[i] == offsets[i];
      assert all[|offsets|] == next;
    }
    if OffsetsInOrder(offsets, length) && offsets != [] {
      assert forall i :: 0 <= i < |offsets| - 1 ==> offsets[i].endOffset <= offsets[|offsets| - 1].startOffset;
    }
  }

  method ValidateOffsets(offsets: seq<Offsets>, length: nat) returns (ok: bool)
    ensures ok <==> OffsetsInOrder(offsets, length)
  {
    ok := true;
    var offset := 0;
    for n := 0 to |offsets|
      invariant offset == EndOffset(offsets[..n])
      invariant ok <==> OffsetsInOrder(offsets[..n], length)
    {
      OffsetsSnoc(offsets[..n], offsets[n], length);
      assert offsets[..n + 1] == offsets[..n] + [offsets[n]];
      if offsets[n].startOffset < offset || offsets[n].endOffset <= offsets[n].startOffset
        || offsets[n].endOffset > length {
        ok := false;
      }
      offset := offsets[n].endOffset;
    }
    assert offsets[..|offsets|] == offsets;
  }

  /** The part of a text between two offsets, cut off at its end as string slices are. */
  function Slice(text: Text, from: nat, to: nat): Text {
    if from >= to || from >= |text| then []
    else if to <= |text| then text[from..to]
    else text[from..]
  }

  predicate ReadsBack(token: LyricsToken, text: Text) {
    Slice(text, token.startOffset, token.endOffset) == token.text
  }

  ghost predicate ValidDocument(document: LyricsDocument) {
    && Distinct(LineIds(document.lines))
    && Distinct(TokenIds(document.tokens))
    && OffsetsInOrder(Map(LineOffsets, document.lines), |document.text|)
    && OffsetsInOrder(Map(TokenOffsets, document.tokens), |document.text|)
    && (forall token :: token in document.tokens ==>
          token.lineId in LineIds(document.lines) && ReadsBack(token, document.text))
  }

  method ValidateDocument(document: LyricsDocument) returns (ok: bool)
    ensures ok <==> ValidDocument(document)
  {
    var lineIds := ValidateUniqueIds(LineIds(document.lines));
    var tokenIds := ValidateUniqueIds(TokenIds(document.tokens));
    var lines := ValidateOffsets(Map(LineOffsets, document.lines), |document.text|);
    var tokens := ValidateOffsets(Map(TokenOffsets, document.tokens), |document.text|);
    ok := lineIds && tokenIds && lines && tokens;
    ghost var before := ok;
    for n := 0 to |document.tokens|
      invariant ok <==> before && forall i :: 0 <= i < n ==>
                  document.tokens[i].lineId in LineIds(document.lines) && ReadsBack(document.tokens[i], document.text)
    {
      if document.tokens[n].lineId !in LineIds(document.lines) { ok := false; }
      if !ReadsBack(document.tokens[n], document.text) { ok := false; }
    }
  }

  // ----- edit layers

  /** A lyrics timing edit names an alignment of the layer's revision, and an occurrence in it. */
  predicate KnowsTarget(edit: Operation, alignments: seq<LyricsAlignment>, revisionId: Id) {
    EditsLyrics(edit) ==>
      var index := Find(AlignmentIds(alignments), edit.alignmentId);
      && index >= 0
      && alignments[index].analysisRevisionId == revisionId
      && (edit.SetLyricsTiming? ==> edit.tokenId in Targets(alignments[index].occurrences))
      && (edit.SetLyricsLineTiming? ==> edit.lineId in Targets(alignments[index].lineOccurrences))
  }

  ghost predicate KnowsTargets(transactions: seq<Transaction>, alignments: seq<LyricsAlignment>, revisionId: Id) {
    forall transaction, edit :: transaction in transactions && edit in transaction.operations ==>
      KnowsTarget(edit, alignments, revisionId)
  }

  ghost predicate ValidLayer(layer: EditLayer, project: Project) {
    && layer.analysisRevisionId in RevisionIds(project.analysisRevisions)
    && WellFounded(layer.transactions)
    && ValidAnchorHistory(layer, project.lyricsDocuments, project.durationSamples)
    && KnowsTargets(layer.transactions, project.lyricsAlignments, layer.analysisRevisionId)
  }

  method ValidateTargets(transactions: seq<Transaction>, alignments: seq<LyricsAlignment>, revisionId: Id)
    returns (ok: bool)
    ensures ok <==> KnowsTargets(transactions, alignments, revisionId)
  {
    ok := true;
    for n := 0 to |transactions|
      invariant ok <==> KnowsTargets(transactions[..n], alignments, revisionId)
    {
      var operations := transactions[n].operations;
      ghost var before := ok;
      for m := 0 to |operations|
        invariant ok <==> before && forall i :: 0 <= i < m ==> KnowsTarget(operations[i], alignments, revisionId)
      {
        if !KnowsTarget(operations[m], alignments, revisionId) { ok := false; }
      }
      assert transactions[..n + 1] == transactions[..n] + [transactions[n]];
    }
    assert transactions[..|transactions|] == transactions;
  }

  method ValidateLayer(layer: EditLayer, project: Project) returns (ok: bool)
    requires Distinct(DocumentIds(project.lyricsDocuments))
    ensures ok <==> ValidLayer(layer, project)
  {
    var unique := ValidateUniqueIds(TransactionIds(layer.transactions));
    if !unique {
      return false;
    }
    var parents := ValidateParents(layer.transactions);
    if !parents {
      return false;
    }
    var anchors, _ := ValidateAnchorHistory(layer, project.lyricsDocuments, project.durationSamples);
    var targets := ValidateTargets(layer.transactions, project.lyricsAlignments, layer.analysisRevisionId);
    ok := layer.analysisRevisionId in RevisionIds(project.analysisRevisions) && anchors && targets;
  }

  // ----- alignments and the active view

  /** The identity of a project and those it was imported under. */
  function HistoryProjects(project: Project): seq<Id> { [project.id] + project.importOrigins }

  /** The recipe was made for the document, the revision and the project, and its anchors are valid there. */
  ghost predicate ValidRecipe(recipe: Recipe, alignment: LyricsAlignment, project: Project) {
    && RecipeInScope(recipe, alignment, project)
    && ValidAnchors(recipe.anchors, project.lyricsDocuments, alignment.analysisRevisionId, project.durationSamples)
  }

  predicate RecipeInScope(recipe: Recipe, alignment: LyricsAlignment, project: Project) {
    && recipe.projectId in HistoryProjects(project)
    && recipe.lyricsDocumentId == alignment.lyricsDocumentId
    && recipe.analysisRevisionId == alignment.analysisRevisionId
    && recipe.sampleRate == project.sampleRate
    && recipe.durationSamples == project.durationSamples
    && forall anchor :: anchor in recipe.anchors ==> anchor.lyricsDocumentId == alignment.lyricsDocumentId
  }

  ghost predicate ValidRecord(alignment: LyricsAlignment, project: Project) {
    var index := Find(DocumentIds(project.lyricsDocuments), alignment.lyricsDocumentId);
    && (alignment.recipe.Some? ==> ValidRecipe(alignment.recipe.value, alignment, project))
    && alignment.analysisRevisionId in RevisionIds(project.analysisRevisions)
    && index >= 0
    && ValidAlignment(alignment, project.lyricsDocuments[index], project.durationSamples)
  }

  /** The active view selects records that belong together, or the project is empty. */
  predicate ValidView(project: Project) {
    match project.activeView
    case None =>
      && project.analysisRevisions == [] && project.editLayers == [] && project.supportClaims == []
      && project.lyricsDocuments == [] && project.lyricsAlignments == []
    case Some(view) =>
      var layer := Find(LayerIds(project.editLayers), view.editLayerId);
      && view.analysisRevisionId in RevisionIds(project.analysisRevisions)
      && layer >= 0
      && project.editLayers[layer].analysisRevisionId == view.analysisRevisionId
      && view.editHistoryPosition <= |project.editLayers[layer].transactions|
      && (view.lyricsDocumentId == None <==> view.lyricsAlignmentId == None)
      && (view.lyricsDocumentId.Some? ==> view.lyricsDocumentId.value in DocumentIds(project.lyricsDocuments))
      && (view.lyricsAlignmentId.Some? ==>
            var index := Find(AlignmentIds(project.lyricsAlignments), view.lyricsAlignmentId.value);
            && index >= 0
            && project.lyricsAlignments[index].analysisRevisionId == view.analysisRevisionId
            && Some(project.lyricsAlignments[index].lyricsDocumentId) == view.lyricsDocumentId)
  }

  ghost predicate ValidIdentities(project: Project) {
    && Distinct(RevisionIds(project.analysisRevisions))
    && Distinct(LayerIds(project.editLayers))
    && Distinct(DocumentIds(project.lyricsDocuments))
    && Distinct(AlignmentIds(project.lyricsAlignments))
    && Distinct(project.supportClaims)
    && Distinct(HistoryProjects(project))
  }

  /** A revision belongs to the project, or to one it was imported from, and cites known claims. */
  ghost predicate ValidRevision(revision: AnalysisRevision, project: Project) {
    && RevisionInScope(revision, project)
    && ValidTimeline(revision.timeline, project.durationSamples)
  }

  predicate RevisionInScope(revision: AnalysisRevision, project: Project) {
    && revision.projectId in HistoryProjects(project)
    && forall claim :: claim in revision.supportClaimIds ==> claim in project.supportClaims
  }

  ghost predicate ValidProject(project: Project) {
    && ValidIdentities(project)
    && (forall revision :: revision in project.analysisRevisions ==> ValidRevision(revision, project))
    && (forall layer :: layer in project.editLayers ==> ValidLayer(layer, project))
    && ValidView(project)
    && (forall alignment :: alignment in project.lyricsAlignments ==> ValidRecord(alignment, project))
    && (forall document :: document in project.lyricsDocuments ==> ValidDocument(document))
  }

  method ValidateIdentities(project: Project) returns (ok: bool)
    ensures ok <==> ValidIdentities(project)
  {
    var revisions := ValidateUniqueIds(RevisionIds(project.analysisRevisions));
    var layers := ValidateUniqueIds(LayerIds(project.editLayers));
    var documents := ValidateUniqueIds(DocumentIds(project.lyricsDocuments));
    var alignments := ValidateUniqueIds(AlignmentIds(project.lyricsAlignments));
    var claims := ValidateUniqueIds(project.supportClaims);
    var projects := ValidateUniqueIds(HistoryProjects(project));
    ok := revisions && layers && documents && alignments && claims && projects;
  }

  method ValidateRecipe(alignment: LyricsAlignment, project: Project) returns (ok: bool)
    requires Distinct(DocumentIds(project.lyricsDocuments))
    ensures ok <==> (alignment.recipe.Some? ==> ValidRecipe(alignment.recipe.value, alignment, project))
  {
    if alignment.recipe == None {
      return true;
    }
    var recipe := alignment.recipe.value;
    var anchors := ValidateAnchors(recipe.anchors, project.lyricsDocuments, alignment.analysisRevisionId,
                                   project.durationSamples);
    ok := RecipeInScope(recipe, alignment, project) && anchors;
  }

  method ValidateRecords(project: Project) returns (ok: bool)
    requires Distinct(DocumentIds(project.lyricsDocuments))
    ensures ok <==>
            && (forall alignment :: alignment in project.lyricsAlignments ==> ValidRecord(alignment, project))
            && (forall document :: document in project.lyricsDocuments ==> ValidDocument(document))
  {
    ok := true;
    for n := 0 to |project.lyricsAlignments|
      invariant ok <==> forall i :: 0 <= i < n ==> ValidRecord(project.lyricsAlignments[i], project)
    {
      var alignment := project.lyricsAlignments[n];
      var recipe := ValidateRecipe(alignment, project);
      var index := Find(DocumentIds(project.lyricsDocuments), alignment.lyricsDocumentId);
      if !recipe { ok := false; }
      if alignment.analysisRevisionId !in RevisionIds(project.analysisRevisions) { ok := false; }
      if index < 0 {
        ok := false;
      } else {
        var valid := ValidateAlignment(alignment, project.lyricsDocuments[index], project.durationSamples);
        ok := ok && valid;
      }
    }
    ghost var before := ok;
    for n := 0 to |project.lyricsDocuments|
      invariant ok <==> before && forall i :: 0 <= i < n ==> ValidDocument(project.lyricsDocuments[i])
    {
      var valid := ValidateDocument(project.lyricsDocuments[n]);
      ok := ok && valid;
    }
  }

  method ValidateRevisions(project: Project) returns (ok: bool)
    ensures ok <==> forall revision :: revision in project.analysisRevisions ==> ValidRevision(revision, project)
  {
    ok := true;
    for n := 0 to |project.analysisRevisions|
      invariant ok <==> forall i :: 0 <= i < n ==> ValidRevision(project.analysisRevisions[i], project)
    {
      var revision := project.analysisRevisions[n];
      var valid := ValidateTimeline(revision.timeline, project.durationSamples);
      ok := ok && RevisionInScope(revision, project) && valid;
    }
  }

  method ValidateLayers(project: Project) returns (ok: bool)
    requires Distinct(DocumentIds(project.lyricsDocuments))
    ensures ok <==> forall layer :: layer in project.editLayers ==> ValidLayer(layer, project)
  {
    ok := true;
    for n := 0 to |project.editLayers|
      invariant ok <==> forall i :: 0 <= i < n ==> ValidLayer(project.editLayers[i], project)
    {
      var valid := ValidateLayer(project.editLayers[n], project);
      ok := ok && valid;
    }
  }

  /** Identities first: the later checks look records up by id. */
  method ValidateProject(project: Project) returns (ok: bool)
    ensures ok <==> ValidProject(project)
  {
    var identities := ValidateIdentities(project);
    if !identities {
      return false;
    }
    var revisions := ValidateRevisions(project);
    var layers := ValidateLayers(project);
    var records := ValidateRecords(project);
    ok := revisions && layers && records && ValidView(project);
  }
}
