/**
 Lyrics anchors: how edits set and remove them along a history, what makes a set of them valid, and the
 two ways the program computes the anchors of a history position.
*/
module Anchors {
  import opened Wrappers
  import opened Sequences
  import opened Schema
  import opened History

  function AnchorId(anchor: LyricsAnchor): Id { anchor.id }
  function AnchorIds(anchors: seq<LyricsAnchor>): seq<Id> { Map(AnchorId, anchors) }

  /** An insertion-ordered map keyed by anchor id, as the sequence of its values. */
  function EditAnchors(anchors: seq<LyricsAnchor>, edit: Operation): seq<LyricsAnchor> {
    match edit
    case SetLyricsAnchor(anchor) =>
      var index := Find(AnchorIds(anchors), anchor.id);
      if index >= 0 then anchors[index := anchor] else anchors + [anchor]
    case RemoveLyricsAnchor(anchorId) =>
      var index := Find(AnchorIds(anchors), anchorId);
      if index >= 0 then anchors[..index] + anchors[index + 1..] else anchors
    case _ => anchors
  }

  function EditAnchorsAll(anchors: seq<LyricsAnchor>, edits: seq<Operation>): seq<LyricsAnchor> {
    if edits == [] then anchors
    else EditAnchors(EditAnchorsAll(anchors, edits[..|edits| - 1]), edits[|edits| - 1])
  }

  lemma {:induction false} EditAnchorsConcat(anchors: seq<LyricsAnchor>, a: seq<Operation>, b: seq<Operation>)
    ensures EditAnchorsAll(anchors, a + b) == EditAnchorsAll(EditAnchorsAll(anchors, a), b)
  {
    if b == [] {
      assert a + b == a;
    } else {
      assert (a + b)[..|a + b| - 1] == a + b[..|b| - 1];
      EditAnchorsConcat(anchors, a, b[..|b| - 1]);
    }
  }

  /** Ids stay unique, so the sequence really is a map. */
  lemma {:induction false} AnchorsStayDistinct(anchors: seq<LyricsAnchor>, edits: seq<Operation>)
    requires Distinct(AnchorIds(anchors))
    ensures Distinct(AnchorIds(EditAnchorsAll(anchors, edits)))
  {
    if edits != [] {
      AnchorsStayDistinct(anchors, edits[..|edits| - 1]);
      var before := EditAnchorsAll(anchors, edits[..|edits| - 1]);
      AnchorStaysDistinct(before, edits[|edits| - 1]);
    }
  }

  lemma SetStaysDistinct(anchors: seq<LyricsAnchor>, anchor: LyricsAnchor)
    requires Distinct(AnchorIds(anchors))
    ensures Distinct(AnchorIds(EditAnchors(anchors, SetLyricsAnchor(anchor))))
  {
    var ids, after := AnchorIds(anchors), AnchorIds(EditAnchors(anchors, SetLyricsAnchor(anchor)));
    assert after == if anchor.id in ids then ids else ids + [anchor.id];
  }

  lemma RemovalStaysDistinct(anchors: seq<LyricsAnchor>, anchorId: Id)
    requires Distinct(AnchorIds(anchors))
    ensures Distinct(AnchorIds(EditAnchors(anchors, RemoveLyricsAnchor(anchorId))))
  {
    var ids, after := AnchorIds(anchors), AnchorIds(EditAnchors(anchors, RemoveLyricsAnchor(anchorId)));
    var index := Find(ids, anchorId);
    if index >= 0 {
      assert |after| == |ids| - 1;
      assert forall k :: 0 <= k < |after| ==> after[k] == ids[if k < index then k else k + 1];
    }
  }

  lemma AnchorStaysDistinct(anchors: seq<LyricsAnchor>, edit: Operation)
    requires Distinct(AnchorIds(anchors))
    ensures Distinct(AnchorIds(EditAnchors(anchors, edit)))
  {
    match edit {
      case SetLyricsAnchor(anchor) => SetStaysDistinct(anchors, anchor);
      case RemoveLyricsAnchor(anchorId) => RemovalStaysDistinct(anchors, anchorId);
      case _ =>
    }
  }

  // ----- what is there after edits

  /** Set anchors are there, removed ones are not, and anchors of other ids are as before. */
  lemma EditedAnchors(anchors: seq<LyricsAnchor>, edit: Operation, x: LyricsAnchor)
    requires Distinct(AnchorIds(anchors))
    ensures x in EditAnchors(anchors, edit) <==>
              (edit.SetLyricsAnchor? && x == edit.anchor) || (x in anchors && !SetsOrRemoves(edit, x.id))
  {
    match edit {
      case SetLyricsAnchor(anchor) => AnchorIsSet(anchors, anchor, x);
      case RemoveLyricsAnchor(anchorId) => AnchorIsRemoved(anchors, anchorId, x);
      case _ =>
    }
  }

  predicate SetsOrRemoves(edit: Operation, id: Id) {
    match edit
    case SetLyricsAnchor(anchor) => anchor.id == id
    case RemoveLyricsAnchor(anchorId) => anchorId == id
    case _ => false
  }

  lemma AnchorIsSet(anchors: seq<LyricsAnchor>, anchor: LyricsAnchor, x: LyricsAnchor)
    requires Distinct(AnchorIds(anchors))
    ensures x in EditAnchors(anchors, SetLyricsAnchor(anchor)) <==> x == anchor || (x in anchors && x.id != anchor.id)
  {
    var ids, after := AnchorIds(anchors), EditAnchors(anchors, SetLyricsAnchor(anchor));
    var index := Find(ids, anchor.id);
    if x in anchors && x.id != anchor.id {
      var k :| 0 <= k < |anchors| && anchors[k] == x;
      assert after[k] == x;
    }
    assert after[if index >= 0 then index else |anchors|] == anchor;
    if x in after && x != anchor {
      var k :| 0 <= k < |after| && after[k] == x;
      assert k < |anchors| && anchors[k] == x && k != index && ids[k] == x.id;
    }
  }

  lemma AnchorIsRemoved(anchors: seq<LyricsAnchor>, anchorId: Id, x: LyricsAnchor)
    requires Distinct(AnchorIds(anchors))
    ensures x in EditAnchors(anchors, RemoveLyricsAnchor(anchorId)) <==> x in anchors && x.id != anchorId
  {
    var ids, after := AnchorIds(anchors), EditAnchors(anchors, RemoveLyricsAnchor(anchorId));
    var index := Find(ids, anchorId);
    if x in anchors && x.id != anchorId {
      var k :| 0 <= k < |anchors| && anchors[k] == x;
      assert index >= 0 ==> after[if k < index then k else k - 1] == x;
    }
    if x in after {
      var k :| 0 <= k < |after| && after[k] == x;
      var l := if index < 0 || k < index then k else k + 1;
      assert anchors[l] == x && ids[l] == x.id && l != index;
    }
  }

  /** The edit that set an anchor, if no later one sets or removes that id. */
  ghost predicate LastSetAt(edits: seq<Operation>, k: nat, anchor: LyricsAnchor) {
    && k < |edits| && edits[k] == SetLyricsAnchor(anchor)
    && forall l :: k < l < |edits| ==> !SetsOrRemoves(edits[l], anchor.id)
  }

  ghost predicate LastSet(edits: seq<Operation>, anchor: LyricsAnchor) {
    exists k: nat :: LastSetAt(edits, k, anchor)
  }

  /** Of the edits of an anchor's id the last one counts. */
  lemma {:induction false} LastEditCounts(edits: seq<Operation>, anchor: LyricsAnchor)
    ensures anchor in EditAnchorsAll([], edits) <==> LastSet(edits, anchor)
  {
    if edits != [] {
      var init, last := edits[..|edits| - 1], edits[|edits| - 1];
      LastEditCounts(init, anchor);
      AnchorsStayDistinct([], init);
      EditedAnchors(EditAnchorsAll([], init), last, anchor);
      OneMoreEditCounts(edits, anchor);
    }
  }

  lemma OneMoreEditCounts(edits: seq<Operation>, anchor: LyricsAnchor)
    requires edits != []
    ensures var last := edits[|edits| - 1];
            LastSet(edits, anchor) <==>
              last == SetLyricsAnchor(anchor)
              || (LastSet(edits[..|edits| - 1], anchor) && !SetsOrRemoves(last, anchor.id))
  {
    var init, last := edits[..|edits| - 1], edits[|edits| - 1];
    if last == SetLyricsAnchor(anchor) {
      assert LastSetAt(edits, |init|, anchor);
    }
    if LastSet(init, anchor) && !SetsOrRemoves(last, anchor.id) {
      var k: nat :| LastSetAt(init, k, anchor);
      assert LastSetAt(edits, k, anchor);
    }
    if LastSet(edits, anchor) && last != SetLyricsAnchor(anchor) {
      var k: nat :| LastSetAt(edits, k, anchor);
      assert k < |init| && LastSetAt(init, k, anchor);
    }
  }

  /** The anchors at a history position: the edits of its chain, folded from the root. */
  ghost function AnchorsAt(transactions: seq<Transaction>, position: nat): seq<LyricsAnchor>
    requires WellFounded(transactions) && position <= |transactions|
  {
    EditAnchorsAll([], ChainOperations(transactions, position))
  }

  /** Each transaction edits the anchors of its parent. */
  lemma AnchorsFromParent(transactions: seq<Transaction>, position: nat)
    requires WellFounded(transactions) && 0 < position <= |transactions|
    ensures AnchorsAt(transactions, position)
            == EditAnchorsAll(AnchorsAt(transactions, ParentPosition(transactions, position)),
                              transactions[position - 1].operations)
  {
    EditAnchorsConcat([], ChainOperations(transactions, ParentPosition(transactions, position)),
                      transactions[position - 1].operations);
  }

  // ----- validity

  function FirstPosition(anchor: LyricsAnchor, document: LyricsDocument): int {
    Find(TokenIds(document.tokens), anchor.firstTokenId)
  }

  function LastPosition(anchor: LyricsAnchor, document: LyricsDocument): int {
    Find(TokenIds(document.tokens), anchor.lastTokenId)
  }

  predicate InScope(anchor: LyricsAnchor, documents: seq<LyricsDocument>, revisionId: Id, duration: nat) {
    var index := Find(DocumentIds(documents), anchor.lyricsDocumentId);
    && anchor.analysisRevisionId == revisionId
    && index >= 0
    && 0 <= FirstPosition(anchor, documents[index]) <= LastPosition(anchor, documents[index])
    && anchor.startSample < anchor.endSample <= duration
  }

  /** One anchor lies before another, in token order and in time. */
  predicate Before(left: LyricsAnchor, right: LyricsAnchor, document: LyricsDocument) {
    LastPosition(left, document) < FirstPosition(right, document) && left.endSample <= right.startSample
  }

  function OfDocument(anchors: seq<LyricsAnchor>, documentId: Id): seq<LyricsAnchor> {
    if anchors == [] then []
    else (if anchors[0].lyricsDocumentId == documentId then [anchors[0]] else []) + OfDocument(anchors[1..], documentId)
  }

  lemma {:induction false} OfDocumentKeeps(anchors: seq<LyricsAnchor>, documentId: Id)
    ensures forall a :: a in OfDocument(anchors, documentId) <==> a in anchors && a.lyricsDocumentId == documentId
  {
    if anchors != [] {
      assert anchors == [anchors[0]] + anchors[1..];
      OfDocumentKeeps(anchors[1..], documentId);
    }
  }

  lemma {:induction false} NoneOfDocument(anchors: seq<LyricsAnchor>, documentId: Id)
    requires forall anchor :: anchor in anchors ==> anchor.lyricsDocumentId != documentId
    ensures OfDocument(anchors, documentId) == []
  {
    if anchors != [] {
      assert anchors[0] in anchors && forall anchor :: anchor in anchors[1..] ==> anchor in anchors;
      NoneOfDocument(anchors[1..], documentId);
    }
  }

  /** Of any two anchors of a document, one lies before the other. */
  ghost predicate Apart(anchors: seq<LyricsAnchor>, document: LyricsDocument) {
    var own := OfDocument(anchors, document.id);
    forall i, j :: 0 <= i < j < |own| ==> Before(own[i], own[j], document) || Before(own[j], own[i], document)
  }

  /** Every anchor is in scope, and no two anchors of a document conflict. */
  ghost predicate ValidAnchors(anchors: seq<LyricsAnchor>, documents: seq<LyricsDocument>, revisionId: Id,
                               duration: nat) {
    && |anchors| <= 1000
    && (forall anchor :: anchor in anchors ==> InScope(anchor, documents, revisionId, duration))
    && (forall document :: document in documents ==> Apart(anchors, document))
  }

  function PositionKey(document: LyricsDocument): LyricsAnchor -> int {
    (anchor: LyricsAnchor) => FirstPosition(anchor, document)
  }

  ghost predicate NeighboursApart(ordered: seq<LyricsAnchor>, document: LyricsDocument) {
    forall i, j :: 0 <= i && j == i + 1 < |ordered| ==> Before(ordered[i], ordered[j], document)
  }

  ghost predicate ProperIn(anchor: LyricsAnchor, document: LyricsDocument) {
    0 <= FirstPosition(anchor, document) <= LastPosition(anchor, document) && anchor.startSample < anchor.endSample
  }

  /** Neighbours in token order decide about all pairs. */
  lemma {:induction false} NeighboursDecide(ordered: seq<LyricsAnchor>, document: LyricsDocument, i: nat, j: nat)
    requires forall anchor :: anchor in ordered ==> ProperIn(anchor, document)
    requires NeighboursApart(ordered, document) && i < j < |ordered|
    ensures Before(ordered[i], ordered[j], document)
    decreases j
  {
    assert ordered[j - 1] in ordered;
    assert Before(ordered[j - 1], ordered[j], document);
    if i < j - 1 {
      NeighboursDecide(ordered, document, i, j - 1);
    }
  }

  /** Anchors that are apart do not repeat: none lies before itself. */
  lemma ApartMeansDistinct(anchors: seq<LyricsAnchor>, document: LyricsDocument)
    requires Apart(anchors, document)
    requires forall anchor :: anchor in OfDocument(anchors, document.id) ==> ProperIn(anchor, document)
    ensures Distinct(OfDocument(anchors, document.id))
  {
    var own := OfDocument(anchors, document.id);
    forall i, j | 0 <= i < j < |own|
      ensures own[i] != own[j]
    {
      assert own[i] in own && ProperIn(own[i], document);
    }
  }

  lemma NeighboursSettle(anchors: seq<LyricsAnchor>, ordered: seq<LyricsAnchor>, document: LyricsDocument)
    requires multiset(ordered) == multiset(OfDocument(anchors, document.id))
    requires forall anchor :: anchor in ordered ==> ProperIn(anchor, document)
    requires NeighboursApart(ordered, document)
    ensures Apart(anchors, document)
  {
    var own := OfDocument(anchors, document.id);
    SamePermutation(ordered, own);
    forall i, j | 0 <= i < j < |ordered|
      ensures ordered[i] != ordered[j]
    {
      NeighboursDecide(ordered, document, i, j);
      assert ordered[i] in ordered;
    }
    SortedIsDistinct(ordered, own);
    forall i, j | 0 <= i < j < |own|
      ensures Before(own[i], own[j], document) || Before(own[j], own[i], document)
    {
      assert own[i] in ordered && own[j] in ordered && own[i] != own[j];
      var p :| 0 <= p < |ordered| && ordered[p] == own[i];
      var q :| 0 <= q < |ordered| && ordered[q] == own[j];
      if p < q { NeighboursDecide(ordered, document, p, q); } else { NeighboursDecide(ordered, document, q, p); }
    }
  }

  lemma PairsSettle(anchors: seq<LyricsAnchor>, ordered: seq<LyricsAnchor>, document: LyricsDocument)
    requires Distinct(ordered) && SortedBy(ordered, PositionKey(document))
    requires forall anchor :: anchor in ordered ==>
               anchor in OfDocument(anchors, document.id) && ProperIn(anchor, document)
    requires Apart(anchors, document)
    ensures NeighboursApart(ordered, document)
  {
    var own := OfDocument(anchors, document.id);
    forall i, j | 0 <= i && j == i + 1 < |ordered|
      ensures Before(ordered[i], ordered[j], document)
    {
      var a, b := ordered[i], ordered[j];
      assert a in ordered && b in ordered && a != b;
      var p :| 0 <= p < |own| && own[p] == a;
      var q :| 0 <= q < |own| && own[q] == b;
      assert Before(a, b, document) || Before(b, a, document);
      assert PositionKey(document)(a) <= PositionKey(document)(b);
    }
  }

  lemma SortingDecides(anchors: seq<LyricsAnchor>, ordered: seq<LyricsAnchor>, document: LyricsDocument)
    requires ordered == SortBy(OfDocument(anchors, document.id), PositionKey(document))
    requires forall anchor :: anchor in anchors && anchor.lyricsDocumentId == document.id ==> ProperIn(anchor, document)
    ensures NeighboursApart(ordered, document) <==> Apart(anchors, document)
  {
    var own := OfDocument(anchors, document.id);
    OfDocumentKeeps(anchors, document.id);
    SortBySorts(own, PositionKey(document));
    SamePermutation(ordered, own);
    if NeighboursApart(ordered, document) {
      NeighboursSettle(anchors, ordered, document);
    }
    if Apart(anchors, document) {
      ApartMeansDistinct(anchors, document);
      SortedIsDistinct(own, ordered);
      PairsSettle(anchors, ordered, document);
    }
  }

  ghost predicate AllInScope(anchors: seq<LyricsAnchor>, documents: seq<LyricsDocument>, revisionId: Id,
                             duration: nat) {
    |anchors| <= 1000 && forall anchor :: anchor in anchors ==> InScope(anchor, documents, revisionId, duration)
  }

  method ValidateScopes(anchors: seq<LyricsAnchor>, documents: seq<LyricsDocument>, revisionId: Id, duration: nat)
    returns (ok: bool)
    ensures ok <==> AllInScope(anchors, documents, revisionId, duration)
  {
    ok := |anchors| <= 1000;
    for n := 0 to |anchors|
      invariant ok <==>
                  |anchors| <= 1000 && forall i :: 0 <= i < n ==> InScope(anchors[i], documents, revisionId, duration)
    {
      if !InScope(anchors[n], documents, revisionId, duration) {
        ok := false;
      }
    }
  }

  lemma ScopeIsProper(anchors: seq<LyricsAnchor>, documents: seq<LyricsDocument>, n: nat, revisionId: Id, duration: nat)
    requires AllInScope(anchors, documents, revisionId, duration) && Distinct(DocumentIds(documents)) && n < |documents|
    ensures forall anchor :: anchor in anchors && anchor.lyricsDocumentId == documents[n].id ==>
              ProperIn(anchor, documents[n])
  {
    assert DocumentIds(documents)[n] == documents[n].id;
    FindIsUnique(DocumentIds(documents), n);
  }

  method ValidateAnchors(anchors: seq<LyricsAnchor>, documents: seq<LyricsDocument>, revisionId: Id, duration: nat)
    returns (ok: bool)
    requires Distinct(DocumentIds(documents))
    ensures ok <==> ValidAnchors(anchors, documents, revisionId, duration)
  {
    var scoped := ValidateScopes(anchors, documents, revisionId, duration);
    ok := scoped;
    for n := 0 to |documents|
      invariant ok ==> scoped
      invariant scoped ==> (ok <==> forall i :: 0 <= i < n ==> Apart(anchors, documents[i]))
    {
      var apart := ValidateOrder(anchors, documents[n]);
      if scoped {
        ScopeIsProper(anchors, documents, n, revisionId, duration);
      }
      ok := ok && apart;
    }
  }

  method ValidateOrder(anchors: seq<LyricsAnchor>, document: LyricsDocument) returns (ok: bool)
    ensures (forall anchor :: anchor in anchors && anchor.lyricsDocumentId == document.id ==>
               ProperIn(anchor, document))
            ==> (ok <==> Apart(anchors, document))
  {
    var ordered := SortBy(OfDocument(anchors, document.id), PositionKey(document));
    ok := true;
    var index := 1;
    while index < |ordered|
      invariant index >= 1
      invariant ok <==> forall i, j :: 0 <= i && j == i + 1 < |ordered| && j < index ==>
                          Before(ordered[i], ordered[j], document)
    {
      if !Before(ordered[index - 1], ordered[index], document) {
        ok := false;
      }
      index := index + 1;
    }
    if forall anchor :: anchor in anchors && anchor.lyricsDocumentId == document.id ==> ProperIn(anchor, document) {
      SortingDecides(anchors, ordered, document);
    }
  }

  // ----- selections of valid anchors

  lemma {:induction false} SelectionOfDocument(anchors: seq<LyricsAnchor>, p: LyricsAnchor -> bool, documentId: Id)
    ensures OfDocument(Filter(anchors, p), documentId) == Filter(OfDocument(anchors, documentId), p)
  {
    if anchors != [] {
      SelectionOfDocument(anchors[1..], p, documentId);
      var rest := Filter(anchors[1..], p);
      assert ([anchors[0]] + rest)[1..] == rest;
      assert ([anchors[0]] + OfDocument(anchors[1..], documentId))[1..] == OfDocument(anchors[1..], documentId);
      assert [] + rest == rest && [] + OfDocument(anchors[1..], documentId) == OfDocument(anchors[1..], documentId);
    }
  }

  lemma SelectionStaysApart(anchors: seq<LyricsAnchor>, p: LyricsAnchor -> bool, document: LyricsDocument)
    requires Apart(anchors, document)
    ensures Apart(Filter(anchors, p), document)
  {
    var own := OfDocument(anchors, document.id);
    SelectionOfDocument(anchors, p, document.id);
    var selected := Filter(own, p);
    forall i, j | 0 <= i < j < |selected|
      ensures Before(selected[i], selected[j], document) || Before(selected[j], selected[i], document)
    {
      var k, l := FilterEmbeds(own, p, i, j);
    }
  }

  /** Any selection of valid anchors is valid. */
  lemma SelectionStaysValid(anchors: seq<LyricsAnchor>, p: LyricsAnchor -> bool, documents: seq<LyricsDocument>,
                            revisionId: Id, duration: nat)
    requires ValidAnchors(anchors, documents, revisionId, duration)
    ensures ValidAnchors(Filter(anchors, p), documents, revisionId, duration)
  {
    FilterKeeps(anchors, p);
    forall document | document in documents
      ensures Apart(Filter(anchors, p), document)
    {
      SelectionStaysApart(anchors, p, document);
    }
  }

  // ----- the chain walk

  /** The anchors a reader sees: those of the selected document and revision. */
  ghost function Selected(anchors: seq<LyricsAnchor>, view: ActiveView): seq<LyricsAnchor> {
    Filter(anchors, (anchor: LyricsAnchor) =>
      Some(anchor.lyricsDocumentId) == view.lyricsDocumentId && anchor.analysisRevisionId == view.analysisRevisionId)
  }

  ghost function ResolvedAnchors(project: Project): seq<LyricsAnchor>
    requires forall layer :: layer in project.editLayers ==> WellFounded(layer.transactions)
  {
    if project.activeView == None then []
    else
      var view := project.activeView.value;
      var index := Find(LayerIds(project.editLayers), view.editLayerId);
      if index < 0 then []
      else
        var transactions := project.editLayers[index].transactions;
        if view.editHistoryPosition > |transactions| then []
        else Selected(AnchorsAt(transactions, view.editHistoryPosition), view)
  }

  method EditAlong(chain: seq<Transaction>) returns (anchors: seq<LyricsAnchor>)
    ensures anchors == EditAnchorsAll([], OperationsOf(chain))
  {
    anchors := [];
    for n := 0 to |chain|
      invariant EditAnchorsAll([], OperationsOf(chain)) == EditAnchorsAll(anchors, OperationsOf(chain[n..]))
    {
      var operations := chain[n].operations;
      assert chain[n..][1..] == chain[n + 1..];
      EditAnchorsConcat(anchors, operations, OperationsOf(chain[n + 1..]));
      ghost var before := anchors;
      for m := 0 to |operations|
        invariant anchors == EditAnchorsAll(before, operations[..m])
      {
        anchors := EditAnchors(anchors, operations[m]);
        assert operations[..m + 1][..m] == operations[..m];
      }
      assert operations[..|operations|] == operations;
    }
  }

  method ResolveLyricsAnchors(project: Project) returns (resolved: seq<LyricsAnchor>)
    requires forall layer :: layer in project.editLayers ==> WellFounded(layer.transactions)
    ensures resolved == ResolvedAnchors(project)
  {
    if project.activeView == None {
      return [];
    }
    var view := project.activeView.value;
    var index := Find(LayerIds(project.editLayers), view.editLayerId);
    if index < 0 {
      return [];
    }
    var layer := project.editLayers[index];
    var chain := WalkChain(layer.transactions, view.editHistoryPosition);
    var anchors := EditAlong(chain);
    resolved := Filter(anchors, (anchor: LyricsAnchor) =>
      Some(anchor.lyricsDocumentId) == view.lyricsDocumentId && anchor.analysisRevisionId == view.analysisRevisionId);
  }

  // ----- the memo table of the validator

  predicate RemovalFinds(anchors: seq<LyricsAnchor>, edit: Operation) {
    edit.RemoveLyricsAnchor? ==> edit.anchorId in AnchorIds(anchors)
  }

  /** Every removal finds its anchor, edit by edit. */
  ghost predicate RemovalsFind(anchors: seq<LyricsAnchor>, edits: seq<Operation>) {
    edits == [] ||
    (RemovalsFind(anchors, edits[..|edits| - 1])
     && RemovalFinds(EditAnchorsAll(anchors, edits[..|edits| - 1]), edits[|edits| - 1]))
  }

  ghost predicate ValidAnchorsAt(layer: EditLayer, position: nat, documents: seq<LyricsDocument>, duration: nat)
    requires WellFounded(layer.transactions) && 0 < position <= |layer.transactions|
  {
    var parent := AnchorsAt(layer.transactions, ParentPosition(layer.transactions, position));
    && RemovalsFind(parent, layer.transactions[position - 1].operations)
    && ValidAnchors(AnchorsAt(layer.transactions, position), documents, layer.analysisRevisionId, duration)
  }

  ghost predicate ValidAnchorHistory(layer: EditLayer, documents: seq<LyricsDocument>, duration: nat)
    requires WellFounded(layer.transactions)
  {
    ValidUpTo(layer, |layer.transactions|, documents, duration)
  }

  ghost predicate ValidUpTo(layer: EditLayer, n: nat, documents: seq<LyricsDocument>, duration: nat)
    requires WellFounded(layer.transactions) && n <= |layer.transactions|
  {
    forall position :: 0 < position <= n ==> ValidAnchorsAt(layer, position, documents, duration)
  }

  lemma OneMoreIsValid(layer: EditLayer, n: nat, documents: seq<LyricsDocument>, duration: nat)
    requires WellFounded(layer.transactions) && n < |layer.transactions|
    ensures ValidUpTo(layer, n + 1, documents, duration)
            <==> ValidUpTo(layer, n, documents, duration) && ValidAnchorsAt(layer, n + 1, documents, duration)
  {
  }

  ghost predicate RemovedIsThere(anchors: seq<LyricsAnchor>, edits: seq<Operation>, k: nat) {
    k < |edits| && edits[k].RemoveLyricsAnchor? ==>
      exists anchor :: anchor in EditAnchorsAll(anchors, edits[..k]) && anchor.id == edits[k].anchorId
  }

  /** Every anchor that is removed is there when it is removed. */
  lemma {:induction false} RemovalsFindMeans(anchors: seq<LyricsAnchor>, edits: seq<Operation>)
    ensures RemovalsFind(anchors, edits) <==> forall k: nat :: RemovedIsThere(anchors, edits, k)
  {
    if edits != [] {
      var last: nat := |edits| - 1;
      var init := edits[..last];
      RemovalsFindMeans(anchors, init);
      LastRemoval(anchors, edits);
      forall k: nat | k < last
        ensures RemovedIsThere(anchors, init, k) <==> RemovedIsThere(anchors, edits, k)
      {
        assert init[..k] == edits[..k];
      }
      assert forall k: nat :: k >= last ==> RemovedIsThere(anchors, init, k);
      assert forall k: nat :: k > last ==> RemovedIsThere(anchors, edits, k);
    }
  }

  lemma LastRemoval(anchors: seq<LyricsAnchor>, edits: seq<Operation>)
    requires edits != []
    ensures RemovedIsThere(anchors, edits, |edits| - 1)
            <==> RemovalFinds(EditAnchorsAll(anchors, edits[..|edits| - 1]), edits[|edits| - 1])
  {
    var before, last := EditAnchorsAll(anchors, edits[..|edits| - 1]), edits[|edits| - 1];
    if last.RemoveLyricsAnchor? {
      var ids := AnchorIds(before);
      if last.anchorId in ids {
        var i :| 0 <= i < |ids| && ids[i] == last.anchorId;
        assert before[i] in before && before[i].id == last.anchorId;
      }
      if anchor :| anchor in before && anchor.id == last.anchorId {
        var i :| 0 <= i < |before| && before[i] == anchor;
        assert ids[i] == last.anchorId;
      }
    }
  }

  method EditAnchorsInOrder(anchors: seq<LyricsAnchor>, edits: seq<Operation>)
    returns (after: seq<LyricsAnchor>, ok: bool)
    ensures after == EditAnchorsAll(anchors, edits)
    ensures ok <==> RemovalsFind(anchors, edits)
  {
    after, ok := anchors, true;
    for m := 0 to |edits|
      invariant after == EditAnchorsAll(anchors, edits[..m])
      invariant ok <==> RemovalsFind(anchors, edits[..m])
    {
      if !RemovalFinds(after, edits[m]) {
        ok := false;
      }
      after := EditAnchors(after, edits[m]);
      assert edits[..m + 1][..m] == edits[..m];
    }
    assert edits[..|edits|] == edits;
  }

  ghost predicate Records(table: map<Id, seq<LyricsAnchor>>, transactions: seq<Transaction>, position: nat)
    requires WellFounded(transactions) && 0 < position <= |transactions|
  {
    var id := transactions[position - 1].id;
    id in table && table[id] == AnchorsAt(transactions, position)
  }

  method ValidateAnchorsAfter(layer: EditLayer, n: nat, parent: seq<LyricsAnchor>, documents: seq<LyricsDocument>,
                              duration: nat)
    returns (ok: bool, after: seq<LyricsAnchor>)
    requires WellFounded(layer.transactions) && n < |layer.transactions| && Distinct(DocumentIds(documents))
    requires parent == AnchorsAt(layer.transactions, ParentPosition(layer.transactions, n + 1))
    ensures ok <==> ValidAnchorsAt(layer, n + 1, documents, duration)
    ensures after == AnchorsAt(layer.transactions, n + 1)
  {
    AnchorsFromParent(layer.transactions, n + 1);
    var found;
    after, found := EditAnchorsInOrder(parent, layer.transactions[n].operations);
    var valid := ValidateAnchors(after, documents, layer.analysisRevisionId, duration);
    ok := found && valid;
  }

  /** The table has the anchors of the first history positions. */
  ghost predicate RecordsUpTo(table: map<Id, seq<LyricsAnchor>>, transactions: seq<Transaction>, n: nat)
    requires WellFounded(transactions) && n <= |transactions|
  {
    forall position :: 0 < position <= n ==> Records(table, transactions, position)
  }

  /** A transaction has its operations applied to the entry of its parent, or to no anchors if it has none. */
  ghost predicate EntryFollows(table: map<Id, seq<LyricsAnchor>>, transaction: Transaction) {
    && transaction.id in table
    && match transaction.parentTransactionId
       case None => table[transaction.id] == EditAnchorsAll([], transaction.operations)
       case Some(parentId) =>
         parentId in table && table[transaction.id] == EditAnchorsAll(table[parentId], transaction.operations)
  }

  lemma RecordedEntryFollows(table: map<Id, seq<LyricsAnchor>>, transactions: seq<Transaction>, n: nat)
    requires WellFounded(transactions) && n < |transactions| && Records(table, transactions, n + 1)
    requires var parent := ParentPosition(transactions, n + 1); parent > 0 ==> Records(table, transactions, parent)
    ensures EntryFollows(table, transactions[n])
  {
    var before := RecordedBefore(table, transactions, n);
  }

  lemma RecordedBefore(table: map<Id, seq<LyricsAnchor>>, transactions: seq<Transaction>, n: nat)
    returns (before: seq<LyricsAnchor>)
    requires WellFounded(transactions) && n < |transactions|
    requires var parent := ParentPosition(transactions, n + 1); parent > 0 ==> Records(table, transactions, parent)
    ensures AnchorsAt(transactions, n + 1) == EditAnchorsAll(before, transactions[n].operations)
    ensures match transactions[n].parentTransactionId
            case None => before == []
            case Some(parentId) => parentId in table && table[parentId] == before
  {
    var parent := ParentPosition(transactions, n + 1);
    AnchorsFromParent(transactions, n + 1);
    ParentIsNamed(transactions, n + 1);
    if transactions[n].parentTransactionId == None {
      NoAnchorsAtFirst(transactions);
      before := [];
    } else {
      before := table[transactions[parent - 1].id];
    }
  }

  lemma NoAnchorsAtFirst(transactions: seq<Transaction>)
    requires WellFounded(transactions)
    ensures AnchorsAt(transactions, 0) == []
  {
  }

  /** Fills one table entry per transaction, from the entry of its parent. */
  method ValidateAnchorHistory(layer: EditLayer, documents: seq<LyricsDocument>, duration: nat)
    returns (ok: bool, anchorHistory: map<Id, seq<LyricsAnchor>>)
    requires WellFounded(layer.transactions) && Distinct(DocumentIds(documents))
    ensures ok <==> ValidAnchorHistory(layer, documents, duration)
    ensures RecordsUpTo(anchorHistory, layer.transactions, |layer.transactions|)
    ensures forall transaction :: transaction in layer.transactions ==> EntryFollows(anchorHistory, transaction)
  {
    ok, anchorHistory := true, map[];
    var transactions := layer.transactions;
    for n := 0 to |transactions|
      invariant RecordsUpTo(anchorHistory, transactions, n)
      invariant ok <==> ValidUpTo(layer, n, documents, duration)
    {
      var anchors := ParentAnchors(transactions, n, anchorHistory);
      var valid, after := ValidateAnchorsAfter(layer, n, anchors, documents, duration);
      OneMoreIsValid(layer, n, documents, duration);
      ok := ok && valid;
      ghost var before := anchorHistory;
      anchorHistory := anchorHistory[transactions[n].id := after];
      NewEntryKeepsRecords(before, anchorHistory, transactions, n);
    }
    forall n | 0 <= n < |transactions|
      ensures EntryFollows(anchorHistory, transactions[n])
    {
      assert Records(anchorHistory, transactions, n + 1);
      ghost var parent := ParentPosition(transactions, n + 1);
      assert parent > 0 ==> Records(anchorHistory, transactions, parent);
      RecordedEntryFollows(anchorHistory, transactions, n);
    }
  }

  method ParentAnchors(transactions: seq<Transaction>, n: nat, anchorHistory: map<Id, seq<LyricsAnchor>>)
    returns (anchors: seq<LyricsAnchor>)
    requires WellFounded(transactions) && n < |transactions|
    requires RecordsUpTo(anchorHistory, transactions, n)
    ensures anchors == AnchorsAt(transactions, ParentPosition(transactions, n + 1))
  {
    var parentId := transactions[n].parentTransactionId;
    if parentId == None {
      return [];
    }
    ParentIsEarlier(transactions, n + 1);
    ghost var parent := ParentPosition(transactions, n + 1);
    assert TransactionIds(transactions)[parent - 1] == transactions[parent - 1].id;
    assert Records(anchorHistory, transactions, parent);
    return anchorHistory[parentId.value];
  }

  lemma NewEntryKeepsRecords(table: map<Id, seq<LyricsAnchor>>, after: map<Id, seq<LyricsAnchor>>,
                             transactions: seq<Transaction>, n: nat)
    requires WellFounded(transactions) && n < |transactions|
    requires RecordsUpTo(table, transactions, n)
    requires after == table[transactions[n].id := AnchorsAt(transactions, n + 1)]
    ensures RecordsUpTo(after, transactions, n + 1)
  {
    var ids := TransactionIds(transactions);
    forall position: nat | 0 < position <= n + 1
      ensures Records(after, transactions, position)
    {
      if position <= n {
        assert Records(table, transactions, position);
        assert ids[position - 1] != ids[n];
      }
    }
  }

  // ----- what is accepted, said of any table that follows the parents

  ghost predicate FollowsParents(table: map<Id, seq<LyricsAnchor>>, transactions: seq<Transaction>) {
    forall transaction :: transaction in transactions ==> EntryFollows(table, transaction)
  }

  lemma {:induction false} FollowingEntryIsRecorded(table: map<Id, seq<LyricsAnchor>>, transactions: seq<Transaction>,
                                                    position: nat)
    requires WellFounded(transactions) && FollowsParents(table, transactions) && 0 < position <= |transactions|
    ensures Records(table, transactions, position)
    decreases position
  {
    var parent := ParentPosition(transactions, position);
    ParentIsNamed(transactions, position);
    AnchorsFromParent(transactions, position);
    NoAnchorsAtFirst(transactions);
    assert EntryFollows(table, transactions[position - 1]);
    if parent > 0 {
      FollowingEntryIsRecorded(table, transactions, parent);
    }
  }

  /** The anchors a transaction starts from. */
  function AnchorsBefore(table: map<Id, seq<LyricsAnchor>>, transaction: Transaction): seq<LyricsAnchor> {
    match transaction.parentTransactionId
    case None => []
    case Some(parentId) => if parentId in table then table[parentId] else []
  }

  ghost predicate AcceptsAfter(table: map<Id, seq<LyricsAnchor>>, layer: EditLayer, transaction: Transaction,
                               documents: seq<LyricsDocument>, duration: nat)
  {
    && (forall k: nat :: RemovedIsThere(AnchorsBefore(table, transaction), transaction.operations, k))
    && transaction.id in table
    && ValidAnchors(table[transaction.id], documents, layer.analysisRevisionId, duration)
  }

  /**
   A history is accepted exactly when, after every transaction, all anchors that were
   removed had been there and those that are left are accepted.
  */
  lemma AcceptedHistories(layer: EditLayer, table: map<Id, seq<LyricsAnchor>>, documents: seq<LyricsDocument>,
                          duration: nat)
    requires WellFounded(layer.transactions) && FollowsParents(table, layer.transactions)
    ensures ValidAnchorHistory(layer, documents, duration) <==>
            forall transaction :: transaction in layer.transactions ==>
              AcceptsAfter(table, layer, transaction, documents, duration)
  {
    forall position: nat | 0 < position <= |layer.transactions|
      ensures ValidAnchorsAt(layer, position, documents, duration)
              <==> AcceptsAfter(table, layer, layer.transactions[position - 1], documents, duration)
    {
      AcceptedTransaction(layer, table, position, documents, duration);
    }
    if ValidAnchorHistory(layer, documents, duration) {
      forall transaction | transaction in layer.transactions
        ensures AcceptsAfter(table, layer, transaction, documents, duration)
      {
        var n :| 0 <= n < |layer.transactions| && layer.transactions[n] == transaction;
        assert ValidAnchorsAt(layer, n + 1, documents, duration);
      }
    }
  }

  lemma EntriesAre(table: map<Id, seq<LyricsAnchor>>, transactions: seq<Transaction>, position: nat)
    requires WellFounded(transactions) && FollowsParents(table, transactions) && 0 < position <= |transactions|
    ensures AnchorsBefore(table, transactions[position - 1])
            == AnchorsAt(transactions, ParentPosition(transactions, position))
    ensures transactions[position - 1].id in table
            && table[transactions[position - 1].id] == AnchorsAt(transactions, position)
  {
    var parent := ParentPosition(transactions, position);
    ParentIsNamed(transactions, position);
    FollowingEntryIsRecorded(table, transactions, position);
    if parent > 0 {
      FollowingEntryIsRecorded(table, transactions, parent);
    } else {
      NoAnchorsAtFirst(transactions);
    }
  }

  lemma AcceptedTransaction(layer: EditLayer, table: map<Id, seq<LyricsAnchor>>, position: nat,
                            documents: seq<LyricsDocument>, duration: nat)
    requires WellFounded(layer.transactions) && FollowsParents(table, layer.transactions)
    requires 0 < position <= |layer.transactions|
    ensures ValidAnchorsAt(layer, position, documents, duration)
            <==> AcceptsAfter(table, layer, layer.transactions[position - 1], documents, duration)
  {
    var before := AnchorsBefore(table, layer.transactions[position - 1]);
    EntriesAre(table, layer.transactions, position);
    RemovalsFindMeans(before, layer.transactions[position - 1].operations);
  }
}
