/** Which lyrics anchors are accepted, said of the tokens of their documents. */
module AnchorMeaning {
  import opened Sequences
  import opened Schema
  import opened Anchors

  /** The anchor is for the tokens of a document from one position to another. */
  ghost predicate StandsOn(anchor: LyricsAnchor, document: LyricsDocument, first: nat, last: nat) {
    && anchor.lyricsDocumentId == document.id && first <= last < |document.tokens|
    && document.tokens[first].id == anchor.firstTokenId && document.tokens[last].id == anchor.lastTokenId
  }

  ghost predicate StandsIn(anchor: LyricsAnchor, document: LyricsDocument) {
    exists first: nat, last: nat :: StandsOn(anchor, document, first, last)
  }

  ghost predicate ProperDocuments(documents: seq<LyricsDocument>) {
    Distinct(DocumentIds(documents)) && forall document :: document in documents ==> Distinct(TokenIds(document.tokens))
  }

  lemma PositionsAre(anchor: LyricsAnchor, document: LyricsDocument, first: nat, last: nat)
    requires Distinct(TokenIds(document.tokens)) && StandsOn(anchor, document, first, last)
    ensures FirstPosition(anchor, document) == first && LastPosition(anchor, document) == last
  {
    var ids := TokenIds(document.tokens);
    assert ids[first] == anchor.firstTokenId && ids[last] == anchor.lastTokenId;
    FindIsUnique(ids, first);
    FindIsUnique(ids, last);
  }

  lemma StandsInMeans(anchor: LyricsAnchor, document: LyricsDocument)
    requires Distinct(TokenIds(document.tokens)) && anchor.lyricsDocumentId == document.id
    ensures StandsIn(anchor, document) <==> 0 <= FirstPosition(anchor, document) <= LastPosition(anchor, document)
  {
    if first: nat, last: nat :| StandsOn(anchor, document, first, last) {
      PositionsAre(anchor, document, first, last);
    }
    if 0 <= FirstPosition(anchor, document) <= LastPosition(anchor, document) {
      assert StandsOn(anchor, document, FirstPosition(anchor, document), LastPosition(anchor, document));
    }
  }

  /**
   An anchor is in scope when it belongs to the revision, is
   for tokens of a document, and has time in the project.
  */
  lemma ScopeMeans(anchor: LyricsAnchor, documents: seq<LyricsDocument>, revisionId: Id, duration: nat)
    requires ProperDocuments(documents)
    ensures InScope(anchor, documents, revisionId, duration) <==>
            && anchor.analysisRevisionId == revisionId && anchor.startSample < anchor.endSample <= duration
            && exists document :: document in documents && StandsIn(anchor, document)
  {
    var ids := DocumentIds(documents);
    var index := Find(ids, anchor.lyricsDocumentId);
    if index >= 0 {
      StandsInMeans(anchor, documents[index]);
    }
    if document :| document in documents && StandsIn(anchor, document) {
      var k :| 0 <= k < |documents| && documents[k] == document;
      FindIsUnique(ids, k);
      assert ids[k] == anchor.lyricsDocumentId && document == documents[index];
    }
  }

  /** One anchor has its tokens and its time before those of another. */
  ghost predicate LiesBefore(left: LyricsAnchor, right: LyricsAnchor, document: LyricsDocument) {
    && left.endSample <= right.startSample
    && forall a, b, c, d {:trigger StandsOn(left, document, a, b), StandsOn(right, document, c, d)} ::
         StandsOn(left, document, a, b) && StandsOn(right, document, c, d) ==> b < c
  }

  ghost predicate InAnOrder(left: LyricsAnchor, right: LyricsAnchor, document: LyricsDocument) {
    LiesBefore(left, right, document) || LiesBefore(right, left, document)
  }

  lemma BeforeMeans(left: LyricsAnchor, right: LyricsAnchor, document: LyricsDocument)
    requires Distinct(TokenIds(document.tokens)) && StandsIn(left, document) && StandsIn(right, document)
    ensures Before(left, right, document) <==> LiesBefore(left, right, document)
  {
    var a: nat, b: nat :| StandsOn(left, document, a, b);
    var c: nat, d: nat :| StandsOn(right, document, c, d);
    PositionsAre(left, document, a, b);
    PositionsAre(right, document, c, d);
    forall p: nat, q: nat, r: nat, s: nat | StandsOn(left, document, p, q) && StandsOn(right, document, r, s)
      ensures q == b && r == c
    {
      PositionsAre(left, document, p, q);
      PositionsAre(right, document, r, s);
    }
  }

  ghost predicate OfOneDocument(anchors: seq<LyricsAnchor>, i: int, j: int, document: LyricsDocument) {
    0 <= i < j < |anchors|
    && anchors[i].lyricsDocumentId == document.id && anchors[j].lyricsDocumentId == document.id
  }

  ghost predicate BeforeOrAfter(left: LyricsAnchor, right: LyricsAnchor, document: LyricsDocument) {
    Before(left, right, document) || Before(right, left, document)
  }

  lemma {:induction false} PairsOfDocument(anchors: seq<LyricsAnchor>, document: LyricsDocument)
    ensures Apart(anchors, document) <==>
            forall i, j :: OfOneDocument(anchors, i, j, document) ==> BeforeOrAfter(anchors[i], anchors[j], document)
  {
    if anchors != [] {
      var rest := anchors[1..];
      PairsOfDocument(rest, document);
      RestPairs(anchors, document);
      OneMoreOfDocument(anchors, document);
    }
  }

  lemma OneMoreOfDocument(anchors: seq<LyricsAnchor>, document: LyricsDocument)
    requires anchors != []
    ensures Apart(anchors, document) <==>
            && (anchors[0].lyricsDocumentId == document.id ==>
                  forall other :: other in anchors[1..] && other.lyricsDocumentId == document.id ==>
                    BeforeOrAfter(anchors[0], other, document))
            && Apart(anchors[1..], document)
  {
    var own, others := OfDocument(anchors, document.id), OfDocument(anchors[1..], document.id);
    OfDocumentKeeps(anchors[1..], document.id);
    if anchors[0].lyricsDocumentId == document.id {
      assert own == [anchors[0]] + others;
      FirstPairs(anchors[0], others, document);
    } else {
      assert own == others;
    }
  }

  lemma FirstPairs(first: LyricsAnchor, others: seq<LyricsAnchor>, document: LyricsDocument)
    ensures var own := [first] + others;
            (forall i, j :: 0 <= i < j < |own| ==> BeforeOrAfter(own[i], own[j], document)) <==>
            && (forall other :: other in others ==> BeforeOrAfter(first, other, document))
            && (forall i, j :: 0 <= i < j < |others| ==> BeforeOrAfter(others[i], others[j], document))
  {
    var own := [first] + others;
    if forall i, j :: 0 <= i < j < |own| ==> BeforeOrAfter(own[i], own[j], document) {
      forall other | other in others
        ensures BeforeOrAfter(first, other, document)
      {
        var k :| 0 <= k < |others| && others[k] == other;
        assert own[0] == first && own[k + 1] == other;
      }
      forall i, j | 0 <= i < j < |others|
        ensures BeforeOrAfter(others[i], others[j], document)
      {
        assert own[i + 1] == others[i] && own[j + 1] == others[j];
      }
    }
    assert forall i :: 0 < i < |own| ==> own[i] == others[i - 1];
  }

  lemma RestPairs(anchors: seq<LyricsAnchor>, document: LyricsDocument)
    requires anchors != []
    ensures (forall i, j :: OfOneDocument(anchors, i, j, document) ==> BeforeOrAfter(anchors[i], anchors[j], document))
            <==>
            && (anchors[0].lyricsDocumentId == document.id ==>
                  forall other :: other in anchors[1..] && other.lyricsDocumentId == document.id ==>
                    BeforeOrAfter(anchors[0], other, document))
            && (forall i, j :: OfOneDocument(anchors[1..], i, j, document) ==>
                  BeforeOrAfter(anchors[1..][i], anchors[1..][j], document))
  {
    var rest := anchors[1..];
    assert forall i :: 0 <= i < |rest| ==> rest[i] == anchors[i + 1];
    if forall i, j :: OfOneDocument(anchors, i, j, document) ==> BeforeOrAfter(anchors[i], anchors[j], document) {
      forall other | anchors[0].lyricsDocumentId == document.id && other in rest
                     && other.lyricsDocumentId == document.id
        ensures BeforeOrAfter(anchors[0], other, document)
      {
        var j :| 0 <= j < |rest| && rest[j] == other;
        assert OfOneDocument(anchors, 0, j + 1, document);
      }
      forall i, j | OfOneDocument(rest, i, j, document)
        ensures BeforeOrAfter(rest[i], rest[j], document)
      {
        assert OfOneDocument(anchors, i + 1, j + 1, document);
      }
    }
    if (forall i, j :: OfOneDocument(rest, i, j, document) ==> BeforeOrAfter(rest[i], rest[j], document))
       && (anchors[0].lyricsDocumentId == document.id ==>
             forall other :: other in rest && other.lyricsDocumentId == document.id ==>
               BeforeOrAfter(anchors[0], other, document)) {
      forall i, j | OfOneDocument(anchors, i, j, document)
        ensures BeforeOrAfter(anchors[i], anchors[j], document)
      {
        if i == 0 {
          assert anchors[j] == rest[j - 1];
        } else {
          assert OfOneDocument(rest, i - 1, j - 1, document);
        }
      }
    }
  }

  ghost predicate AllInScope(anchors: seq<LyricsAnchor>, documents: seq<LyricsDocument>, revisionId: Id,
                             duration: nat)
  {
    forall anchor :: anchor in anchors ==>
      && anchor.analysisRevisionId == revisionId && anchor.startSample < anchor.endSample <= duration
      && exists document :: document in documents && StandsIn(anchor, document)
  }

  ghost predicate AllInOrder(anchors: seq<LyricsAnchor>, documents: seq<LyricsDocument>) {
    forall document, i, j :: document in documents && OfOneDocument(anchors, i, j, document) ==>
      InAnOrder(anchors[i], anchors[j], document)
  }

  /**
   Accepted are at most a thousand anchors of the revision, each for tokens of a document and with time in the
   project, if of any two for one document one has its tokens and its time before those of the other.
  */
  lemma AcceptedAnchors(anchors: seq<LyricsAnchor>, documents: seq<LyricsDocument>, revisionId: Id, duration: nat)
    requires ProperDocuments(documents)
    ensures ValidAnchors(anchors, documents, revisionId, duration) <==>
            && |anchors| <= 1000 && AllInScope(anchors, documents, revisionId, duration)
            && AllInOrder(anchors, documents)
  {
    forall anchor
      ensures InScope(anchor, documents, revisionId, duration) <==>
              && anchor.analysisRevisionId == revisionId && anchor.startSample < anchor.endSample <= duration
              && exists document :: document in documents && StandsIn(anchor, document)
    {
      ScopeMeans(anchor, documents, revisionId, duration);
    }
    if AllInScope(anchors, documents, revisionId, duration) {
      forall document | document in documents
        ensures Apart(anchors, document) <==>
                forall i, j :: OfOneDocument(anchors, i, j, document) ==> InAnOrder(anchors[i], anchors[j], document)
      {
        ApartMeans(anchors, documents, revisionId, duration, document);
      }
    }
  }

  lemma ApartMeans(anchors: seq<LyricsAnchor>, documents: seq<LyricsDocument>, revisionId: Id, duration: nat,
                   document: LyricsDocument)
    requires ProperDocuments(documents) && AllInScope(anchors, documents, revisionId, duration)
             && document in documents
    ensures Apart(anchors, document) <==>
            forall i, j :: OfOneDocument(anchors, i, j, document) ==> InAnOrder(anchors[i], anchors[j], document)
  {
    PairsOfDocument(anchors, document);
    forall i, j | OfOneDocument(anchors, i, j, document)
      ensures BeforeOrAfter(anchors[i], anchors[j], document) <==> InAnOrder(anchors[i], anchors[j], document)
    {
      StandsInItsDocument(anchors[i], documents, document);
      StandsInItsDocument(anchors[j], documents, document);
      BeforeMeans(anchors[i], anchors[j], document);
      BeforeMeans(anchors[j], anchors[i], document);
    }
  }

  lemma StandsInItsDocument(anchor: LyricsAnchor, documents: seq<LyricsDocument>, document: LyricsDocument)
    requires Distinct(DocumentIds(documents)) && document in documents && anchor.lyricsDocumentId == document.id
    requires exists other :: other in documents && StandsIn(anchor, other)
    ensures StandsIn(anchor, document)
  {
    var other :| other in documents && StandsIn(anchor, other);
    var k :| 0 <= k < |documents| && documents[k] == document;
    var l :| 0 <= l < |documents| && documents[l] == other;
    assert DocumentIds(documents)[k] == DocumentIds(documents)[l];
  }
}
