/**
 The alignment worker: anchors cut tokens and time into windows, each window is aligned on its own, and
 the times that come back are rounded and clamped to their window.
*/
module AlignmentWorker {
  import opened Wrappers
  import opened Sequences
  import opened Schema
  import opened Anchors

  /** Tokens `first` up to but not including `last`, to be found between two samples. */
  datatype Window = Window(first: nat, last: nat, startSample: nat, endSample: nat)

  datatype Cut = Cut(windows: seq<Window>, cursor: nat, previousEnd: nat)

  predicate Conflicts(cut: Cut, anchor: LyricsAnchor, document: LyricsDocument) {
    || FirstPosition(anchor, document) < cut.cursor
    || LastPosition(anchor, document) < FirstPosition(anchor, document)
    || anchor.startSample < cut.previousEnd
    || anchor.endSample <= anchor.startSample
  }

  function CutAt(cut: Cut, anchor: LyricsAnchor, document: LyricsDocument): Cut
    requires !Conflicts(cut, anchor, document)
  {
    var first, last := FirstPosition(anchor, document), LastPosition(anchor, document);
    var before := if cut.cursor < first then [Window(cut.cursor, first, cut.previousEnd, anchor.startSample)] else [];
    Cut(cut.windows + before + [Window(first, last + 1, anchor.startSample, anchor.endSample)], last + 1,
        anchor.endSample)
  }

  function CutAll(ordered: seq<LyricsAnchor>, document: LyricsDocument): Result<Cut> {
    if ordered == [] then Ok(Cut([], 0, 0))
    else
      var before := CutAll(ordered[..|ordered| - 1], document);
      if before.Err? || Conflicts(before.value, ordered[|ordered| - 1], document) then Err
      else Ok(CutAt(before.value, ordered[|ordered| - 1], document))
  }

  function Finish(cut: Cut, count: nat, duration: nat): seq<Window> {
    cut.windows + if cut.cursor < count then [Window(cut.cursor, count, cut.previousEnd, duration)] else []
  }

  function WindowsOf(anchors: seq<LyricsAnchor>, document: LyricsDocument, duration: nat): Result<seq<Window>> {
    var cut := CutAll(SortBy(anchors, PositionKey(document)), document);
    if cut.Err? then Err else Ok(Finish(cut.value, |document.tokens|, duration))
  }

  lemma {:induction false} ConflictsStay(ordered: seq<LyricsAnchor>, n: nat, document: LyricsDocument)
    requires n <= |ordered| && CutAll(ordered[..n], document).Err?
    ensures CutAll(ordered, document).Err?
    decreases |ordered|
  {
    if n < |ordered| {
      assert ordered[..|ordered| - 1][..n] == ordered[..n];
      ConflictsStay(ordered[..|ordered| - 1], n, document);
    } else {
      assert ordered[..n] == ordered;
    }
  }

  method AddAnchor(cut: Cut, anchor: LyricsAnchor, document: LyricsDocument) returns (next: Cut)
    requires !Conflicts(cut, anchor, document)
    ensures next == CutAt(cut, anchor, document)
  {
    var first, last := FirstPosition(anchor, document), LastPosition(anchor, document);
    var windows := cut.windows;
    if cut.cursor < first {
      windows := windows + [Window(cut.cursor, first, cut.previousEnd, anchor.startSample)];
    }
    windows := windows + [Window(first, last + 1, anchor.startSample, anchor.endSample)];
    next := Cut(windows, last + 1, anchor.endSample);
  }

  method CutWindows(anchors: seq<LyricsAnchor>, document: LyricsDocument, duration: nat)
    returns (r: Result<seq<Window>>)
    ensures r == WindowsOf(anchors, document, duration)
  {
    var ordered := SortBy(anchors, PositionKey(document));
    var cut := Cut([], 0, 0);
    for n := 0 to |ordered|
      invariant CutAll(ordered[..n], document) == Ok(cut)
    {
      assert ordered[..n + 1][..n] == ordered[..n];
      if Conflicts(cut, ordered[n], document) {
        ConflictsStay(ordered, n + 1, document);
        return Err;
      }
      cut := AddAnchor(cut, ordered[n], document);
    }
    assert ordered[..|ordered|] == ordered;
    r := Ok(Finish(cut, |document.tokens|, duration));
  }

  // ----- anchors that are valid never conflict, and their windows tile

  /** Windows side by side from the first token on, at times that follow one another. */
  ghost predicate Tiled(windows: seq<Window>, count: nat, end: nat) {
    && (forall w :: 0 <= w < |windows| ==>
          windows[w].first < windows[w].last && windows[w].startSample <= windows[w].endSample)
    && (forall v, w :: 0 <= v && w == v + 1 < |windows| ==>
          windows[v].last == windows[w].first && windows[v].endSample <= windows[w].startSample)
    && (if windows == [] then count == 0
        else windows[0].first == 0 && windows[|windows| - 1].last == count && windows[|windows| - 1].endSample <= end)
  }

  lemma TiledSnoc(windows: seq<Window>, count: nat, end: nat, window: Window)
    requires Tiled(windows, count, end)
    requires window.first == count < window.last && end <= window.startSample <= window.endSample
    ensures Tiled(windows + [window], window.last, window.endSample)
  {
  }

  lemma TiledTwice(windows: seq<Window>, count: nat, end: nat, gap: Window, own: Window)
    requires Tiled(windows, count, end)
    requires gap.first == count < gap.last && end <= gap.startSample <= gap.endSample
    requires own.first == gap.last < own.last && gap.endSample <= own.startSample <= own.endSample
    ensures Tiled(windows + [gap] + [own], own.last, own.endSample)
  {
    TiledSnoc(windows, count, end, gap);
    TiledSnoc(windows + [gap], gap.last, gap.endSample, own);
  }

  /** Some window is just the anchor. */
  ghost predicate Framed(anchor: LyricsAnchor, windows: seq<Window>, document: LyricsDocument) {
    exists w :: 0 <= w < |windows| && IsFrame(windows[w], anchor, document)
  }

  predicate IsFrame(window: Window, anchor: LyricsAnchor, document: LyricsDocument) {
    && window.first == FirstPosition(anchor, document) && window.last == LastPosition(anchor, document) + 1
    && window.startSample == anchor.startSample && window.endSample == anchor.endSample
  }

  lemma FramedInMore(anchor: LyricsAnchor, windows: seq<Window>, more: seq<Window>, document: LyricsDocument)
    requires Framed(anchor, windows, document)
    ensures Framed(anchor, windows + more, document)
  {
    var w :| 0 <= w < |windows| && IsFrame(windows[w], anchor, document);
    assert (windows + more)[w] == windows[w];
  }

  /** What is known about a cut: it tiles what lies before its cursor, and frames its anchors. */
  ghost predicate GoodCut(cut: Cut, anchors: seq<LyricsAnchor>, document: LyricsDocument) {
    && Tiled(cut.windows, cut.cursor, cut.previousEnd)
    && cut.cursor <= |document.tokens|
    && (forall anchor :: anchor in anchors ==> Framed(anchor, cut.windows, document))
  }

  /** The windows a cut adds for an anchor: one up to it, unless it comes at once, and its own. */
  lemma AnchorStaysTiled(windows: seq<Window>, count: nat, end: nat, before: seq<Window>, own: Window)
    requires Tiled(windows, count, end) && own.first < own.last && end <= own.startSample <= own.endSample
    requires before == if count < own.first then [Window(count, own.first, end, own.startSample)] else []
    requires count <= own.first
    ensures Tiled(windows + before + [own], own.last, own.endSample)
  {
    if count < own.first {
      TiledTwice(windows, count, end, before[0], own);
    } else {
      assert windows + before == windows;
      TiledSnoc(windows, count, end, own);
    }
  }

  lemma CutStaysTiled(cut: Cut, anchor: LyricsAnchor, document: LyricsDocument)
    requires Tiled(cut.windows, cut.cursor, cut.previousEnd) && !Conflicts(cut, anchor, document)
    ensures var after := CutAt(cut, anchor, document); Tiled(after.windows, after.cursor, after.previousEnd)
  {
    var first, last := FirstPosition(anchor, document), LastPosition(anchor, document);
    var before := if cut.cursor < first then [Window(cut.cursor, first, cut.previousEnd, anchor.startSample)] else [];
    AnchorStaysTiled(cut.windows, cut.cursor, cut.previousEnd, before,
                     Window(first, last + 1, anchor.startSample, anchor.endSample));
  }

  lemma CutStaysGood(cut: Cut, anchors: seq<LyricsAnchor>, anchor: LyricsAnchor, document: LyricsDocument)
    requires GoodCut(cut, anchors, document) && !Conflicts(cut, anchor, document)
    ensures GoodCut(CutAt(cut, anchor, document), anchors + [anchor], document)
  {
    CutStaysTiled(cut, anchor, document);
    var windows := CutAt(cut, anchor, document).windows;
    FramesStay(cut.windows, windows, anchors, document);
    assert IsFrame(windows[|windows| - 1], anchor, document);
  }

  lemma FramesStay(windows: seq<Window>, longer: seq<Window>, anchors: seq<LyricsAnchor>, document: LyricsDocument)
    requires windows <= longer && forall anchor :: anchor in anchors ==> Framed(anchor, windows, document)
    ensures forall anchor :: anchor in anchors ==> Framed(anchor, longer, document)
  {
    forall anchor | anchor in anchors
      ensures Framed(anchor, longer, document)
    {
      FramedInMore(anchor, windows, longer[|windows|..], document);
      assert windows + longer[|windows|..] == longer;
    }
  }

  /** A cut ends where its last anchor does. */
  ghost predicate EndsWith(cut: Cut, ordered: seq<LyricsAnchor>, document: LyricsDocument) {
    if ordered == [] then cut.cursor == 0 && cut.previousEnd == 0
    else
      var last := ordered[|ordered| - 1];
      cut.cursor == LastPosition(last, document) + 1 && cut.previousEnd == last.endSample
  }

  lemma NextAnchorFits(cut: Cut, ordered: seq<LyricsAnchor>, document: LyricsDocument)
    requires ordered != [] && EndsWith(cut, ordered[..|ordered| - 1], document)
    requires ProperIn(ordered[|ordered| - 1], document) && NeighboursApart(ordered, document)
    ensures !Conflicts(cut, ordered[|ordered| - 1], document)
    ensures EndsWith(CutAt(cut, ordered[|ordered| - 1], document), ordered, document)
  {
    if |ordered| > 1 {
      assert Before(ordered[|ordered| - 2], ordered[|ordered| - 1], document);
    }
  }

  /** Whatever is cut without conflict tiles and frames. */
  lemma {:induction false} CutsAreGood(ordered: seq<LyricsAnchor>, document: LyricsDocument)
    requires CutAll(ordered, document).Ok?
    ensures GoodCut(CutAll(ordered, document).value, ordered, document)
            && EndsWith(CutAll(ordered, document).value, ordered, document)
  {
    if ordered != [] {
      var init, anchor := ordered[..|ordered| - 1], ordered[|ordered| - 1];
      CutsAreGood(init, document);
      CutStaysGood(CutAll(init, document).value, init, anchor, document);
      assert init + [anchor] == ordered;
    }
  }

  /** Anchors in token order, each apart from its neighbour, cut without conflict. */
  lemma {:induction false} OrderedAnchorsCut(ordered: seq<LyricsAnchor>, document: LyricsDocument)
    requires forall anchor :: anchor in ordered ==> ProperIn(anchor, document)
    requires NeighboursApart(ordered, document)
    ensures CutAll(ordered, document).Ok?
  {
    if ordered != [] {
      var init := ordered[..|ordered| - 1];
      assert ordered[|ordered| - 1] in ordered;
      InitIsApart(ordered, document);
      OrderedAnchorsCut(init, document);
      CutsAreGood(init, document);
      NextAnchorFits(CutAll(init, document).value, ordered, document);
    }
  }

  /** And only those do. */
  lemma {:induction false} CutAnchorsAreApart(ordered: seq<LyricsAnchor>, document: LyricsDocument)
    requires CutAll(ordered, document).Ok?
    ensures forall anchor :: anchor in ordered ==> ProperIn(anchor, document)
    ensures NeighboursApart(ordered, document)
  {
    if ordered != [] {
      var init, last := ordered[..|ordered| - 1], ordered[|ordered| - 1];
      CutAnchorsAreApart(init, document);
      CutsAreGood(init, document);
      assert ordered == init + [last] && ProperIn(last, document);
      assert init != [] ==> Before(init[|init| - 1], last, document);
      forall i, j | 0 <= i && j == i + 1 < |ordered|
        ensures Before(ordered[i], ordered[j], document)
      {
        assert j < |init| ==> Before(init[i], init[j], document);
      }
    }
  }

  lemma InitIsApart(ordered: seq<LyricsAnchor>, document: LyricsDocument)
    requires ordered != [] && NeighboursApart(ordered, document)
    requires forall anchor :: anchor in ordered ==> ProperIn(anchor, document)
    ensures NeighboursApart(ordered[..|ordered| - 1], document)
    ensures forall anchor :: anchor in ordered[..|ordered| - 1] ==> ProperIn(anchor, document)
  {
    var init := ordered[..|ordered| - 1];
    assert forall anchor :: anchor in init ==> anchor in ordered;
    forall i, j | 0 <= i && j == i + 1 < |init|
      ensures Before(init[i], init[j], document)
    {
      assert Before(ordered[i], ordered[j], document);
    }
  }

  /** The anchors of one document that the validator accepts. */
  ghost predicate Accepted(anchors: seq<LyricsAnchor>, document: LyricsDocument, documents: seq<LyricsDocument>,
                           revisionId: Id, duration: nat) {
    && ValidAnchors(anchors, documents, revisionId, duration)
    && document in documents && Distinct(DocumentIds(documents))
    && forall anchor :: anchor in anchors ==> anchor.lyricsDocumentId == document.id
  }

  lemma AcceptedAnchorsAreProper(anchors: seq<LyricsAnchor>, document: LyricsDocument, documents: seq<LyricsDocument>,
                                 revisionId: Id, duration: nat)
    requires Accepted(anchors, document, documents, revisionId, duration)
    ensures forall anchor :: anchor in anchors ==> ProperIn(anchor, document) && anchor.endSample <= duration
  {
    var k :| 0 <= k < |documents| && documents[k] == document;
    FindIsUnique(DocumentIds(documents), k);
    forall anchor | anchor in anchors
      ensures ProperIn(anchor, document) && anchor.endSample <= duration
    {
      assert InScope(anchor, documents, revisionId, duration);
    }
  }

  lemma {:induction false} AllOfDocument(anchors: seq<LyricsAnchor>, documentId: Id)
    requires forall anchor :: anchor in anchors ==> anchor.lyricsDocumentId == documentId
    ensures OfDocument(anchors, documentId) == anchors
  {
    if anchors != [] {
      assert anchors[0] in anchors;
      assert forall anchor :: anchor in anchors[1..] ==> anchor in anchors;
      AllOfDocument(anchors[1..], documentId);
    }
  }

  /** The worker reports a conflict exactly for the anchors that the validator finds in conflict. */
  lemma ConflictsAgree(anchors: seq<LyricsAnchor>, document: LyricsDocument, duration: nat)
    requires forall anchor :: anchor in anchors ==> anchor.lyricsDocumentId == document.id
    ensures WindowsOf(anchors, document, duration).Ok?
            <==> (forall anchor :: anchor in anchors ==> ProperIn(anchor, document)) && Apart(anchors, document)
  {
    var ordered := SortBy(anchors, PositionKey(document));
    AllOfDocument(anchors, document.id);
    SortedIsSame(anchors, document);
    if CutAll(ordered, document).Ok? {
      CutAnchorsAreApart(ordered, document);
      SortingDecides(anchors, ordered, document);
    }
    if (forall anchor :: anchor in anchors ==> ProperIn(anchor, document)) && Apart(anchors, document) {
      SortingDecides(anchors, ordered, document);
      OrderedAnchorsCut(ordered, document);
    }
  }

  lemma SortedIsSame(anchors: seq<LyricsAnchor>, document: LyricsDocument)
    ensures forall anchor :: anchor in SortBy(anchors, PositionKey(document)) <==> anchor in anchors
  {
    SortBySorts(anchors, PositionKey(document));
    SamePermutation(SortBy(anchors, PositionKey(document)), anchors);
  }

  /** Windows that were cut without conflict tile the tokens, follow one another in time, and frame every anchor. */
  lemma WindowsTile(anchors: seq<LyricsAnchor>, document: LyricsDocument, duration: nat)
    requires WindowsOf(anchors, document, duration).Ok?
             && forall anchor :: anchor in anchors ==> anchor.endSample <= duration
    ensures var windows := WindowsOf(anchors, document, duration).value;
            && Tiled(windows, |document.tokens|, duration)
            && forall anchor :: anchor in anchors ==> Framed(anchor, windows, document) && ProperIn(anchor, document)
  {
    var ordered := SortBy(anchors, PositionKey(document));
    SortedIsSame(anchors, document);
    CutsAreGood(ordered, document);
    CutAnchorsAreApart(ordered, document);
    assert ordered != [] ==> ordered[|ordered| - 1] in anchors;
    FinishTiles(CutAll(ordered, document).value, ordered, document, duration);
  }

  /**
   Anchors the validator accepts never make the worker report a conflict; their windows tile the tokens
   and follow one another in time, and every anchor is a window of its own.
  */
  lemma AcceptedAnchorsTile(anchors: seq<LyricsAnchor>, document: LyricsDocument, documents: seq<LyricsDocument>,
                            revisionId: Id, duration: nat)
    requires Accepted(anchors, document, documents, revisionId, duration)
    ensures var windows := WindowsOf(anchors, document, duration);
            && windows.Ok? && Tiled(windows.value, |document.tokens|, duration)
            && forall anchor :: anchor in anchors ==> Framed(anchor, windows.value, document)
  {
    AcceptedAnchorsAreProper(anchors, document, documents, revisionId, duration);
    ConflictsAgree(anchors, document, duration);
    WindowsTile(anchors, document, duration);
  }

  lemma FinishTiles(cut: Cut, ordered: seq<LyricsAnchor>, document: LyricsDocument, duration: nat)
    requires GoodCut(cut, ordered, document) && cut.previousEnd <= duration
    ensures var windows := Finish(cut, |document.tokens|, duration);
            && Tiled(windows, |document.tokens|, duration)
            && forall anchor :: anchor in ordered ==> Framed(anchor, windows, document)
  {
    var windows := Finish(cut, |document.tokens|, duration);
    if cut.cursor < |document.tokens| {
      TiledSnoc(cut.windows, cut.cursor, cut.previousEnd,
                Window(cut.cursor, |document.tokens|, cut.previousEnd, duration));
    } else {
      assert windows == cut.windows;
    }
    FramesStay(cut.windows, windows, ordered, document);
  }
}
