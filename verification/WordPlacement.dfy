/**
 Where an aligned word lands: which window and which interval of the aligner it is taken from, and how near
 to that interval it comes. Said of windows, intervals and seconds alone.
*/
module WordPlacement {
  import opened Wrappers
  import opened Sequences
  import opened Schema
  import Anchors
  import opened AlignmentWorker
  import opened AlignmentWords

  // ----- the times of the windows

  /** A window is that of an anchor, or fills the time between the windows beside it. */
  ghost predicate WindowFits(windows: seq<Window>, w: nat, anchors: seq<LyricsAnchor>, document: LyricsDocument,
                             end: nat)
    requires w < |windows|
  {
    || (exists anchor :: anchor in anchors && IsFrame(windows[w], anchor, document))
    || FillsTheGap(windows, w, end)
  }

  predicate FillsTheGap(windows: seq<Window>, w: nat, end: nat)
    requires w < |windows|
  {
    && windows[w].startSample == (if w == 0 then 0 else windows[w - 1].endSample)
    && windows[w].endSample == (if w + 1 < |windows| then windows[w + 1].startSample else end)
  }

  /** The windows of a cut, whose last one is that of the last anchor. */
  ghost predicate CutFits(cut: Cut, anchors: seq<LyricsAnchor>, document: LyricsDocument) {
    && (forall w :: 0 <= w < |cut.windows| ==>
          (exists anchor :: anchor in anchors && IsFrame(cut.windows[w], anchor, document))
          || (w + 1 < |cut.windows| && FillsTheGap(cut.windows, w, 0)))
    && cut.previousEnd == if cut.windows == [] then 0 else cut.windows[|cut.windows| - 1].endSample
  }

  lemma CutStaysFit(cut: Cut, anchors: seq<LyricsAnchor>, anchor: LyricsAnchor, document: LyricsDocument)
    requires CutFits(cut, anchors, document) && !Conflicts(cut, anchor, document)
    ensures CutFits(CutAt(cut, anchor, document), anchors + [anchor], document)
  {
    var after, all := CutAt(cut, anchor, document), anchors + [anchor];
    forall w | 0 <= w < |after.windows|
      ensures (exists other :: other in all && IsFrame(after.windows[w], other, document))
              || (w + 1 < |after.windows| && FillsTheGap(after.windows, w, 0))
    {
      if w < |cut.windows| {
        assert after.windows[w] == cut.windows[w];
        if other :| other in anchors && IsFrame(cut.windows[w], other, document) {
          assert other in all;
        } else {
          assert FillsTheGap(cut.windows, w, 0) && after.windows[w + 1] == cut.windows[w + 1];
        }
      } else if w == |after.windows| - 1 {
        assert anchor in all && IsFrame(after.windows[w], anchor, document);
      } else {
        assert w > 0 ==> after.windows[w - 1] == cut.windows[w - 1];
      }
    }
  }

  lemma {:induction false} CutsFit(ordered: seq<LyricsAnchor>, document: LyricsDocument)
    requires CutAll(ordered, document).Ok?
    ensures CutFits(CutAll(ordered, document).value, ordered, document)
  {
    if ordered != [] {
      var init, anchor := ordered[..|ordered| - 1], ordered[|ordered| - 1];
      CutsFit(init, document);
      CutStaysFit(CutAll(init, document).value, init, anchor, document);
      assert init + [anchor] == ordered;
    }
  }

  /** Every window has the times of an anchor, or reaches from the window before it to the next. */
  lemma WindowsFit(anchors: seq<LyricsAnchor>, document: LyricsDocument, duration: nat)
    requires WindowsOf(anchors, document, duration).Ok?
    ensures var windows := WindowsOf(anchors, document, duration).value;
            forall w :: 0 <= w < |windows| ==> WindowFits(windows, w, anchors, document, duration)
  {
    var ordered := SortBy(anchors, Anchors.PositionKey(document));
    var windows := WindowsOf(anchors, document, duration).value;
    SortedIsSame(anchors, document);
    CutsFit(ordered, document);
    var cut := CutAll(ordered, document).value;
    forall w | 0 <= w < |windows|
      ensures WindowFits(windows, w, anchors, document, duration)
    {
      if w < |cut.windows| {
        assert windows[w] == cut.windows[w];
        if anchor :| anchor in ordered && IsFrame(cut.windows[w], anchor, document) {
          assert anchor in anchors;
        } else {
          assert FillsTheGap(cut.windows, w, 0) && windows[w + 1] == cut.windows[w + 1];
        }
      } else {
        assert w > 0 ==> windows[w - 1] == cut.windows[w - 1];
      }
    }
  }

  // ----- the interval of a word

  /** How many tokens of a run are sung and in the dictionary. */
  function Sung(eligible: seq<bool>, first: nat, last: nat): nat
    requires last <= |eligible|
    decreases last - first
  {
    if last <= first then 0 else (if eligible[first] then 1 else 0) + Sung(eligible, first + 1, last)
  }

  lemma {:induction false} SungSnoc(eligible: seq<bool>, first: nat, last: nat)
    requires first < last <= |eligible|
    ensures Sung(eligible, first, last) == Sung(eligible, first, last - 1) + if eligible[last - 1] then 1 else 0
    decreases last - first
  {
    if first + 1 < last {
      SungSnoc(eligible, first + 1, last);
    }
  }

  lemma {:induction false} SelectedAreSung(eligible: seq<bool>, first: nat, last: nat)
    requires last <= |eligible|
    ensures |Selected(first, last, eligible)| == Sung(eligible, first, last)
    decreases last
  {
    if first < last {
      SelectedAreSung(eligible, first, last - 1);
      SungSnoc(eligible, first, last);
    }
  }

  /** A sung token is found behind those sung before it. */
  lemma {:induction false} SungTokenIsSelected(eligible: seq<bool>, first: nat, last: nat, i: nat)
    requires first <= i < last <= |eligible| && eligible[i]
    ensures var k := Sung(eligible, first, i);
            k < |Selected(first, last, eligible)| && Selected(first, last, eligible)[k] == i
    decreases last
  {
    if i < last - 1 {
      SungTokenIsSelected(eligible, first, last - 1, i);
    } else {
      SelectedAreSung(eligible, first, i);
    }
  }

  lemma {:induction false} SelectedIsSung(eligible: seq<bool>, first: nat, last: nat, i: nat)
    requires last <= |eligible| && i in Selected(first, last, eligible)
    ensures first <= i < last && eligible[i]
    decreases last
  {
    if i in Selected(first, last - 1, eligible) {
      SelectedIsSung(eligible, first, last - 1, i);
    }
  }

  lemma {:induction false} PlacedWord(before: Placements, selected: seq<nat>, timings: seq<Raw>, window: Window, n: nat,
                                      k: nat)
    requires k < n <= |selected| == |timings| && forall j, l :: 0 <= j < l < |selected| ==> selected[j] < selected[l]
    ensures var after := PlaceWords(before, selected, timings, window, n);
            selected[k] in after && after[selected[k]] == Placed(timings[k], window.startSample, window.endSample)
  {
    if k < n - 1 {
      PlacedWord(before, selected, timings, window, n - 1, k);
    }
  }

  lemma {:induction false} OthersStayPlaced(before: Placements, selected: seq<nat>, timings: seq<Raw>, window: Window,
                                            n: nat, i: nat)
    requires n <= |selected| == |timings| && i !in selected
    ensures SameAt(before, PlaceWords(before, selected, timings, window, n), i)
  {
    if n > 0 {
      OthersStayPlaced(before, selected, timings, window, n - 1, i);
    }
  }

  predicate SameAt(before: Placements, after: Placements, i: nat) {
    (i in after <==> i in before) && (i in before ==> after[i] == before[i])
  }

  /** The window lasts a fortieth of a second, and the aligner returns an interval for each of its sung words. */
  predicate IsAligned(window: Window, eligible: seq<bool>, engine: Engine, sampleRate: nat)
    requires window.last <= |eligible|
  {
    && 40 * window.endSample >= sampleRate + 40 * window.startSample
    && engine(window).Some? && |engine(window).value| == Sung(eligible, window.first, window.last)
  }

  lemma WindowPlaces(before: Placements, window: Window, eligible: seq<bool>, engine: Engine, sampleRate: nat, i: nat)
    requires window.last <= |eligible|
    ensures var after := AlignWindow(before, window, eligible, engine, sampleRate);
            if window.first <= i < window.last && eligible[i] && IsAligned(window, eligible, engine, sampleRate) then
              && Sung(eligible, window.first, i) < |engine(window).value|
              && i in after && after[i] == Placed(engine(window).value[Sung(eligible, window.first, i)],
                                                  window.startSample, window.endSample)
            else SameAt(before, after, i)
  {
    var selected := Selected(window.first, window.last, eligible);
    SelectedAreSung(eligible, window.first, window.last);
    SelectedIncrease(window.first, window.last, eligible);
    if window.first <= i < window.last && eligible[i] {
      SungTokenIsSelected(eligible, window.first, window.last, i);
      if IsAligned(window, eligible, engine, sampleRate) {
        PlacedWord(before, selected, engine(window).value, window, |selected|, Sung(eligible, window.first, i));
      }
    } else if selected != [] && engine(window).Some? && |engine(window).value| == |selected| {
      if i in selected {
        SelectedIsSung(eligible, window.first, window.last, i);
        assert false;
      }
      OthersStayPlaced(before, selected, engine(window).value, window, |selected|, i);
    }
  }

  lemma {:induction false} PlacedByItsWindow(windows: seq<Window>, n: nat, eligible: seq<bool>, engine: Engine,
                                             sampleRate: nat, duration: nat, w: nat, i: nat)
    requires Tiled(windows, |eligible|, duration) && n <= |windows|
    requires forall v :: 0 <= v < |windows| ==> windows[v].last <= |eligible|
    requires w < |windows| && windows[w].first <= i < windows[w].last
    ensures var placements, window := AlignAll(windows, n, eligible, engine, sampleRate), windows[w];
            if w < n && eligible[i] && IsAligned(window, eligible, engine, sampleRate) then
              && Sung(eligible, window.first, i) < |engine(window).value|
              && i in placements && placements[i] == Placed(engine(window).value[Sung(eligible, window.first, i)],
                                                            window.startSample, window.endSample)
            else i !in placements
  {
    if n > 0 {
      PlacedByItsWindow(windows, n - 1, eligible, engine, sampleRate, duration, w, i);
      WindowPlaces(AlignAll(windows, n - 1, eligible, engine, sampleRate), windows[n - 1], eligible, engine, sampleRate,
                   i);
      OnlyItsWindow(windows, |eligible|, duration, n - 1, w, i);
    }
  }

  lemma OnlyItsWindow(windows: seq<Window>, count: nat, duration: nat, v: nat, w: nat, i: nat)
    requires Tiled(windows, count, duration) && v < |windows| && w < |windows|
    requires windows[w].first <= i < windows[w].last
    ensures windows[v].first <= i < windows[v].last <==> v == w
  {
    if v < w {
      WindowsFollow(windows, count, duration, v, w);
    } else if w < v {
      WindowsFollow(windows, count, duration, w, v);
    }
  }

  // ----- where it lands

  /** Rounding goes to a nearest sample. */
  ghost predicate Nearest(rounding: Rounding) {
    forall x :: Near(rounding(x), x)
  }

  predicate Near(sample: int, x: real) {
    -1.0 <= 2.0 * (sample as real - x) <= 1.0
  }

  function Later(a: int, b: int): int { if a < b then b else a }
  function Earlier(a: int, b: int): int { if a < b then a else b }

  /**
   A word begins at its window or near its interval in samples, whichever is later, and ends at its window or
   near the end of its interval, whichever is earlier; it is untimed exactly if that leaves nothing.
  */
  ghost predicate Lands(word: Word, raw: Raw, window: Window, sampleRate: nat, reason: string) {
    exists begin: int, end: int :: LandsBetween(word, raw, window, sampleRate, reason, begin, end)
  }

  predicate LandsBetween(word: Word, raw: Raw, window: Window, sampleRate: nat, reason: string, begin: int, end: int) {
    && Near(begin, raw.begin * sampleRate as real) && Near(end, raw.end * sampleRate as real)
    && var from, to := Later(window.startSample, begin), Earlier(window.endSample, end);
       if from < to then word == Timed(from, to) else word == Untimed(reason)
  }

  lemma SampleIsNear(seconds: real, sampleRate: nat, rounding: Rounding)
    requires Nearest(rounding)
    ensures Near(SampleAt(seconds, sampleRate, rounding), seconds * sampleRate as real)
  {
    var x := seconds * sampleRate as real;
    assert Near(rounding(x), x);
  }

  lemma ClampedLands(raw: Raw, window: Window, reason: string, sampleRate: nat, rounding: Rounding)
    requires Nearest(rounding)
    ensures Lands(ClampWord(Placed(raw, window.startSample, window.endSample), reason, sampleRate, rounding), raw,
                  window, sampleRate, reason)
  {
    var begin, end := SampleAt(raw.begin, sampleRate, rounding), SampleAt(raw.end, sampleRate, rounding);
    SampleIsNear(raw.begin, sampleRate, rounding);
    SampleIsNear(raw.end, sampleRate, rounding);
    assert LandsBetween(ClampWord(Placed(raw, window.startSample, window.endSample), reason, sampleRate, rounding), raw,
                        window, sampleRate, reason, begin, end);
  }

  /** A sung word of an aligned window lands where its interval says; every other word stays untimed. */
  lemma WordLands(windows: seq<Window>, eligible: seq<bool>, reasons: seq<string>, engine: Engine, sampleRate: nat,
                  rounding: Rounding, duration: nat, w: nat, i: nat)
    requires Tiled(windows, |eligible|, duration) && Nearest(rounding) && |reasons| == |eligible|
    requires forall v :: 0 <= v < |windows| ==> windows[v].last <= |eligible|
    requires w < |windows| && windows[w].first <= i < windows[w].last
    ensures var window := windows[w];
            var word := WordsOf(reasons, AlignAll(windows, |windows|, eligible, engine, sampleRate), sampleRate,
                                rounding)[i];
            if eligible[i] && IsAligned(window, eligible, engine, sampleRate) then
              && Sung(eligible, window.first, i) < |engine(window).value|
              && Lands(word, engine(window).value[Sung(eligible, window.first, i)], window, sampleRate, reasons[i])
            else word == Untimed(reasons[i])
  {
    PlacedByItsWindow(windows, |windows|, eligible, engine, sampleRate, duration, w, i);
    if eligible[i] && IsAligned(windows[w], eligible, engine, sampleRate) {
      ClampedLands(engine(windows[w]).value[Sung(eligible, windows[w].first, i)], windows[w], reasons[i], sampleRate,
                   rounding);
    }
  }

  lemma {:induction false} WindowOfToken(windows: seq<Window>, count: nat, end: nat, i: nat) returns (w: nat)
    requires Tiled(windows, count, end) && i < count
    ensures w < |windows| && windows[w].first <= i < windows[w].last
    decreases |windows|
  {
    var n := |windows| - 1;
    if windows[n].first <= i {
      w := n;
    } else {
      assert n > 0 ==> windows[n - 1].last == windows[n].first && windows[..n][n - 1] == windows[n - 1];
      w := WindowOfToken(windows[..n], windows[n].first, windows[n].startSample, i);
    }
  }

  /**
   The whole worker: every token lies in one window, that of an anchor or one that fills the time between its
   neighbours, and its word lands where the aligner puts it there.
  */
  lemma AlignedWordLands(anchors: seq<LyricsAnchor>, document: LyricsDocument, duration: nat, sampleRate: nat,
                         eligible: seq<bool>, reasons: seq<string>, engine: Engine, rounding: Rounding, i: nat)
    returns (windows: seq<Window>, w: nat)
    requires |eligible| == |reasons| == |document.tokens| && Nearest(rounding) && i < |document.tokens|
    requires WindowsOf(anchors, document, duration).Ok?
             && forall anchor :: anchor in anchors ==> anchor.endSample <= duration
    ensures Tiled(windows, |document.tokens|, duration)
    ensures forall v :: 0 <= v < |windows| ==> WindowFits(windows, v, anchors, document, duration)
    ensures w < |windows| && windows[w].first <= i < windows[w].last <= |eligible|
    ensures var window := windows[w];
            var word := Aligned(anchors, document, duration, sampleRate, eligible, reasons, engine, rounding).value[i];
            if eligible[i] && IsAligned(window, eligible, engine, sampleRate) then
              && Sung(eligible, window.first, i) < |engine(window).value|
              && Lands(word, engine(window).value[Sung(eligible, window.first, i)], window, sampleRate, reasons[i])
            else word == Untimed(reasons[i])
  {
    windows := WindowsOf(anchors, document, duration).value;
    WindowsTile(anchors, document, duration);
    WindowsFit(anchors, document, duration);
    WindowsStayInside(anchors, document, duration);
    w := WindowOfToken(windows, |document.tokens|, duration, i);
    WordLands(windows, eligible, reasons, engine, sampleRate, rounding, duration, w, i);
  }

  // ----- the lines

  ghost predicate TimedInLine(words: seq<Word>, document: LyricsDocument, lineId: Id, i: nat) {
    i < |words| == |document.tokens| && document.tokens[i].lineId == lineId && words[i].Timed?
  }

  /** A line lasts from its first timed word to its last, and says so if some of its words are not timed. */
  lemma LineLasts(words: seq<Word>, document: LyricsDocument, id: Id, revisionId: Id, assertion: Assertion, m: nat,
                  first: nat, last: nat)
    requires |words| == |document.tokens| && m < |document.lines|
    requires var lineId := document.lines[m].id;
             && TimedInLine(words, document, lineId, first) && TimedInLine(words, document, lineId, last)
             && forall i: nat :: TimedInLine(words, document, lineId, i) ==> first <= i <= last
    ensures var lineId := document.lines[m].id;
            var alignment := AlignmentFrom(words, document, id, revisionId, assertion);
            && alignment.lineOccurrences[m].target == lineId
            && var timing := alignment.lineOccurrences[m].timing;
            && timing.Matched? && timing.startSample == words[first].startSample
            && timing.endSample == words[last].endSample
            && timing.assertion.evidence == assertion.evidence && timing.assertion.state == assertion.state
            && timing.assertion.reasonCodes
               == if forall i :: 0 <= i < |words| && document.tokens[i].lineId == lineId ==> words[i].Timed?
                  then assertion.reasonCodes else ["uncalibrated_alignment", "partial_word_coverage"]
  {
    var lineId := document.lines[m].id;
    assert TimedOn(words, document.tokens, lineId, first) && TimedOn(words, document.tokens, lineId, last);
    var a, b := FirstTimed(words, document.tokens, lineId, 0), LastTimed(words, document.tokens, lineId, |words|);
    assert a >= 0 && TimedInLine(words, document, lineId, a) && TimedInLine(words, document, lineId, b);
  }

  lemma LineWithoutWords(words: seq<Word>, document: LyricsDocument, id: Id, revisionId: Id, assertion: Assertion,
                         m: nat)
    requires |words| == |document.tokens| && m < |document.lines|
    requires forall i: nat :: !TimedInLine(words, document, document.lines[m].id, i)
    ensures AlignmentFrom(words, document, id, revisionId, assertion).lineOccurrences[m]
            == Occurrence(document.lines[m].id, Unmatched("no_aligned_words"))
  {
    var i := FirstTimed(words, document.tokens, document.lines[m].id, 0);
    if i >= 0 {
      assert TimedInLine(words, document, document.lines[m].id, i);
      assert false;
    }
  }

  /** A word is timed in the alignment as the worker timed it. */
  lemma WordsAreKept(words: seq<Word>, document: LyricsDocument, id: Id, revisionId: Id, assertion: Assertion, i: nat)
    requires |words| == |document.tokens| && i < |words|
    ensures AlignmentFrom(words, document, id, revisionId, assertion).occurrences[i]
            == Occurrence(document.tokens[i].id,
                          match words[i]
                          case Timed(startSample, endSample) => Matched(startSample, endSample, assertion)
                          case Untimed(reason) => Unmatched(reason))
  {
  }

  // ----- what anchors promise

  /** The words of an anchor lie in its time, and the words around it do not. */
  ghost predicate KeepsAnchor(words: seq<Word>, first: nat, last: nat, anchor: LyricsAnchor) {
    && (forall i :: 0 <= i < |words| && i < first && words[i].Timed? ==> words[i].endSample <= anchor.startSample)
    && (forall i :: first <= i < |words| && i <= last && words[i].Timed? ==>
          anchor.startSample <= words[i].startSample && words[i].endSample <= anchor.endSample)
    && (forall i :: last < i < |words| && words[i].Timed? ==> anchor.endSample <= words[i].startSample)
  }

  lemma RespectedAnchorsAreKept(words: seq<Word>, anchor: LyricsAnchor, document: LyricsDocument, first: nat, last: nat)
    requires Distinct(TokenIds(document.tokens)) && first < |document.tokens| && last < |document.tokens|
    requires document.tokens[first].id == anchor.firstTokenId && document.tokens[last].id == anchor.lastTokenId
    ensures AnchorRespected(words, anchor, document) <==> first <= last && KeepsAnchor(words, first, last, anchor)
  {
    var ids := TokenIds(document.tokens);
    assert ids[first] == anchor.firstTokenId && ids[last] == anchor.lastTokenId;
    FindIsUnique(ids, first);
    FindIsUnique(ids, last);
    if AnchorRespected(words, anchor, document) {
      assert forall i :: 0 <= i < |words| ==> WordRespects(i, words[i], first, last, anchor);
    }
  }

  /** Whatever the aligner finds, the words it gives to the tokens of an anchor lie in the time of that anchor. */
  lemma AlignedWordsKeepAnchors(anchors: seq<LyricsAnchor>, document: LyricsDocument, duration: nat, sampleRate: nat,
                                eligible: seq<bool>, reasons: seq<string>, engine: Engine, rounding: Rounding,
                                anchor: LyricsAnchor, first: nat, last: nat)
    requires |eligible| == |reasons| == |document.tokens| && ProperEngine(engine) && Monotone(rounding)
    requires Aligned(anchors, document, duration, sampleRate, eligible, reasons, engine, rounding).Ok?
             && forall other :: other in anchors ==> other.endSample <= duration
    requires Distinct(TokenIds(document.tokens)) && first < |document.tokens| && last < |document.tokens|
    requires anchor in anchors
             && document.tokens[first].id == anchor.firstTokenId && document.tokens[last].id == anchor.lastTokenId
    ensures first <= last
            && KeepsAnchor(Aligned(anchors, document, duration, sampleRate, eligible, reasons, engine, rounding).value,
                           first, last, anchor)
  {
    var words := Aligned(anchors, document, duration, sampleRate, eligible, reasons, engine, rounding).value;
    AlignedIsProper(anchors, document, duration, sampleRate, eligible, reasons, engine, rounding);
    RespectedAnchorsAreKept(words, anchor, document, first, last);
  }
}
