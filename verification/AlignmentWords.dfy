/** The words a worker times, and why the checks made of its output never fail. */
module AlignmentWords {
  import opened Wrappers
  import opened Sequences
  import opened Schema
  import opened Invariants
  import opened History
  import opened Anchors
  import opened ProjectRules
  import opened LyricsDocuments
  import opened AlignmentWorker

  // ----- aligning windows

  /** A word interval in seconds, as the aligner reports it. */
  datatype Raw = Raw(begin: real, end: real)

  /** What the aligner makes of a window: one interval per word, or nothing. */
  type Engine = Window -> Option<seq<Raw>>

  /** No word begins before an earlier one ends. */
  ghost predicate InTurn(timings: seq<Raw>) {
    forall k, l :: 0 <= k < l < |timings| ==> timings[k].end <= timings[l].begin
  }

  ghost predicate ProperEngine(engine: Engine) {
    forall window :: engine(window).Some? ==> InTurn(engine(window).value)
  }

  /** The tokens of a window that are sung and in the dictionary. */
  function Selected(first: nat, last: nat, eligible: seq<bool>): seq<nat>
    requires last <= |eligible|
    decreases last
  {
    if last <= first then []
    else Selected(first, last - 1, eligible) + if eligible[last - 1] then [last - 1] else []
  }

  ghost predicate Ascending(s: seq<nat>, first: nat, last: nat) {
    && (forall k :: 0 <= k < |s| ==> first <= s[k] < last)
    && (forall k, l :: 0 <= k < l < |s| ==> s[k] < s[l])
  }

  lemma {:induction false} SelectedIncrease(first: nat, last: nat, eligible: seq<bool>)
    requires last <= |eligible|
    ensures Ascending(Selected(first, last, eligible), first, last)
    decreases last
  {
    if first < last {
      SelectedIncrease(first, last - 1, eligible);
    }
  }

  datatype Placed = Placed(raw: Raw, startSample: nat, endSample: nat)
  type Placements = map<nat, Placed>

  function PlaceWords(placements: Placements, selected: seq<nat>, timings: seq<Raw>, window: Window, n: nat): Placements
    requires n <= |selected| == |timings|
  {
    if n == 0 then placements
    else PlaceWords(placements, selected, timings, window, n - 1)
           [selected[n - 1] := Placed(timings[n - 1], window.startSample, window.endSample)]
  }

  /** A window is aligned if it has words and lasts a fortieth of a second; a misfit is dropped. */
  function AlignWindow(placements: Placements, window: Window, eligible: seq<bool>, engine: Engine,
                       sampleRate: nat): Placements
    requires window.last <= |eligible|
  {
    var selected := Selected(window.first, window.last, eligible);
    if selected == [] || (window.endSample - window.startSample) * 40 < sampleRate then placements
    else
      var timings := engine(window);
      if timings == None || |timings.value| != |selected| then placements
      else PlaceWords(placements, selected, timings.value, window, |selected|)
  }

  function AlignAll(windows: seq<Window>, n: nat, eligible: seq<bool>, engine: Engine, sampleRate: nat): Placements
    requires n <= |windows| && forall w :: 0 <= w < |windows| ==> windows[w].last <= |eligible|
  {
    if n == 0 then map[] else AlignWindow(AlignAll(windows, n - 1, eligible, engine, sampleRate), windows[n - 1],
                                          eligible, engine, sampleRate)
  }

  method AlignWindows(windows: seq<Window>, eligible: seq<bool>, engine: Engine, sampleRate: nat)
    returns (placements: Placements)
    requires forall w :: 0 <= w < |windows| ==> windows[w].last <= |eligible|
    ensures placements == AlignAll(windows, |windows|, eligible, engine, sampleRate)
  {
    placements := map[];
    for w := 0 to |windows|
      invariant placements == AlignAll(windows, w, eligible, engine, sampleRate)
    {
      placements := AlignOne(placements, windows[w], eligible, engine, sampleRate);
    }
  }

  method AlignOne(before: Placements, window: Window, eligible: seq<bool>, engine: Engine, sampleRate: nat)
    returns (placements: Placements)
    requires window.last <= |eligible|
    ensures placements == AlignWindow(before, window, eligible, engine, sampleRate)
  {
    placements := before;
    var selected := Selected(window.first, window.last, eligible);
    if selected == [] || (window.endSample - window.startSample) * 40 < sampleRate {
      return;
    }
    var timings := engine(window);
    if timings == None || |timings.value| != |selected| {
      return;
    }
    for k := 0 to |selected|
      invariant placements == PlaceWords(before, selected, timings.value, window, k)
    {
      placements := placements[selected[k] := Placed(timings.value[k], window.startSample, window.endSample)];
    }
  }

  /** Where a placement comes from: a word of a window. */
  ghost predicate ComesFrom(token: nat, placed: Placed, window: Window, k: nat, eligible: seq<bool>, engine: Engine) {
    && window.last <= |eligible|
    && var selected := Selected(window.first, window.last, eligible);
       && engine(window).Some? && k < |selected| == |engine(window).value|
       && token == selected[k]
       && placed == Placed(engine(window).value[k], window.startSample, window.endSample)
  }

  lemma {:induction false} PlacedByWindow(before: Placements, selected: seq<nat>, timings: seq<Raw>, window: Window,
                                          n: nat, token: nat)
    requires n <= |selected| == |timings|
    requires token in PlaceWords(before, selected, timings, window, n)
    ensures var placed := PlaceWords(before, selected, timings, window, n)[token];
            || (token in before && placed == before[token])
            || exists k :: 0 <= k < n && token == selected[k]
                 && placed == Placed(timings[k], window.startSample, window.endSample)
  {
    if n > 0 && token != selected[n - 1] {
      PlacedByWindow(before, selected, timings, window, n - 1, token);
    }
  }

  lemma {:induction false} PlacementHasASource(windows: seq<Window>, n: nat, eligible: seq<bool>, engine: Engine,
                                               sampleRate: nat, token: nat)
    returns (w: nat, k: nat)
    requires n <= |windows| && forall w :: 0 <= w < |windows| ==> windows[w].last <= |eligible|
    requires token in AlignAll(windows, n, eligible, engine, sampleRate)
    ensures w < n && ComesFrom(token, AlignAll(windows, n, eligible, engine, sampleRate)[token], windows[w], k,
                               eligible, engine)
  {
    var before, window := AlignAll(windows, n - 1, eligible, engine, sampleRate), windows[n - 1];
    var after := AlignAll(windows, n, eligible, engine, sampleRate);
    if token in before && after[token] == before[token] {
      w, k := PlacementHasASource(windows, n - 1, eligible, engine, sampleRate, token);
    } else {
      var selected, timings := Selected(window.first, window.last, eligible), engine(window).value;
      PlacedByWindow(before, selected, timings, window, |selected|, token);
      w := n - 1;
      k :| 0 <= k < |selected| && token == selected[k]
        && after[token] == Placed(timings[k], window.startSample, window.endSample);
    }
  }

  // ----- clamping

  type Rounding = real -> int

  ghost predicate Monotone(rounding: Rounding) {
    forall a, b {:trigger rounding(a), rounding(b)} :: a <= b ==> rounding(a) <= rounding(b)
  }

  datatype Word = Timed(startSample: nat, endSample: nat) | Untimed(reason: string)

  function SampleAt(seconds: real, sampleRate: nat, rounding: Rounding): int {
    rounding(seconds * sampleRate as real)
  }

  function ClampWord(placed: Placed, reason: string, sampleRate: nat, rounding: Rounding): Word {
    var start := SampleAt(placed.raw.begin, sampleRate, rounding);
    var end := SampleAt(placed.raw.end, sampleRate, rounding);
    var from := if start < placed.startSample then placed.startSample else start;
    var to := if end > placed.endSample then placed.endSample else end;
    if from < to then Timed(from, to) else Untimed(reason)
  }

  function WordsOf(reasons: seq<string>, placements: Placements, sampleRate: nat, rounding: Rounding): (r: seq<Word>)
    ensures |r| == |reasons|
    ensures forall i :: 0 <= i < |r| ==>
              r[i] == if i in placements then ClampWord(placements[i], reasons[i], sampleRate, rounding)
                else Untimed(reasons[i])
  {
    seq(|reasons|, i requires 0 <= i < |reasons| =>
      if i in placements then ClampWord(placements[i], reasons[i], sampleRate, rounding) else Untimed(reasons[i]))
  }

  method EmitWords(reasons: seq<string>, placements: Placements, sampleRate: nat, rounding: Rounding)
    returns (words: seq<Word>)
    ensures words == WordsOf(reasons, placements, sampleRate, rounding)
  {
    words := [];
    for i := 0 to |reasons|
      invariant words == WordsOf(reasons, placements, sampleRate, rounding)[..i]
    {
      var word := Untimed(reasons[i]);
      if i in placements {
        word := ClampWord(placements[i], reasons[i], sampleRate, rounding);
      }
      words := words + [word];
    }
  }

  lemma LaterIsNotBefore(a: real, b: real, sampleRate: nat, rounding: Rounding)
    requires a <= b && Monotone(rounding)
    ensures SampleAt(a, sampleRate, rounding) <= SampleAt(b, sampleRate, rounding)
  {
    assert a * sampleRate as real <= b * sampleRate as real;
  }

  /** A run of the worker over tiled windows. */
  ghost predicate Run(windows: seq<Window>, eligible: seq<bool>, engine: Engine, rounding: Rounding, duration: nat) {
    && Tiled(windows, |eligible|, duration) && ProperEngine(engine) && Monotone(rounding)
    && forall w :: 0 <= w < |windows| ==> windows[w].last <= |eligible|
  }

  lemma {:induction false} WindowsFollow(windows: seq<Window>, count: nat, end: nat, v: nat, w: nat)
    requires Tiled(windows, count, end) && v < w < |windows|
    ensures windows[v].last <= windows[w].first && windows[v].endSample <= windows[w].startSample
    decreases w
  {
    assert windows[w - 1].last == windows[w].first && windows[w - 1].endSample <= windows[w].startSample;
    if v < w - 1 {
      WindowsFollow(windows, count, end, v, w - 1);
    }
  }

  lemma WindowEndsInside(windows: seq<Window>, count: nat, end: nat, w: nat)
    requires Tiled(windows, count, end) && w < |windows|
    ensures windows[w].last <= count && windows[w].endSample <= end
  {
    if w < |windows| - 1 {
      WindowsFollow(windows, count, end, w, |windows| - 1);
    }
  }

  /** A timed word lies in the window of its token, between the rounded times of the aligner. */
  ghost predicate InWindow(i: nat, word: Word, placed: Placed, window: Window, sampleRate: nat, rounding: Rounding) {
    && word.Timed? && window.first <= i < window.last
    && window.startSample <= word.startSample < word.endSample <= window.endSample
    && SampleAt(placed.raw.begin, sampleRate, rounding) <= word.startSample
    && word.endSample <= SampleAt(placed.raw.end, sampleRate, rounding)
  }

  lemma ClampedIsInWindow(i: nat, placed: Placed, reason: string, window: Window, k: nat, eligible: seq<bool>,
                          engine: Engine, sampleRate: nat, rounding: Rounding)
    requires ComesFrom(i, placed, window, k, eligible, engine) && ClampWord(placed, reason, sampleRate, rounding).Timed?
    ensures InWindow(i, ClampWord(placed, reason, sampleRate, rounding), placed, window, sampleRate, rounding)
  {
    SelectedIncrease(window.first, window.last, eligible);
    assert Selected(window.first, window.last, eligible)[k] == i;
  }

  /**
   Two words of different windows are in the order of the
   windows, and of one window in the order of its intervals.
  */
  lemma TwoInWindows(windows: seq<Window>, count: nat, duration: nat, v: nat, w: nat, i: nat, j: nat, left: Word,
                     right: Word, first: Placed, second: Placed, sampleRate: nat, rounding: Rounding)
    requires Tiled(windows, count, duration) && Monotone(rounding) && v < |windows| && w < |windows| && i < j
    requires InWindow(i, left, first, windows[v], sampleRate, rounding)
             && InWindow(j, right, second, windows[w], sampleRate, rounding)
    requires v == w ==> first.raw.end <= second.raw.begin
    ensures left.endSample <= right.startSample
  {
    if v < w {
      WindowsFollow(windows, count, duration, v, w);
    } else if w < v {
      WindowsFollow(windows, count, duration, w, v);
    } else {
      LaterIsNotBefore(first.raw.end, second.raw.begin, sampleRate, rounding);
    }
  }

  lemma TimedWordIsPlaced(windows: seq<Window>, eligible: seq<bool>, reasons: seq<string>, engine: Engine,
                          sampleRate: nat, rounding: Rounding, duration: nat, i: nat)
    returns (w: nat, k: nat)
    requires Run(windows, eligible, engine, rounding, duration) && |reasons| == |eligible|
    requires var placements := AlignAll(windows, |windows|, eligible, engine, sampleRate);
             i < |reasons| && WordsOf(reasons, placements, sampleRate, rounding)[i].Timed?
    ensures var placements := AlignAll(windows, |windows|, eligible, engine, sampleRate);
            && i in placements && w < |windows| && windows[w].endSample <= duration
            && ComesFrom(i, placements[i], windows[w], k, eligible, engine)
            && InWindow(i, WordsOf(reasons, placements, sampleRate, rounding)[i], placements[i], windows[w], sampleRate,
                        rounding)
  {
    w, k := PlacementHasASource(windows, |windows|, eligible, engine, sampleRate, i);
    var placements := AlignAll(windows, |windows|, eligible, engine, sampleRate);
    ClampedIsInWindow(i, placements[i], reasons[i], windows[w], k, eligible, engine, sampleRate, rounding);
    WindowEndsInside(windows, |eligible|, duration, w);
  }

  /** Timed words follow one another, whatever the aligner reports outside its windows. */
  ghost predicate WordsInOrder(words: seq<Word>, duration: nat) {
    && (forall i :: 0 <= i < |words| && words[i].Timed? ==> words[i].startSample < words[i].endSample <= duration)
    && (forall i, j :: 0 <= i < j < |words| && words[i].Timed? && words[j].Timed? ==>
          words[i].endSample <= words[j].startSample)
  }

  lemma TwoWordsInOrder(windows: seq<Window>, eligible: seq<bool>, reasons: seq<string>, engine: Engine,
                        sampleRate: nat, rounding: Rounding, duration: nat, i: nat, j: nat)
    requires Run(windows, eligible, engine, rounding, duration) && |reasons| == |eligible| && i < j < |reasons|
    requires var words := WordsOf(reasons, AlignAll(windows, |windows|, eligible, engine, sampleRate), sampleRate,
                                  rounding);
             words[i].Timed? && words[j].Timed?
    ensures var words := WordsOf(reasons, AlignAll(windows, |windows|, eligible, engine, sampleRate), sampleRate,
                                 rounding);
            words[i].endSample <= words[j].startSample
  {
    var v, k := TimedWordIsPlaced(windows, eligible, reasons, engine, sampleRate, rounding, duration, i);
    var w, l := TimedWordIsPlaced(windows, eligible, reasons, engine, sampleRate, rounding, duration, j);
    var placements := AlignAll(windows, |windows|, eligible, engine, sampleRate);
    var words := WordsOf(reasons, placements, sampleRate, rounding);
    if v == w {
      SameWindowInTurn(i, placements[i], j, placements[j], windows[w], k, l, eligible, engine);
    }
    TwoInWindows(windows, |eligible|, duration, v, w, i, j, words[i], words[j], placements[i], placements[j],
                 sampleRate, rounding);
  }

  lemma SameWindowInTurn(i: nat, left: Placed, j: nat, right: Placed, window: Window, k: nat, l: nat,
                         eligible: seq<bool>, engine: Engine)
    requires ProperEngine(engine) && i < j
    requires ComesFrom(i, left, window, k, eligible, engine) && ComesFrom(j, right, window, l, eligible, engine)
    ensures left.raw.end <= right.raw.begin
  {
    SelectedIncrease(window.first, window.last, eligible);
    PositionsAscend(Selected(window.first, window.last, eligible), window.first, window.last, k, l);
    assert InTurn(engine(window).value);
  }

  lemma PositionsAscend(s: seq<nat>, first: nat, last: nat, k: nat, l: nat)
    requires Ascending(s, first, last) && k < |s| && l < |s| && s[k] < s[l]
    ensures k < l
  {
  }

  lemma OutputIsInOrder(windows: seq<Window>, eligible: seq<bool>, reasons: seq<string>, engine: Engine,
                        sampleRate: nat, rounding: Rounding, duration: nat)
    requires Run(windows, eligible, engine, rounding, duration) && |reasons| == |eligible|
    ensures WordsInOrder(WordsOf(reasons, AlignAll(windows, |windows|, eligible, engine, sampleRate), sampleRate,
                                 rounding), duration)
  {
    var words := WordsOf(reasons, AlignAll(windows, |windows|, eligible, engine, sampleRate), sampleRate, rounding);
    forall i | 0 <= i < |words| && words[i].Timed?
      ensures words[i].startSample < words[i].endSample <= duration
    {
      var _, _ := TimedWordIsPlaced(windows, eligible, reasons, engine, sampleRate, rounding, duration, i);
    }
    forall i, j | 0 <= i < j < |words| && words[i].Timed? && words[j].Timed?
      ensures words[i].endSample <= words[j].startSample
    {
      TwoWordsInOrder(windows, eligible, reasons, engine, sampleRate, rounding, duration, i, j);
    }
  }

  // ----- the anchor check

  predicate WordRespects(index: nat, word: Word, first: int, last: int, anchor: LyricsAnchor) {
    word.Timed? ==>
      && (index < first ==> word.endSample <= anchor.startSample)
      && (index > last ==> word.startSample >= anchor.endSample)
      && (first <= index <= last ==> anchor.startSample <= word.startSample && word.endSample <= anchor.endSample)
  }

  ghost predicate AnchorRespected(words: seq<Word>, anchor: LyricsAnchor, document: LyricsDocument) {
    var first, last := FirstPosition(anchor, document), LastPosition(anchor, document);
    && 0 <= first <= last
    && forall index :: 0 <= index < |words| ==> WordRespects(index, words[index], first, last, anchor)
  }

  method CheckAnchors(words: seq<Word>, anchors: seq<LyricsAnchor>, document: LyricsDocument) returns (ok: bool)
    ensures ok <==> forall anchor :: anchor in anchors ==> AnchorRespected(words, anchor, document)
  {
    for n := 0 to |anchors|
      invariant forall m :: 0 <= m < n ==> AnchorRespected(words, anchors[m], document)
    {
      var respected := CheckAnchor(words, anchors[n], document);
      if !respected {
        return false;
      }
    }
    ok := true;
  }

  method CheckAnchor(words: seq<Word>, anchor: LyricsAnchor, document: LyricsDocument) returns (ok: bool)
    ensures ok <==> AnchorRespected(words, anchor, document)
  {
    var first, last := FirstPosition(anchor, document), LastPosition(anchor, document);
    if first < 0 || last < first {
      return false;
    }
    for index := 0 to |words|
      invariant forall i :: 0 <= i < index ==> WordRespects(i, words[i], first, last, anchor)
    {
      var word := words[index];
      if word.Timed? {
        if (index < first && word.endSample > anchor.startSample)
           || (index > last && word.startSample < anchor.endSample)
           || (first <= index <= last && (word.startSample < anchor.startSample || word.endSample > anchor.endSample)) {
          assert !WordRespects(index, word, first, last, anchor);
          return false;
        }
      }
    }
    ok := true;
  }

  /** An anchor that has a window of its own is never violated. */
  lemma FramedAnchorIsRespected(windows: seq<Window>, eligible: seq<bool>, reasons: seq<string>, engine: Engine,
                                sampleRate: nat, rounding: Rounding, duration: nat, anchor: LyricsAnchor,
                                document: LyricsDocument)
    requires Run(windows, eligible, engine, rounding, duration) && |reasons| == |eligible|
    requires Framed(anchor, windows, document) && ProperIn(anchor, document)
    ensures AnchorRespected(WordsOf(reasons, AlignAll(windows, |windows|, eligible, engine, sampleRate), sampleRate,
                                    rounding), anchor, document)
  {
    var words := WordsOf(reasons, AlignAll(windows, |windows|, eligible, engine, sampleRate), sampleRate, rounding);
    var own :| 0 <= own < |windows| && IsFrame(windows[own], anchor, document);
    forall index | 0 <= index < |words|
      ensures WordRespects(index, words[index], FirstPosition(anchor, document), LastPosition(anchor, document), anchor)
    {
      if words[index].Timed? {
        var w, _ := TimedWordIsPlaced(windows, eligible, reasons, engine, sampleRate, rounding, duration, index);
        if w < own {
          WindowsFollow(windows, |eligible|, duration, w, own);
        } else if own < w {
          WindowsFollow(windows, |eligible|, duration, own, w);
        }
      }
    }
  }

  // ----- the alignment made from the words

  function WordTiming(word: Word, assertion: Assertion): Timing {
    match word
    case Timed(startSample, endSample) => Matched(startSample, endSample, assertion)
    case Untimed(reason) => Unmatched(reason)
  }

  function WordOccurrences(words: seq<Word>, tokens: seq<LyricsToken>, assertion: Assertion): (r: seq<Occurrence>)
    requires |words| == |tokens|
    ensures |r| == |words| && forall i :: 0 <= i < |r| ==>
                                r[i] == Occurrence(tokens[i].id, WordTiming(words[i], assertion))
  {
    seq(|words|, i requires 0 <= i < |words| => Occurrence(tokens[i].id, WordTiming(words[i], assertion)))
  }

  predicate TimedOn(words: seq<Word>, tokens: seq<LyricsToken>, lineId: Id, i: nat)
    requires i < |words| == |tokens|
  {
    tokens[i].lineId == lineId && words[i].Timed?
  }

  /** The first and the last timed word of a line, or -1. */
  function FirstTimed(words: seq<Word>, tokens: seq<LyricsToken>, lineId: Id, from: nat): (i: int)
    requires |words| == |tokens| && from <= |words|
    ensures i == -1 || (from <= i < |words| && TimedOn(words, tokens, lineId, i))
    ensures forall k :: from <= k < |words| && TimedOn(words, tokens, lineId, k) ==> 0 <= i <= k
    decreases |words| - from
  {
    if from == |words| then -1
    else if TimedOn(words, tokens, lineId, from) then from
    else FirstTimed(words, tokens, lineId, from + 1)
  }

  function LastTimed(words: seq<Word>, tokens: seq<LyricsToken>, lineId: Id, to: nat): (i: int)
    requires |words| == |tokens| && to <= |words|
    ensures i == -1 || (0 <= i < to && TimedOn(words, tokens, lineId, i))
    ensures forall k :: 0 <= k < to && TimedOn(words, tokens, lineId, k) ==> k <= i
  {
    if to == 0 then -1
    else if TimedOn(words, tokens, lineId, to - 1) then to - 1
    else LastTimed(words, tokens, lineId, to - 1)
  }

  predicate FullyTimed(words: seq<Word>, tokens: seq<LyricsToken>, lineId: Id)
    requires |words| == |tokens|
  {
    forall i :: 0 <= i < |words| && tokens[i].lineId == lineId ==> words[i].Timed?
  }

  /** A line lasts from its first timed word to its last. */
  function LineTiming(words: seq<Word>, tokens: seq<LyricsToken>, lineId: Id, assertion: Assertion): Timing
    requires |words| == |tokens|
  {
    var first, last := FirstTimed(words, tokens, lineId, 0), LastTimed(words, tokens, lineId, |words|);
    if first < 0 then Unmatched("no_aligned_words")
    else
      Matched(words[first].startSample, words[last].endSample,
        if FullyTimed(words, tokens, lineId) then assertion
        else Assertion(assertion.evidence, ["uncalibrated_alignment", "partial_word_coverage"], assertion.state))
  }

  function LineTimings(words: seq<Word>, document: LyricsDocument, assertion: Assertion): (r: seq<Occurrence>)
    requires |words| == |document.tokens|
    ensures |r| == |document.lines|
    ensures forall i :: 0 <= i < |r| ==>
              r[i] == Occurrence(document.lines[i].id,
                                 LineTiming(words, document.tokens, document.lines[i].id, assertion))
  {
    seq(|document.lines|, i requires 0 <= i < |document.lines| =>
      Occurrence(document.lines[i].id, LineTiming(words, document.tokens, document.lines[i].id, assertion)))
  }

  function AlignmentFrom(words: seq<Word>, document: LyricsDocument, id: Id, revisionId: Id,
                         assertion: Assertion): LyricsAlignment
    requires |words| == |document.tokens|
  {
    LyricsAlignment(id, document.id, revisionId, WordOccurrences(words, document.tokens, assertion),
                    LineTimings(words, document, assertion), None)
  }

  /** Tokens come line by line. */
  ghost predicate LineByLine(document: LyricsDocument) {
    forall i, j :: 0 <= i < j < |document.tokens| ==>
      Find(LineIds(document.lines), document.tokens[i].lineId)
        <= Find(LineIds(document.lines), document.tokens[j].lineId)
  }

  lemma {:induction false} TokensNameTheirLines(lines: seq<LyricsLine>, text: Text, id: Id, tokenizer: Tokenizer,
                                                i: nat)
    requires i < |DocumentTokens(lines, text, id, tokenizer)|
    ensures DocumentTokens(lines, text, id, tokenizer)[i].lineId in LineIds(lines)
  {
    var init := lines[..|lines| - 1];
    assert LineIds(lines) == LineIds(init) + [lines[|lines| - 1].id];
    if i < |DocumentTokens(init, text, id, tokenizer)| {
      TokensNameTheirLines(init, text, id, tokenizer, i);
    }
  }

  lemma {:induction false} TokensComeLineByLine(lines: seq<LyricsLine>, all: seq<LyricsLine>, text: Text, id: Id,
                                                tokenizer: Tokenizer, i: nat, j: nat)
    requires lines <= all && Distinct(LineIds(all)) && i < j < |DocumentTokens(lines, text, id, tokenizer)|
    ensures var tokens := DocumentTokens(lines, text, id, tokenizer);
            Find(LineIds(all), tokens[i].lineId) <= Find(LineIds(all), tokens[j].lineId)
    decreases |lines|
  {
    var init, last := lines[..|lines| - 1], |lines| - 1;
    var before, tokens := DocumentTokens(init, text, id, tokenizer), DocumentTokens(lines, text, id, tokenizer);
    if j < |before| {
      TokensComeLineByLine(init, all, text, id, tokenizer, i, j);
    } else if i < |before| {
      TokensNameTheirLines(init, text, id, tokenizer, i);
      var k :| 0 <= k < |init| && LineIds(init)[k] == tokens[i].lineId;
      assert LineIds(all)[k] == tokens[i].lineId && LineIds(all)[last] == tokens[j].lineId;
      FindIsUnique(LineIds(all), k);
      FindIsUnique(LineIds(all), last);
    }
  }

  /** Documents made by the lyrics import come line by line. */
  lemma ImportedDocumentsComeLineByLine(text: Text, id: Id, tokenizer: Tokenizer)
    ensures LineByLine(BuiltDocument(text, id, tokenizer))
  {
    var document := BuiltDocument(text, id, tokenizer);
    LinesInOrder(text, id);
    forall i, j | 0 <= i < j < |document.tokens|
      ensures Find(LineIds(document.lines), document.tokens[i].lineId)
              <= Find(LineIds(document.lines), document.tokens[j].lineId)
    {
      TokensComeLineByLine(document.lines, document.lines, text, id, tokenizer, i, j);
    }
  }

  lemma LineTimingIsProper(words: seq<Word>, document: LyricsDocument, assertion: Assertion, duration: nat, lineId: Id)
    requires |words| == |document.tokens| && WordsInOrder(words, duration)
    ensures var timing := LineTiming(words, document.tokens, lineId, assertion);
            timing.Matched? ==> timing.startSample < timing.endSample <= duration
  {
    var first, last := FirstTimed(words, document.tokens, lineId, 0),
      LastTimed(words, document.tokens, lineId, |words|);
    assert first >= 0 ==> words[first].startSample < words[first].endSample;
    assert last >= 0 ==> words[last].startSample < words[last].endSample;
  }

  lemma LineTimingsFollow(words: seq<Word>, document: LyricsDocument, assertion: Assertion, duration: nat, a: nat,
                          b: nat)
    requires |words| == |document.tokens| && WordsInOrder(words, duration)
    requires Distinct(LineIds(document.lines)) && LineByLine(document) && a < b < |document.lines|
    ensures var left := LineTiming(words, document.tokens, document.lines[a].id, assertion);
            var right := LineTiming(words, document.tokens, document.lines[b].id, assertion);
            left.Matched? && right.Matched? ==> left.endSample <= right.startSample
  {
    var last := LastTimed(words, document.tokens, document.lines[a].id, |words|);
    var first := FirstTimed(words, document.tokens, document.lines[b].id, 0);
    assert LineIds(document.lines)[a] == document.lines[a].id && LineIds(document.lines)[b] == document.lines[b].id;
    FindIsUnique(LineIds(document.lines), a);
    FindIsUnique(LineIds(document.lines), b);
    if last >= 0 && first >= 0 {
      assert last < first;
      assert words[last].endSample <= words[first].startSample;
    }
  }

  /** Words in order make a valid alignment. */
  lemma OrderedWordsAlign(words: seq<Word>, document: LyricsDocument, id: Id, revisionId: Id, assertion: Assertion,
                          duration: nat)
    requires |words| == |document.tokens| && WordsInOrder(words, duration)
    requires Distinct(LineIds(document.lines)) && LineByLine(document)
    ensures ValidAlignment(AlignmentFrom(words, document, id, revisionId, assertion), document, duration)
  {
    var alignment := AlignmentFrom(words, document, id, revisionId, assertion);
    assert Targets(alignment.occurrences) == TokenIds(document.tokens);
    assert Targets(alignment.lineOccurrences) == LineIds(document.lines);
    forall a | 0 <= a < |document.lines|
      ensures var timing := Timings(alignment.lineOccurrences)[a];
              timing.Matched? ==> timing.startSample < timing.endSample <= duration
    {
      LineTimingIsProper(words, document, assertion, duration, document.lines[a].id);
    }
    forall a, b | 0 <= a < b < |document.lines|
      ensures var left, right := Timings(alignment.lineOccurrences)[a], Timings(alignment.lineOccurrences)[b];
              left.Matched? && right.Matched? ==> left.endSample <= right.startSample
    {
      LineTimingsFollow(words, document, assertion, duration, a, b);
    }
  }

  // ----- line by line is what it takes

  /** Only two words are timed, one right after the other. */
  function TwoTimed(count: nat, i: nat, j: nat): (words: seq<Word>)
    requires i < j < count
    ensures |words| == count && words[i] == Timed(0, 1) && words[j] == Timed(1, 2)
    ensures forall k :: 0 <= k < count && k != i && k != j ==> words[k].Untimed?
  {
    seq(count, k requires 0 <= k < count =>
        if k == i then Timed(0, 1) else if k == j then Timed(1, 2) else Untimed("oov"))
  }

  lemma TwoTimedAreInOrder(count: nat, i: nat, j: nat, duration: nat)
    requires i < j < count && duration >= 2
    ensures WordsInOrder(TwoTimed(count, i, j), duration)
  {
  }

  ghost predicate TokensKnowTheirLines(document: LyricsDocument) {
    forall token :: token in document.tokens ==> token.lineId in LineIds(document.lines)
  }

  /** A token behind one of a later line: timing just these two puts the lines in the wrong order. */
  lemma MisplacedTokensFail(document: LyricsDocument, id: Id, revisionId: Id, assertion: Assertion, duration: nat,
                            i: nat, j: nat)
    requires TokensKnowTheirLines(document) && i < j < |document.tokens|
    requires Find(LineIds(document.lines), document.tokens[i].lineId)
             > Find(LineIds(document.lines), document.tokens[j].lineId)
    ensures !ValidAlignment(AlignmentFrom(TwoTimed(|document.tokens|, i, j), document, id, revisionId, assertion),
                            document, duration)
  {
    var words, lines := TwoTimed(|document.tokens|, i, j), LineIds(document.lines);
    var a, b := Find(lines, document.tokens[j].lineId), Find(lines, document.tokens[i].lineId);
    assert document.tokens[j] in document.tokens && a >= 0;
    LineOfOne(words, document, assertion, a, j, 1);
    LineOfOne(words, document, assertion, b, i, 0);
    var timings := Timings(AlignmentFrom(words, document, id, revisionId, assertion).lineOccurrences);
    assert timings[a].endSample == 2 && timings[b].startSample == 0;
  }

  lemma LineOfOne(words: seq<Word>, document: LyricsDocument, assertion: Assertion, line: nat, i: nat, start: nat)
    requires |words| == |document.tokens| && line < |document.lines| && i < |words|
    requires words[i] == Timed(start, start + 1)
    requires forall k :: 0 <= k < |words| ==> (TimedOn(words, document.tokens, document.lines[line].id, k) <==> k == i)
    ensures var timing := LineTiming(words, document.tokens, document.lines[line].id, assertion);
            timing.Matched? && timing.startSample == start && timing.endSample == start + 1
  {
    var first := FirstTimed(words, document.tokens, document.lines[line].id, 0);
    var last := LastTimed(words, document.tokens, document.lines[line].id, |words|);
    assert TimedOn(words, document.tokens, document.lines[line].id, i);
    assert first == i == last;
  }

  /** Whatever words are timed in order, the alignment made of them is valid. */
  ghost predicate AnyOrderedWordsAlign(document: LyricsDocument, id: Id, revisionId: Id, assertion: Assertion,
                                       duration: nat) {
    forall words :: |words| == |document.tokens| && WordsInOrder(words, duration) ==>
      ValidAlignment(AlignmentFrom(words, document, id, revisionId, assertion), document, duration)
  }

  lemma CrossedLinesFail(document: LyricsDocument, id: Id, revisionId: Id, assertion: Assertion, duration: nat)
    requires TokensKnowTheirLines(document) && duration >= 2 && !LineByLine(document)
    ensures !AnyOrderedWordsAlign(document, id, revisionId, assertion, duration)
  {
    var i: nat, j: nat :| i < j < |document.tokens|
      && Find(LineIds(document.lines), document.tokens[i].lineId)
           > Find(LineIds(document.lines), document.tokens[j].lineId);
    MisplacedTokensFail(document, id, revisionId, assertion, duration, i, j);
    TwoTimedAreInOrder(|document.tokens|, i, j, duration);
  }

  /** That holds exactly when the tokens come line by line. */
  lemma OrderedWordsAlignExactlyLineByLine(document: LyricsDocument, id: Id, revisionId: Id, assertion: Assertion,
                                           duration: nat)
    requires Distinct(LineIds(document.lines)) && TokensKnowTheirLines(document) && duration >= 2
    ensures AnyOrderedWordsAlign(document, id, revisionId, assertion, duration) <==> LineByLine(document)
  {
    if LineByLine(document) {
      forall words | |words| == |document.tokens| && WordsInOrder(words, duration)
        ensures ValidAlignment(AlignmentFrom(words, document, id, revisionId, assertion), document, duration)
      {
        OrderedWordsAlign(words, document, id, revisionId, assertion, duration);
      }
    } else {
      CrossedLinesFail(document, id, revisionId, assertion, duration);
    }
  }

  /** Two lines of one letter; the first token claims the second line. */
  const CrossedLines: LyricsDocument := LyricsDocument("document", [97, 98],
    [LyricsLine("line 1", 0, 1), LyricsLine("line 2", 1, 2)],
    [LyricsToken("token 1", "line 2", [97], 0, 1), LyricsToken("token 2", "line 1", [98], 1, 2)])

  /** The document rules do not ask for it. */
  lemma ValidDocumentsMayCrossLines()
    ensures ValidDocument(CrossedLines) && !LineByLine(CrossedLines)
  {
    assert CrossedLines.text[0..1] == [97] && CrossedLines.text[1..2] == [98];
    assert LineIds(CrossedLines.lines)[0] == "line 1" && LineIds(CrossedLines.lines)[1] == "line 2";
    FindIsUnique(LineIds(CrossedLines.lines), 0);
    FindIsUnique(LineIds(CrossedLines.lines), 1);
    assert CrossedLines.tokens[0].lineId == "line 2" && CrossedLines.tokens[1].lineId == "line 1";
  }

  // ----- end to end

  /** Nothing lies beyond the last token, whether or not the anchors are any good. */
  lemma {:induction false} CutsStayInside(ordered: seq<LyricsAnchor>, document: LyricsDocument)
    requires CutAll(ordered, document).Ok?
    ensures forall window :: window in CutAll(ordered, document).value.windows ==> window.last <= |document.tokens|
  {
    if ordered != [] {
      CutsStayInside(ordered[..|ordered| - 1], document);
      assert FirstPosition(ordered[|ordered| - 1], document) < |TokenIds(document.tokens)|;
    }
  }

  lemma WindowsStayInside(anchors: seq<LyricsAnchor>, document: LyricsDocument, duration: nat)
    requires WindowsOf(anchors, document, duration).Ok?
    ensures forall window :: window in WindowsOf(anchors, document, duration).value ==> window.last <= |document.tokens|
  {
    CutsStayInside(SortBy(anchors, PositionKey(document)), document);
  }

  /** The whole worker: windows, alignment, words. */
  function Aligned(anchors: seq<LyricsAnchor>, document: LyricsDocument, duration: nat, sampleRate: nat,
                   eligible: seq<bool>, reasons: seq<string>, engine: Engine, rounding: Rounding): Result<seq<Word>>
    requires |eligible| == |reasons| == |document.tokens|
  {
    var windows := WindowsOf(anchors, document, duration);
    if windows.Err? then Err
    else
      WindowsStayInside(anchors, document, duration);
      Ok(WordsOf(reasons, AlignAll(windows.value, |windows.value|, eligible, engine, sampleRate), sampleRate, rounding))
  }

  /** One entry for every token; the timed ones in order and inside the project, and no anchor violated. */
  ghost predicate ProperOutput(words: seq<Word>, anchors: seq<LyricsAnchor>, document: LyricsDocument, duration: nat) {
    && |words| == |document.tokens| && WordsInOrder(words, duration)
    && forall anchor :: anchor in anchors ==> AnchorRespected(words, anchor, document)
  }

  /** Whatever anchors the worker gets through without a conflict, its output is proper. */
  lemma AlignedIsProper(anchors: seq<LyricsAnchor>, document: LyricsDocument, duration: nat, sampleRate: nat,
                        eligible: seq<bool>, reasons: seq<string>, engine: Engine, rounding: Rounding)
    requires |eligible| == |reasons| == |document.tokens| && ProperEngine(engine) && Monotone(rounding)
    requires WindowsOf(anchors, document, duration).Ok?
             && forall anchor :: anchor in anchors ==> anchor.endSample <= duration
    ensures ProperOutput(Aligned(anchors, document, duration, sampleRate, eligible, reasons, engine, rounding).value,
                         anchors, document, duration)
  {
    var windows := WindowsOf(anchors, document, duration).value;
    WindowsTile(anchors, document, duration);
    WindowsStayInside(anchors, document, duration);
    var words := Aligned(anchors, document, duration, sampleRate, eligible, reasons, engine, rounding).value;
    forall anchor | anchor in anchors
      ensures AnchorRespected(words, anchor, document)
    {
      FramedAnchorIsRespected(windows, eligible, reasons, engine, sampleRate, rounding, duration, anchor, document);
    }
    OutputIsInOrder(windows, eligible, reasons, engine, sampleRate, rounding, duration);
  }

  /**
   Fails exactly for anchors in conflict. With a proper aligner and anchors inside the project, what comes out
   otherwise is in order and violates no anchor.
  */
  method Align(anchors: seq<LyricsAnchor>, document: LyricsDocument, duration: nat, sampleRate: nat,
               eligible: seq<bool>, reasons: seq<string>, engine: Engine, rounding: Rounding)
    returns (r: Result<seq<Word>>)
    requires |eligible| == |reasons| == |document.tokens|
    ensures r == Aligned(anchors, document, duration, sampleRate, eligible, reasons, engine, rounding)
    ensures (forall anchor :: anchor in anchors ==> anchor.lyricsDocumentId == document.id) ==>
              (r.Ok? <==>
                 (forall anchor :: anchor in anchors ==> ProperIn(anchor, document)) && Apart(anchors, document))
    ensures r.Ok? && ProperEngine(engine) && Monotone(rounding)
            && (forall anchor :: anchor in anchors ==> anchor.endSample <= duration) ==>
              ProperOutput(r.value, anchors, document, duration)
  {
    if forall anchor :: anchor in anchors ==> anchor.lyricsDocumentId == document.id {
      ConflictsAgree(anchors, document, duration);
    }
    var windows := CutWindows(anchors, document, duration);
    if windows.Err? {
      return Err;
    }
    WindowsStayInside(anchors, document, duration);
    var placements := AlignWindows(windows.value, eligible, engine, sampleRate);
    var words := EmitWords(reasons, placements, sampleRate, rounding);
    r := Ok(words);
    if ProperEngine(engine) && Monotone(rounding)
      && forall anchor :: anchor in anchors ==> anchor.endSample <= duration {
      AlignedIsProper(anchors, document, duration, sampleRate, eligible, reasons, engine, rounding);
    }
  }

  /** Output for anchors the validator accepts passes the anchor check and makes a valid alignment. */
  lemma AcceptedAnchorsAlign(anchors: seq<LyricsAnchor>, document: LyricsDocument, documents: seq<LyricsDocument>,
                             revisionId: Id, duration: nat, sampleRate: nat, eligible: seq<bool>, reasons: seq<string>,
                             engine: Engine, rounding: Rounding, id: Id, assertion: Assertion)
    requires Accepted(anchors, document, documents, revisionId, duration) && ValidDocument(document)
             && LineByLine(document)
    requires |eligible| == |reasons| == |document.tokens| && ProperEngine(engine) && Monotone(rounding)
    ensures var words := Aligned(anchors, document, duration, sampleRate, eligible, reasons, engine, rounding);
            && words.Ok? && ProperOutput(words.value, anchors, document, duration)
            && ValidAlignment(AlignmentFrom(words.value, document, id, revisionId, assertion), document, duration)
  {
    AcceptedAnchorsTile(anchors, document, documents, revisionId, duration);
    AcceptedAnchorsAreProper(anchors, document, documents, revisionId, duration);
    AlignedIsProper(anchors, document, duration, sampleRate, eligible, reasons, engine, rounding);
    var words := Aligned(anchors, document, duration, sampleRate, eligible, reasons, engine, rounding).value;
    OrderedWordsAlign(words, document, id, revisionId, assertion, duration);
  }

  /**
   The anchors a recipe is made of: those the user sees, as
   far as they belong to the document and revision to align.
  */
  ghost function RecipeAnchors(project: Project, documentId: Id, revisionId: Id): seq<LyricsAnchor>
    requires ValidProject(project)
  {
    WellFoundedLayers(project);
    Filter(ResolvedAnchors(project), (anchor: LyricsAnchor) =>
      anchor.lyricsDocumentId == documentId && anchor.analysisRevisionId == revisionId)
  }

  lemma WellFoundedLayers(project: Project)
    requires ValidProject(project)
    ensures forall layer :: layer in project.editLayers ==> WellFounded(layer.transactions)
  {
    assert forall layer :: layer in project.editLayers ==> ValidLayer(layer, project);
  }

  /** What a reader sees at any position of an accepted project is valid. */
  lemma ResolvedAnchorsAreValid(project: Project) returns (revisionId: Id)
    requires ValidProject(project)
    ensures forall layer :: layer in project.editLayers ==> WellFounded(layer.transactions)
    ensures ValidAnchors(ResolvedAnchors(project), project.lyricsDocuments, revisionId, project.durationSamples)
  {
    WellFoundedLayers(project);
    revisionId := "";
    if ResolvedAnchors(project) != [] {
      var view := project.activeView.value;
      var layer := project.editLayers[Find(LayerIds(project.editLayers), view.editLayerId)];
      assert ValidLayer(layer, project);
      assert ValidAnchorsAt(layer, view.editHistoryPosition, project.lyricsDocuments, project.durationSamples);
      revisionId := layer.analysisRevisionId;
      SelectionStaysValid(AnchorsAt(layer.transactions, view.editHistoryPosition), (anchor: LyricsAnchor) =>
        Some(anchor.lyricsDocumentId) == view.lyricsDocumentId && anchor.analysisRevisionId == view.analysisRevisionId,
        project.lyricsDocuments, layer.analysisRevisionId, project.durationSamples);
    }
  }

  /** The anchors of a recipe are accepted for the document they are to align. */
  lemma RecipeAnchorsAreAccepted(project: Project, document: LyricsDocument, revisionId: Id)
    requires ValidProject(project) && document in project.lyricsDocuments
    ensures Accepted(RecipeAnchors(project, document.id, revisionId), document, project.lyricsDocuments, revisionId,
                     project.durationSamples)
  {
    var seen := ResolvedAnchorsAreValid(project);
    var chosen := (anchor: LyricsAnchor) => anchor.lyricsDocumentId == document.id
      && anchor.analysisRevisionId == revisionId;
    SelectionStaysValid(ResolvedAnchors(project), chosen, project.lyricsDocuments, seen, project.durationSamples);
    FilterKeeps(ResolvedAnchors(project), chosen);
    OneRevisionIsEnough(RecipeAnchors(project, document.id, revisionId), project.lyricsDocuments, seen, revisionId,
                        project.durationSamples);
  }

  lemma OneRevisionIsEnough(anchors: seq<LyricsAnchor>, documents: seq<LyricsDocument>, seen: Id, revisionId: Id,
                            duration: nat)
    requires ValidAnchors(anchors, documents, seen, duration)
    requires forall anchor :: anchor in anchors ==> anchor.analysisRevisionId == revisionId
    ensures ValidAnchors(anchors, documents, revisionId, duration)
  {
    forall anchor | anchor in anchors
      ensures InScope(anchor, documents, revisionId, duration)
    {
      assert InScope(anchor, documents, seen, duration);
    }
  }
}
