/** Over which word of a lyric line each chord stands, said of the tokens of the document and their timings alone. */
module ChordsOverWords {
  import opened Wrappers
  import opened Sequences
  import opened Schema
  import opened ProjectRules
  import opened LeadSheetRows

  // ----- the word a chord stands over

  /** The token is timed, and starts no later than a sample. */
  ghost predicate StartsBy(token: LyricsToken, alignment: LyricsAlignment, at: nat) {
    exists occurrence :: occurrence in alignment.occurrences && occurrence.target == token.id
      && occurrence.timing.Matched? && occurrence.timing.startSample <= at
  }

  ghost predicate InLine(document: LyricsDocument, line: LyricsLine, m: nat) {
    m < |document.tokens| && document.tokens[m].lineId == line.id
  }

  /** The last word of a line to have started by a sample. */
  ghost predicate LastStarted(document: LyricsDocument, alignment: LyricsAlignment, line: LyricsLine, at: nat, m: nat) {
    && InLine(document, line, m) && StartsBy(document.tokens[m], alignment, at)
    && forall l :: m < l < |document.tokens| && InLine(document, line, l) ==>
         !StartsBy(document.tokens[l], alignment, at)
  }

  ghost predicate NoneStarted(document: LyricsDocument, alignment: LyricsAlignment, line: LyricsLine, at: nat) {
    forall m: nat :: InLine(document, line, m) ==> !StartsBy(document.tokens[m], alignment, at)
  }

  ghost predicate FirstOfLine(document: LyricsDocument, line: LyricsLine, m: nat) {
    InLine(document, line, m) && forall l :: 0 <= l < m ==> !InLine(document, line, l)
  }

  function OffsetIn(token: LyricsToken, line: LyricsLine): nat {
    if token.startOffset < line.startOffset then 0 else token.startOffset - line.startOffset
  }

  /** Over the last word to have started; before that over the first; and at the start of a line without words. */
  ghost predicate StandsOver(document: LyricsDocument, alignment: LyricsAlignment, line: LyricsLine, at: nat,
                             offset: nat)
  {
    && (forall m: nat :: LastStarted(document, alignment, line, at, m) ==> offset == OffsetIn(document.tokens[m], line))
    && (NoneStarted(document, alignment, line, at) ==>
          forall m: nat :: FirstOfLine(document, line, m) ==> offset == OffsetIn(document.tokens[m], line))
    && ((forall m: nat :: !InLine(document, line, m)) ==> offset == 0)
  }

  lemma StartedMeans(token: LyricsToken, alignment: LyricsAlignment, at: nat)
    requires Distinct(Targets(alignment.occurrences))
    ensures StartedBy(token, alignment.occurrences, at) <==> StartsBy(token, alignment, at)
  {
    var targets := Targets(alignment.occurrences);
    var index := Find(targets, token.id);
    if index >= 0 {
      assert alignment.occurrences[index] in alignment.occurrences && alignment.occurrences[index].target == token.id;
    }
    if occurrence :| occurrence in alignment.occurrences && occurrence.target == token.id {
      var k :| 0 <= k < |alignment.occurrences| && alignment.occurrences[k] == occurrence;
      FindIsUnique(targets, k);
      assert targets[k] == token.id;
    }
    if StartsBy(token, alignment, at) {
      var occurrence :| occurrence in alignment.occurrences && occurrence.target == token.id
        && occurrence.timing.Matched? && occurrence.timing.startSample <= at;
      var k :| 0 <= k < |alignment.occurrences| && alignment.occurrences[k] == occurrence;
      FindIsUnique(targets, k);
      assert targets[k] == token.id;
    }
  }

  lemma {:induction false} LastStartedIsCounted(tokens: seq<LyricsToken>, lineId: Id, occurrences: seq<Occurrence>,
                                                at: nat, m: nat)
    requires m < |tokens| && tokens[m].lineId == lineId && StartedBy(tokens[m], occurrences, at)
    requires forall l :: m < l < |tokens| && tokens[l].lineId == lineId ==> !StartedBy(tokens[l], occurrences, at)
    ensures var own := LineTokens(tokens, lineId);
            var count := StartedCount(own, occurrences, at);
            count > 0 && own[count - 1] == tokens[m]
  {
    var init, last := tokens[..|tokens| - 1], tokens[|tokens| - 1];
    var own := LineTokens(init, lineId);
    if m < |init| {
      LastStartedIsCounted(init, lineId, occurrences, at, m);
      if last.lineId == lineId {
        assert (own + [last])[..|own|] == own;
      } else {
        assert own + [] == own;
      }
    }
  }

  lemma {:induction false} NoneIsCounted(tokens: seq<LyricsToken>, occurrences: seq<Occurrence>, at: nat)
    requires forall token :: token in tokens ==> !StartedBy(token, occurrences, at)
    ensures StartedCount(tokens, occurrences, at) == 0
  {
    if tokens != [] {
      NoneIsCounted(tokens[..|tokens| - 1], occurrences, at);
    }
  }

  lemma {:induction false} FirstStaysFirst(tokens: seq<LyricsToken>, lineId: Id, m: nat)
    requires m < |tokens| && tokens[m].lineId == lineId && forall l :: 0 <= l < m ==> tokens[l].lineId != lineId
    ensures LineTokens(tokens, lineId) != [] && LineTokens(tokens, lineId)[0] == tokens[m]
  {
    var init := tokens[..|tokens| - 1];
    if m < |init| {
      FirstStaysFirst(init, lineId, m);
    } else {
      NoTokensOfLine(init, lineId);
    }
  }

  lemma {:induction false} NoTokensOfLine(tokens: seq<LyricsToken>, lineId: Id)
    requires forall token :: token in tokens ==> token.lineId != lineId
    ensures LineTokens(tokens, lineId) == []
  {
    if tokens != [] {
      NoTokensOfLine(tokens[..|tokens| - 1], lineId);
    }
  }

  lemma OwnOffsetStandsOver(chord: TimedChord, lyrics: Lyrics, line: LyricsLine)
    requires Distinct(Targets(lyrics.alignment.occurrences))
    ensures var tokens := LineTokens(lyrics.document.tokens, line.id);
            StandsOver(lyrics.document, lyrics.alignment, line, chord.startSample,
                       OwnOffset(chord, tokens, lyrics.alignment.occurrences, line.startOffset))
  {
    var document, alignment, at := lyrics.document, lyrics.alignment, chord.startSample;
    var tokens := LineTokens(document.tokens, line.id);
    var offset := OwnOffset(chord, tokens, alignment.occurrences, line.startOffset);
    forall m: nat | LastStarted(document, alignment, line, at, m)
      ensures offset == OffsetIn(document.tokens[m], line)
    {
      OverLastStarted(document, alignment, line, at, m);
    }
    if NoneStarted(document, alignment, line, at) {
      OverFirst(document, alignment, line, at);
    }
    if forall m: nat :: !InLine(document, line, m) {
      forall token | token in document.tokens
        ensures token.lineId != line.id
      {
        var m :| 0 <= m < |document.tokens| && document.tokens[m] == token;
        assert !InLine(document, line, m);
      }
      NoTokensOfLine(document.tokens, line.id);
    }
  }

  lemma OverLastStarted(document: LyricsDocument, alignment: LyricsAlignment, line: LyricsLine, at: nat, m: nat)
    requires Distinct(Targets(alignment.occurrences)) && LastStarted(document, alignment, line, at, m)
    ensures var own := LineTokens(document.tokens, line.id);
            var count := StartedCount(own, alignment.occurrences, at);
            count > 0 && own[count - 1] == document.tokens[m]
  {
    StartedMeans(document.tokens[m], alignment, at);
    forall l | m < l < |document.tokens| && document.tokens[l].lineId == line.id
      ensures !StartedBy(document.tokens[l], alignment.occurrences, at)
    {
      assert InLine(document, line, l);
      StartedMeans(document.tokens[l], alignment, at);
    }
    LastStartedIsCounted(document.tokens, line.id, alignment.occurrences, at, m);
  }

  lemma OverFirst(document: LyricsDocument, alignment: LyricsAlignment, line: LyricsLine, at: nat)
    requires Distinct(Targets(alignment.occurrences)) && NoneStarted(document, alignment, line, at)
    ensures StartedCount(LineTokens(document.tokens, line.id), alignment.occurrences, at) == 0
    ensures forall m: nat :: FirstOfLine(document, line, m) ==>
              LineTokens(document.tokens, line.id) != []
              && LineTokens(document.tokens, line.id)[0] == document.tokens[m]
  {
    var own := LineTokens(document.tokens, line.id);
    forall token | token in own
      ensures !StartedBy(token, alignment.occurrences, at)
    {
      LineTokensAreTokens(document.tokens, line.id, token);
      var m :| 0 <= m < |document.tokens| && document.tokens[m] == token;
      assert InLine(document, line, m);
      StartedMeans(token, alignment, at);
    }
    NoneIsCounted(own, alignment.occurrences, at);
    forall m: nat | FirstOfLine(document, line, m)
      ensures own != [] && own[0] == document.tokens[m]
    {
      forall l: nat | l < m
        ensures document.tokens[l].lineId != line.id
      {
        assert !InLine(document, line, l);
      }
      FirstStaysFirst(document.tokens, line.id, m);
    }
  }

  // ----- where its segment begins

  lemma {:induction false} BeforeChordSegment(text: Text, anchors: seq<Anchored>, k: nat)
    requires LeftToRight(anchors) && k < |anchors|
    ensures |ChordSegments(text, anchors)| == |anchors|
    ensures ChordSegments(text, anchors)[k].chord == Some(anchors[k].cell)
    ensures SegmentText(ChordSegments(text, anchors)[..k]) == Slice(text, anchors[0].offset, anchors[k].offset)
    ensures SegmentChords(ChordSegments(text, anchors)[..k]) == AnchoredCells(anchors)[..k]
    decreases |anchors|
  {
    var segments, rest := ChordSegments(text, anchors), anchors[1..];
    if rest != [] {
      assert LeftToRight(rest);
      BeforeChordSegment(text, rest, if k == 0 then 0 else k - 1);
    }
    if k > 0 {
      var tail := ChordSegments(text, rest);
      assert segments[..k] == [segments[0]] + tail[..k - 1];
      assert ([segments[0]] + tail[..k - 1])[1..] == tail[..k - 1];
      SlicesJoin(text, anchors[0].offset, rest[0].offset, anchors[k].offset);
      assert AnchoredCells(anchors)[..k] == [anchors[0].cell] + AnchoredCells(rest)[..k - 1];
    }
  }

  lemma SlicesJoin(text: Text, from: nat, middle: nat, to: nat)
    requires from <= middle <= to
    ensures Slice(text, from, middle) + Slice(text, middle, to) == Slice(text, from, to)
  {
  }

  /** The segment of a chord comes behind those of the chords before it, and behind the text up to its offset. */
  lemma BeforeSegment(text: Text, anchors: seq<Anchored>, k: nat) returns (j: nat)
    requires LeftToRight(anchors) && k < |anchors|
    ensures j < |Segments(text, anchors)| && Segments(text, anchors)[j].chord == Some(anchors[k].cell)
    ensures SegmentText(Segments(text, anchors)[..j]) == Slice(text, 0, anchors[k].offset)
    ensures SegmentChords(Segments(text, anchors)[..j]) == AnchoredCells(anchors)[..k]
  {
    var segments, tail := Segments(text, anchors), ChordSegments(text, anchors);
    BeforeChordSegment(text, anchors, k);
    if anchors[0].offset > 0 {
      j := k + 1;
      var lead := LyricSegment(None, Slice(text, 0, anchors[0].offset));
      assert segments == [lead] + tail && segments[..j] == [lead] + tail[..k];
      assert ([lead] + tail[..k])[1..] == tail[..k];
      SlicesJoin(text, 0, anchors[0].offset, anchors[k].offset);
      assert [] + SegmentChords(tail[..k]) == SegmentChords(tail[..k]);
    } else {
      j := k;
      assert segments == tail;
    }
  }

  /**
   In the row of a line, the segment of every chord comes behind the
   chords before it and the text up to the word it stands over.
  */
  lemma ChordStandsOverItsWord(line: TimedLine, chords: seq<TimedChord>, lyrics: Lyrics, k: nat)
    returns (j: nat, offset: nat)
    requires ValidDocument(lyrics.document) && Distinct(Targets(lyrics.alignment.occurrences))
    requires StrictlySortedBy(chords, ChordAt) && k < |chords|
    ensures StandsOver(lyrics.document, lyrics.alignment, line.record, chords[k].startSample, offset)
    ensures var row := RowOf(line, chords, lyrics);
            && row.LyricRow? && j < |row.segments| && row.segments[j].chord == Some(chords[k].cell)
            && SegmentChords(row.segments[..j]) == Cells(chords)[..k]
            && SegmentText(row.segments[..j]) == Slice(LineText(lyrics.document, line.record), 0, offset)
  {
    var tokens := LineTokens(lyrics.document.tokens, line.record.id);
    var anchors := Anchor(chords, tokens, lyrics.alignment.occurrences, line.record.startOffset);
    AnchorsGoLeftToRight(chords, tokens, lyrics.alignment.occurrences, line.record.startOffset);
    RowChordsStandOverTheirWords(line, chords, lyrics, k);
    OwnOffsetStandsOver(chords[k], lyrics, line.record);
    offset := OwnOffset(chords[k], tokens, lyrics.alignment.occurrences, line.record.startOffset);
    j := BeforeSegment(LineText(lyrics.document, line.record), anchors, k);
  }
}
