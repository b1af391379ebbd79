/** What goes on a lead sheet, in order: chords, bars, timed lines, and the lines without a time of their own. */
module LeadSheetTracks {
  import opened Wrappers
  import opened Sequences
  import opened Schema
  import opened Invariants
  import opened ProjectRules
  import opened TimeOrder
  import opened LeadSheetRows
  import opened LeadSheetLayout

  // ----- chords

  datatype Presented = Presented(symbol: string, spoken: string)

  function CellFor(event: ChordEvent, presented: Presented): ChordCell {
    if event.assertion.state == Abstained then ChordCell("?", "unknown chord", Abstained)
    else ChordCell(presented.symbol, presented.spoken, event.assertion.state)
  }

  function TimedChords(events: seq<ChordEvent>, presented: map<Id, Presented>): (r: seq<TimedChord>)
    requires forall event :: event in events ==> event.id in presented
    ensures |r| == |events|
    ensures forall i :: 0 <= i < |r| ==>
              r[i] == TimedChord(events[i].startSample, CellFor(events[i], presented[events[i].id]))
  {
    seq(|events|, i requires 0 <= i < |events| =>
      TimedChord(events[i].startSample, CellFor(events[i], presented[events[i].id])))
  }

  lemma ChordsAreSorted(timeline: Timeline, presented: map<Id, Presented>, duration: nat)
    requires ValidTimeline(timeline, duration)
             && forall event :: event in timeline.chordEvents ==> event.id in presented
    ensures var chords := TimedChords(timeline.chordEvents, presented);
      StrictlySortedBy(chords, ChordAt) && forall chord :: chord in chords ==> chord.startSample < duration
  {
    var spans := Map(ChordSpan, timeline.chordEvents);
    var chords := TimedChords(timeline.chordEvents, presented);
    TilesAreSorted(spans, duration);
    forall i, j | 0 <= i < j < |chords|
      ensures ChordAt(chords[i]) < ChordAt(chords[j])
    {
      assert StartOf(spans[i]) < StartOf(spans[j]);
    }
    forall chord | chord in chords
      ensures chord.startSample < duration
    {
      var i :| 0 <= i < |chords| && chords[i] == chord;
      TileEndsInside(spans, duration, i);
    }
  }

  lemma TileEndsInside(track: seq<Interval>, duration: nat, i: nat)
    requires Tiles(track, duration) && i < |track|
    ensures track[i].startSample < track[i].endSample <= duration
  {
    if i < |track| - 1 {
      TileStartsIncrease(track, duration, i, |track| - 1);
    }
  }

  // ----- bars

  lemma TimelineBarsInOrder(timeline: Timeline, duration: nat)
    requires ValidTimeline(timeline, duration) && forall bar :: bar in timeline.bars ==> bar.beats != []
    ensures BarsInOrder(timeline.bars)
  {
    forall i | 0 <= i < |timeline.bars|
      ensures timeline.bars[i].startSample < timeline.bars[i].endSample
    {
      BarsAreNotEmpty(timeline, duration, i);
    }
    forall i, j | 0 <= i < j < |timeline.bars|
      ensures timeline.bars[i].endSample <= timeline.bars[j].startSample
    {
      BarsAreDisjoint(timeline, duration, i, j);
    }
  }

  lemma {:induction false} BarsWithinInOrder(bars: seq<Bar>, lo: int, hi: int)
    requires BarsInOrder(bars)
    ensures BarsInOrder(Within(bars, BarAt, lo, hi))
  {
    if bars != [] {
      var init := bars[..|bars| - 1];
      BarsWithinInOrder(init, lo, hi);
      var before := Within(init, BarAt, lo, hi);
      forall i | 0 <= i < |before|
        ensures before[i].endSample <= bars[|bars| - 1].startSample
      {
        WithinKeeps(init, BarAt, lo, hi, before[i]);
        var k :| 0 <= k < |init| && init[k] == before[i];
        assert bars[k] == before[i];
      }
    }
  }

  // ----- timed lines

  /** The lines with a matched timing, in document order. */
  function TimedLines(lines: seq<LyricsLine>, occurrences: seq<Occurrence>): seq<TimedLine> {
    if lines == [] then []
    else
      var line := lines[|lines| - 1];
      var timing := TimingFor(occurrences, line.id);
      TimedLines(lines[..|lines| - 1], occurrences)
      + if timing.Some? && timing.value.Matched?
        then [TimedLine(line, timing.value.startSample, timing.value.endSample)] else []
  }

  lemma {:induction false} NoTimesNoLines(lines: seq<LyricsLine>)
    ensures TimedLines(lines, []) == []
  {
    if lines != [] {
      NoTimesNoLines(lines[..|lines| - 1]);
    }
  }

  lemma {:induction false} TimedLineIsALine(lines: seq<LyricsLine>, occurrences: seq<Occurrence>, line: TimedLine)
    returns (i: nat)
    requires line in TimedLines(lines, occurrences)
    ensures i < |lines| && line.record == lines[i]
    ensures var timing := TimingFor(occurrences, lines[i].id);
            timing.Some? && timing.value.Matched?
            && timing.value.startSample == line.startSample && timing.value.endSample == line.endSample
  {
    if line in TimedLines(lines[..|lines| - 1], occurrences) {
      i := TimedLineIsALine(lines[..|lines| - 1], occurrences, line);
    } else {
      i := |lines| - 1;
    }
  }

  lemma TimingOfLine(lyrics: Lyrics, duration: nat, i: nat)
    requires ValidDocument(lyrics.document) && ValidAlignment(lyrics.alignment, lyrics.document, duration)
    requires i < |lyrics.document.lines|
    ensures i < |lyrics.alignment.lineOccurrences|
    ensures TimingFor(lyrics.alignment.lineOccurrences, lyrics.document.lines[i].id)
            == Some(Timings(lyrics.alignment.lineOccurrences)[i])
  {
    assert LineIds(lyrics.document.lines)[i] == lyrics.document.lines[i].id;
    FindIsUnique(Targets(lyrics.alignment.lineOccurrences), i);
  }

  lemma {:induction false} TimedLinesInOrder(lyrics: Lyrics, duration: nat, n: nat)
    requires ValidDocument(lyrics.document) && ValidAlignment(lyrics.alignment, lyrics.document, duration)
    requires n <= |lyrics.document.lines|
    ensures LinesInOrder(TimedLines(lyrics.document.lines[..n], lyrics.alignment.lineOccurrences))
  {
    if n > 0 {
      var lines, occurrences := lyrics.document.lines, lyrics.alignment.lineOccurrences;
      assert lines[..n][..n - 1] == lines[..n - 1];
      TimedLinesInOrder(lyrics, duration, n - 1);
      TimingOfLine(lyrics, duration, n - 1);
      NextTimedLine(lyrics, duration, n - 1);
    }
  }

  lemma NextTimedLine(lyrics: Lyrics, duration: nat, n: nat)
    requires ValidDocument(lyrics.document) && ValidAlignment(lyrics.alignment, lyrics.document, duration)
    requires n < |lyrics.document.lines| && n < |lyrics.alignment.lineOccurrences|
    requires LinesInOrder(TimedLines(lyrics.document.lines[..n], lyrics.alignment.lineOccurrences))
    ensures var timing := Timings(lyrics.alignment.lineOccurrences)[n];
            timing.Matched? ==>
              LinesInOrder(TimedLines(lyrics.document.lines[..n], lyrics.alignment.lineOccurrences)
                           + [TimedLine(lyrics.document.lines[n], timing.startSample, timing.endSample)])
  {
    var before, timing := TimedLines(lyrics.document.lines[..n], lyrics.alignment.lineOccurrences),
      Timings(lyrics.alignment.lineOccurrences)[n];
    if timing.Matched? {
      forall line | line in before
        ensures line.endSample <= timing.startSample && line.record.id != lyrics.document.lines[n].id
      {
        EarlierLine(lyrics, duration, n, line);
      }
      LinesSnoc(before, TimedLine(lyrics.document.lines[n], timing.startSample, timing.endSample));
    }
  }

  lemma LinesSnoc(lines: seq<TimedLine>, line: TimedLine)
    requires LinesInOrder(lines) && line.startSample < line.endSample
    requires forall earlier :: earlier in lines ==>
               earlier.endSample <= line.startSample && earlier.record.id != line.record.id
    ensures LinesInOrder(lines + [line])
  {
  }

  lemma EarlierLine(lyrics: Lyrics, duration: nat, n: nat, line: TimedLine)
    requires ValidDocument(lyrics.document) && ValidAlignment(lyrics.alignment, lyrics.document, duration)
    requires n < |lyrics.document.lines|
    requires line in TimedLines(lyrics.document.lines[..n], lyrics.alignment.lineOccurrences)
    ensures n < |lyrics.alignment.lineOccurrences|
    ensures var timing := Timings(lyrics.alignment.lineOccurrences)[n];
            timing.Matched? ==> line.endSample <= timing.startSample
    ensures line.record.id != lyrics.document.lines[n].id
  {
    TimingOfLine(lyrics, duration, n);
    var i := TimedLineIsALine(lyrics.document.lines[..n], lyrics.alignment.lineOccurrences, line);
    TimingOfLine(lyrics, duration, i);
    assert LineIds(lyrics.document.lines)[i] != LineIds(lyrics.document.lines)[n];
  }

  lemma {:induction false} LinesWithinInOrder(lines: seq<TimedLine>, lo: int, hi: int)
    requires LinesInOrder(lines)
    ensures LinesInOrder(Within(lines, LineAt, lo, hi))
  {
    if lines != [] {
      var init := lines[..|lines| - 1];
      LinesWithinInOrder(init, lo, hi);
      var before, last := Within(init, LineAt, lo, hi), lines[|lines| - 1];
      forall line | line in before
        ensures line.endSample <= last.startSample && line.record.id != last.record.id
      {
        WithinKeeps(init, LineAt, lo, hi, line);
        var k :| 0 <= k < |init| && init[k] == line;
        assert lines[k] == line;
      }
      LinesSnoc(before, last);
    }
  }

  lemma LinesAreSorted(lines: seq<TimedLine>)
    requires LinesInOrder(lines)
    ensures StrictlySortedBy(lines, LineAt)
  {
    forall i, j | 0 <= i < j < |lines|
      ensures LineAt(lines[i]) < LineAt(lines[j])
    {
      assert lines[i].startSample < lines[i].endSample;
    }
  }

  // ----- lines without a time

  /** Unmatched lines listed under the matched line before them, or under none. */
  type Followers = map<Option<Id>, seq<Id>>
  datatype FollowerState = FollowerState(followers: Followers, previousTimed: Option<Id>)

  function FollowersOf(followers: Followers, key: Option<Id>): seq<Id> {
    if key in followers then followers[key] else []
  }

  function Follow(lines: seq<LyricsLine>, occurrences: seq<Occurrence>): FollowerState {
    if lines == [] then FollowerState(map[], None)
    else
      var line := lines[|lines| - 1];
      var before := Follow(lines[..|lines| - 1], occurrences);
      var timing := TimingFor(occurrences, line.id);
      if timing.Some? && timing.value.Matched? then FollowerState(before.followers, Some(line.id))
      else
        var key := before.previousTimed;
        FollowerState(before.followers[key := FollowersOf(before.followers, key) + [line.id]], key)
  }

  method CollectFollowers(lines: seq<LyricsLine>, occurrences: seq<Occurrence>) returns (followers: Followers)
    ensures followers == Follow(lines, occurrences).followers
  {
    followers := map[];
    var previousTimed := None;
    for n := 0 to |lines|
      invariant FollowerState(followers, previousTimed) == Follow(lines[..n], occurrences)
    {
      assert lines[..n + 1][..n] == lines[..n];
      var timing := TimingFor(occurrences, lines[n].id);
      if timing.Some? && timing.value.Matched? {
        previousTimed := Some(lines[n].id);
      } else {
        followers := followers[previousTimed := FollowersOf(followers, previousTimed) + [lines[n].id]];
      }
    }
    assert lines[..|lines|] == lines;
  }

  /** Timed lines, each with the lines that follow it. */
  function Unfold(timed: seq<TimedLine>, followers: Followers): seq<Id> {
    if timed == [] then []
    else
      var last := timed[|timed| - 1].record.id;
      Unfold(timed[..|timed| - 1], followers) + ([last] + FollowersOf(followers, Some(last)))
  }

  lemma {:induction false} UnfoldConcat(a: seq<TimedLine>, b: seq<TimedLine>, followers: Followers)
    ensures Unfold(a + b, followers) == Unfold(a, followers) + Unfold(b, followers)
  {
    if b == [] {
      assert a + b == a;
    } else {
      assert (a + b)[..|a + b| - 1] == a + b[..|b| - 1];
      UnfoldConcat(a, b[..|b| - 1], followers);
      var last := b[|b| - 1].record.id;
      var own := [last] + FollowersOf(followers, Some(last));
      assert Unfold(a, followers) + (Unfold(b[..|b| - 1], followers) + own)
          == Unfold(a, followers) + Unfold(b[..|b| - 1], followers) + own;
    }
  }

  lemma {:induction false} UnfoldIgnores(timed: seq<TimedLine>, followers: Followers, key: Option<Id>, ids: seq<Id>)
    requires forall line :: line in timed ==> Some(line.record.id) != key
    ensures Unfold(timed, followers[key := ids]) == Unfold(timed, followers)
  {
    if timed != [] {
      UnfoldIgnores(timed[..|timed| - 1], followers, key, ids);
      assert timed[|timed| - 1] in timed;
    }
  }

  lemma {:induction false} FollowedAreKnown(lines: seq<LyricsLine>, occurrences: seq<Occurrence>, id: Id)
    requires Some(id) in Follow(lines, occurrences).followers || Follow(lines, occurrences).previousTimed == Some(id)
    ensures id in LineIds(lines)
  {
    if lines != [] {
      assert LineIds(lines) == LineIds(lines[..|lines| - 1]) + [lines[|lines| - 1].id];
      if id != lines[|lines| - 1].id {
        FollowedAreKnown(lines[..|lines| - 1], occurrences, id);
      }
    }
  }

  lemma {:induction false} PreviousIsLastTimed(lines: seq<LyricsLine>, occurrences: seq<Occurrence>)
    ensures var timed := TimedLines(lines, occurrences);
            Follow(lines, occurrences).previousTimed == if timed == [] then None else Some(timed[|timed| - 1].record.id)
  {
    if lines != [] {
      PreviousIsLastTimed(lines[..|lines| - 1], occurrences);
    }
  }

  /** Leading lines, then every timed line with its followers: that is the whole document, in order. */
  lemma {:induction false} FollowersCoverTheDocument(lines: seq<LyricsLine>, occurrences: seq<Occurrence>)
    requires Distinct(LineIds(lines))
    ensures FollowersOf(Follow(lines, occurrences).followers, None)
            + Unfold(TimedLines(lines, occurrences), Follow(lines, occurrences).followers) == LineIds(lines)
  {
    if lines != [] {
      var init, line := lines[..|lines| - 1], lines[|lines| - 1];
      InitIds(lines);
      FollowersCoverTheDocument(init, occurrences);
      var timing := TimingFor(occurrences, line.id);
      if timing.Some? && timing.value.Matched? {
        NewLineHasNoFollowers(lines, occurrences);
        LineWithoutFollowers(TimedLines(init, occurrences),
                             TimedLine(line, timing.value.startSample, timing.value.endSample),
                             Follow(init, occurrences).followers);
      } else {
        OneMoreFollower(init, occurrences, line.id);
        assert TimedLines(lines, occurrences) == TimedLines(init, occurrences);
      }
    }
  }

  lemma InitIds(lines: seq<LyricsLine>)
    requires lines != [] && Distinct(LineIds(lines))
    ensures LineIds(lines) == LineIds(lines[..|lines| - 1]) + [lines[|lines| - 1].id]
    ensures Distinct(LineIds(lines[..|lines| - 1]))
  {
    var init := lines[..|lines| - 1];
    assert forall k :: 0 <= k < |init| ==> LineIds(init)[k] == LineIds(lines)[k];
  }

  lemma NewLineHasNoFollowers(lines: seq<LyricsLine>, occurrences: seq<Occurrence>)
    requires lines != [] && Distinct(LineIds(lines))
    ensures Some(lines[|lines| - 1].id) !in Follow(lines[..|lines| - 1], occurrences).followers
  {
    var init, id := lines[..|lines| - 1], lines[|lines| - 1].id;
    if Some(id) in Follow(init, occurrences).followers {
      FollowedAreKnown(init, occurrences, id);
      assert false;
    }
  }

  lemma LineWithoutFollowers(timed: seq<TimedLine>, line: TimedLine, followers: Followers)
    requires Some(line.record.id) !in followers
    ensures Unfold(timed + [line], followers) == Unfold(timed, followers) + [line.record.id]
  {
    assert (timed + [line])[..|timed|] == timed;
  }

  lemma {:induction false} TimedIdsDiffer(lines: seq<LyricsLine>, occurrences: seq<Occurrence>, n: nat)
    requires Distinct(LineIds(lines)) && |TimedLines(lines, occurrences)| > 0
    requires n < |TimedLines(lines, occurrences)| - 1
    ensures var timed := TimedLines(lines, occurrences); timed[n].record.id != timed[|timed| - 1].record.id
  {
    var init, timed := lines[..|lines| - 1], TimedLines(lines, occurrences);
    InitIds(lines);
    if timed == TimedLines(init, occurrences) {
      TimedIdsDiffer(init, occurrences, n);
    } else {
      var i := TimedLineIsALine(init, occurrences, timed[n]);
      assert LineIds(lines)[i] != LineIds(lines)[|lines| - 1];
    }
  }

  lemma PreviousIsNotEarlier(lines: seq<LyricsLine>, occurrences: seq<Occurrence>, line: TimedLine)
    requires Distinct(LineIds(lines)) && TimedLines(lines, occurrences) != []
    requires var timed := TimedLines(lines, occurrences); line in timed[..|timed| - 1]
    ensures Some(line.record.id) != Follow(lines, occurrences).previousTimed
  {
    var timed := TimedLines(lines, occurrences);
    PreviousIsLastTimed(lines, occurrences);
    var n :| 0 <= n < |timed| - 1 && timed[..|timed| - 1][n] == line;
    TimedIdsDiffer(lines, occurrences, n);
  }

  lemma OneMoreFollower(lines: seq<LyricsLine>, occurrences: seq<Occurrence>, id: Id)
    requires Distinct(LineIds(lines))
    ensures var state := Follow(lines, occurrences);
            var timed, key := TimedLines(lines, occurrences), state.previousTimed;
            var after := state.followers[key := FollowersOf(state.followers, key) + [id]];
            FollowersOf(after, None) + Unfold(timed, after)
            == FollowersOf(state.followers, None) + Unfold(timed, state.followers) + [id]
  {
    var state := Follow(lines, occurrences);
    var timed := TimedLines(lines, occurrences);
    PreviousIsLastTimed(lines, occurrences);
    if timed != [] {
      var init := timed[..|timed| - 1];
      forall line | line in init
        ensures Some(line.record.id) != state.previousTimed
      {
        PreviousIsNotEarlier(lines, occurrences, line);
      }
      FollowLast(timed, state.followers, id);
    }
  }

  lemma FollowLast(timed: seq<TimedLine>, followers: Followers, id: Id)
    requires timed != [] && forall line :: line in timed[..|timed| - 1] ==>
                              line.record.id != timed[|timed| - 1].record.id
    ensures var key := Some(timed[|timed| - 1].record.id);
            Unfold(timed, followers[key := FollowersOf(followers, key) + [id]]) == Unfold(timed, followers) + [id]
  {
    var init, last := timed[..|timed| - 1], timed[|timed| - 1].record.id;
    var own := FollowersOf(followers, Some(last));
    UnfoldIgnores(init, followers, Some(last), own + [id]);
    assert Unfold(init, followers) + ([last] + (own + [id])) == Unfold(init, followers) + ([last] + own) + [id];
  }
}
