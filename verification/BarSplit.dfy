/** Splitting a bar and merging the halves: exact validity, and what the round trip leaves behind. */
module BarSplit {
  import opened Wrappers
  import opened Sequences
  import opened Schema
  import opened Invariants
  import opened Edits
  import opened BarEdits

  // ----- distinctness by counting

  lemma {:induction false} DistinctByCount<T>(s: seq<T>)
    ensures Distinct(s) <==> forall x :: x in s ==> multiset(s)[x] == 1
  {
    if s != [] {
      var init, last := s[..|s| - 1], s[|s| - 1];
      DistinctByCount(init);
      assert s == init + [last];
      if Distinct(s) {
        assert last !in init;
        assert multiset(init)[last] == 0;
      }
      if forall x :: x in s ==> multiset(s)[x] == 1 {
        forall x | x in init
          ensures multiset(init)[x] == 1
        {
          assert x in s && multiset(s)[x] == 1 && multiset(init)[x] >= 1;
        }
        assert last in s && multiset(s)[last] == 1;
        assert multiset(init)[last] == 0;
        assert last !in init;
      }
    }
  }

  lemma DistinctPlusOne<T>(before: seq<T>, after: seq<T>, x: T)
    requires multiset(after) == multiset(before) + multiset{x}
    ensures Distinct(after) <==> Distinct(before) && x !in before
  {
    DistinctByCount(before);
    DistinctByCount(after);
    forall y
      ensures y in after <==> y in before || y == x
    {
      assert y in after <==> y in multiset(after);
      assert y in before <==> y in multiset(before);
    }
    if Distinct(after) {
      assert x in after && multiset(after)[x] == 1;
      assert multiset(before)[x] == 0;
      forall y | y in before
        ensures multiset(before)[y] == 1
      {
        assert y in after && multiset(after)[y] == 1;
        assert multiset(before)[y] >= 1;
      }
    }
  }

  lemma BarIdsAfterCut(bars: seq<Bar>, k: nat, left: Bar, right: Bar)
    requires k < |bars| && left.id == bars[k].id
    ensures multiset(BarIds(bars[..k] + [left, right] + bars[k + 1..])) == multiset(BarIds(bars)) + multiset{right.id}
  {
    var ids := BarIds(bars);
    assert BarIds(bars[..k] + [left, right] + bars[k + 1..]) == ids[..k] + [left.id, right.id] + ids[k + 1..];
    OneForTwo(ids, k, left.id, right.id);
    CancelInSum(multiset(ids[..k] + [left.id, right.id] + ids[k + 1..]), ids[k], multiset(ids), right.id);
  }

  lemma CancelInSum<T>(cut: multiset<T>, x: T, whole: multiset<T>, y: T)
    requires cut + multiset{x} == whole + multiset{x, y}
    ensures cut == whole + multiset{y}
  {
    assert whole + multiset{x, y} == whole + multiset{y} + multiset{x};
    SumLess(cut, multiset{x});
    SumLess(whole + multiset{y}, multiset{x});
  }

  lemma SumLess<T>(a: multiset<T>, b: multiset<T>)
    ensures a + b - b == a
  {
  }

  lemma BarIdsGrowByOne(bars: seq<Bar>, edit: Operation)
    requires edit.SplitBar? && SplitBarIn(bars, edit).Ok?
    ensures multiset(BarIds(SplitBarIn(bars, edit).value)) == multiset(BarIds(bars)) + multiset{edit.newBarId}
  {
    var k := Find(BarIds(bars), edit.barId);
    BarIdsAfterCut(bars, k, LeftHalf(bars[k], edit), RightHalf(bars[k], edit));
  }

  // ----- the metered track

  lemma {:induction false} TilesBetween(track: seq<Interval>, duration: nat, p: nat, l: Interval, r: Interval)
    requires Tiles(track, duration) && p < |track|
    requires l.startSample == track[p].startSample < l.endSample == r.startSample < r.endSample == track[p].endSample
    ensures Tiles(track[..p] + [l, r] + track[p + 1..], duration)
  {
    var cut := track[..p] + [l, r] + track[p + 1..];
    forall i, j | 0 <= i && j == i + 1 < |cut|
      ensures cut[i].endSample == cut[j].startSample
    {
      if i < p {
        assert track[i].endSample == track[j].startSample;
      } else if i > p {
        assert track[i - 1].endSample == track[i].startSample;
      }
    }
  }

  /** One bar of a sequence replaced by two. */
  function CutAt(bars: seq<Bar>, k: nat, left: Bar, right: Bar): seq<Bar>
    requires k < |bars|
  {
    bars[..k] + [left, right] + bars[k + 1..]
  }

  lemma SpansAfterCut(bars: seq<Bar>, k: nat, left: Bar, right: Bar)
    requires k < |bars|
    ensures multiset(Map(BarSpan, CutAt(bars, k, left, right))) + multiset{BarSpan(bars[k])}
            == multiset(Map(BarSpan, bars)) + multiset{BarSpan(left), BarSpan(right)}
  {
    var spans := Map(BarSpan, bars);
    OneForTwo(spans, k, BarSpan(left), BarSpan(right));
    assert Map(BarSpan, CutAt(bars, k, left, right)) == spans[..k] + [BarSpan(left), BarSpan(right)] + spans[k + 1..];
  }

  lemma OneForTwo<T>(order: seq<T>, p: nat, l: T, r: T)
    requires p < |order|
    ensures multiset(order[..p] + [l, r] + order[p + 1..]) + multiset{order[p]} == multiset(order) + multiset{l, r}
  {
    assert order == order[..p] + [order[p]] + order[p + 1..];
  }

  /** Sums over the bars carry over to sums over the whole metered track. */
  lemma SwapInSum<T>(cut: multiset<T>, before: multiset<T>, after: multiset<T>, others: multiset<T>, x: T,
                     two: multiset<T>)
    requires cut + multiset{x} == before + others + two
    requires after + multiset{x} == before + two
    ensures cut == after + others
  {
    forall y
      ensures cut[y] == (after + others)[y]
    {
      assert (cut + multiset{x})[y] == (before + others + two)[y];
      assert (after + multiset{x})[y] == (before + two)[y];
    }
  }

  lemma SameAfterCut(timeline: Timeline, k: nat, left: Bar, right: Bar, order: seq<Interval>, cut: seq<Interval>)
    requires k < |timeline.bars| && multiset(order) == multiset(MeteredSpans(timeline))
    requires multiset(cut) + multiset{BarSpan(timeline.bars[k])}
             == multiset(order) + multiset{BarSpan(left), BarSpan(right)}
    ensures multiset(cut) == multiset(MeteredSpans(timeline.(bars := CutAt(timeline.bars, k, left, right))))
  {
    var before, after := Map(BarSpan, timeline.bars), Map(BarSpan, CutAt(timeline.bars, k, left, right));
    var others := Map(UnmeteredSpan, timeline.unmeteredRegions);
    SpansAfterCut(timeline.bars, k, left, right);
    assert multiset(order) == multiset(before) + multiset(others);
    SwapInSum(multiset(cut), multiset(before), multiset(after), multiset(others),
              BarSpan(timeline.bars[k]), multiset{BarSpan(left), BarSpan(right)});
  }

  lemma CoverAfterCut(timeline: Timeline, k: nat, left: Bar, right: Bar, order: seq<Interval>, duration: nat)
    requires k < |timeline.bars| && multiset(order) == multiset(MeteredSpans(timeline)) && Tiles(order, duration)
    requires timeline.bars[k].startSample == left.startSample < left.endSample
    requires left.endSample == right.startSample < right.endSample == timeline.bars[k].endSample
    ensures CoverInSomeOrder(MeteredSpans(timeline.(bars := CutAt(timeline.bars, k, left, right))), duration)
  {
    var p := SpanIsInCover(timeline, order, k);
    TilesBetween(order, duration, p, BarSpan(left), BarSpan(right));
    OneForTwo(order, p, BarSpan(left), BarSpan(right));
    SameAfterCut(timeline, k, left, right, order, order[..p] + [BarSpan(left), BarSpan(right)] + order[p + 1..]);
  }

  lemma IncreasingInsert(s: seq<nat>, k: nat, x: nat)
    requires StrictlyIncreasing(s) && k < |s| && s[k] < x && (k + 1 < |s| ==> x < s[k + 1])
    ensures StrictlyIncreasing(s[..k + 1] + [x] + s[k + 1..])
  {
    forall j | k + 1 <= j < |s|
      ensures x < s[j]
    {
      assert s[k + 1] <= s[j];
    }
  }

  lemma StartsAfterCut(timeline: Timeline, k: nat, left: Bar, right: Bar, duration: nat)
    requires k < |timeline.bars| && ValidTracks(timeline, duration)
    requires left.startSample == timeline.bars[k].startSample < right.startSample < timeline.bars[k].endSample
    ensures StrictlyIncreasing(BarStarts(CutAt(timeline.bars, k, left, right)))
  {
    var starts := BarStarts(timeline.bars);
    if k + 1 < |timeline.bars| {
      BarsAreDisjoint(timeline, duration, k, k + 1);
    }
    IncreasingInsert(starts, k, right.startSample);
    assert BarStarts(CutAt(timeline.bars, k, left, right)) == starts[..k + 1] + [right.startSample] + starts[k + 1..];
  }

  // ----- the two halves

  ghost predicate BeatsInOrder(beats: seq<Beat>) {
    forall i, j :: 0 <= i < j < |beats| ==> beats[i].atSample < beats[j].atSample
  }

  lemma {:induction false} ValidBarsHaveBeatsInOrder(bar: Bar)
    requires forall index :: 0 <= index < |bar.beats| ==> BeatFits(bar, index)
    ensures BeatsInOrder(bar.beats)
  {
    forall i, j | 0 <= i < j < |bar.beats|
      ensures bar.beats[i].atSample < bar.beats[j].atSample
    {
      LaterBeat(bar, i, j);
    }
  }

  lemma {:induction false} LaterBeat(bar: Bar, i: nat, j: nat)
    requires forall index :: 0 <= index < |bar.beats| ==> BeatFits(bar, index)
    requires i < j < |bar.beats|
    ensures bar.beats[i].atSample < bar.beats[j].atSample
    decreases j
  {
    assert BeatFits(bar, j);
    if i < j - 1 {
      LaterBeat(bar, i, j - 1);
    }
  }

  /** In order, the beats before a point are a prefix and those after it are the rest. */
  lemma {:induction false} CutBeats(beats: seq<Beat>, atSample: nat) returns (n: nat)
    requires BeatsInOrder(beats) && forall beat :: beat in beats ==> beat.atSample != atSample
    ensures n <= |beats| && BeatsBefore(beats, atSample) == beats[..n] && BeatsAfter(beats, atSample) == beats[n..]
    ensures forall i :: 0 <= i < n ==> beats[i].atSample < atSample
    ensures forall i :: n <= i < |beats| ==> beats[i].atSample > atSample
  {
    if beats == [] {
      n := 0;
    } else {
      var later := beats[1..];
      var rest := CutBeats(later, atSample);
      assert forall i :: 0 < i < |beats| ==> beats[i] == later[i - 1];
      if beats[0].atSample < atSample {
        n := rest + 1;
        assert beats[..n] == [beats[0]] + later[..rest];
        assert beats[n..] == later[rest..];
      } else {
        n := 0;
        assert later == [] || later[0].atSample > beats[0].atSample;
        assert rest == 0;
        assert BeatsAfter(beats, atSample) == [beats[0]] + BeatsAfter(later, atSample);
      }
    }
  }

  /** How many beats each half may have. */
  ghost predicate CountsFit(bar: Bar, edit: Operation)
    requires edit.SplitBar?
  {
    var left := |BeatsBefore(bar.beats, edit.atSample)|;
    var right := 1 + |BeatsAfter(bar.beats, edit.atSample)|;
    && (edit.leftStatus == Complete ==> left == bar.meter.numerator)
    && (edit.rightStatus == Complete ==> right == edit.rightMeter.numerator)
    && right <= edit.rightMeter.numerator
  }

  ghost predicate CleanCut(bar: Bar, edit: Operation)
    requires edit.SplitBar?
  {
    && bar.startSample < edit.atSample < bar.endSample
    && (forall beat :: beat in bar.beats ==> beat.atSample != edit.atSample)
  }

  lemma LeftHalfIsValid(bar: Bar, edit: Operation)
    requires edit.SplitBar? && ValidBar(bar) && CleanCut(bar, edit)
    ensures ValidBar(LeftHalf(bar, edit)) <==>
            (edit.leftStatus == Complete ==> |BeatsBefore(bar.beats, edit.atSample)| == bar.meter.numerator)
  {
    ValidBarsHaveBeatsInOrder(bar);
    var n := CutBeats(bar.beats, edit.atSample);
    var half := LeftHalf(bar, edit);
    assert BeatIds(half.beats) == BeatIds(bar.beats)[..n];
    forall index | 0 <= index < |half.beats|
      ensures BeatFits(half, index)
    {
      assert BeatFits(bar, index);
      assert half.beats[index] in half.beats;
    }
  }

  lemma RightBeatsFit(bar: Bar, edit: Operation, n: nat)
    requires edit.SplitBar? && ValidBar(bar) && CleanCut(bar, edit)
    requires n <= |bar.beats| && BeatsAfter(bar.beats, edit.atSample) == bar.beats[n..]
    requires forall i :: n <= i < |bar.beats| ==> bar.beats[i].atSample > edit.atSample
    ensures forall index :: 0 <= index < |RightHalf(bar, edit).beats| ==> BeatFits(RightHalf(bar, edit), index)
  {
    var half := RightHalf(bar, edit);
    assert forall i :: 0 < i < |half.beats| ==> half.beats[i] == Ordinary(bar.beats[n + i - 1]);
    forall index | 0 < index < |half.beats|
      ensures BeatFits(half, index)
    {
      assert BeatFits(bar, n + index - 1);
    }
  }

  lemma RightBeatsAreDistinct(beats: seq<Beat>, n: nat, newId: Id, atSample: nat)
    requires n <= |beats| && Distinct(BeatIds(beats)) && newId !in BeatIds(beats)
    ensures Distinct(BeatIds([Beat(newId, atSample, Downbeat)] + Ordinaries(beats[n..])))
  {
    var ids := BeatIds([Beat(newId, atSample, Downbeat)] + Ordinaries(beats[n..]));
    assert ids[0] == newId && forall i :: 0 < i < |ids| ==> ids[i] == BeatIds(beats)[n + i - 1];
  }

  lemma RightHalfIsValid(bar: Bar, edit: Operation)
    requires edit.SplitBar? && ValidBar(bar) && CleanCut(bar, edit)
    requires edit.newDownbeatId !in BeatIds(bar.beats)
    ensures ValidBar(RightHalf(bar, edit)) <==>
            && (edit.rightStatus == Complete
                ==> 1 + |BeatsAfter(bar.beats, edit.atSample)| == edit.rightMeter.numerator)
            && 1 + |BeatsAfter(bar.beats, edit.atSample)| <= edit.rightMeter.numerator
  {
    ValidBarsHaveBeatsInOrder(bar);
    var n := CutBeats(bar.beats, edit.atSample);
    RightBeatsFit(bar, edit, n);
    RightBeatsAreDistinct(bar.beats, n, edit.newDownbeatId, edit.atSample);
  }

  // ----- the main results

  /** What a caller can check before splitting. */
  ghost predicate Splittable(timeline: Timeline, edit: Operation)
    requires edit.SplitBar?
  {
    var k := Find(BarIds(timeline.bars), edit.barId);
    && k >= 0
    && CleanCut(timeline.bars[k], edit)
    && edit.newBarId !in BarIds(timeline.bars)
    && edit.newDownbeatId !in BeatIds(AllBeats(timeline.bars))
    && CountsFit(timeline.bars[k], edit)
  }

  lemma IdsAfterSplit(timeline: Timeline, edit: Operation)
    requires edit.SplitBar? && SplitBarIn(timeline.bars, edit).Ok? && ValidIds(timeline)
    ensures ValidIds(timeline.(bars := SplitBarIn(timeline.bars, edit).value)) <==>
            edit.newBarId !in BarIds(timeline.bars) && edit.newDownbeatId !in BeatIds(AllBeats(timeline.bars))
  {
    var after := SplitBarIn(timeline.bars, edit).value;
    BarIdsGrowByOne(timeline.bars, edit);
    SplitKeepsBeats(timeline.bars, edit);
    DistinctPlusOne(BarIds(timeline.bars), BarIds(after), edit.newBarId);
    DistinctPlusOne(BeatIds(AllBeats(timeline.bars)), BeatIds(AllBeats(after)), edit.newDownbeatId);
  }

  /** Every beat of a bar is a beat of the timeline. */
  lemma {:induction false} BeatsOfBar(bars: seq<Bar>, k: nat, id: Id)
    requires k < |bars| && id in BeatIds(bars[k].beats)
    ensures id in BeatIds(AllBeats(bars))
  {
    MapConcat(BeatId, bars[0].beats, AllBeats(bars[1..]));
    if k > 0 {
      BeatsOfBar(bars[1..], k - 1, id);
    }
  }

  lemma HalvesAreValid(bars: seq<Bar>, k: nat, edit: Operation)
    requires edit.SplitBar? && k < |bars| && CleanCut(bars[k], edit) && CountsFit(bars[k], edit)
    requires edit.newDownbeatId !in BeatIds(AllBeats(bars))
    requires forall bar :: bar in bars ==> ValidBar(bar)
    ensures forall bar :: bar in CutAt(bars, k, LeftHalf(bars[k], edit), RightHalf(bars[k], edit)) ==> ValidBar(bar)
  {
    assert bars[k] in bars;
    LeftHalfIsValid(bars[k], edit);
    if edit.newDownbeatId in BeatIds(bars[k].beats) {
      BeatsOfBar(bars, k, edit.newDownbeatId);
    }
    RightHalfIsValid(bars[k], edit);
    var left, right := LeftHalf(bars[k], edit), RightHalf(bars[k], edit);
    assert ValidBar(left) && ValidBar(right);
    CutMembers(bars, k, left, right);
  }

  lemma CutMembers(bars: seq<Bar>, k: nat, left: Bar, right: Bar)
    requires k < |bars|
    ensures forall bar :: bar in CutAt(bars, k, left, right) ==> bar in bars || bar == left || bar == right
  {
  }

  lemma SplitKeepsTracks(timeline: Timeline, k: nat, left: Bar, right: Bar, duration: nat)
    requires k < |timeline.bars| && ValidTracks(timeline, duration)
    requires timeline.bars[k].startSample == left.startSample < left.endSample
    requires left.endSample == right.startSample < right.endSample == timeline.bars[k].endSample
    ensures ValidTracks(timeline.(bars := CutAt(timeline.bars, k, left, right)), duration)
  {
    var order: seq<Interval> :| multiset(order) == multiset(MeteredSpans(timeline)) && Tiles(order, duration);
    CoverAfterCut(timeline, k, left, right, order, duration);
    StartsAfterCut(timeline, k, left, right, duration);
  }

  lemma SplitKeepsValidity(timeline: Timeline, edit: Operation, duration: nat)
    requires edit.SplitBar? && ValidTimeline(timeline, duration) && Splittable(timeline, edit)
    ensures EditTimeline(timeline, edit).Ok? && ValidTimeline(EditTimeline(timeline, edit).value, duration)
  {
    var bars := timeline.bars;
    var k := Find(BarIds(bars), edit.barId);
    IdsAfterSplit(timeline, edit);
    SplitKeepsTracks(timeline, k, LeftHalf(bars[k], edit), RightHalf(bars[k], edit), duration);
    HalvesAreValid(bars, k, edit);
  }

  lemma SplitHalvesAreValid(timeline: Timeline, edit: Operation, duration: nat)
    requires edit.SplitBar? && EditTimeline(timeline, edit).Ok?
             && ValidTimeline(EditTimeline(timeline, edit).value, duration)
    ensures var k := Find(BarIds(timeline.bars), edit.barId);
            && k >= 0
            && var left, right := LeftHalf(timeline.bars[k], edit), RightHalf(timeline.bars[k], edit);
               && ValidBar(left) && ValidBar(right) && left.startSample < left.endSample
               && right.startSample < right.endSample
  {
    var k := Find(BarIds(timeline.bars), edit.barId);
    var after := EditTimeline(timeline, edit).value;
    assert after.bars[k] == LeftHalf(timeline.bars[k], edit) && after.bars[k + 1] == RightHalf(timeline.bars[k], edit);
    assert after.bars[k] in after.bars && after.bars[k + 1] in after.bars;
    BarsAreNotEmpty(after, duration, k);
    BarsAreNotEmpty(after, duration, k + 1);
  }

  lemma ValidSplitIsClean(timeline: Timeline, edit: Operation, duration: nat)
    requires edit.SplitBar? && ValidTimeline(timeline, duration)
    requires EditTimeline(timeline, edit).Ok? && ValidTimeline(EditTimeline(timeline, edit).value, duration)
    ensures Splittable(timeline, edit)
  {
    var bars := timeline.bars;
    var k := Find(BarIds(bars), edit.barId);
    assert bars[k] in bars;
    SplitHalvesAreValid(timeline, edit, duration);
    IdsAfterSplit(timeline, edit);
    if edit.newDownbeatId in BeatIds(bars[k].beats) {
      BeatsOfBar(bars, k, edit.newDownbeatId);
    }
    LeftHalfIsValid(bars[k], edit);
    RightHalfIsValid(bars[k], edit);
  }

  /** Splitting a bar of a valid timeline leaves a valid timeline exactly when the cut is clean, fresh and fitting. */
  lemma SplitIsValidExactlyWhenSplittable(timeline: Timeline, edit: Operation, duration: nat)
    requires edit.SplitBar? && ValidTimeline(timeline, duration)
    ensures (EditTimeline(timeline, edit).Ok? && ValidTimeline(EditTimeline(timeline, edit).value, duration))
            <==> Splittable(timeline, edit)
  {
    if Splittable(timeline, edit) {
      SplitKeepsValidity(timeline, edit, duration);
    }
    if EditTimeline(timeline, edit).Ok? && ValidTimeline(EditTimeline(timeline, edit).value, duration) {
      ValidSplitIsClean(timeline, edit, duration);
    }
  }

  /** A bar whose beats gained one ordinary beat at the point where it was cut. */
  ghost predicate GainedOneBeat(before: seq<Beat>, after: seq<Beat>, edit: Operation)
    requires edit.SplitBar?
  {
    exists n: nat :: n <= |before|
      && after == before[..n] + [Beat(edit.newDownbeatId, edit.atSample, OrdinaryBeat)] + before[n..]
      && (forall i :: 0 <= i < n ==> before[i].atSample < edit.atSample)
      && (forall i :: n <= i < |before| ==> before[i].atSample > edit.atSample)
  }

  lemma LaterBeatsAreOrdinary(bar: Bar, n: nat)
    requires ValidBar(bar) && n <= |bar.beats| && (n == 0 ==> bar.beats == [])
    ensures Ordinaries(Ordinaries(bar.beats[n..])) == bar.beats[n..]
  {
    forall i | n <= i < |bar.beats|
      ensures bar.beats[i].role == OrdinaryBeat
    {
      assert BeatFits(bar, i);
    }
  }

  lemma MergedHalves(bar: Bar, edit: Operation, meter: Meter, status: BarStatus)
    requires edit.SplitBar? && ValidBar(bar) && CleanCut(bar, edit)
    ensures var merged := Merged(LeftHalf(bar, edit), RightHalf(bar, edit), meter, status);
            && merged == bar.(beats := merged.beats, meter := meter, status := status)
            && GainedOneBeat(bar.beats, merged.beats, edit)
  {
    ValidBarsHaveBeatsInOrder(bar);
    var n := CutBeats(bar.beats, edit.atSample);
    var rest := bar.beats[n..];
    assert bar.beats == [] || BeatFits(bar, 0);
    LaterBeatsAreOrdinary(bar, n);
    var downbeat := Beat(edit.newDownbeatId, edit.atSample, Downbeat);
    assert Ordinaries([downbeat] + Ordinaries(rest)) == [Ordinary(downbeat)] + rest;
    assert bar.beats[..n] + ([Ordinary(downbeat)] + rest) == bar.beats[..n] + [Ordinary(downbeat)] + rest;
  }

  lemma MergeUndoesCut(bars: seq<Bar>, k: nat, left: Bar, right: Bar, meter: Meter, status: BarStatus)
    requires k < |bars| && Distinct(BarIds(CutAt(bars, k, left, right)))
    ensures MergeBarsIn(CutAt(bars, k, left, right), left.id, right.id, meter, status)
            == Ok(bars[k := Merged(left, right, meter, status)])
  {
    var after := CutAt(bars, k, left, right);
    assert after[k] == left && after[k + 1] == right;
    assert BarIds(after)[k] == left.id && BarIds(after)[k + 1] == right.id;
    FindIsUnique(BarIds(after), k);
    FindIsUnique(BarIds(after), k + 1);
    var merged := Merged(left, right, meter, status);
    assert after[..k] + [merged] + after[k + 2..] == bars[k := merged];
  }

  lemma MergingInTheTrack(bars: seq<Bar>, edit: Operation, meter: Meter, status: BarStatus)
    requires edit.SplitBar? && SplitBarIn(bars, edit).Ok? && Distinct(BarIds(SplitBarIn(bars, edit).value))
    ensures var k := Find(BarIds(bars), edit.barId);
            MergeBarsIn(SplitBarIn(bars, edit).value, edit.barId, edit.newBarId, meter, status)
            == Ok(bars[k := Merged(LeftHalf(bars[k], edit), RightHalf(bars[k], edit), meter, status)])
  {
    var k := Find(BarIds(bars), edit.barId);
    assert BarIds(bars)[k] == bars[k].id;
    MergeUndoesCut(bars, k, LeftHalf(bars[k], edit), RightHalf(bars[k], edit), meter, status);
  }

  lemma MergedTimeline(timeline: Timeline, edit: Operation, meter: Meter, status: BarStatus)
    requires edit.SplitBar? && EditTimeline(timeline, edit).Ok?
             && Distinct(BarIds(EditTimeline(timeline, edit).value.bars))
    ensures var k := Find(BarIds(timeline.bars), edit.barId);
            && k >= 0
            && EditTimeline(EditTimeline(timeline, edit).value, MergeBars(edit.barId, edit.newBarId, meter, status))
               == Ok(timeline.(bars :=
                               timeline.bars[k := Merged(LeftHalf(timeline.bars[k], edit),
                                                         RightHalf(timeline.bars[k], edit), meter, status)]))
  {
    MergingInTheTrack(timeline.bars, edit, meter, status);
  }

  /**
   Merging the two halves gives the bar back, with the meter and status of the merge, and with one
   ordinary beat more: merging does not undo splitting.
  */
  lemma MergingTheHalves(timeline: Timeline, edit: Operation, meter: Meter, status: BarStatus, duration: nat)
    requires edit.SplitBar? && ValidTimeline(timeline, duration) && Splittable(timeline, edit)
    ensures var k := Find(BarIds(timeline.bars), edit.barId);
            var bar := timeline.bars[k];
            var merged := Merged(LeftHalf(bar, edit), RightHalf(bar, edit), meter, status);
            && EditTimeline(timeline, edit).Ok?
            && EditTimeline(EditTimeline(timeline, edit).value, MergeBars(edit.barId, edit.newBarId, meter, status))
               == Ok(timeline.(bars := timeline.bars[k := merged]))
            && merged == bar.(beats := merged.beats, meter := meter, status := status)
            && GainedOneBeat(bar.beats, merged.beats, edit)
  {
    var bars := timeline.bars;
    var k := Find(BarIds(bars), edit.barId);
    assert bars[k] in bars;
    SplitKeepsValidity(timeline, edit, duration);
    MergedTimeline(timeline, edit, meter, status);
    MergedHalves(bars[k], edit, meter, status);
  }
}
