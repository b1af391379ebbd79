/**
 Laws of the bar edits: when a split keeps a timeline valid, what merging the halves gives back, and
 that no edit ever loses a beat.
*/
module BarEdits {
  import opened Wrappers
  import opened Sequences
  import opened Schema
  import opened Edits

  // ----- beats of concatenated bars

  lemma {:induction false} AllBeatsConcat(a: seq<Bar>, b: seq<Bar>)
    ensures AllBeats(a + b) == AllBeats(a) + AllBeats(b)
  {
    if a == [] {
      assert a + b == b;
    } else {
      assert (a + b)[1..] == a[1..] + b;
      AllBeatsConcat(a[1..], b);
      assert a[0].beats + (AllBeats(a[1..]) + AllBeats(b)) == a[0].beats + AllBeats(a[1..]) + AllBeats(b);
    }
  }

  lemma AllBeatsAround(a: seq<Bar>, middle: seq<Bar>, b: seq<Bar>)
    ensures AllBeats(a + middle + b) == AllBeats(a) + AllBeats(middle) + AllBeats(b)
  {
    AllBeatsConcat(a + middle, b);
    AllBeatsConcat(a, middle);
  }

  lemma AllBeatsOfOne(bar: Bar)
    ensures AllBeats([bar]) == bar.beats
  {
    assert [bar][1..] == [];
    assert AllBeats([]) == [];
  }

  lemma AllBeatsOfTwo(left: Bar, right: Bar)
    ensures AllBeats([left, right]) == left.beats + right.beats
  {
    assert [left, right] == [left] + [right];
    AllBeatsConcat([left], [right]);
    AllBeatsOfOne(left);
    AllBeatsOfOne(right);
  }

  lemma MapConcat<T, U>(f: T -> U, a: seq<T>, b: seq<T>)
    ensures Map(f, a + b) == Map(f, a) + Map(f, b)
  {
  }

  // ----- no beat is ever lost

  /** The ids an edit adds to the beats of a timeline. */
  function NewBeats(edit: Operation): multiset<Id> {
    if edit.SplitBar? then multiset{edit.newDownbeatId} else multiset{}
  }

  lemma BeatIdsHead(beats: seq<Beat>)
    requires beats != []
    ensures multiset(BeatIds(beats)) == multiset{beats[0].id} + multiset(BeatIds(beats[1..]))
  {
    assert BeatIds(beats) == [beats[0].id] + BeatIds(beats[1..]);
  }

  lemma {:induction false} BeatsOnBothSides(beats: seq<Beat>, atSample: nat)
    requires forall beat :: beat in beats ==> beat.atSample != atSample
    ensures multiset(BeatIds(BeatsBefore(beats, atSample))) + multiset(BeatIds(BeatsAfter(beats, atSample)))
            == multiset(BeatIds(beats))
  {
    if beats != [] {
      var rest := beats[1..];
      BeatsOnBothSides(rest, atSample);
      BeatIdsHead(beats);
      var before, after := BeatsBefore(beats, atSample), BeatsAfter(beats, atSample);
      if beats[0].atSample < atSample {
        assert before == [beats[0]] + BeatsBefore(rest, atSample) && after == BeatsAfter(rest, atSample);
        BeatIdsHead(before);
      } else {
        assert after == [beats[0]] + BeatsAfter(rest, atSample) && before == BeatsBefore(rest, atSample);
        BeatIdsHead(after);
      }
    }
  }

  lemma OrdinariesKeepIds(beats: seq<Beat>)
    ensures BeatIds(Ordinaries(beats)) == BeatIds(beats)
  {
  }

  lemma {:induction false} MovingABeatKeepsIds(bars: seq<Bar>, beatId: Id, atSample: nat)
    requires MoveBeatIn(bars, beatId, atSample).Ok?
    ensures BeatIds(AllBeats(MoveBeatIn(bars, beatId, atSample).value)) == BeatIds(AllBeats(bars))
  {
    var bar := bars[0];
    var index := Find(BeatIds(bar.beats), beatId);
    if index >= 0 {
      var moved := bar.(beats := bar.beats[index := bar.beats[index].(atSample := atSample)]);
      var all := [moved] + bars[1..];
      assert all[0] == moved && all[1..] == bars[1..];
      assert BeatIds(moved.beats) == BeatIds(bar.beats);
      MapConcat(BeatId, moved.beats, AllBeats(bars[1..]));
      MapConcat(BeatId, bar.beats, AllBeats(bars[1..]));
    } else {
      MovingABeatKeepsIds(bars[1..], beatId, atSample);
      var rest := MoveBeatIn(bars[1..], beatId, atSample).value;
      var all := [bar] + rest;
      assert all[0] == bar && all[1..] == rest;
      MapConcat(BeatId, bar.beats, AllBeats(rest));
      MapConcat(BeatId, bar.beats, AllBeats(bars[1..]));
    }
  }

  /** The beat ids of a stretch of bars, with what surrounds it. */
  lemma BeatIdsAround(a: seq<Bar>, middle: seq<Bar>, b: seq<Bar>)
    ensures BeatIds(AllBeats(a + middle + b)) == BeatIds(AllBeats(a)) + BeatIds(AllBeats(middle)) + BeatIds(AllBeats(b))
  {
    AllBeatsAround(a, middle, b);
    MapConcat(BeatId, AllBeats(a) + AllBeats(middle), AllBeats(b));
    MapConcat(BeatId, AllBeats(a), AllBeats(middle));
  }

  /** Replacing a stretch of bars by one with the same beats, plus some, adds just those. */
  lemma ReplacingBars(a: seq<Bar>, old_: seq<Bar>, new_: seq<Bar>, b: seq<Bar>, added: multiset<Id>)
    requires multiset(BeatIds(AllBeats(new_))) == multiset(BeatIds(AllBeats(old_))) + added
    ensures multiset(BeatIds(AllBeats(a + new_ + b))) == multiset(BeatIds(AllBeats(a + old_ + b))) + added
  {
    BeatIdsAround(a, old_, b);
    BeatIdsAround(a, new_, b);
  }

  lemma BoundaryKeepsBeats(bars: seq<Bar>, left: Id, right: Id, atSample: nat)
    requires MoveBarBoundaryIn(bars, left, right, atSample).Ok?
    ensures multiset(BeatIds(AllBeats(MoveBarBoundaryIn(bars, left, right, atSample).value)))
            == multiset(BeatIds(AllBeats(bars)))
  {
    var k := Find(BarIds(bars), left);
    var result := MoveBarBoundaryIn(bars, left, right, atSample).value;
    var l, r := result[k], result[k + 1];
    SplitAroundTwo(bars, k);
    SplitAroundTwo(result, k);
    assert result[..k] == bars[..k] && result[k + 2..] == bars[k + 2..];
    AllBeatsOfTwo(bars[k], bars[k + 1]);
    AllBeatsOfTwo(l, r);
    assert BeatIds(l.beats) == BeatIds(bars[k].beats) && BeatIds(r.beats) == BeatIds(bars[k + 1].beats);
    MapConcat(BeatId, l.beats, r.beats);
    MapConcat(BeatId, bars[k].beats, bars[k + 1].beats);
    ReplacingBars(bars[..k], [bars[k], bars[k + 1]], [l, r], bars[k + 2..], multiset{});
  }

  lemma MeterKeepsBeats(bars: seq<Bar>, barId: Id, meter: Meter)
    requires SetMeterIn(bars, barId, meter).Ok?
    ensures multiset(BeatIds(AllBeats(SetMeterIn(bars, barId, meter).value))) == multiset(BeatIds(AllBeats(bars)))
  {
    var k := Find(BarIds(bars), barId);
    var changed := bars[k].(meter := meter);
    SplitAround(bars, k);
    assert bars[k := changed] == bars[..k] + [changed] + bars[k + 1..];
    AllBeatsOfOne(bars[k]);
    AllBeatsOfOne(changed);
    ReplacingBars(bars[..k], [bars[k]], [changed], bars[k + 1..], multiset{});
  }

  lemma HalvesKeepBeats(bar: Bar, edit: Operation)
    requires edit.SplitBar? && forall beat :: beat in bar.beats ==> beat.atSample != edit.atSample
    ensures multiset(BeatIds(LeftHalf(bar, edit).beats + RightHalf(bar, edit).beats))
            == multiset(BeatIds(bar.beats)) + multiset{edit.newDownbeatId}
  {
    var before, after := BeatsBefore(bar.beats, edit.atSample), BeatsAfter(bar.beats, edit.atSample);
    var downbeat := Beat(edit.newDownbeatId, edit.atSample, Downbeat);
    BeatsOnBothSides(bar.beats, edit.atSample);
    OrdinariesKeepIds(after);
    MapConcat(BeatId, before, [downbeat] + Ordinaries(after));
    MapConcat(BeatId, [downbeat], Ordinaries(after));
    assert BeatIds([downbeat]) == [edit.newDownbeatId];
  }

  lemma SplitKeepsBeats(bars: seq<Bar>, edit: Operation)
    requires edit.SplitBar? && SplitBarIn(bars, edit).Ok?
    ensures multiset(BeatIds(AllBeats(SplitBarIn(bars, edit).value)))
            == multiset(BeatIds(AllBeats(bars))) + multiset{edit.newDownbeatId}
  {
    var k := Find(BarIds(bars), edit.barId);
    var left, right := LeftHalf(bars[k], edit), RightHalf(bars[k], edit);
    SplitAround(bars, k);
    AllBeatsOfOne(bars[k]);
    AllBeatsOfTwo(left, right);
    HalvesKeepBeats(bars[k], edit);
    ReplacingBars(bars[..k], [bars[k]], [left, right], bars[k + 1..], multiset{edit.newDownbeatId});
  }

  lemma MergeKeepsBeats(bars: seq<Bar>, leftId: Id, rightId: Id, meter: Meter, status: BarStatus)
    requires MergeBarsIn(bars, leftId, rightId, meter, status).Ok?
    ensures multiset(BeatIds(AllBeats(MergeBarsIn(bars, leftId, rightId, meter, status).value)))
            == multiset(BeatIds(AllBeats(bars)))
  {
    var k := Find(BarIds(bars), leftId);
    var merged := Merged(bars[k], bars[k + 1], meter, status);
    SplitAroundTwo(bars, k);
    AllBeatsOfOne(merged);
    AllBeatsOfTwo(bars[k], bars[k + 1]);
    OrdinariesKeepIds(bars[k + 1].beats);
    MapConcat(BeatId, bars[k].beats, Ordinaries(bars[k + 1].beats));
    MapConcat(BeatId, bars[k].beats, bars[k + 1].beats);
    ReplacingBars(bars[..k], [bars[k], bars[k + 1]], [merged], bars[k + 2..], multiset{});
  }

  /** No edit loses a beat, and only a split adds one. */
  lemma NoBeatIsLost(timeline: Timeline, edit: Operation)
    requires EditTimeline(timeline, edit).Ok?
    ensures multiset(BeatIds(AllBeats(EditTimeline(timeline, edit).value.bars)))
            == multiset(BeatIds(AllBeats(timeline.bars))) + NewBeats(edit)
  {
    match edit {
      case MoveBeat(beatId, atSample) => MovingABeatKeepsIds(timeline.bars, beatId, atSample);
      case MoveBarBoundary(left, right, atSample) => BoundaryKeepsBeats(timeline.bars, left, right, atSample);
      case SetBarMeter(barId, meter) => MeterKeepsBeats(timeline.bars, barId, meter);
      case SplitBar(_, _, _, _, _, _, _) => SplitKeepsBeats(timeline.bars, edit);
      case MergeBars(left, right, meter, status) => MergeKeepsBeats(timeline.bars, left, right, meter, status);
      case _ =>
    }
  }
}
