/**
 The forward-only interval sweep of the benchmark metrics.

 The sweep hands out pieces of gold regions, each with the predicted region that covers it. Its
 meaning is per sample: every sample of every gold region, in order, with the predicted region that
 contains the sample, or none.
*/
module IntervalSweep {
  import opened MetricValue
  import opened Wrappers

  datatype Region<+V> = Region(startSample: nat, endSample: nat, value: V)
  datatype Visit<+G, +P> = Visit(gold: Region<G>, predicted: Option<Region<P>>, samples: nat)
  datatype Verdict = Correct | Wrong | Ineligible

  /** One sample of gold, with what was predicted there. */
  type Sample<G, P> = (Region<G>, Option<Region<P>>)

  /** Non-empty half-open intervals in time order that do not overlap. */
  ghost predicate Ordered<V>(track: seq<Region<V>>) {
    && (forall i :: 0 <= i < |track| ==> track[i].startSample < track[i].endSample)
    && (forall i, j :: 0 <= i < j < |track| ==> track[i].endSample <= track[j].startSample)
  }

  predicate Contains<V>(region: Region<V>, sample: nat) {
    region.startSample <= sample < region.endSample
  }

  /** The first region that contains the sample. */
  function At<V>(track: seq<Region<V>>, sample: nat): Option<Region<V>> {
    if track == [] then None
    else if Contains(track[0], sample) then Some(track[0])
    else At(track[1..], sample)
  }

  /** In an ordered track the region at a sample is the only one containing it. */
  lemma {:induction false} AtIsTheOnlyOne<V>(track: seq<Region<V>>, sample: nat, k: nat)
    requires Ordered(track) && k < |track| && Contains(track[k], sample)
    ensures At(track, sample) == Some(track[k])
  {
    if k > 0 {
      assert !Contains(track[0], sample);
      AtIsTheOnlyOne(track[1..], sample, k - 1);
    }
  }

  lemma {:induction false} AtIsNone<V>(track: seq<Region<V>>, sample: nat)
    requires forall k :: 0 <= k < |track| ==> !Contains(track[k], sample)
    ensures At(track, sample) == None
  {
    if track != [] {
      AtIsNone(track[1..], sample);
    }
  }

  // ----- what the sweep means, sample by sample

  function SamplesOf<G, P>(gold: Region<G>, predicted: seq<Region<P>>, from: nat, to: nat): (r: seq<Sample<G, P>>)
    requires from <= to
    ensures |r| == to - from
  {
    seq(to - from, k requires 0 <= k => (gold, At(predicted, from + k)))
  }

  function PerSample<G, P>(gold: seq<Region<G>>, predicted: seq<Region<P>>): seq<Sample<G, P>>
    requires forall i :: 0 <= i < |gold| ==> gold[i].startSample <= gold[i].endSample
  {
    if gold == [] then []
    else
      var item := gold[|gold| - 1];
      PerSample(gold[..|gold| - 1], predicted) + SamplesOf(item, predicted, item.startSample, item.endSample)
  }

  /** A visit stands for its number of equal samples. */
  function Repeat<T>(item: T, times: nat): seq<T> {
    seq(times, _ => item)
  }

  function Expand<G, P>(visits: seq<Visit<G, P>>): seq<Sample<G, P>> {
    if visits == [] then []
    else
      var last := visits[|visits| - 1];
      Expand(visits[..|visits| - 1]) + Repeat((last.gold, last.predicted), last.samples)
  }

  /** The predicted region, if any, covers the whole piece. */
  lemma PieceIsUniform<G, P>(gold: Region<G>, predicted: seq<Region<P>>, index: nat, cursor: nat, end: nat,
                             covering: bool)
    requires Ordered(predicted) && index <= |predicted| && cursor <= end
    requires forall i :: 0 <= i < index ==> predicted[i].endSample <= cursor
    requires covering ==>
               index < |predicted| && predicted[index].startSample <= cursor && end <= predicted[index].endSample
    requires !covering && index < |predicted| ==> end <= predicted[index].startSample
    ensures SamplesOf(gold, predicted, cursor, end)
            == Repeat((gold, if covering then Some(predicted[index]) else None), end - cursor)
  {
    forall sample: nat | cursor <= sample < end
      ensures At(predicted, sample) == if covering then Some(predicted[index]) else None
    {
      if covering {
        AtIsTheOnlyOne(predicted, sample, index);
      } else {
        AtIsNone(predicted, sample);
      }
    }
  }

  /** The number of samples in the first regions of a track. */
  ghost function Length<V>(track: seq<Region<V>>, n: nat): nat
    requires n <= |track| && forall i :: 0 <= i < |track| ==> track[i].startSample <= track[i].endSample
  {
    if n == 0 then 0 else Length(track, n - 1) + track[n - 1].endSample - track[n - 1].startSample
  }

  /** What was predicted at a sample: the region that contains it, or nothing if none does. */
  ghost predicate PredictedAt<V>(region: Option<Region<V>>, track: seq<Region<V>>, sample: nat) {
    match region
    case None => forall k :: 0 <= k < |track| ==> !(track[k].startSample <= sample < track[k].endSample)
    case Some(found) => found in track && found.startSample <= sample < found.endSample
  }

  lemma {:induction false} AtIsPredicted<V>(track: seq<Region<V>>, sample: nat)
    ensures PredictedAt(At(track, sample), track, sample)
  {
    if track != [] && !Contains(track[0], sample) {
      AtIsPredicted(track[1..], sample);
      assert track == [track[0]] + track[1..];
    }
  }

  /** The samples are those of the gold regions, one by one and in order, each with what was predicted there. */
  lemma {:induction false} EverySampleInItsPlace<G, P>(gold: seq<Region<G>>, predicted: seq<Region<P>>, k: nat,
                                                       sample: nat)
    requires forall i :: 0 <= i < |gold| ==> gold[i].startSample <= gold[i].endSample
    ensures |PerSample(gold, predicted)| == Length(gold, |gold|)
    ensures k < |gold| && gold[k].startSample <= sample < gold[k].endSample ==>
              var place := Length(gold, k) + sample - gold[k].startSample;
              && place < |PerSample(gold, predicted)|
              && PerSample(gold, predicted)[place].0 == gold[k]
              && PredictedAt(PerSample(gold, predicted)[place].1, predicted, sample)
  {
    if gold != [] {
      var init := gold[..|gold| - 1];
      EverySampleInItsPlace(init, predicted, k, sample);
      SameLength(gold, init, |init|);
      if k < |init| {
        SameLength(gold, init, k);
      } else {
        AtIsPredicted(predicted, sample);
      }
    }
  }

  lemma {:induction false} SameLength<V>(track: seq<Region<V>>, init: seq<Region<V>>, n: nat)
    requires init <= track && n <= |init|
    requires forall i :: 0 <= i < |track| ==> track[i].startSample <= track[i].endSample
    ensures Length(track, n) == Length(init, n)
  {
    if n > 0 {
      SameLength(track, init, n - 1);
    }
  }

  lemma SamplesSplit<G, P>(gold: Region<G>, predicted: seq<Region<P>>, from: nat, middle: nat, to: nat)
    requires from <= middle <= to
    ensures SamplesOf(gold, predicted, from, to)
            == SamplesOf(gold, predicted, from, middle) + SamplesOf(gold, predicted, middle, to)
  {
  }

  method Sweep<G, P>(gold: seq<Region<G>>, predicted: seq<Region<P>>) returns (visits: seq<Visit<G, P>>)
    requires Ordered(gold) && Ordered(predicted)
    ensures Expand(visits) == PerSample(gold, predicted)
    ensures forall v :: v in visits ==> v.samples > 0
  {
    visits := [];
    var index := 0;
    for n := 0 to |gold|
      invariant index <= |predicted|
      invariant forall i, m :: 0 <= i < index && n <= m < |gold| ==> predicted[i].endSample <= gold[m].startSample
      invariant Expand(visits) == PerSample(gold[..n], predicted)
      invariant forall v :: v in visits ==> v.samples > 0
    {
      var item := gold[n];
      var cursor := item.startSample;
      ghost var before := Expand(visits);
      while cursor < item.endSample
        invariant item.startSample <= cursor <= item.endSample
        invariant index <= |predicted|
        invariant forall i :: 0 <= i < index ==> predicted[i].endSample <= cursor
        invariant Expand(visits) == before + SamplesOf(item, predicted, item.startSample, cursor)
        invariant forall v :: v in visits ==> v.samples > 0
      {
        while index < |predicted| && predicted[index].endSample <= cursor
          invariant index <= |predicted|
          invariant forall i :: 0 <= i < index ==> predicted[i].endSample <= cursor
        {
          index := index + 1;
        }
        var covering := index < |predicted| && predicted[index].startSample <= cursor;
        var bound := if covering then predicted[index].endSample
                     else if index < |predicted| then predicted[index].startSample else item.endSample;
        var end := if bound < item.endSample then bound else item.endSample;
        PieceIsUniform(item, predicted, index, cursor, end, covering);
        SamplesSplit(item, predicted, item.startSample, cursor, end);
        var visit := Visit(item, if covering then Some(predicted[index]) else None, end - cursor);
        assert (visits + [visit])[..|visits|] == visits;
        visits := visits + [visit];
        cursor := end;
      }
      assert gold[..n + 1][..n] == gold[..n];
    }
    assert gold[..|gold|] == gold;
  }

  // ----- scores over the sweep

  function Count<T>(items: seq<T>, p: T -> bool): nat {
    if items == [] then 0
    else Count(items[..|items| - 1], p) + if p(items[|items| - 1]) then 1 else 0
  }

  lemma {:induction false} CountConcat<T>(a: seq<T>, b: seq<T>, p: T -> bool)
    ensures Count(a + b, p) == Count(a, p) + Count(b, p)
  {
    if b == [] {
      assert a + b == a;
    } else {
      assert (a + b)[..|a + b| - 1] == a + b[..|b| - 1];
      CountConcat(a, b[..|b| - 1], p);
    }
  }

  lemma {:induction false} CountRepeat<T>(item: T, times: nat, p: T -> bool)
    ensures Count(Repeat(item, times), p) == if p(item) then times else 0
  {
    if times > 0 {
      assert Repeat(item, times)[..times - 1] == Repeat(item, times - 1);
      CountRepeat(item, times - 1, p);
    }
  }

  function Judged<G, P>(judge: (Region<G>, Option<Region<P>>) -> Verdict, verdict: Verdict): Sample<G, P> -> bool {
    (s: Sample<G, P>) => judge(s.0, s.1) == verdict
  }

  function Eligible<G, P>(judge: (Region<G>, Option<Region<P>>) -> Verdict): Sample<G, P> -> bool {
    (s: Sample<G, P>) => judge(s.0, s.1) != Ineligible
  }

  /**
   The share of eligible gold samples judged correct, although the sweep never looks at a sample.
  */
  method Agreement<G, P>(gold: seq<Region<G>>, predicted: seq<Region<P>>,
                         judge: (Region<G>, Option<Region<P>>) -> Verdict) returns (score: MetricValue)
    requires Ordered(gold) && Ordered(predicted)
    ensures var samples := PerSample(gold, predicted);
            score == Ratio(Count(samples, Judged(judge, Correct)), Count(samples, Eligible(judge)))
  {
    var visits := Sweep(gold, predicted);
    var correct, eligible := 0, 0;
    for n := 0 to |visits|
      invariant correct == Count(Expand(visits[..n]), Judged(judge, Correct))
      invariant eligible == Count(Expand(visits[..n]), Eligible(judge))
    {
      var visit := visits[n];
      var verdict := judge(visit.gold, visit.predicted);
      if verdict != Ineligible {
        eligible := eligible + visit.samples;
      }
      if verdict == Correct {
        correct := correct + visit.samples;
      }
      CountNext(visits, n, Judged(judge, Correct));
      CountNext(visits, n, Eligible(judge));
    }
    assert visits[..|visits|] == visits;
    score := Ratio(correct, eligible);
  }

  lemma CountVisit<G, P>(visits: seq<Visit<G, P>>, visit: Visit<G, P>, p: Sample<G, P> -> bool)
    ensures Count(Expand(visits + [visit]), p)
            == Count(Expand(visits), p) + if p((visit.gold, visit.predicted)) then visit.samples else 0
  {
    assert (visits + [visit])[..|visits|] == visits;
    CountConcat(Expand(visits), Repeat((visit.gold, visit.predicted), visit.samples), p);
    CountRepeat((visit.gold, visit.predicted), visit.samples, p);
  }

  lemma CountNext<G, P>(visits: seq<Visit<G, P>>, n: nat, p: Sample<G, P> -> bool)
    requires n < |visits|
    ensures Count(Expand(visits[..n + 1]), p)
            == Count(Expand(visits[..n]), p) + if p((visits[n].gold, visits[n].predicted)) then visits[n].samples else 0
  {
    assert visits[..n + 1] == visits[..n] + [visits[n]];
    CountVisit(visits[..n], visits[n], p);
  }

  // ----- calibration cells

  datatype Prediction<+V> = Prediction(value: V, abstained: bool, confidence: Option<real>)
  datatype Cell = Cell(confidence: real, samples: nat, correct: bool)

  /** What one sample contributes to calibration: its confidence, and whether the prediction was right. */
  function Calibrate<V(==)>(sample: Sample<V, Prediction<V>>, ignored: V -> bool): Option<(real, bool)> {
    if ignored(sample.0.value) || sample.1 == None then None
    else
      var prediction := sample.1.value.value;
      if prediction.abstained || prediction.confidence == None then None
      else Some((prediction.confidence.value, prediction.value == sample.0.value))
  }

  /**
   A gold sample counts with the confidence of a prediction
   that has one and has not abstained, and as right or wrong.
  */
  lemma CalibratedExactly<V>(gold: Region<V>, predicted: Option<Region<Prediction<V>>>, ignored: V -> bool,
                             confidence: real, right: bool)
    ensures Calibrate((gold, predicted), ignored) == Some((confidence, right)) <==>
            && !ignored(gold.value) && predicted.Some? && !predicted.value.value.abstained
            && predicted.value.value.confidence == Some(confidence)
            && (right <==> predicted.value.value.value == gold.value)
  {
  }

  function Collect<V(==)>(samples: seq<Sample<V, Prediction<V>>>, ignored: V -> bool): seq<(real, bool)> {
    if samples == [] then []
    else
      var last := Calibrate(samples[|samples| - 1], ignored);
      Collect(samples[..|samples| - 1], ignored) + if last == None then [] else [last.value]
  }

  function ExpandCells(cells: seq<Cell>): seq<(real, bool)> {
    if cells == [] then []
    else
      var last := cells[|cells| - 1];
      ExpandCells(cells[..|cells| - 1]) + Repeat((last.confidence, last.correct), last.samples)
  }

  lemma {:induction false} CollectRepeat<V>(samples: seq<Sample<V, Prediction<V>>>, sample: Sample<V, Prediction<V>>,
                                            times: nat, ignored: V -> bool)
    ensures Collect(samples + Repeat(sample, times), ignored)
            == var c := Calibrate(sample, ignored);
               Collect(samples, ignored) + if c == None then [] else Repeat(c.value, times)
  {
    if times == 0 {
      assert samples + Repeat(sample, times) == samples;
    } else {
      var all := samples + Repeat(sample, times);
      assert all[..|all| - 1] == samples + Repeat(sample, times - 1);
      CollectRepeat(samples, sample, times - 1, ignored);
      var c := Calibrate(sample, ignored);
      if c != None {
        assert Repeat(c.value, times - 1) + [c.value] == Repeat(c.value, times);
      }
    }
  }

  lemma CollectNext<V>(visits: seq<Visit<V, Prediction<V>>>, n: nat, ignored: V -> bool)
    requires n < |visits|
    ensures var c := Calibrate((visits[n].gold, visits[n].predicted), ignored);
            Collect(Expand(visits[..n + 1]), ignored)
            == Collect(Expand(visits[..n]), ignored) + if c == None then [] else Repeat(c.value, visits[n].samples)
  {
    assert visits[..n + 1][..n] == visits[..n];
    CollectRepeat(Expand(visits[..n]), (visits[n].gold, visits[n].predicted), visits[n].samples, ignored);
  }

  lemma ExpandCellsSnoc(cells: seq<Cell>, cell: Cell)
    ensures ExpandCells(cells + [cell]) == ExpandCells(cells) + Repeat((cell.confidence, cell.correct), cell.samples)
  {
    assert (cells + [cell])[..|cells|] == cells;
  }

  /** The cells spell out, sample by sample, the calibration record of the whole gold track. */
  method CalibrationCells<V(==)>(gold: seq<Region<V>>, predicted: seq<Region<Prediction<V>>>, ignored: V -> bool)
    returns (cells: seq<Cell>, eligibleSamples: nat)
    requires Ordered(gold) && Ordered(predicted)
    ensures ExpandCells(cells) == Collect(PerSample(gold, predicted), ignored)
    ensures eligibleSamples == Count(PerSample(gold, predicted), (s: Sample<V, Prediction<V>>) => !ignored(s.0.value))
  {
    var visits := Sweep(gold, predicted);
    cells, eligibleSamples := [], 0;
    ghost var counted := (s: Sample<V, Prediction<V>>) => !ignored(s.0.value);
    for n := 0 to |visits|
      invariant ExpandCells(cells) == Collect(Expand(visits[..n]), ignored)
      invariant eligibleSamples == Count(Expand(visits[..n]), counted)
    {
      var visit := visits[n];
      CountNext(visits, n, counted);
      CollectNext(visits, n, ignored);
      if !ignored(visit.gold.value) {
        eligibleSamples := eligibleSamples + visit.samples;
        if visit.predicted.Some? && !visit.predicted.value.value.abstained
          && visit.predicted.value.value.confidence.Some? {
          var prediction := visit.predicted.value.value;
          var cell := Cell(prediction.confidence.value, visit.samples, prediction.value == visit.gold.value);
          ExpandCellsSnoc(cells, cell);
          cells := cells + [cell];
        }
      }
    }
    assert visits[..|visits|] == visits;
  }
}
