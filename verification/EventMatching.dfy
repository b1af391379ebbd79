/**
 The greedy two-pointer matcher behind the beat and section-boundary F-measures.

 A pairing is any one-to-one set of (reference, estimate) index pairs whose time differences are
 tolerated. The matcher never looks back, and still returns the size of a largest pairing.
*/
module EventMatching {
  import opened MetricValue

  /** A pairing sends reference indices to estimate indices. */
  type Pairing = map<nat, nat>

  ghost predicate Sorted(times: seq<int>) {
    forall i, j :: 0 <= i < j < |times| ==> times[i] <= times[j]
  }

  function Abs(d: int): nat {
    if d < 0 then -d else d
  }

  /** The matching window as its two callers scale it: `limit` is the window in milliseconds times the sample rate. */
  predicate Within(delta: int, limit: nat) {
    Abs(delta) * 1000 <= limit
  }

  /** The window reaches as far before an event as behind it, its ends included. */
  lemma WindowIsClosed(delta: int, limit: nat)
    ensures Within(delta, limit) <==> 0 - limit <= 1000 * delta <= limit
  {
  }

  ghost predicate Tolerated(i: nat, j: nat, reference: seq<int>, estimate: seq<int>, limit: nat) {
    i < |reference| && j < |estimate| && Within(estimate[j] - reference[i], limit)
  }

  ghost predicate OneToOne(p: Pairing) {
    forall a, b :: a in p && b in p && a != b ==> p[a] != p[b]
  }

  ghost predicate IsPairing(p: Pairing, reference: seq<int>, estimate: seq<int>, limit: nat) {
    OneToOne(p) && forall i :: i in p ==> Tolerated(i, p[i], reference, estimate, limit)
  }

  /** `n` is the size of a largest pairing: some pairing has it, and none is larger. */
  ghost predicate IsMaximum(n: nat, reference: seq<int>, estimate: seq<int>, limit: nat) {
    && (exists p: Pairing :: IsPairing(p, reference, estimate, limit) && |p| == n)
    && (forall p: Pairing :: IsPairing(p, reference, estimate, limit) ==> |p| <= n)
  }

  ghost predicate Beyond(p: Pairing, i: nat, j: nat) {
    forall k :: k in p ==> i <= k && j <= p[k]
  }

  ghost predicate Before(p: Pairing, i: nat, j: nat) {
    forall k :: k in p ==> k < i && p[k] < j
  }

  /** No pairing beats the matches made so far by more than some pairing of what is left. */
  ghost predicate Extends(p: Pairing, matched: nat, i: nat, j: nat,
                          reference: seq<int>, estimate: seq<int>, limit: nat) {
    exists rest: Pairing :: IsPairing(rest, reference, estimate, limit) && Beyond(rest, i, j) && |p| <= matched + |rest|
  }

  ghost predicate NothingLost(matched: nat, i: nat, j: nat,
                              reference: seq<int>, estimate: seq<int>, limit: nat) {
    forall p: Pairing {:trigger Extends(p, matched, i, j, reference, estimate, limit)} ::
      IsPairing(p, reference, estimate, limit) ==> Extends(p, matched, i, j, reference, estimate, limit)
  }

  /**
   If `i` and `j` are within tolerance and so are two later
   partners of theirs, the later two are within tolerance.
  */
  lemma Uncross(i: nat, j: nat, k: nat, l: nat, reference: seq<int>, estimate: seq<int>, limit: nat)
    requires Sorted(reference) && Sorted(estimate)
    requires i <= k && j <= l
    requires Tolerated(i, l, reference, estimate, limit) && Tolerated(k, j, reference, estimate, limit)
    ensures Tolerated(k, l, reference, estimate, limit)
  {
    var late, early := estimate[l] - reference[i], estimate[j] - reference[k];
    var crossed := estimate[l] - reference[k];
    assert reference[i] <= reference[k] && estimate[j] <= estimate[l];
    assert early <= crossed <= late;
    assert Abs(crossed) <= Abs(late) || Abs(crossed) <= Abs(early);
  }

  lemma WithoutPair(p: Pairing, k: nat, reference: seq<int>, estimate: seq<int>, limit: nat)
    requires IsPairing(p, reference, estimate, limit)
    ensures IsPairing(p - {k}, reference, estimate, limit) && |p| <= 1 + |p - {k}|
  {
    assert (p - {k}).Keys == p.Keys - {k};
    assert forall i :: i in p - {k} ==> Tolerated(i, p[i], reference, estimate, limit);
  }

  lemma WithPair(p: Pairing, k: nat, l: nat, reference: seq<int>, estimate: seq<int>, limit: nat)
    requires IsPairing(p, reference, estimate, limit) && Tolerated(k, l, reference, estimate, limit)
    requires k !in p && forall i :: i in p ==> p[i] != l
    ensures IsPairing(p[k := l], reference, estimate, limit) && |p[k := l]| == |p| + 1
  {
  }

  /** The crossed partners of `i` and `j` can be paired with each other instead. */
  lemma Recross(p: Pairing, i: nat, j: nat, k: nat, reference: seq<int>, estimate: seq<int>, limit: nat)
    returns (rest: Pairing)
    requires Sorted(reference) && Sorted(estimate)
    requires IsPairing(p, reference, estimate, limit) && Beyond(p, i, j)
    requires i in p && k in p && k != i && p[k] == j
    ensures IsPairing(rest, reference, estimate, limit) && Beyond(rest, i + 1, j + 1) && |p| <= 1 + |rest|
  {
    var l := p[i];
    Uncross(i, j, k, l, reference, estimate, limit);
    var rest0 := p - {i} - {k};
    assert rest0.Keys == p.Keys - {i} - {k};
    assert IsPairing(rest0, reference, estimate, limit) by {
      WithoutPair(p, i, reference, estimate, limit);
      WithoutPair(p - {i}, k, reference, estimate, limit);
    }
    assert Beyond(rest0, i + 1, j + 1);
    WithPair(rest0, k, l, reference, estimate, limit);
    rest := rest0[k := l];
  }

  /** The exchange argument: a pairing loses at most one pair when its two lowest events are matched together. */
  lemma Exchange(p: Pairing, i: nat, j: nat, reference: seq<int>, estimate: seq<int>, limit: nat)
    returns (rest: Pairing)
    requires Sorted(reference) && Sorted(estimate)
    requires IsPairing(p, reference, estimate, limit) && Beyond(p, i, j)
    ensures IsPairing(rest, reference, estimate, limit) && Beyond(rest, i + 1, j + 1) && |p| <= 1 + |rest|
  {
    if k :| k in p && p[k] == j && k != i && i in p {
      rest := Recross(p, i, j, k, reference, estimate, limit);
    } else {
      var k := if k :| k in p && p[k] == j then k else i;
      WithoutPair(p, k, reference, estimate, limit);
      rest := p - {k};
    }
  }

  lemma NothingLostByMatching(matched: nat, i: nat, j: nat,
                              reference: seq<int>, estimate: seq<int>, limit: nat)
    requires Sorted(reference) && Sorted(estimate)
    requires Tolerated(i, j, reference, estimate, limit)
    requires NothingLost(matched, i, j, reference, estimate, limit)
    ensures NothingLost(matched + 1, i + 1, j + 1, reference, estimate, limit)
  {
    forall p: Pairing | IsPairing(p, reference, estimate, limit)
      ensures Extends(p, matched + 1, i + 1, j + 1, reference, estimate, limit)
    {
      assert Extends(p, matched, i, j, reference, estimate, limit);
      var before: Pairing :| IsPairing(before, reference, estimate, limit) && Beyond(before, i, j)
        && |p| <= matched + |before|;
      var _ := Exchange(before, i, j, reference, estimate, limit);
    }
  }

  lemma SkippingEstimate(rest: Pairing, i: nat, j: nat, reference: seq<int>, estimate: seq<int>, limit: nat)
    requires Sorted(reference) && i < |reference| && j < |estimate|
    requires !Tolerated(i, j, reference, estimate, limit) && estimate[j] < reference[i]
    requires IsPairing(rest, reference, estimate, limit) && Beyond(rest, i, j)
    ensures Beyond(rest, i, j + 1)
  {
  }

  /** An estimate too early for the reference event at hand is too early for every later one. */
  lemma NothingLostBySkippingEstimate(matched: nat, i: nat, j: nat, reference: seq<int>, estimate: seq<int>, limit: nat)
    requires Sorted(reference) && i < |reference| && j < |estimate|
    requires !Tolerated(i, j, reference, estimate, limit) && estimate[j] < reference[i]
    requires NothingLost(matched, i, j, reference, estimate, limit)
    ensures NothingLost(matched, i, j + 1, reference, estimate, limit)
  {
    forall p: Pairing | IsPairing(p, reference, estimate, limit)
      ensures Extends(p, matched, i, j + 1, reference, estimate, limit)
    {
      assert Extends(p, matched, i, j, reference, estimate, limit);
      var rest: Pairing :| IsPairing(rest, reference, estimate, limit) && Beyond(rest, i, j) && |p| <= matched + |rest|;
      SkippingEstimate(rest, i, j, reference, estimate, limit);
    }
  }

  lemma SkippingReference(rest: Pairing, i: nat, j: nat, reference: seq<int>, estimate: seq<int>, limit: nat)
    requires Sorted(estimate) && i < |reference| && j < |estimate|
    requires !Tolerated(i, j, reference, estimate, limit) && estimate[j] >= reference[i]
    requires IsPairing(rest, reference, estimate, limit) && Beyond(rest, i, j)
    ensures Beyond(rest, i + 1, j)
  {
  }

  /** A reference event too early for the estimate at hand is too early for every later one. */
  lemma NothingLostBySkippingReference(matched: nat, i: nat, j: nat, reference: seq<int>, estimate: seq<int>,
                                       limit: nat)
    requires Sorted(estimate) && i < |reference| && j < |estimate|
    requires !Tolerated(i, j, reference, estimate, limit) && estimate[j] >= reference[i]
    requires NothingLost(matched, i, j, reference, estimate, limit)
    ensures NothingLost(matched, i + 1, j, reference, estimate, limit)
  {
    forall p: Pairing | IsPairing(p, reference, estimate, limit)
      ensures Extends(p, matched, i + 1, j, reference, estimate, limit)
    {
      assert Extends(p, matched, i, j, reference, estimate, limit);
      var rest: Pairing :| IsPairing(rest, reference, estimate, limit) && Beyond(rest, i, j) && |p| <= matched + |rest|;
      SkippingReference(rest, i, j, reference, estimate, limit);
    }
  }

  lemma NothingLostAtFirst(reference: seq<int>, estimate: seq<int>, limit: nat)
    ensures NothingLost(0, 0, 0, reference, estimate, limit)
  {
    forall p: Pairing | IsPairing(p, reference, estimate, limit)
      ensures Extends(p, 0, 0, 0, reference, estimate, limit)
    {
      assert Beyond(p, 0, 0);
    }
  }

  lemma MadeOneMore(made: Pairing, i: nat, j: nat, reference: seq<int>, estimate: seq<int>, limit: nat)
    requires IsPairing(made, reference, estimate, limit) && Before(made, i, j)
             && Tolerated(i, j, reference, estimate, limit)
    ensures IsPairing(made[i := j], reference, estimate, limit) && Before(made[i := j], i + 1, j + 1)
    ensures |made[i := j]| == |made| + 1
  {
    WithPair(made, i, j, reference, estimate, limit);
  }

  method MatchEvents(reference: seq<int>, estimate: seq<int>, limit: nat) returns (matched: nat)
    requires Sorted(reference) && Sorted(estimate)
    ensures IsMaximum(matched, reference, estimate, limit)
  {
    var i, j := 0, 0;
    matched := 0;
    ghost var made: Pairing := map[];
    NothingLostAtFirst(reference, estimate, limit);
    while i < |reference| && j < |estimate|
      invariant i <= |reference| && j <= |estimate|
      invariant IsPairing(made, reference, estimate, limit) && Before(made, i, j) && |made| == matched
      invariant NothingLost(matched, i, j, reference, estimate, limit)
      decreases |reference| - i + |estimate| - j
    {
      var delta := estimate[j] - reference[i];
      if Within(delta, limit) {
        NothingLostByMatching(matched, i, j, reference, estimate, limit);
        MadeOneMore(made, i, j, reference, estimate, limit);
        made := made[i := j];
        matched, i, j := matched + 1, i + 1, j + 1;
      } else if delta < 0 {
        NothingLostBySkippingEstimate(matched, i, j, reference, estimate, limit);
        j := j + 1;
      } else {
        NothingLostBySkippingReference(matched, i, j, reference, estimate, limit);
        i := i + 1;
      }
    }
    NoneLeft(matched, i, j, reference, estimate, limit);
  }

  /** Once one side is used up, nothing is left to pair. */
  lemma NoneLeft(matched: nat, i: nat, j: nat, reference: seq<int>, estimate: seq<int>, limit: nat)
    requires i >= |reference| || j >= |estimate|
    requires NothingLost(matched, i, j, reference, estimate, limit)
    ensures forall p: Pairing :: IsPairing(p, reference, estimate, limit) ==> |p| <= matched
  {
    forall p: Pairing | IsPairing(p, reference, estimate, limit)
      ensures |p| <= matched
    {
      assert Extends(p, matched, i, j, reference, estimate, limit);
      var rest: Pairing :| IsPairing(rest, reference, estimate, limit) && Beyond(rest, i, j) && |p| <= matched + |rest|;
      assert rest.Keys == {};
      assert |rest| == 0;
    }
  }

  // ----- the F-measure

  /** The documented score, with the largest pairing in place of the greedy count. */
  ghost predicate IsFMeasure(score: MetricValue, reference: seq<int>, estimate: seq<int>, limit: nat) {
    if |reference| == 0 then score == NotApplicable
    else exists n: nat :: IsMaximum(n, reference, estimate, limit)
                          && score == Ratio(2 * n, |reference| + |estimate|)
  }

  method FMeasure(reference: seq<int>, estimate: seq<int>, windowMs: nat, sampleRate: nat) returns (score: MetricValue)
    requires Sorted(reference) && Sorted(estimate)
    ensures IsFMeasure(score, reference, estimate, windowMs * sampleRate)
  {
    if |reference| == 0 {
      return NotApplicable;
    }
    var matched := MatchEvents(reference, estimate, windowMs * sampleRate);
    score := Ratio(2 * matched, |reference| + |estimate|);
  }

  ghost function Flip(p: Pairing): (q: Pairing)
    requires OneToOne(p)
    ensures forall i :: i in p ==> p[i] in q && q[p[i]] == i
    ensures forall j :: j in q ==> q[j] in p && p[q[j]] == j
  {
    map i | i in p :: p[i] := i
  }

  lemma FlipPairing(p: Pairing, reference: seq<int>, estimate: seq<int>, limit: nat) returns (q: Pairing)
    requires IsPairing(p, reference, estimate, limit)
    ensures IsPairing(q, estimate, reference, limit) && |q| == |p|
    ensures forall j :: j in q ==> j < |estimate|
  {
    q := Flip(p);
    forall j | j in q
      ensures Tolerated(j, q[j], estimate, reference, limit)
    {
      assert Tolerated(q[j], j, reference, estimate, limit);
      assert reference[q[j]] - estimate[j] == -(estimate[j] - reference[q[j]]);
    }
    SameSize(p, q);
    SameSize(q, p);
  }

  /** An injection between finite maps cannot shrink them. */
  lemma {:induction false} SameSize(p: Pairing, q: Pairing)
    requires OneToOne(p) && forall i :: i in p ==> p[i] in q
    ensures |p| <= |q|
    decreases |p|
  {
    if i :| i in p {
      var p' := p - {i};
      var q' := q - {p[i]};
      assert p'.Keys == p.Keys - {i} && q'.Keys == q.Keys - {p[i]};
      SameSize(p', q');
    }
  }

  /** Exchanging the two inputs keeps the size of a largest pairing. */
  lemma MaximumIsSymmetric(n: nat, reference: seq<int>, estimate: seq<int>, limit: nat)
    requires IsMaximum(n, reference, estimate, limit)
    ensures IsMaximum(n, estimate, reference, limit)
  {
    var best: Pairing :| IsPairing(best, reference, estimate, limit) && |best| == n;
    var _ := FlipPairing(best, reference, estimate, limit);
    forall p: Pairing | IsPairing(p, estimate, reference, limit)
      ensures |p| <= n
    {
      var _ := FlipPairing(p, estimate, reference, limit);
    }
  }

  /** A pairing uses each reference event at most once. */
  lemma {:induction false} PairingIsBounded(p: Pairing, bound: nat)
    requires forall i :: i in p ==> i < bound
    ensures |p| <= bound
  {
    if bound == 0 {
      assert p.Keys == {};
    } else {
      var p' := p - {bound - 1};
      assert p'.Keys == p.Keys - {bound - 1};
      PairingIsBounded(p', bound - 1);
    }
  }

  lemma MaximumIsBounded(n: nat, reference: seq<int>, estimate: seq<int>, limit: nat)
    requires IsMaximum(n, reference, estimate, limit)
    ensures n <= |reference| && n <= |estimate|
  {
    var best: Pairing :| IsPairing(best, reference, estimate, limit) && |best| == n;
    PairingIsBounded(best, |reference|) by {
      assert forall i :: i in best ==> Tolerated(i, best[i], reference, estimate, limit);
    }
    var flipped := FlipPairing(best, reference, estimate, limit);
    PairingIsBounded(flipped, |estimate|);
  }

  lemma RatioIsAFraction(numerator: nat, denominator: nat)
    requires numerator <= denominator && denominator > 0
    ensures 0.0 <= numerator as real / denominator as real <= 1.0
  {
  }

  /** A score never leaves [0, 1]. */
  lemma FMeasureIsAFraction(score: MetricValue, reference: seq<int>, estimate: seq<int>, limit: nat)
    requires IsFMeasure(score, reference, estimate, limit)
    ensures score.Scored? ==> 0.0 <= score.value <= 1.0 && score.numerator <= score.denominator
  {
    if |reference| > 0 {
      var n: nat :| IsMaximum(n, reference, estimate, limit) && score == Ratio(2 * n, |reference| + |estimate|);
      MaximumIsBounded(n, reference, estimate, limit);
      RatioIsAFraction(2 * n, |reference| + |estimate|);
    }
  }

  /**
   The score is symmetric in its inputs exactly when neither or both of them are empty: an empty
   reference does not apply, while an empty estimate scores zero.
  */
  lemma FMeasureIsSymmetric(forth: MetricValue, back: MetricValue, reference: seq<int>, estimate: seq<int>, limit: nat)
    requires IsFMeasure(forth, reference, estimate, limit)
    requires IsFMeasure(back, estimate, reference, limit)
    ensures forth == back <==> (|reference| == 0 <==> |estimate| == 0)
  {
    if |reference| > 0 && |estimate| > 0 {
      var m: nat :| IsMaximum(m, reference, estimate, limit) && forth == Ratio(2 * m, |reference| + |estimate|);
      var n: nat :| IsMaximum(n, estimate, reference, limit) && back == Ratio(2 * n, |estimate| + |reference|);
      MaximumIsSymmetric(m, reference, estimate, limit);
      assert m == n;
    }
  }
}
