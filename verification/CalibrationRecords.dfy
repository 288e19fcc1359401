/** What harmful ties mean for training records: which lists of records keep the
    fit least squares whatever gold scores they get. */
module CalibrationRecords {
  import opened RealArithmetic
  import opened Wrappers
  import opened Calibration
  import opened CalibrationOptimality
  import opened CalibrationTies

  /** A record whose outcome its gold score decides. */
  predicate Gradable(o: Observation) {
    o.schemaValid && o.evidenceValid && o.maxScore > 0.0 && 0.0 <= o.modelScore <= o.maxScore
  }

  ghost predicate AllGradable(records: seq<Observation>) {
    forall i :: 0 <= i < |records| ==> Gradable(records[i])
  }

  function SignalsOf(points: seq<Point>): (signals: seq<real>)
    ensures |signals| == |points|
  {
    seq(|points|, i requires 0 <= i < |points| => points[i].signal)
  }

  /** The signals in the order the fit puts them first. */
  function SortedSignalsOf(records: seq<Observation>): seq<real> {
    SignalsOf(SortBySignal(Points(records)))
  }

  ghost predicate GoldScores(records: seq<Observation>, golds: seq<real>) {
    |golds| == |records| && forall i :: 0 <= i < |golds| ==> 0.0 <= golds[i] <= records[i].maxScore
  }

  function WithGolds(records: seq<Observation>, golds: seq<real>): (graded: seq<Observation>)
    requires |golds| == |records|
    ensures |graded| == |records|
  {
    seq(|records|, i requires 0 <= i < |records| => records[i].(goldScore := golds[i]))
  }

  /** The fit of these records is no worse than any non-decreasing predictor. */
  ghost predicate FitIsLeastSquares(records: seq<Observation>) {
    LeastSquares(SortBySignal(Points(records)))
  }

  /** The gold score that brings about an outcome: the model's own, or one at the far end of the range. */
  function GoldFor(o: Observation, outcome: Bit): real {
    if outcome == 1 then o.modelScore else if o.modelScore + o.modelScore <= o.maxScore then o.maxScore else 0.0
  }

  lemma FarScore(distance: real, max: real)
    requires max > 0.0 && distance + distance >= max
    ensures distance / max > 0.1
  {
    QuotientSign(distance - 0.1 * max, max);
    QuotientDifference(distance, 0.1 * max, max);
    QuotientBack(0.1 * max, max);
    Cancel(0.1 * max / max, 0.1, max);
  }

  lemma GoldBringsOutcome(o: Observation, outcome: Bit)
    requires Gradable(o)
    ensures 0.0 <= GoldFor(o, outcome) <= o.maxScore
    ensures PointOf(o.(goldScore := GoldFor(o, outcome))) == Point(ReliabilitySignal(o), outcome)
  {
    if outcome == 1 {
      QuotientSign(0.0, o.maxScore);
    } else {
      FarScore(Abs(o.modelScore - GoldFor(o, outcome)), o.maxScore);
    }
  }

  /** Every outcome can come about. */
  lemma OutcomesAreReachable(records: seq<Observation>, points: seq<Point>) returns (golds: seq<real>)
    requires AllGradable(records) && SignalsOf(points) == SignalsOf(Points(records))
    ensures GoldScores(records, golds) && Points(WithGolds(records, golds)) == points
  {
    hide ReliabilitySignal, AcceptableAgreement, Gradable, GoldFor;
    golds := seq(|records|, i requires 0 <= i < |records| => GoldFor(records[i], points[i].outcome));
    forall i | 0 <= i < |records|
      ensures 0.0 <= golds[i] <= records[i].maxScore && Points(WithGolds(records, golds))[i] == points[i]
    {
      GoldBringsOutcome(records[i], points[i].outcome);
      assert SignalsOf(points)[i] == SignalsOf(Points(records))[i];
    }
  }

  // ----- sorting goes by signals alone -----

  lemma SignalsAppend(points: seq<Point>, p: Point)
    ensures SignalsOf(points + [p]) == SignalsOf(points) + [p.signal]
  {
  }

  /** Lists with the same signals agree on the last one and on the rest. */
  lemma SignalsSplit(a: seq<Point>, b: seq<Point>)
    requires SignalsOf(a) == SignalsOf(b) && a != []
    ensures |a| == |b|
    ensures SignalsOf(a[..|a| - 1]) == SignalsOf(b[..|a| - 1]) && a[|a| - 1].signal == b[|a| - 1].signal
  {
    var n := |a| - 1;
    assert |SignalsOf(a)| == |SignalsOf(b)|;
    assert SignalsOf(a)[n] == SignalsOf(b)[n];
    assert SignalsOf(a[..n]) == SignalsOf(a)[..n] && SignalsOf(b[..n]) == SignalsOf(b)[..n];
  }

  lemma SignalsCount(a: seq<Point>, b: seq<Point>)
    requires SignalsOf(a) == SignalsOf(b)
    ensures |a| == |b|
  {
    assert |SignalsOf(a)| == |SignalsOf(b)|;
  }

  lemma {:induction false} InsertSignals(a: seq<Point>, b: seq<Point>, p: Point, q: Point)
    requires SignalsOf(a) == SignalsOf(b) && p.signal == q.signal
    ensures SignalsOf(Insert(a, p)) == SignalsOf(Insert(b, q))
  {
    hide SignalsOf;
    SignalsCount(a, b);
    SignalsAppend(a, p);
    SignalsAppend(b, q);
    if a != [] {
      var n := |a| - 1;
      SignalsSplit(a, b);
      if a[n].signal > p.signal {
        InsertSignals(a[..n], b[..n], p, q);
        SignalsAppend(Insert(a[..n], p), a[n]);
        SignalsAppend(Insert(b[..n], q), b[n]);
      }
    }
  }

  lemma {:induction false} SortSignals(a: seq<Point>, b: seq<Point>)
    requires SignalsOf(a) == SignalsOf(b)
    ensures SignalsOf(SortBySignal(a)) == SignalsOf(SortBySignal(b))
  {
    hide Insert, SignalsOf;
    SignalsCount(a, b);
    if a != [] {
      var n := |a| - 1;
      SignalsSplit(a, b);
      SortSignals(a[..n], b[..n]);
      InsertSignals(SortBySignal(a[..n]), SortBySignal(b[..n]), a[n], b[n]);
    }
  }

  lemma InsertBefore(points: seq<Point>, p: Point, last: Point)
    requires p.signal < last.signal
    ensures Insert(points + [last], p) == Insert(points, p) + [last]
  {
    assert (points + [last])[..|points|] == points;
  }

  lemma InsertedLast(points: seq<Point>, p: Point)
    requires points == [] || points[|points| - 1].signal <= p.signal
    ensures Insert(points, p) == points + [p]
  {
  }

  /** Whatever outcomes the list is to show after an insertion, some outcomes before it bring them about. */
  lemma {:induction false} InsertReaches(points: seq<Point>, p: Point, target: seq<Point>)
      returns (before: seq<Point>, q: Point)
    requires SignalsOf(target) == SignalsOf(Insert(points, p))
    ensures SignalsOf(before) == SignalsOf(points) && q.signal == p.signal && Insert(before, q) == target
  {
    hide SignalsOf, Insert;
    SignalsCount(target, Insert(points, p));
    SignalsSplit(target, Insert(points, p));
    var n, m := |points|, |target| - 1;
    assert target == target[..m] + [target[m]];
    if points == [] || points[n - 1].signal <= p.signal {
      InsertedLast(points, p);
      assert Insert(points, p)[..m] == points;
      before, q := target[..m], target[m];
      if before != [] { SignalsSplit(before, points); }
      InsertedLast(before, q);
    } else {
      var init, last := points[..n - 1], points[n - 1];
      assert points == init + [last];
      InsertBefore(init, p, last);
      assert Insert(points, p)[..m] == Insert(init, p);
      before, q := InsertReaches(init, p, target[..m]);
      InsertBefore(before, q, target[m]);
      SignalsAppend(before, target[m]);
      SignalsAppend(init, last);
      before := before + [target[m]];
    }
  }

  /** And so for sorting. */
  lemma {:induction false} SortReaches(points: seq<Point>, target: seq<Point>) returns (before: seq<Point>)
    requires SignalsOf(target) == SignalsOf(SortBySignal(points))
    ensures SignalsOf(before) == SignalsOf(points) && SortBySignal(before) == target
  {
    hide Insert, SignalsOf;
    SignalsCount(target, SortBySignal(points));
    if points == [] {
      before := [];
    } else {
      var init, last := points[..|points| - 1], points[|points| - 1];
      assert points == init + [last];
      var front, q := InsertReaches(SortBySignal(init), last, target);
      before := SortReaches(init, front);
      assert (before + [q])[..|before|] == before;
      SignalsAppend(before, q);
      SignalsAppend(init, last);
      before := before + [q];
    }
  }

  function OutcomesOf(points: seq<Point>): (outcomes: seq<Bit>)
    ensures |outcomes| == |points|
  {
    seq(|points|, i requires 0 <= i < |points| => points[i].outcome)
  }

  lemma PointsFromOutcomes(points: seq<Point>)
    ensures WithOutcomes(SignalsOf(points), OutcomesOf(points)) == points
    ensures Sorted(points) ==> SortedSignals(SignalsOf(points))
  {
  }

  lemma GoldsKeepSignals(records: seq<Observation>, golds: seq<real>)
    requires |golds| == |records|
    ensures SignalsOf(Points(WithGolds(records, golds))) == SignalsOf(Points(records))
  {
    hide AcceptableAgreement;
    forall i | 0 <= i < |records|
      ensures ReliabilitySignal(WithGolds(records, golds)[i]) == ReliabilitySignal(records[i])
    {
    }
    hide ReliabilitySignal;
  }

  /** Whatever gold scores annotators give, the fit of these records is least squares exactly when their sorted
      signals are tie-safe. */
  lemma RecordsFitWellIffTieSafe(records: seq<Observation>)
    requires AllGradable(records)
    ensures TieSafeSignals(SortedSignalsOf(records)) <==>
      forall golds :: GoldScores(records, golds) ==> FitIsLeastSquares(WithGolds(records, golds))
  {
    hide LeastSquares, TieSafeSignals, AllGradable, Points, SortBySignal, SignalsOf, SortedSignals, Sorted,
      WithOutcomes, OutcomesOf;
    var signals := SortedSignalsOf(records);
    SortIsSorted(Points(records));
    PointsFromOutcomes(SortBySignal(Points(records)));
    LeastSquaresForAllOutcomesIffTieSafe(signals);
    if TieSafeSignals(signals) {
      forall golds | GoldScores(records, golds) ensures FitIsLeastSquares(WithGolds(records, golds)) {
        var points := Points(WithGolds(records, golds));
        GoldsKeepSignals(records, golds);
        SortSignals(points, Points(records));
        PointsFromOutcomes(SortBySignal(points));
        assert LeastSquares(WithOutcomes(signals, OutcomesOf(SortBySignal(points))));
      }
    } else {
      var outcomes: seq<Bit> :| |outcomes| == |signals| && !LeastSquares(WithOutcomes(signals, outcomes));
      SignalsWithOutcomes(signals, outcomes);
      var points := SortReaches(Points(records), WithOutcomes(signals, outcomes));
      var golds := OutcomesAreReachable(records, points);
      SameCount(records, golds);
    }
  }

  lemma SignalsWithOutcomes(signals: seq<real>, outcomes: seq<Bit>)
    requires |outcomes| == |signals|
    ensures SignalsOf(WithOutcomes(signals, outcomes)) == signals
  {
  }

  lemma SameCount(records: seq<Observation>, golds: seq<real>)
    requires GoldScores(records, golds)
    ensures |golds| == |records|
  {
  }

  // ----- the smallest harmful pattern -----

  /** A record with everything in order but the recognition. */
  function Recognised(confidence: real): Observation {
    Observation(true, true, true, Some(confidence), true, true, 5.0, 5.0, 10.0)
  }

  /** Five records, three of which were recognised perfectly. */
  const FIVE_RECORDS := [Recognised(0.0), Recognised(0.4), Recognised(1.0), Recognised(1.0), Recognised(1.0)]

  lemma FiveSignals()
    ensures SortedSignalsOf(FIVE_RECORDS) == [0.75, 0.85, 1.0, 1.0, 1.0]
  {
    hide Insert;
    var points := Points(FIVE_RECORDS);
    assert SignalsOf(points) == [0.75, 0.85, 1.0, 1.0, 1.0];
    forall k | 0 < k < 5 ensures points[k - 1].signal <= points[k].signal {
    }
    SortedPrefix(points, 5);
    assert points[..5] == points;
  }

  lemma {:induction false} SortedPrefix(points: seq<Point>, k: nat)
    requires k <= |points| && forall i :: 0 < i < |points| ==> points[i - 1].signal <= points[i].signal
    ensures SortBySignal(points[..k]) == points[..k]
  {
    hide Insert, SortBySignal;
    if k == 0 {
      NothingSorted(points[..k]);
    } else {
      SortedPrefix(points, k - 1);
      assert points[..k] == points[..k - 1] + [points[k - 1]];
      SortedLast(points[..k - 1], points[k - 1]);
    }
  }

  lemma NothingSorted(points: seq<Point>)
    requires points == []
    ensures SortBySignal(points) == []
  {
  }

  lemma SortedLast(points: seq<Point>, p: Point)
    requires SortBySignal(points) == points && (points == [] || points[|points| - 1].signal <= p.signal)
    ensures SortBySignal(points + [p]) == points + [p]
  {
    hide Insert;
    assert (points + [p])[..|points|] == points;
    InsertedLast(points, p);
  }

  /** Some gold scores for these five records leave the fit short of least squares. */
  lemma FiveRecordsCanMiss()
    ensures AllGradable(FIVE_RECORDS)
    ensures exists golds :: GoldScores(FIVE_RECORDS, golds) && !FitIsLeastSquares(WithGolds(FIVE_RECORDS, golds))
  {
    hide LeastSquares, SortBySignal;
    FiveSignals();
    var signals := SortedSignalsOf(FIVE_RECORDS);
    assert signals[3] == signals[4] != signals[1];
    RecordsFitWellIffTieSafe(FIVE_RECORDS);
  }
}
