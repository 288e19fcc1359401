/** The fit against arbitrary non-decreasing lists of values, one per sorted record:
    it is the best of them for every outcome exactly when no signal repeats. */
module CalibrationSequences {
  import opened RealArithmetic
  import opened Calibration
  import opened CalibrationOptimality
  import opened CalibrationTies

  /** One value per sorted record, never falling. */
  ghost predicate Rising(vs: seq<real>) {
    forall i, j :: 0 <= i <= j < |vs| ==> vs[i] <= vs[j]
  }

  function Squared(d: real): real { d * d }

  /** Squared error of the first k values. */
  function SequenceLoss(points: seq<Point>, vs: seq<real>, k: nat): real
    requires k <= |points| && k <= |vs|
  {
    if k == 0 then 0.0
    else SequenceLoss(points, vs, k - 1) + Squared(vs[k - 1] - points[k - 1].outcome as real)
  }

  /** No rising list of values fits the outcomes with less squared error. */
  ghost predicate BestSequence(points: seq<Point>) {
    points != [] ==> FitPoints(points) != [] && forall vs :: Rising(vs) && |vs| == |points| ==>
      Loss(points, FittedCurve(FitPoints(points))) <= SequenceLoss(points, vs, |points|)
  }

  ghost predicate DistinctSignals(signals: seq<real>) {
    forall i, j :: 0 <= i < j < |signals| ==> signals[i] != signals[j]
  }

  // ----- a rising list is a curve when no signal repeats -----

  /** The value of the last of the first k records that is not above x, else the first value. */
  function StepAt(points: seq<Point>, vs: seq<real>, k: nat, x: real): real
    requires 0 < k <= |points| && |vs| == |points|
  {
    if k == 1 || points[k - 1].signal <= x then vs[k - 1] else StepAt(points, vs, k - 1, x)
  }

  lemma {:induction false} StepIsValue(points: seq<Point>, vs: seq<real>, k: nat, x: real) returns (i: nat)
    requires 0 < k <= |points| && |vs| == |points|
    ensures i < k && StepAt(points, vs, k, x) == vs[i]
    ensures i == 0 || points[i].signal <= x
    ensures forall j :: i < j < k ==> points[j].signal > x
  {
    if k == 1 || points[k - 1].signal <= x {
      i := k - 1;
    } else {
      i := StepIsValue(points, vs, k - 1, x);
    }
  }

  lemma StepIsRising(points: seq<Point>, vs: seq<real>, x: real, y: real)
    requires points != [] && |vs| == |points| && Rising(vs) && x <= y
    ensures StepAt(points, vs, |points|, x) <= StepAt(points, vs, |points|, y)
  {
    hide StepAt;
    var i := StepIsValue(points, vs, |points|, x);
    var j := StepIsValue(points, vs, |points|, y);
  }

  lemma StepHits(points: seq<Point>, vs: seq<real>, i: nat)
    requires i < |points| && |vs| == |points|
    requires forall j :: i < j < |points| ==> points[i].signal < points[j].signal
    ensures StepAt(points, vs, |points|, points[i].signal) == vs[i]
  {
    hide StepAt;
    var j := StepIsValue(points, vs, |points|, points[i].signal);
  }

  function StepCurve(points: seq<Point>, vs: seq<real>): Curve
    requires points != [] && |vs| == |points|
  {
    x => StepAt(points, vs, |points|, x)
  }

  lemma {:induction false} LossOfCurve(points: seq<Point>, vs: seq<real>, g: Curve, k: nat)
    requires k <= |points| && |vs| == |points| && forall i :: 0 <= i < k ==> g(points[i].signal) == vs[i]
    ensures Loss(points[..k], g) == SequenceLoss(points, vs, k)
  {
    if k > 0 {
      LossOfCurve(points, vs, g, k - 1);
      assert points[..k][..k - 1] == points[..k - 1];
    }
  }

  lemma StepCurveLoss(points: seq<Point>, vs: seq<real>)
    requires points != [] && |vs| == |points| && Rising(vs)
    requires forall i, j :: 0 <= i < j < |points| ==> points[i].signal < points[j].signal
    ensures NonDecreasing(StepCurve(points, vs))
    ensures Loss(points, StepCurve(points, vs)) == SequenceLoss(points, vs, |points|)
  {
    hide StepAt, Loss, SequenceLoss;
    var g := StepCurve(points, vs);
    forall x, y | x <= y ensures g(x) <= g(y) {
      StepIsRising(points, vs, x, y);
    }
    forall i | 0 <= i < |points| ensures g(points[i].signal) == vs[i] {
      StepHits(points, vs, i);
    }
    LossOfCurve(points, vs, g, |points|);
    assert points[..|points|] == points;
  }

  lemma DistinctIsBest(points: seq<Point>)
    requires Sorted(points) && forall i, j :: 0 <= i < j < |points| ==> points[i].signal != points[j].signal
    ensures BestSequence(points)
  {
    hide Loss, SequenceLoss, StepCurve, NonDecreasing, Rising, FitPoints;
    TieSafeFitIsLeastSquares(points);
    if points != [] {
      forall vs | Rising(vs) && |vs| == |points|
        ensures Loss(points, FittedCurve(FitPoints(points))) <= SequenceLoss(points, vs, |points|)
      {
        StepCurveLoss(points, vs);
      }
    }
  }

  // ----- a repeated signal misses -----

  lemma {:induction false} LossSign(points: seq<Point>, g: Curve)
    ensures Loss(points, g) >= 0.0
    ensures Loss(points, g) == 0.0 ==>
      forall i :: 0 <= i < |points| ==> g(points[i].signal) == points[i].outcome as real
  {
    hide LossAt;
    if points != [] {
      LossSign(points[..|points| - 1], g);
      LossAtSign(points[|points| - 1], g);
    }
  }

  lemma LossAtSign(p: Point, g: Curve)
    ensures LossAt(p, g) >= 0.0 && (LossAt(p, g) == 0.0 ==> g(p.signal) == p.outcome as real)
  {
    var d := g(p.signal) - p.outcome as real;
    SquareNonNegative(d);
    if d * d == 0.0 { ZeroProduct(d, d); }
    assert LossAt(p, g) == d * d;
  }

  lemma {:induction false} ExactLoss(points: seq<Point>, vs: seq<real>, k: nat)
    requires k <= |points| == |vs| && forall i :: 0 <= i < k ==> vs[i] == points[i].outcome as real
    ensures SequenceLoss(points, vs, k) == 0.0
  {
    if k > 0 { ExactLoss(points, vs, k - 1); }
  }

  /** Failures up to a repeated signal and successes from it on. */
  function RiseAt(n: nat, i: nat): (outcomes: seq<Bit>)
    ensures |outcomes| == n
  {
    seq(n, j requires 0 <= j < n => if j < i then 0 else 1)
  }

  lemma RepeatMisses(signals: seq<real>, i: nat)
    requires 0 < i < |signals| && signals[i - 1] == signals[i]
    ensures !BestSequence(WithOutcomes(signals, RiseAt(|signals|, i)))
  {
    hide Loss, SequenceLoss, FitPoints;
    var points := WithOutcomes(signals, RiseAt(|signals|, i));
    var vs := seq(|signals|, j requires 0 <= j < |signals| => points[j].outcome as real);
    ExactLoss(points, vs, |points|);
    if FitPoints(points) != [] {
      var fit := FittedCurve(FitPoints(points));
      LossSign(points, fit);
      assert fit(points[i - 1].signal) == fit(points[i].signal);
    }
  }

  /** The fit is the best rising list of values for every outcome exactly when no signal repeats. */
  lemma BestSequenceForAllOutcomesIffDistinct(signals: seq<real>)
    requires SortedSignals(signals)
    ensures DistinctSignals(signals) <==>
      forall outcomes: seq<Bit> :: |outcomes| == |signals| ==> BestSequence(WithOutcomes(signals, outcomes))
  {
    hide BestSequence;
    if DistinctSignals(signals) {
      forall outcomes: seq<Bit> | |outcomes| == |signals| ensures BestSequence(WithOutcomes(signals, outcomes)) {
        DistinctIsBest(WithOutcomes(signals, outcomes));
      }
    } else {
      var i, j :| 0 <= i < j < |signals| && signals[i] == signals[j];
      assert signals[j - 1] == signals[j];
      RepeatMisses(signals, j);
    }
  }
}
