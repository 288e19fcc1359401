/** Least squares: when the fitted step function is the best non-decreasing
    predictor of the training outcomes, and when ties make it miss. */
module CalibrationOptimality {
  import opened RealArithmetic
  import opened Calibration
  import opened CalibrationStructure

  type Curve = real -> real

  ghost predicate NonDecreasing(g: Curve) {
    forall x, y :: x <= y ==> g(x) <= g(y)
  }

  /** Squared error of the predictor g on the points. */
  function Loss(points: seq<Point>, g: Curve): real {
    if points == [] then 0.0
    else Loss(points[..|points| - 1], g) + LossAt(points[|points| - 1], g)
  }

  function LossAt(p: Point, g: Curve): real {
    var d := g(p.signal) - p.outcome as real;
    d * d
  }

  function FittedCurve(model: Model): Curve
    requires model != []
  {
    x => Predict(model, x)
  }

  /** The fit on these points is no worse than any non-decreasing predictor. */
  ghost predicate LeastSquares(points: seq<Point>) {
    points != [] ==>
      FitPoints(points) != [] && Best(points, FittedCurve(FitPoints(points)))
  }

  ghost predicate Best(points: seq<Point>, fit: Curve) {
    forall g: Curve :: NonDecreasing(g) ==> Loss(points, fit) <= Loss(points, g)
  }

  /** Every repeated signal either equals the second smallest record or is the
      fourth record, repeating the third. */
  ghost predicate TieSafe(points: seq<Point>) {
    forall i :: 1 <= i < |points| && points[i - 1].signal == points[i].signal ==>
      points[i].signal == points[1].signal || i == 3
  }

  // ----- every block stays heavy on its left -----

  ghost predicate Heavy(x: real, strict: bool) {
    if strict then x > 0.0 else x >= 0.0
  }

  /** Cutting points s..e where the signal rises leaves a left part whose
      outcomes are at (or above) the level m. */
  ghost predicate LeftHeavy(points: seq<Point>, s: nat, e: nat, m: real, strict: bool)
    requires e <= |points|
  {
    forall k :: s < k < e && points[k - 1].signal < points[k].signal ==> Heavy(Excess(points, s, k, m), strict)
  }

  ghost predicate HeavyStack(blocks: seq<Block>, points: seq<Point>, e: nat)
    requires e <= |points|
  {
    Covers(blocks, points, e) && MeansOrdered(blocks) && AllLeftHeavy(blocks, points, e, StrictAt(points, e))
  }

  ghost predicate AllLeftHeavy(blocks: seq<Block>, points: seq<Point>, e: nat, strict: bool)
    requires e <= |points| && Covers(blocks, points, e)
  {
    blocks != [] ==>
      var last := blocks[|blocks| - 1];
      var s := e - last.count;
      LeftHeavy(points, s, e, Mean(last), strict) && AllLeftHeavy(blocks[..|blocks| - 1], points, s, strict)
  }

  lemma MergeLeftHeavy(left: Block, right: Block, points: seq<Point>, s: nat, t: nat, e: nat, strict: bool)
    requires s < t < e <= |points|
    requires Describes(left, points, s, t) && Describes(right, points, t, e)
    requires Mean(left) > Mean(right)
    requires LeftHeavy(points, s, t, Mean(left), strict) && LeftHeavy(points, t, e, Mean(right), strict)
    ensures LeftHeavy(points, s, e, Mean(Merge(left, right)), strict)
  {
    hide Mean;
    var merged := Merge(left, right);
    var m := Mean(merged);
    MergedMeanBetween(left, right, points, s, t, e);
    BlockBalances(left, points, s, t);
    BlockBalances(right, points, t, e);
    BlockBalances(merged, points, s, e);
    forall k | s < k < e && points[k - 1].signal < points[k].signal
      ensures Heavy(Excess(points, s, k, m), strict)
    {
      if k <= t {
        ExcessAntitone(points, s, k, m, Mean(left));
      } else {
        ExcessSplits(points, s, k, e, m);
        ExcessSplits(points, t, k, e, Mean(right));
        ExcessAntitone(points, k, e, Mean(right), m);
      }
    }
  }

  lemma MergeTopTwo(blocks: seq<Block>, points: seq<Point>, e: nat, strict: bool)
    requires e <= |points| && Covers(blocks, points, e) && AllLeftHeavy(blocks, points, e, strict)
    requires |blocks| >= 2 && MeansOrdered(blocks[..|blocks| - 1])
    requires Mean(blocks[|blocks| - 2]) > Mean(blocks[|blocks| - 1])
    ensures var merged := blocks[..|blocks| - 2] + [Merge(blocks[|blocks| - 2], blocks[|blocks| - 1])];
      && Covers(merged, points, e)
      && AllLeftHeavy(merged, points, e, strict)
      && MeansOrdered(merged[..|merged| - 1])
  {
    hide Mean, LeftHeavy, MeansOrdered;
    var n := |blocks|;
    var left, right, init, rest := blocks[n - 2], blocks[n - 1], blocks[..n - 1], blocks[..n - 2];
    var t := e - right.count;
    var s := t - left.count;
    assert init[..n - 2] == rest && init[n - 2] == left;
    MergeLeftHeavy(left, right, points, s, t, e, strict);
    MergedMeanBetween(left, right, points, s, t, e);
    CoversAppend(rest, Merge(left, right), points, s, e);
    assert (rest + [Merge(left, right)])[..n - 2] == rest;
    PrefixStaysOrdered(init, rest);
  }

  lemma {:induction false} PoolKeepsHeavy(blocks: seq<Block>, points: seq<Point>, e: nat, strict: bool)
    requires e <= |points| && Covers(blocks, points, e) && AllLeftHeavy(blocks, points, e, strict)
    requires blocks != [] ==> MeansOrdered(blocks[..|blocks| - 1])
    ensures Covers(Pool(blocks), points, e) && AllLeftHeavy(Pool(blocks), points, e, strict)
    decreases |blocks|
  {
    hide Mean, Covers, AllLeftHeavy, MeansOrdered;
    var n := |blocks|;
    if n >= 2 && Mean(blocks[n - 2]) > Mean(blocks[n - 1]) {
      MergeTopTwo(blocks, points, e, strict);
      PoolKeepsHeavy(blocks[..n - 2] + [Merge(blocks[n - 2], blocks[n - 1])], points, e, strict);
    }
  }

  // ----- adding one point -----

  lemma {:induction false} WeakenHeavy(blocks: seq<Block>, points: seq<Point>, e: nat)
    requires e <= |points| && Covers(blocks, points, e) && AllLeftHeavy(blocks, points, e, true)
    ensures AllLeftHeavy(blocks, points, e, false)
  {
    hide Mean;
    if blocks != [] {
      var last := blocks[|blocks| - 1];
      WeakenHeavy(blocks[..|blocks| - 1], points, e - last.count);
    }
  }

  /** Strictness lasts through the first three records and their ties. */
  ghost predicate StrictAt(points: seq<Point>, e: nat)
    requires e <= |points|
  {
    e <= 3 || points[e - 1].signal == points[1].signal
  }

  /** A tie with the second smallest record: the only possible cut is after the
      first record, whose outcome must then be 1. */
  lemma TieWithSecond(points: seq<Point>, s: nat, e: nat, held: Block, grown: Block)
    requires s < e < |points| && Sorted(points)
    requires Describes(held, points, s, e) && Describes(grown, points, s, e + 1)
    requires points[e].signal == points[e - 1].signal == points[1].signal
    requires LeftHeavy(points, s, e, Mean(held), true)
    ensures LeftHeavy(points, s, e + 1, Mean(grown), true)
  {
    hide Mean;
    forall k | s < k < e + 1 && points[k - 1].signal < points[k].signal
      ensures Heavy(Excess(points, s, k, Mean(grown)), true)
    {
      assert points[k].signal <= points[e].signal;
      assert k == 1 && s == 0;
      assert k != e;
      FirstOutcome(points, Mean(held));
      assert Excess(points, 0, 1, Mean(held)) > 0.0;
      MeanWithinUnit(held, points, s, e);
      assert points[0].outcome == 1;
      MeanBelowOne(held);
      FirstOutcome(points, Mean(grown));
      MeanBelowOne(grown);
    }
  }

  lemma MeanBelowOne(b: Block)
    ensures Mean(b) < 1.0 <==> b.sum < b.count
  {
    hide Mean;
    var c := b.count as real;
    MeanTimesCount(b);
    assert (Mean(b) - 1.0) * c == Mean(b) * c - c;
    SignOfProduct(Mean(b) - 1.0, c);
  }

  lemma FirstOutcome(points: seq<Point>, m: real)
    requires |points| > 0
    ensures Excess(points, 0, 1, m) == points[0].outcome as real - m
  {
    assert Excess(points, 0, 0, m) == 0.0;
  }

  /** The fourth record repeats the third: at most three outcomes to its left. */
  lemma TieAtFourth(points: seq<Point>, s: nat, held: Block, grown: Block)
    requires s < 3 < |points|
    requires Describes(held, points, s, 3) && Describes(grown, points, s, 4)
    requires points[2].signal == points[3].signal
    requires LeftHeavy(points, s, 3, Mean(held), true)
    ensures LeftHeavy(points, s, 4, Mean(grown), false)
  {
    hide Mean, Excess;
    forall k | s < k < 4 && points[k - 1].signal < points[k].signal
      ensures Heavy(Excess(points, s, k, Mean(grown)), false)
    {
      assert Heavy(Excess(points, s, k, Mean(held)), true);
      ExcessCrossed(points, s, k, held);
      ExcessCrossed(points, s, k, grown);
      SmallSums(points, s, k);
      FourthFits(points, s, k, held, grown);
    }
  }

  lemma FourthFits(points: seq<Point>, s: nat, k: nat, held: Block, grown: Block)
    requires s < k <= 2 && |points| > 3
    requires Describes(held, points, s, 3) && Describes(grown, points, s, 4)
    requires SumOutcomes(points, s, k) * held.count > held.sum * (k - s)
    ensures SumOutcomes(points, s, k) * grown.count >= grown.sum * (k - s)
  {
    SmallSums(points, s, k);
    if s == 1 {
      assert k == 2;
    } else if k == 1 {
      assert s == 0;
    } else {
      assert s == 0 && k == 2;
    }
  }

  lemma SmallSums(points: seq<Point>, s: nat, k: nat)
    requires s < k <= 2 && |points| > 3
    ensures SumOutcomes(points, s, 3) == SumOutcomes(points, s, 2) + points[2].outcome
    ensures SumOutcomes(points, s, 4) == SumOutcomes(points, s, 3) + points[3].outcome
    ensures SumOutcomes(points, s, 2) == points[1].outcome + if s == 0 then points[0].outcome else 0
    ensures k == 1 ==> SumOutcomes(points, s, k) == points[0].outcome
  {
    assert SumOutcomes(points, s, s) == 0;
    assert SumOutcomes(points, s, s + 1) == points[s].outcome;
  }

  lemma JoinKeepsHeavy(blocks: seq<Block>, points: seq<Point>, e: nat)
    requires e < |points| && Sorted(points) && TieSafe(points) && Covers(blocks, points, e)
    requires blocks != [] && blocks[|blocks| - 1].maxSignal == points[e].signal
    requires AllLeftHeavy(blocks, points, e, StrictAt(points, e))
    ensures Covers(AddPoint(blocks, points[e]), points, e + 1)
    ensures AllLeftHeavy(AddPoint(blocks, points[e]), points, e + 1, StrictAt(points, e + 1))
  {
    hide Mean, LeftHeavy, Describes;
    JoinKeepsCover(blocks, points, e);
    var added := AddPoint(blocks, points[e]);
    var last, rest := blocks[|blocks| - 1], blocks[..|blocks| - 1];
    var s := e - last.count;
    var grown := added[|added| - 1];
    assert added[..|added| - 1] == rest;
    LastSignal(blocks, points, e);
    assert points[e - 1].signal == points[e].signal;
    if points[e].signal == points[1].signal {
      TieWithSecond(points, s, e, last, grown);
    } else {
      TieAtFourth(points, s, last, grown);
      WeakenHeavy(rest, points, s);
    }
  }

  lemma StartKeepsHeavy(blocks: seq<Block>, points: seq<Point>, e: nat, strict: bool)
    requires e < |points| && Covers(blocks, points, e) && AllLeftHeavy(blocks, points, e, strict)
    requires e > 0 ==> points[e - 1].signal < points[e].signal
    ensures var added := blocks + [Block(points[e].signal, points[e].signal, points[e].outcome, 1)];
      Covers(added, points, e + 1) && AllLeftHeavy(added, points, e + 1, strict)
  {
    hide Mean;
    StartKeepsCover(blocks, points, e);
    var added := blocks + [Block(points[e].signal, points[e].signal, points[e].outcome, 1)];
    assert added[..|added| - 1] == blocks;
  }

  lemma AddPointKeepsHeavy(blocks: seq<Block>, points: seq<Point>, e: nat)
    requires e < |points| && Sorted(points) && TieSafe(points) && Covers(blocks, points, e)
    requires AllLeftHeavy(blocks, points, e, StrictAt(points, e))
    ensures Covers(AddPoint(blocks, points[e]), points, e + 1)
    ensures AllLeftHeavy(AddPoint(blocks, points[e]), points, e + 1, StrictAt(points, e + 1))
  {
    hide Mean, Covers, AllLeftHeavy, TieSafe;
    LastSignal(blocks, points, e);
    if blocks != [] && blocks[|blocks| - 1].maxSignal == points[e].signal {
      JoinKeepsHeavy(blocks, points, e);
    } else {
      assert e > 0 ==> points[e - 1].signal <= points[e].signal;
      assert e > 2 ==> points[1].signal <= points[e - 1].signal;
      if StrictAt(points, e) && !StrictAt(points, e + 1) {
        WeakenHeavy(blocks, points, e);
      }
      StartKeepsHeavy(blocks, points, e, StrictAt(points, e + 1));
    }
  }

  lemma HeavyStep(blocks: seq<Block>, points: seq<Point>, e: nat)
    requires e < |points| && Sorted(points) && TieSafe(points) && HeavyStack(blocks, points, e)
    ensures HeavyStack(Pool(AddPoint(blocks, points[e])), points, e + 1)
  {
    hide Mean, Pool, AddPoint, Covers, MeansOrdered, AllLeftHeavy, StrictAt, TieSafe;
    StepKeepsStructure(blocks, points, e);
    AddPointKeepsHeavy(blocks, points, e);
    AddPointKeepsOrder(blocks, points[e]);
    PoolKeepsHeavy(AddPoint(blocks, points[e]), points, e + 1, StrictAt(points, e + 1));
  }

  lemma EmptyHeavyStack(points: seq<Point>)
    ensures HeavyStack([], points, 0)
  {
  }

  lemma {:induction false} FitPrefixHeavy(points: seq<Point>, e: nat)
    requires e <= |points| && Sorted(points) && TieSafe(points)
    ensures HeavyStack(FitPrefix(points, e), points, e)
  {
    EmptyHeavyStack(points);
    hide Mean, Pool, AddPoint, HeavyStack, TieSafe;
    if e > 0 {
      FitPrefixHeavy(points, e - 1);
      HeavyStep(FitPrefix(points, e - 1), points, e - 1);
    }
  }

  // ----- least squares -----

  /** Outcomes of points s..k against m, weighted by the predictor g. */
  function Weighted(points: seq<Point>, s: nat, k: nat, m: real, g: Curve): real
    requires k <= |points|
  {
    if k <= s then 0.0
    else Weighted(points, s, k - 1, m, g) + Times(points[k - 1].outcome as real - m, g(points[k - 1].signal))
  }

  /** Summation by parts: on a left-heavy run a rising weight cannot gain. */
  lemma {:induction false} WeightedBound(points: seq<Point>, s: nat, k: nat, e: nat, m: real, g: Curve)
    requires s < k <= e <= |points| && Sorted(points) && NonDecreasing(g)
    requires LeftHeavy(points, s, e, m, false)
    ensures Weighted(points, s, k, m, g) <= Times(Excess(points, s, k, m), g(points[k - 1].signal))
  {
    hide Times;
    assert Excess(points, s, s, m) == 0.0 && Weighted(points, s, s, m, g) == 0.0;
    if s < k - 1 {
      WeightedBound(points, s, k - 1, e, m, g);
      var u, v := g(points[k - 2].signal), g(points[k - 1].signal);
      var before := Excess(points, s, k - 1, m);
      assert points[k - 2].signal <= points[k - 1].signal;
      TimesMonotone(before, u, v);
      TimesAdds(v, before, points[k - 1].outcome as real - m);
    }
  }

  lemma LossAtLeast(p: Point, m: real, fit: Curve, g: Curve)
    requires fit(p.signal) == m
    ensures var d := p.outcome as real - m;
      LossAt(p, g) >= LossAt(p, fit) + 2.0 * Times(m, d) - 2.0 * Times(d, g(p.signal))
  {
    var x, y := g(p.signal), p.outcome as real;
    SquareNonNegative(x - m);
    assert (x - y) * (x - y) == (m - y) * (m - y) + 2.0 * (m * (y - m)) - 2.0 * ((y - m) * x) + (x - m) * (x - m);
  }

  /** Against a constant m on points s..k, another predictor pays at least this much more. */
  lemma {:induction false} LossOfRun(points: seq<Point>, s: nat, k: nat, m: real, fit: Curve, g: Curve)
    requires s <= k <= |points|
    requires forall i :: s <= i < k ==> fit(points[i].signal) == m
    ensures Loss(points[..k], g) - Loss(points[..s], g)
      >= Loss(points[..k], fit) - Loss(points[..s], fit)
         + 2.0 * Times(m, Excess(points, s, k, m)) - 2.0 * Weighted(points, s, k, m, g)
  {
    hide Times, LossAt;
    if s < k {
      var p := points[k - 1];
      LossOfRun(points, s, k - 1, m, fit, g);
      assert points[..k][..k - 1] == points[..k - 1];
      LossAtLeast(p, m, fit, g);
      TimesAdds(m, Excess(points, s, k - 1, m), p.outcome as real - m);
    } else {
      TimesAdds(m, 0.0, 0.0);
    }
  }

  lemma RunIsBest(b: Block, points: seq<Point>, s: nat, e: nat, fit: Curve, g: Curve)
    requires s < e <= |points| && Sorted(points) && Describes(b, points, s, e)
    requires LeftHeavy(points, s, e, Mean(b), false) && NonDecreasing(g)
    requires forall i :: s <= i < e ==> fit(points[i].signal) == Mean(b)
    ensures Loss(points[..e], fit) - Loss(points[..s], fit) <= Loss(points[..e], g) - Loss(points[..s], g)
  {
    hide Mean, Loss, Weighted, Times, LeftHeavy;
    LossOfRun(points, s, e, Mean(b), fit, g);
    WeightedBound(points, s, e, e, Mean(b), g);
    BlockBalances(b, points, s, e);
    TimesAdds(Mean(b), 0.0, 0.0);
    TimesAdds(g(points[e - 1].signal), 0.0, 0.0);
  }

  lemma {:induction false} BlocksAreBest(blocks: seq<Block>, points: seq<Point>, e: nat, fit: Curve, g: Curve)
    requires e <= |points| && Sorted(points) && Covers(blocks, points, e)
    requires AllLeftHeavy(blocks, points, e, false) && NonDecreasing(g)
    requires forall i :: 0 <= i < e ==> fit(points[i].signal) == Mean(blocks[BlockHolding(blocks, points, e, i)])
    ensures Loss(points[..e], fit) <= Loss(points[..e], g)
  {
    hide Mean, Describes, LeftHeavy;
    if blocks != [] {
      var last := blocks[|blocks| - 1];
      var s := e - last.count;
      BlocksAreBest(blocks[..|blocks| - 1], points, s, fit, g);
      RunIsBest(last, points, s, e, fit, g);
    }
  }

  lemma FittedCurveOnBlocks(points: seq<Point>)
    requires Sorted(points) && points != []
    ensures FitPoints(points) != []
    ensures var blocks := FitPrefix(points, |points|);
      && Covers(blocks, points, |points|)
      && forall i :: 0 <= i < |points| ==>
        FittedCurve(FitPoints(points))(points[i].signal) == Mean(blocks[BlockHolding(blocks, points, |points|, i)])
  {
    hide Mean, Pool, AddPoint, Covers, MeansOrdered, FitPrefix, Predict, StepModel;
    var blocks := FitPrefix(points, |points|);
    FitPrefixStructure(points, |points|);
    FitPointsIsStepModel(points);
    forall i | 0 <= i < |points|
      ensures FittedCurve(FitPoints(points))(points[i].signal)
        == Mean(blocks[BlockHolding(blocks, points, |points|, i)])
    {
      BlocksPredictOwn(blocks, points, |points|, i);
    }
  }

  /** When no harmful tie is present, the fit is the least-squares optimum. */
  lemma TieSafeFitIsLeastSquares(points: seq<Point>)
    requires Sorted(points) && TieSafe(points)
    ensures LeastSquares(points)
  {
    hide Mean, Pool, AddPoint, Covers, MeansOrdered, FitPrefix, StrictAt, TieSafe, Loss, Predict;
    if points != [] {
      var blocks, n := FitPrefix(points, |points|), |points|;
      FittedCurveOnBlocks(points);
      FitPrefixHeavy(points, n);
      if StrictAt(points, n) {
        WeakenHeavy(blocks, points, n);
      }
      var fit := FittedCurve(FitPoints(points));
      assert points[..n] == points;
      forall g: Curve | NonDecreasing(g) ensures Loss(points, fit) <= Loss(points, g) {
        BlocksAreBest(blocks, points, n, fit, g);
      }
    }
  }

  lemma {:induction false} LossOfInsert(points: seq<Point>, p: Point, g: Curve)
    ensures Loss(Insert(points, p), g) == Loss(points, g) + LossAt(p, g)
  {
    if points == [] || points[|points| - 1].signal <= p.signal {
      assert (points + [p])[..|points|] == points;
    } else {
      var init, last := points[..|points| - 1], points[|points| - 1];
      LossOfInsert(init, p, g);
      assert (Insert(init, p) + [last])[..|init| + 1] == Insert(init, p);
    }
  }

  lemma {:induction false} LossOfSort(points: seq<Point>, g: Curve)
    ensures Loss(SortBySignal(points), g) == Loss(points, g)
  {
    if points != [] {
      var init := points[..|points| - 1];
      LossOfSort(init, g);
      LossOfInsert(SortBySignal(init), points[|points| - 1], g);
    }
  }

  lemma {:induction false} BrierIsLoss(points: seq<Point>, model: Model)
    requires model != []
    ensures SumSquaredError(Predictions(points, model)) == Loss(points, FittedCurve(model))
  {
    if points != [] {
      var init := points[..|points| - 1];
      var predictions := Predictions(points, model);
      BrierIsLoss(init, model);
      assert predictions[..|predictions| - 1] == Predictions(init, model);
    }
  }

  /** The squared error the evaluation reports for a fit on its own records is
      the least that any non-decreasing predictor of the signal can reach. */
  lemma InSampleBrierIsMinimal(observations: seq<Observation>, g: Curve)
    requires observations != [] && NonDecreasing(g)
    requires TieSafe(SortBySignal(Points(observations)))
    ensures Fit(observations) != []
    ensures SumSquaredError(Predictions(Points(observations), Fit(observations))) <= Loss(Points(observations), g)
  {
    hide Mean, SortBySignal, FitPrefix, Loss, SumSquaredError, TieSafe, Predict;
    var points := Points(observations);
    var sorted := SortBySignal(points);
    SortIsSorted(points);
    TieSafeFitIsLeastSquares(sorted);
    BrierIsLoss(points, Fit(observations));
    LossOfSort(points, FittedCurve(Fit(observations)));
    LossOfSort(points, g);
  }
}
