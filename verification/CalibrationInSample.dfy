/** Evaluating a fit on its own training records: every bin is exactly
    calibrated, whatever the ties and however many bins. */
module CalibrationInSample {
  import opened RealArithmetic
  import opened Calibration
  import opened CalibrationStructure

  function GapAt(p: Point, model: Model, bins: Pos, b: int): real
    requires model != []
  {
    var probability := Predict(model, p.signal);
    if BinOf(probability, bins) == b then p.outcome as real - probability else 0.0
  }

  /** Successes minus predicted successes of the points that fall into bin b. */
  function SignedGap(points: seq<Point>, model: Model, bins: Pos, b: int): real
    requires model != []
  {
    if points == [] then 0.0
    else SignedGap(points[..|points| - 1], model, bins, b) + GapAt(points[|points| - 1], model, bins, b)
  }

  lemma {:induction false} BucketGap(points: seq<Point>, model: Model, bins: Pos, b: int)
    requires model != []
    ensures var bucket := InBin(Predictions(points, model), bins, b);
      SumOutcome(bucket) as real - SumProbability(bucket) == SignedGap(points, model, bins, b)
  {
    if points != [] {
      var init := points[..|points| - 1];
      var predictions := Predictions(points, model);
      BucketGap(init, model, bins, b);
      assert predictions[..|predictions| - 1] == Predictions(init, model);
      var rest := InBin(Predictions(init, model), bins, b);
      var last := predictions[|predictions| - 1];
      assert (rest + [last])[..|rest|] == rest;
    }
  }

  lemma {:induction false} GapOfInsert(points: seq<Point>, p: Point, model: Model, bins: Pos, b: int)
    requires model != []
    ensures SignedGap(Insert(points, p), model, bins, b) == SignedGap(points, model, bins, b) + GapAt(p, model, bins, b)
  {
    if points == [] || points[|points| - 1].signal <= p.signal {
      assert (points + [p])[..|points|] == points;
    } else {
      var init, last := points[..|points| - 1], points[|points| - 1];
      GapOfInsert(init, p, model, bins, b);
      assert (Insert(init, p) + [last])[..|init| + 1] == Insert(init, p);
    }
  }

  lemma {:induction false} GapOfSort(points: seq<Point>, model: Model, bins: Pos, b: int)
    requires model != []
    ensures SignedGap(SortBySignal(points), model, bins, b) == SignedGap(points, model, bins, b)
  {
    if points != [] {
      var init := points[..|points| - 1];
      GapOfSort(init, model, bins, b);
      GapOfInsert(SortBySignal(init), points[|points| - 1], model, bins, b);
    }
  }

  /** Points of one block share a prediction, hence a bin. */
  lemma {:induction false} GapOfRun(points: seq<Point>, s: nat, k: nat, m: real, model: Model, bins: Pos, b: int)
    requires model != [] && s <= k <= |points|
    requires forall i :: s <= i < k ==> Predict(model, points[i].signal) == m
    ensures SignedGap(points[..k], model, bins, b)
      == SignedGap(points[..s], model, bins, b) + if BinOf(m, bins) == b then Excess(points, s, k, m) else 0.0
  {
    hide Mean;
    if s < k {
      GapOfRun(points, s, k - 1, m, model, bins, b);
      assert points[..k][..k - 1] == points[..k - 1];
    }
  }

  lemma {:induction false} GapVanishes(blocks: seq<Block>, points: seq<Point>, e: nat, model: Model, bins: Pos, b: int)
    requires model != [] && e <= |points| && Covers(blocks, points, e)
    requires forall i :: 0 <= i < e ==>
      Predict(model, points[i].signal) == Mean(blocks[BlockHolding(blocks, points, e, i)])
    ensures SignedGap(points[..e], model, bins, b) == 0.0
  {
    hide Mean;
    if blocks != [] {
      var last := blocks[|blocks| - 1];
      var s := e - last.count;
      GapVanishes(blocks[..|blocks| - 1], points, s, model, bins, b);
      GapOfRun(points, s, e, Mean(last), model, bins, b);
      BlockBalances(last, points, s, e);
    }
  }

  lemma FittedGapVanishes(points: seq<Point>, bins: Pos, b: int)
    requires Sorted(points) && points != []
    ensures FitPoints(points) != []
    ensures SignedGap(points, FitPoints(points), bins, b) == 0.0
  {
    hide Mean, FitPrefix, SignedGap, Covers, MeansOrdered, Predict, StepModel;
    var blocks := FitPrefix(points, |points|);
    FitPrefixStructure(points, |points|);
    FitPointsIsStepModel(points);
    forall i | 0 <= i < |points|
      ensures Predict(FitPoints(points), points[i].signal) == Mean(blocks[BlockHolding(blocks, points, |points|, i)])
    {
      BlocksPredictOwn(blocks, points, |points|, i);
    }
    GapVanishes(blocks, points, |points|, FitPoints(points), bins, b);
    assert points[..|points|] == points;
  }

  lemma {:induction false} NoGaps(predictions: seq<Prediction>, bins: Pos, k: nat)
    requires forall b: nat :: b < k ==> BinGap(predictions, bins, b) == 0.0
    ensures TotalGap(predictions, bins, k) == 0.0
  {
    if k > 0 {
      NoGaps(predictions, bins, k - 1);
    }
  }

  /** In every bin the observed successes equal the predicted ones, so the
      expected calibration error on the training records is exactly zero. */
  lemma InSampleCalibrationIsExact(observations: seq<Observation>, bins: Pos)
    requires observations != []
    ensures Fit(observations) != []
    ensures var predictions := Predictions(Points(observations), Fit(observations));
      && (forall b: nat :: b < bins ==> BinGap(predictions, bins, b) == 0.0)
      && TotalGap(predictions, bins, bins) / |observations| as real == 0.0
  {
    hide Mean, FitPrefix, SortBySignal, SignedGap, InBin, SumOutcome, SumProbability, TotalGap, Predict,
      BinOf, StepModel;
    var points := Points(observations);
    var sorted := SortBySignal(points);
    SortIsSorted(points);
    FitPointsIsStepModel(sorted);
    var model := Fit(observations);
    var predictions := Predictions(points, model);
    forall b: nat | b < bins ensures BinGap(predictions, bins, b) == 0.0 {
      FittedGapVanishes(sorted, bins, b);
      GapOfSort(points, model, bins, b);
      BucketGap(points, model, bins, b);
    }
    NoGaps(predictions, bins, bins);
    QuotientSign(0.0, |observations| as real);
  }
}
