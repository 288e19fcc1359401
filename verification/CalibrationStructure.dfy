/** What the stack of blocks is at every moment of the fit, and what follows
    for prediction: a step function that never decreases. */
module CalibrationStructure {
  import opened RealArithmetic
  import opened Calibration

  function SumOutcomes(points: seq<Point>, s: nat, e: nat): int
    requires e <= |points|
  {
    if e <= s then 0 else SumOutcomes(points, s, e - 1) + points[e - 1].outcome
  }

  /** Outcomes of points s..k measured against the level m. */
  function Excess(points: seq<Point>, s: nat, k: nat, m: real): real
    requires k <= |points|
  {
    if k <= s then 0.0 else Excess(points, s, k - 1, m) + points[k - 1].outcome as real - m
  }

  /** b is the pooled run of points s..e. */
  ghost predicate Describes(b: Block, points: seq<Point>, s: nat, e: nat)
    requires s < e <= |points|
  {
    && b.count == e - s
    && b.minSignal == points[s].signal
    && b.maxSignal == points[e - 1].signal
    && b.sum == SumOutcomes(points, s, e)
  }

  /** The blocks are, in order, disjoint runs that make up points 0..e, and no
      signal is shared by two of them. */
  ghost predicate Covers(blocks: seq<Block>, points: seq<Point>, e: nat)
    requires e <= |points|
  {
    if blocks == [] then e == 0
    else
      var last := blocks[|blocks| - 1];
      var s := e - last.count;
      && s >= 0
      && Describes(last, points, s, e)
      && Covers(blocks[..|blocks| - 1], points, s)
      && (s > 0 ==> points[s - 1].signal < points[s].signal)
  }

  ghost predicate MeansOrdered(blocks: seq<Block>) {
    forall i :: 0 < i < |blocks| ==> Mean(blocks[i - 1]) <= Mean(blocks[i])
  }

  // ----- excess arithmetic -----

  lemma {:induction false} ExcessIsSum(points: seq<Point>, s: nat, k: nat, m: real)
    requires s <= k <= |points|
    ensures Excess(points, s, k, m) == SumOutcomes(points, s, k) as real - Times((k - s) as real, m)
  {
    hide Times;
    if s < k {
      ExcessIsSum(points, s, k - 1, m);
      TimesOneMore(m, k - 1 - s);
      assert k - 1 - s + 1 == k - s;
    } else {
      TimesAdds(m, 0.0, 0.0);
    }
  }

  lemma {:induction false} ExcessSplits(points: seq<Point>, s: nat, t: nat, k: nat, m: real)
    requires s <= t <= k <= |points|
    ensures Excess(points, s, k, m) == Excess(points, s, t, m) + Excess(points, t, k, m)
    ensures SumOutcomes(points, s, k) == SumOutcomes(points, s, t) + SumOutcomes(points, t, k)
  {
    if t < k {
      ExcessSplits(points, s, t, k - 1, m);
    }
  }

  /** Lowering the level raises the excess. */
  lemma {:induction false} ExcessAntitone(points: seq<Point>, s: nat, k: nat, low: real, high: real)
    requires s <= k <= |points| && low <= high
    ensures Excess(points, s, k, low) >= Excess(points, s, k, high)
    ensures s < k && low < high ==> Excess(points, s, k, low) > Excess(points, s, k, high)
  {
    if s < k {
      ExcessAntitone(points, s, k - 1, low, high);
    }
  }

  lemma MeanTimesCount(b: Block)
    ensures Mean(b) * b.count as real == b.sum as real
  {
    QuotientBack(b.sum as real, b.count as real);
  }

  lemma BlockBalances(b: Block, points: seq<Point>, s: nat, e: nat)
    requires s < e <= |points| && Describes(b, points, s, e)
    ensures Excess(points, s, e, Mean(b)) == 0.0
  {
    hide Mean;
    ExcessIsSum(points, s, e, Mean(b));
    MeanTimesCount(b);
    assert Times(b.count as real, Mean(b)) == Mean(b) * b.count as real;
  }

  /** Against a block's mean, the excess of a part compares whole numbers. */
  lemma ExcessCrossed(points: seq<Point>, s: nat, k: nat, b: Block)
    requires s <= k <= |points|
    ensures var part, level := SumOutcomes(points, s, k) * b.count, b.sum * (k - s);
      && (Excess(points, s, k, Mean(b)) > 0.0 <==> part > level)
      && (Excess(points, s, k, Mean(b)) < 0.0 <==> part < level)
  {
    hide Mean, SumOutcomes, Excess;
    var m, c, x := Mean(b), b.count as real, Excess(points, s, k, Mean(b));
    var total, width := SumOutcomes(points, s, k), k - s;
    ExcessIsSum(points, s, k, m);
    MeanTimesCount(b);
    RealProduct(total, b.count);
    RealProduct(b.sum, width);
    assert x * c == (total as real - m * width as real) * c;
    assert (total as real - m * width as real) * c == total as real * c - (m * c) * width as real;
    SignOfProduct(x, c);
  }

  /** Merging two runs whose means decrease gives a mean strictly between. */
  lemma MergedMeanBetween(left: Block, right: Block, points: seq<Point>, s: nat, t: nat, e: nat)
    requires s < t < e <= |points|
    requires Describes(left, points, s, t) && Describes(right, points, t, e)
    requires Mean(left) > Mean(right)
    ensures Describes(Merge(left, right), points, s, e)
    ensures Mean(right) < Mean(Merge(left, right)) < Mean(left)
  {
    hide Mean;
    var m := Mean(Merge(left, right));
    ExcessSplits(points, s, t, e, m);
    BlockBalances(left, points, s, t);
    BlockBalances(right, points, t, e);
    BlockBalances(Merge(left, right), points, s, e);
    if m >= Mean(left) {
      ExcessAntitone(points, s, t, Mean(left), m);
      ExcessAntitone(points, t, e, Mean(right), m);
    } else if m <= Mean(right) {
      ExcessAntitone(points, s, t, m, Mean(left));
      ExcessAntitone(points, t, e, m, Mean(right));
    }
  }

  lemma {:induction false} SumWithinCount(points: seq<Point>, s: nat, e: nat)
    requires s <= e <= |points|
    ensures 0 <= SumOutcomes(points, s, e) <= e - s
  {
    if s < e {
      SumWithinCount(points, s, e - 1);
    }
  }

  lemma MeanWithinUnit(b: Block, points: seq<Point>, s: nat, e: nat)
    requires s < e <= |points| && Describes(b, points, s, e)
    ensures 0.0 <= Mean(b) <= 1.0
  {
    hide Mean;
    SumWithinCount(points, s, e);
    MeanTimesCount(b);
    SignOfProduct(Mean(b), b.count as real);
    SignOfProduct(Mean(b) - 1.0, b.count as real);
    assert (Mean(b) - 1.0) * b.count as real == b.sum as real - b.count as real;
  }

  // ----- the stack invariant -----

  lemma PrefixStaysOrdered(blocks: seq<Block>, prefix: seq<Block>)
    requires MeansOrdered(blocks) && prefix <= blocks
    ensures MeansOrdered(prefix)
  {
    hide Mean;
  }

  lemma {:induction false} PoolKeepsStructure(blocks: seq<Block>, points: seq<Point>, e: nat)
    requires e <= |points| && Covers(blocks, points, e)
    requires blocks != [] ==> MeansOrdered(blocks[..|blocks| - 1])
    ensures Covers(Pool(blocks), points, e) && MeansOrdered(Pool(blocks))
    decreases |blocks|
  {
    hide Mean;
    var n := |blocks|;
    if n >= 2 {
      var left, right := blocks[n - 2], blocks[n - 1];
      assert blocks[..n - 1][..n - 2] == blocks[..n - 2];
      assert blocks[..n - 1][n - 2] == left;
      if Mean(left) > Mean(right) {
        var t := e - right.count;
        MergedMeanBetween(left, right, points, t - left.count, t, e);
        var merged := blocks[..n - 2] + [Merge(left, right)];
        assert merged[..n - 2] == blocks[..n - 2];
        PrefixStaysOrdered(blocks[..n - 1], blocks[..n - 2]);
        PoolKeepsStructure(merged, points, e);
      } else {
        forall i | 0 < i < n ensures Mean(blocks[i - 1]) <= Mean(blocks[i]) {
          if i < n - 1 {
            assert blocks[..n - 1][i - 1] == blocks[i - 1] && blocks[..n - 1][i] == blocks[i];
          }
        }
      }
    }
  }

  lemma CoversAppend(init: seq<Block>, b: Block, points: seq<Point>, s: nat, e: nat)
    requires s < e <= |points| && Covers(init, points, s) && Describes(b, points, s, e)
    requires s > 0 ==> points[s - 1].signal < points[s].signal
    ensures Covers(init + [b], points, e)
  {
    hide Mean;
    assert (init + [b])[..|init|] == init;
  }

  lemma LastRun(blocks: seq<Block>, points: seq<Point>, e: nat)
    requires e <= |points| && Covers(blocks, points, e) && blocks != []
    ensures var last := blocks[|blocks| - 1];
      && e - last.count >= 0
      && Describes(last, points, e - last.count, e)
      && Covers(blocks[..|blocks| - 1], points, e - last.count)
      && (e > last.count ==> points[e - last.count - 1].signal < points[e - last.count].signal)
  {
  }

  lemma JoinKeepsCover(blocks: seq<Block>, points: seq<Point>, e: nat)
    requires e < |points| && Covers(blocks, points, e)
    requires blocks != [] && blocks[|blocks| - 1].maxSignal == points[e].signal
    ensures Covers(AddPoint(blocks, points[e]), points, e + 1)
  {
    hide Mean, Covers;
    var last := blocks[|blocks| - 1];
    LastRun(blocks, points, e);
    CoversAppend(blocks[..|blocks| - 1], last.(sum := last.sum + points[e].outcome, count := last.count + 1),
      points, e - last.count, e + 1);
  }

  lemma StartKeepsCover(blocks: seq<Block>, points: seq<Point>, e: nat)
    requires e < |points| && Covers(blocks, points, e)
    requires e > 0 ==> points[e - 1].signal < points[e].signal
    ensures Covers(blocks + [Block(points[e].signal, points[e].signal, points[e].outcome, 1)], points, e + 1)
  {
    hide Mean, Covers;
    assert SumOutcomes(points, e, e) == 0;
    CoversAppend(blocks, Block(points[e].signal, points[e].signal, points[e].outcome, 1), points, e, e + 1);
  }

  /** The stack ends where the points do. */
  lemma LastSignal(blocks: seq<Block>, points: seq<Point>, e: nat)
    requires e <= |points| && Covers(blocks, points, e)
    ensures blocks == [] <==> e == 0
    ensures e > 0 ==> blocks[|blocks| - 1].maxSignal == points[e - 1].signal
  {
  }

  lemma AddPointKeepsCover(blocks: seq<Block>, points: seq<Point>, e: nat)
    requires e < |points| && Sorted(points) && Covers(blocks, points, e)
    ensures Covers(AddPoint(blocks, points[e]), points, e + 1)
  {
    hide Mean, Covers;
    LastSignal(blocks, points, e);
    if blocks != [] && blocks[|blocks| - 1].maxSignal == points[e].signal {
      JoinKeepsCover(blocks, points, e);
    } else {
      assert e > 0 ==> points[e - 1].signal <= points[e].signal;
      StartKeepsCover(blocks, points, e);
    }
  }

  lemma AddPointKeepsOrder(blocks: seq<Block>, p: Point)
    requires MeansOrdered(blocks)
    ensures var added := AddPoint(blocks, p); added != [] && MeansOrdered(added[..|added| - 1])
  {
    hide Mean;
    var added := AddPoint(blocks, p);
    assert added[..|added| - 1] <= blocks;
  }

  lemma StepKeepsStructure(blocks: seq<Block>, points: seq<Point>, e: nat)
    requires e < |points| && Sorted(points) && Covers(blocks, points, e) && MeansOrdered(blocks)
    ensures Covers(Pool(AddPoint(blocks, points[e])), points, e + 1)
    ensures MeansOrdered(Pool(AddPoint(blocks, points[e])))
  {
    hide Mean, Pool, AddPoint, Covers, MeansOrdered;
    AddPointKeepsCover(blocks, points, e);
    AddPointKeepsOrder(blocks, points[e]);
    PoolKeepsStructure(AddPoint(blocks, points[e]), points, e + 1);
  }

  lemma EmptyStack(points: seq<Point>)
    ensures Covers([], points, 0) && MeansOrdered([])
  {
  }

  /** Every prefix of the sorted points leaves a stack of separated runs whose
      means never decrease. */
  lemma {:induction false} FitPrefixStructure(points: seq<Point>, e: nat)
    requires e <= |points| && Sorted(points)
    ensures Covers(FitPrefix(points, e), points, e) && MeansOrdered(FitPrefix(points, e))
  {
    EmptyStack(points);
    hide Mean, Pool, AddPoint, Covers, MeansOrdered;
    if e > 0 {
      FitPrefixStructure(points, e - 1);
      StepKeepsStructure(FitPrefix(points, e - 1), points, e - 1);
    }
  }

  /** Conservation: the counts of the stack add up to the points consumed. */
  function TotalCount(blocks: seq<Block>): nat {
    if blocks == [] then 0 else TotalCount(blocks[..|blocks| - 1]) + blocks[|blocks| - 1].count
  }

  function TotalSum(blocks: seq<Block>): int {
    if blocks == [] then 0 else TotalSum(blocks[..|blocks| - 1]) + blocks[|blocks| - 1].sum
  }

  lemma {:induction false} CoversConserves(blocks: seq<Block>, points: seq<Point>, e: nat)
    requires e <= |points| && Covers(blocks, points, e)
    ensures TotalCount(blocks) == e && TotalSum(blocks) == SumOutcomes(points, 0, e)
  {
    hide Mean;
    if blocks != [] {
      var last := blocks[|blocks| - 1];
      CoversConserves(blocks[..|blocks| - 1], points, e - last.count);
      ExcessSplits(points, 0, e - last.count, e, 0.0);
    }
  }

  // ----- the predictor on a separated model -----

  /** Block ranges are proper and strictly separated, and probabilities never
      decrease from one block to the next. */
  ghost predicate StepModel(model: Model) {
    && (forall i :: 0 <= i < |model| ==> model[i].minSignal <= model[i].maxSignal)
    && (forall i, j :: 0 <= i < j < |model| ==> model[i].maxSignal < model[j].minSignal)
    && (forall i, j :: 0 <= i <= j < |model| ==> model[i].probability <= model[j].probability)
  }

  /** The last block, among the first k, that starts at or below the signal. */
  function LastStarting(model: Model, signal: real, k: nat): (i: int)
    requires k <= |model|
    ensures -1 <= i < k
  {
    if k == 0 then -1
    else if model[k - 1].minSignal <= signal then k - 1
    else LastStarting(model, signal, k - 1)
  }

  /** The step function the scan is meant to compute. */
  function StepValue(model: Model, signal: real): real
    requires model != []
  {
    var i := LastStarting(model, signal, |model|);
    if i < 0 then model[0].probability else model[i].probability
  }

  lemma {:induction false} LastStartingIs(model: Model, signal: real, k: nat, i: nat)
    requires i < k <= |model| && model[i].minSignal <= signal
    requires forall j :: i < j < k ==> signal < model[j].minSignal
    ensures LastStarting(model, signal, k) == i
  {
    if k - 1 > i {
      LastStartingIs(model, signal, k - 1, i);
    }
  }

  lemma {:induction false} ScanFindsLastStarting(model: Model, signal: real, i: nat)
    requires model != [] && i < |model| && StepModel(model) && model[i].minSignal <= signal
    ensures PredictFrom(model, signal, i) == StepValue(model, signal)
    decreases |model| - i
  {
    if signal <= model[i].maxSignal || i + 1 == |model| || signal < model[i + 1].minSignal {
      forall j | i < j < |model| ensures signal < model[j].minSignal {
        if i + 1 < j {
          assert model[i + 1].minSignal <= model[i + 1].maxSignal < model[j].minSignal;
        }
      }
      LastStartingIs(model, signal, |model|, i);
    } else {
      ScanFindsLastStarting(model, signal, i + 1);
    }
  }

  lemma {:induction false} NoneStarting(model: Model, signal: real, k: nat)
    requires k <= |model| && StepModel(model) && model != [] && signal < model[0].minSignal
    ensures LastStarting(model, signal, k) == -1
  {
    if k > 0 {
      NoneStarting(model, signal, k - 1);
      assert model[0].minSignal <= model[k - 1].minSignal by {
        if k > 1 {
          assert model[0].maxSignal < model[k - 1].minSignal;
        }
      }
    }
  }

  /** The scan returns the mean of the last block that starts at or below the
      signal, and of the first block when none does. */
  lemma PredictIsStepValue(model: Model, signal: real)
    requires model != [] && StepModel(model)
    ensures Predict(model, signal) == StepValue(model, signal)
  {
    if signal < model[0].minSignal {
      NoneStarting(model, signal, |model|);
    } else {
      ScanFindsLastStarting(model, signal, 0);
    }
  }

  lemma {:induction false} LastStartingMonotone(model: Model, x: real, y: real, k: nat)
    requires k <= |model| && x <= y
    ensures LastStarting(model, x, k) <= LastStarting(model, y, k)
  {
    if k > 0 {
      LastStartingMonotone(model, x, y, k - 1);
    }
  }

  lemma StepMonotone(model: Model, x: real, y: real)
    requires model != [] && StepModel(model) && x <= y
    ensures Predict(model, x) <= Predict(model, y)
  {
    PredictIsStepValue(model, x);
    PredictIsStepValue(model, y);
    LastStartingMonotone(model, x, y, |model|);
  }

  // ----- the fitted model is such a step model -----

  lemma {:induction false} MeansOrderedApart(blocks: seq<Block>, i: nat, j: nat)
    requires MeansOrdered(blocks) && i <= j < |blocks|
    ensures Mean(blocks[i]) <= Mean(blocks[j])
  {
    hide Mean;
    if i < j {
      MeansOrderedApart(blocks, i, j - 1);
    }
  }

  lemma {:induction false} CoveredSignals(blocks: seq<Block>, points: seq<Point>, e: nat)
    requires e <= |points| && Sorted(points) && Covers(blocks, points, e)
    ensures blocks == [] <==> e == 0
    ensures forall i :: 0 <= i < |blocks| ==>
      blocks[i].minSignal <= blocks[i].maxSignal <= points[e - 1].signal && 0.0 <= Mean(blocks[i]) <= 1.0
    ensures forall i, j :: 0 <= i < j < |blocks| ==> blocks[i].maxSignal < blocks[j].minSignal
  {
    hide Mean;
    if blocks != [] {
      var n := |blocks|;
      var s := e - blocks[n - 1].count;
      CoveredSignals(blocks[..n - 1], points, s);
      MeanWithinUnit(blocks[n - 1], points, s, e);
      assert forall i :: 0 <= i < n - 1 ==> blocks[i] == blocks[..n - 1][i];
      assert s > 0 ==> points[s - 1].signal <= points[e - 1].signal;
    }
  }

  lemma BlocksGiveStepModel(blocks: seq<Block>, points: seq<Point>, e: nat)
    requires 0 < e <= |points| && Sorted(points) && Covers(blocks, points, e) && MeansOrdered(blocks)
    ensures ToModel(blocks) != [] && StepModel(ToModel(blocks))
    ensures forall b :: b in ToModel(blocks) ==> 0.0 <= b.probability <= 1.0
  {
    hide Mean;
    CoveredSignals(blocks, points, e);
    forall i, j | 0 <= i <= j < |blocks| ensures Mean(blocks[i]) <= Mean(blocks[j]) {
      MeansOrderedApart(blocks, i, j);
    }
  }

  lemma FitPointsIsStepModel(points: seq<Point>)
    requires Sorted(points) && points != []
    ensures FitPoints(points) != [] && StepModel(FitPoints(points))
    ensures forall b :: b in FitPoints(points) ==> 0.0 <= b.probability <= 1.0
  {
    hide Mean, Pool, AddPoint, Covers, MeansOrdered, SortBySignal, FitPrefix;
    FitPrefixStructure(points, |points|);
    BlocksGiveStepModel(FitPrefix(points, |points|), points, |points|);
  }

  /** Calibrated prediction never decreases, on every training set, ties included. */
  lemma FittedPredictionMonotone(observations: seq<Observation>, x: real, y: real)
    requires observations != [] && x <= y
    ensures Fit(observations) != []
    ensures 0.0 <= Predict(Fit(observations), x) <= Predict(Fit(observations), y) <= 1.0
  {
    hide Mean, Pool, AddPoint, Covers, MeansOrdered, SortBySignal, FitPrefix;
    var sorted := SortBySignal(Points(observations));
    SortIsSorted(Points(observations));
    FitPointsIsStepModel(sorted);
    var model := Fit(observations);
    StepMonotone(model, x, y);
    PredictIsStepValue(model, x);
    PredictIsStepValue(model, y);
    assert forall i :: 0 <= i < |model| ==> model[i] in model;
  }

  /** Nothing is lost or invented: block counts and sums add up to the records
      and to the acceptable outcomes among them. */
  lemma FitConserves(observations: seq<Observation>)
    ensures var sorted := SortBySignal(Points(observations));
      && TotalCount(FitPrefix(sorted, |sorted|)) == |observations|
      && TotalSum(FitPrefix(sorted, |sorted|)) == SumOutcomes(sorted, 0, |sorted|)
      && multiset(sorted) == multiset(Points(observations))
  {
    hide Mean, Pool, AddPoint, Covers, MeansOrdered, SortBySignal, FitPrefix;
    var sorted := SortBySignal(Points(observations));
    SortIsSorted(Points(observations));
    FitPrefixStructure(sorted, |sorted|);
    CoversConserves(FitPrefix(sorted, |sorted|), sorted, |sorted|);
  }

  // ----- every training point predicts the mean of its own block -----

  /** Index of the block that holds point i, found by walking the counts. */
  function BlockHolding(blocks: seq<Block>, points: seq<Point>, e: nat, i: nat): (k: nat)
    requires e <= |points| && Covers(blocks, points, e) && i < e
    ensures k < |blocks|
  {
    var last := |blocks| - 1;
    if i >= e - blocks[last].count then last else BlockHolding(blocks[..last], points, e - blocks[last].count, i)
  }

  lemma {:induction false} HoldingRange(blocks: seq<Block>, points: seq<Point>, e: nat, i: nat)
    requires e <= |points| && Sorted(points) && Covers(blocks, points, e) && i < e
    ensures var k := BlockHolding(blocks, points, e, i);
      blocks[k].minSignal <= points[i].signal <= blocks[k].maxSignal
  {
    hide Mean;
    var last := |blocks| - 1;
    if i < e - blocks[last].count {
      HoldingRange(blocks[..last], points, e - blocks[last].count, i);
    }
  }

  lemma BlocksPredictOwn(blocks: seq<Block>, points: seq<Point>, e: nat, i: nat)
    requires e <= |points| && Sorted(points) && i < e && Covers(blocks, points, e) && MeansOrdered(blocks)
    ensures ToModel(blocks) != []
    ensures Predict(ToModel(blocks), points[i].signal) == Mean(blocks[BlockHolding(blocks, points, e, i)])
  {
    hide Mean;
    var model := ToModel(blocks);
    BlocksGiveStepModel(blocks, points, e);
    var k := BlockHolding(blocks, points, e, i);
    HoldingRange(blocks, points, e, i);
    PredictIsStepValue(model, points[i].signal);
    assert forall j :: k < j < |model| ==> model[k].maxSignal < model[j].minSignal;
    LastStartingIs(model, points[i].signal, |model|, k);
  }
}
