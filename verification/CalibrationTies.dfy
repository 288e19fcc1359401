/** Tied signals: a tie joins the last block even when that block has already
    been pooled to the left, so some outcomes make the fit miss the optimum.
    Which signal sequences are affected is settled exactly. */
module CalibrationTies {
  import opened RealArithmetic
  import opened Calibration
  import opened CalibrationStructure
  import opened CalibrationOptimality

  // ----- a cheaper predictor whenever the first block is light on its left -----

  /** Lowers the first block's value below the signal c and keeps the fit elsewhere. */
  function Lowered(model: Model, c: real, level: real): Curve
    requires model != []
  {
    x => if x < c then level else Predict(model, x)
  }

  lemma LoweredNonDecreasing(model: Model, c: real, level: real)
    requires model != [] && StepModel(model) && level <= model[0].probability
    ensures NonDecreasing(Lowered(model, c, level))
  {
    var g := Lowered(model, c, level);
    forall x: real, y: real | x <= y ensures g(x) <= g(y) {
      StepMonotone(model, x, y);
      PredictIsStepValue(model, y);
    }
  }

  lemma {:induction false} SameLossBeyond(points: seq<Point>, k: nat, e: nat, fit: Curve, g: Curve)
    requires k <= e <= |points|
    requires forall i :: k <= i < e ==> fit(points[i].signal) == g(points[i].signal)
    ensures Loss(points[..e], g) - Loss(points[..k], g) == Loss(points[..e], fit) - Loss(points[..k], fit)
  {
    if k < e {
      SameLossBeyond(points, k, e - 1, fit, g);
      assert points[..e][..e - 1] == points[..e - 1];
    }
  }

  /** What moving the first k values down by d does to the loss. */
  function ShiftCost(excess: real, k: nat, d: real): real {
    2.0 * Times(d, excess) + Times(k as real, Times(d, d))
  }

  lemma LossShifted(p: Point, m: real, d: real, fit: Curve, g: Curve)
    requires fit(p.signal) == m && g(p.signal) == m - d
    ensures LossAt(p, g) == LossAt(p, fit) + 2.0 * Times(d, p.outcome as real - m) + Times(d, d)
  {
  }

  lemma {:induction false} LossOfShift(points: seq<Point>, k: nat, m: real, d: real, fit: Curve, g: Curve)
    requires k <= |points|
    requires forall i :: 0 <= i < k ==> fit(points[i].signal) == m && g(points[i].signal) == m - d
    ensures Loss(points[..k], g) == Loss(points[..k], fit) + ShiftCost(Excess(points, 0, k, m), k, d)
  {
    hide Times, LossAt;
    TimesAdds(Times(d, d), 0.0, 0.0);
    TimesAdds(d, 0.0, 0.0);
    if k > 0 {
      var p := points[k - 1];
      LossOfShift(points, k - 1, m, d, fit, g);
      assert points[..k][..k - 1] == points[..k - 1];
      LossShifted(p, m, d, fit, g);
      TimesAdds(d, Excess(points, 0, k - 1, m), p.outcome as real - m);
      TimesOneMore(Times(d, d), k - 1);
    }
  }

  lemma ShiftNegative(n: real, d: real, excess: real)
    requires d > 0.0 && d * n == -excess && excess < 0.0
    ensures 2.0 * Times(d, excess) + Times(n, Times(d, d)) < 0.0
  {
    assert n * (d * d) == (d * n) * d;
    assert n * (d * d) == -(d * excess);
    SignOfProduct(d, excess);
  }

  lemma ShiftGains(excess: real, k: Pos)
    requires excess < 0.0
    ensures var d := -excess / k as real; ShiftCost(excess, k, d) < 0.0 && d > 0.0
  {
    hide Times;
    QuotientBack(-excess, k as real);
    QuotientSign(-excess, k as real);
    ShiftNegative(k as real, -excess / k as real, excess);
  }

  lemma LossChangesBefore(points: seq<Point>, k: nat, fit: Curve, g: Curve)
    requires k <= |points|
    requires forall i :: k <= i < |points| ==> fit(points[i].signal) == g(points[i].signal)
    ensures Loss(points, g) - Loss(points, fit) == Loss(points[..k], g) - Loss(points[..k], fit)
  {
    SameLossBeyond(points, k, |points|, fit, g);
    assert points[..|points|] == points;
  }

  lemma LoweredAgrees(points: seq<Point>, k: nat, model: Model, d: real)
    requires Sorted(points) && 0 < k < |points| && points[k - 1].signal < points[k].signal && model != []
    requires forall i :: 0 <= i < k ==> Predict(model, points[i].signal) == model[0].probability
    ensures var m := model[0].probability;
      var fit, g := FittedCurve(model), Lowered(model, points[k].signal, m - d);
      && (forall i :: 0 <= i < k ==> fit(points[i].signal) == m && g(points[i].signal) == m - d)
      && (forall i :: k <= i < |points| ==> fit(points[i].signal) == g(points[i].signal))
  {
    assert forall i :: 0 <= i < k ==> points[i].signal <= points[k - 1].signal;
  }

  lemma Beaten(points: seq<Point>, fit: Curve, g: Curve)
    requires NonDecreasing(g) && Loss(points, g) < Loss(points, fit)
    ensures !Best(points, fit)
  {
  }

  lemma LoweredBeats(points: seq<Point>, k: nat, model: Model, d: real)
    requires Sorted(points) && 0 < k < |points| && points[k - 1].signal < points[k].signal
    requires model != [] && StepModel(model) && d > 0.0
    requires forall i :: 0 <= i < k ==> Predict(model, points[i].signal) == model[0].probability
    requires ShiftCost(Excess(points, 0, k, model[0].probability), k, d) < 0.0
    ensures !Best(points, FittedCurve(model))
  {
    hide Times, LossAt, ShiftCost, Loss, Predict, StepModel, NonDecreasing;
    var m := model[0].probability;
    var g := Lowered(model, points[k].signal, m - d);
    LoweredAgrees(points, k, model, d);
    LoweredNonDecreasing(model, points[k].signal, m - d);
    LossChangesBefore(points, k, FittedCurve(model), g);
    LossOfShift(points, k, m, d, FittedCurve(model), g);
    Beaten(points, FittedCurve(model), g);
  }

  /** A first block that is light on the left of a rise is not least squares. */
  lemma LightFirstBlockMisses(points: seq<Point>, k: nat, model: Model)
    requires Sorted(points) && 0 < k < |points| && points[k - 1].signal < points[k].signal
    requires model != [] && StepModel(model)
    requires forall i :: 0 <= i < k ==> Predict(model, points[i].signal) == model[0].probability
    requires Excess(points, 0, k, model[0].probability) < 0.0
    ensures !Best(points, FittedCurve(model))
  {
    hide Times, LossAt, ShiftCost, Loss, Predict, StepModel, NonDecreasing, Best;
    var excess := Excess(points, 0, k, model[0].probability);
    ShiftGains(excess, k);
    var d := -excess / k as real;
    LoweredBeats(points, k, model, d);
  }

  // ----- the outcomes that bring a harmful tie to light -----

  ghost predicate SortedSignals(signals: seq<real>) {
    forall i, j :: 0 <= i <= j < |signals| ==> signals[i] <= signals[j]
  }

  /** The first record succeeds, the records up to p fail, the rest succeed. */
  function Witness(signals: seq<real>, p: nat): (points: seq<Point>)
    ensures |points| == |signals|
    ensures forall i :: 0 <= i < |points| ==> points[i].signal == signals[i]
  {
    seq(|signals|, i requires 0 <= i < |signals| => Point(signals[i], if 0 < i <= p then 0 else 1))
  }

  /** Records p..q share one signal, different from their neighbours'. */
  ghost predicate TieGroup(signals: seq<real>, p: nat, q: nat) {
    && 0 < p < q <= |signals|
    && (forall i :: p <= i < q ==> signals[i] == signals[p])
    && signals[p - 1] < signals[p]
    && (q < |signals| ==> signals[q - 1] < signals[q])
  }

  function HeadSum(p: nat, e: nat): int { if e <= p + 1 then 1 else e - p }

  lemma PoolSingle(b: Block)
    ensures Pool([b]) == [b]
  {
  }

  lemma PoolPair(left: Block, right: Block)
    requires Mean(left) > Mean(right)
    ensures Pool([left, right]) == [Merge(left, right)]
  {
    hide Mean;
    var pair := [left, right];
    assert pair[..0] + [Merge(left, right)] == [Merge(left, right)];
    PoolSingle(Merge(left, right));
  }

  lemma FirstBlock(p: Point)
    ensures Pool(AddPoint([], p)) == [Block(p.signal, p.signal, p.outcome, 1)]
  {
    PoolSingle(Block(p.signal, p.signal, p.outcome, 1));
  }

  lemma HeadStep(head: Block, p: Point)
    requires p.outcome == 0 ==> head.sum > 0
    requires p.outcome == 1 ==> p.signal == head.maxSignal
    ensures Pool(AddPoint([head], p)) == [Block(head.minSignal, p.signal, head.sum + p.outcome, head.count + 1)]
  {
    if head.maxSignal == p.signal {
      assert AddPoint([head], p) == [head.(sum := head.sum + p.outcome, count := head.count + 1)];
      PoolSingle(head.(sum := head.sum + p.outcome, count := head.count + 1));
    } else {
      var single := Block(p.signal, p.signal, p.outcome, 1);
      assert AddPoint([head], p) == [head, single];
      assert Mean(head) > 0.0 == Mean(single);
      PoolPair(head, single);
    }
  }

  /** Through the end of the tie group everything is one block. */
  lemma {:induction false} OneBlockSoFar(signals: seq<real>, p: nat, q: nat, e: nat)
    requires TieGroup(signals, p, q) && 1 <= e <= q
    ensures FitPrefix(Witness(signals, p), e) == [Block(signals[0], signals[e - 1], HeadSum(p, e), e)]
  {
    hide Mean, Pool, AddPoint;
    var points := Witness(signals, p);
    if e == 1 {
      assert FitPrefix(points, 0) == [];
      FirstBlock(points[0]);
    } else {
      OneBlockSoFar(signals, p, q, e - 1);
      HeadStep(Block(signals[0], signals[e - 2], HeadSum(p, e - 1), e - 1), points[e - 1]);
    }
  }

  /** A head below one followed by blocks of pure successes. */
  ghost predicate HeadThenOnes(blocks: seq<Block>, head: Block) {
    && blocks != [] && blocks[0] == head && head.sum <= head.count
    && forall i :: 1 <= i < |blocks| ==> blocks[i].sum == blocks[i].count
  }

  lemma OnesAreNotPooled(blocks: seq<Block>, head: Block)
    requires HeadThenOnes(blocks, head)
    ensures Pool(blocks) == blocks
  {
    hide Mean;
    if |blocks| >= 2 {
      var left := blocks[|blocks| - 2];
      assert left.sum <= left.count;
      MeanAtMostOne(left);
      MeanAtMostOne(blocks[|blocks| - 1]);
    }
  }

  lemma MeanAtMostOne(b: Block)
    requires b.sum <= b.count
    ensures Mean(b) <= 1.0
    ensures b.sum == b.count ==> Mean(b) == 1.0
  {
  }

  ghost predicate HeadState(blocks: seq<Block>, head: Block, signal: real, past: bool) {
    && HeadThenOnes(blocks, head)
    && blocks[|blocks| - 1].maxSignal == signal
    && (past ==> |blocks| > 1)
  }

  lemma HeadStarts(signals: seq<real>, p: nat, q: nat)
    requires TieGroup(signals, p, q)
    ensures var head := Block(signals[0], signals[q - 1], HeadSum(p, q), q);
      HeadState([head], head, signals[q - 1], false)
    ensures p < q && (q < |signals| ==> signals[q - 1] != signals[q])
  {
  }

  lemma OneMorePoint(points: seq<Point>, e: nat)
    requires 0 < e <= |points|
    ensures FitPrefix(points, e) == Pool(AddPoint(FitPrefix(points, e - 1), points[e - 1]))
  {
    hide Pool, AddPoint;
  }

  lemma {:induction false} HeadStays(signals: seq<real>, p: nat, q: nat, e: nat)
    requires SortedSignals(signals) && TieGroup(signals, p, q) && q <= e <= |signals|
    ensures HeadState(FitPrefix(Witness(signals, p), e),
                      Block(signals[0], signals[q - 1], HeadSum(p, q), q), signals[e - 1], e > q)
  {
    hide Mean, Pool, AddPoint, HeadState, SortedSignals, TieGroup, FitPrefix;
    var points := Witness(signals, p);
    HeadStarts(signals, p, q);
    if e == q {
      OneBlockSoFar(signals, p, q, q);
    } else {
      HeadStays(signals, p, q, e - 1);
      assert points[e - 1] == Point(signals[e - 1], 1);
      OneMorePoint(points, e);
      StepPastGroup(FitPrefix(points, e - 1), Block(signals[0], signals[q - 1], HeadSum(p, q), q),
        signals[e - 2], e - 1 > q, points[e - 1]);
    }
  }

  lemma StepPastGroup(blocks: seq<Block>, head: Block, signal: real, past: bool, p: Point)
    requires HeadState(blocks, head, signal, past) && p.outcome == 1
    requires !past ==> signal != p.signal
    ensures HeadState(Pool(AddPoint(blocks, p)), head, p.signal, true)
  {
    hide Mean;
    OnesAreNotPooled(AddPoint(blocks, p), head);
  }

  lemma {:induction false} WitnessSum(signals: seq<real>, p: nat, k: nat)
    requires 1 <= k <= p < |signals|
    ensures SumOutcomes(Witness(signals, p), 0, k) == 1
  {
    if k == 1 {
      assert SumOutcomes(Witness(signals, p), 0, 0) == 0;
    } else {
      WitnessSum(signals, p, k - 1);
    }
  }

  lemma HarmfulTieMisses(signals: seq<real>, p: nat, q: nat)
    requires SortedSignals(signals) && TieGroup(signals, p, q)
    requires p >= 2 && q >= p + 2 && (p == 2 ==> q >= p + 3)
    ensures !LeastSquares(Witness(signals, p))
  {
    hide Mean, Pool, AddPoint, FitPrefix, Predict, StepModel, Best;
    var points := Witness(signals, p);
    HeadStays(signals, p, q, |signals|);
    FitPointsIsStepModel(points);
    HarmfulHead(signals, p, q, FitPoints(points));
  }

  lemma HarmfulHead(signals: seq<real>, p: nat, q: nat, model: Model)
    requires SortedSignals(signals) && TieGroup(signals, p, q)
    requires p >= 2 && q >= p + 2 && (p == 2 ==> q >= p + 3)
    requires model != [] && StepModel(model)
    requires model[0].minSignal == signals[0] && model[0].maxSignal == signals[q - 1]
    requires model[0].probability == Mean(Block(signals[0], signals[q - 1], q - p, q))
    ensures !Best(Witness(signals, p), FittedCurve(model))
  {
    hide Mean;
    var points := Witness(signals, p);
    WitnessSum(signals, p, p);
    ExcessCrossed(points, 0, p, Block(signals[0], signals[q - 1], q - p, q));
    LightHead(p, q);
    HeadPredicts(points, model, p);
    LightFirstBlockMisses(points, p, model);
  }

  lemma HeadPredicts(points: seq<Point>, model: Model, p: nat)
    requires Sorted(points) && p < |points| && model != [] && StepModel(model)
    requires model[0].minSignal == points[0].signal && points[p].signal <= model[0].maxSignal
    ensures forall i :: 0 <= i < p ==> Predict(model, points[i].signal) == model[0].probability
  {
  }

  lemma LightHead(p: int, q: int)
    requires p >= 2 && q >= p + 2 && (p == 2 ==> q >= p + 3)
    ensures q < (q - p) * p
  {
    if p > 2 {
      var u: nat, v: nat := p - 3, q - p - 2;
      assert (v + 2) * (u + 3) == v * u + 3 * v + 2 * u + 6;
      assert v * u >= 0;
    }
  }

  // ----- exactly which signal sequences are safe -----

  function WithOutcomes(signals: seq<real>, outcomes: seq<Bit>): (points: seq<Point>)
    requires |signals| == |outcomes|
    ensures |points| == |signals|
  {
    seq(|signals|, i requires 0 <= i < |signals| => Point(signals[i], outcomes[i]))
  }

  ghost predicate TieSafeSignals(signals: seq<real>) {
    forall i :: 1 <= i < |signals| && signals[i - 1] == signals[i] ==> signals[i] == signals[1] || i == 3
  }

  lemma FindTieGroup(signals: seq<real>, i: nat) returns (p: nat, q: nat)
    requires SortedSignals(signals) && 4 <= i < |signals|
    requires signals[i - 1] == signals[i] != signals[1]
    ensures TieGroup(signals, p, q) && 2 <= p < i < q
  {
    p := i - 1;
    while signals[p - 1] == signals[i]
      invariant 2 <= p < i
      invariant forall j :: p <= j <= i ==> signals[j] == signals[i]
      decreases p
    {
      p := p - 1;
      assert p != 1;
    }
    q := i + 1;
    while q < |signals| && signals[q] == signals[i]
      invariant i < q <= |signals|
      invariant forall j :: p <= j < q ==> signals[j] == signals[i]
    {
      q := q + 1;
    }
    assert signals[p - 1] <= signals[p];
    if q < |signals| {
      assert signals[q - 1] <= signals[q];
    }
  }

  /** The fit is least squares for every outcome the records could have, exactly
      when each repeated signal is the second smallest record's or the repeat is
      the fourth record. Pairwise distinct signals are always safe. */
  lemma LeastSquaresForAllOutcomesIffTieSafe(signals: seq<real>)
    requires SortedSignals(signals)
    ensures TieSafeSignals(signals) <==>
      forall outcomes: seq<Bit> :: |outcomes| == |signals| ==>
        LeastSquares(WithOutcomes(signals, outcomes))
  {
    hide LeastSquares, TieGroup;
    if TieSafeSignals(signals) {
      forall outcomes: seq<Bit> | |outcomes| == |signals|
        ensures LeastSquares(WithOutcomes(signals, outcomes))
      {
        TieSafeFitIsLeastSquares(WithOutcomes(signals, outcomes));
      }
    } else {
      var i :| 1 <= i < |signals| && signals[i - 1] == signals[i] && signals[i] != signals[1] && i != 3;
      assert i >= 4;
      var p, q := FindTieGroup(signals, i);
      HarmfulTieMisses(signals, p, q);
      var points := Witness(signals, p);
      var outcomes: seq<Bit> := seq(|signals|, j requires 0 <= j < |signals| => points[j].outcome);
      assert WithOutcomes(signals, outcomes) == points;
    }
  }

  lemma DistinctSignalsAreTieSafe(signals: seq<real>)
    requires forall i, j :: 0 <= i < j < |signals| ==> signals[i] != signals[j]
    ensures TieSafeSignals(signals)
  {
  }
}
