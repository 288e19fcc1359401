/** Isotonic calibration: the pool-adjacent-violators fit, the step predictor
    and the binned evaluation. Scores, signals and means are exact reals. */
module Calibration {
  import opened RealArithmetic
  import opened Wrappers

  datatype Observation = Observation(
    schemaValid: bool, evidenceValid: bool, firstPass: bool, ocrConfidence: Option<real>,
    inScope: bool, ruleConsistent: bool, modelScore: real, goldScore: real, maxScore: real)

  type Bit = n: int | 0 <= n <= 1

  /** One training record after its signal and outcome have been derived. */
  datatype Point = Point(signal: real, outcome: Bit)

  /** A pooled run of training records, as kept on the stack. */
  datatype Block = Block(minSignal: real, maxSignal: real, sum: int, count: Pos)

  datatype ModelBlock = ModelBlock(minSignal: real, maxSignal: real, probability: real, count: Pos)
  type Model = seq<ModelBlock>

  datatype Error = NoObservations | BadBins | EmptyModel

  function ReliabilitySignal(o: Observation): (signal: real)
    ensures 0.0 <= signal <= 1.0
  {
    var ocr := if o.ocrConfidence.Some? then o.ocrConfidence.value else 0.0;
    var raw := 1.0
      - (if o.schemaValid then 0.0 else 0.45)
      - (if o.evidenceValid then 0.0 else 0.3)
      - (if o.firstPass then 0.0 else 0.1)
      - Max(0.0, 1.0 - ocr) * 0.25
      - (if o.inScope then 0.0 else 0.2)
      - (if o.ruleConsistent then 0.0 else 0.25);
    if raw < 0.0 then 0.0 else if raw > 1.0 then 1.0 else raw
  }

  predicate AcceptableAgreement(o: Observation) {
    o.maxScore > 0.0 && o.schemaValid && o.evidenceValid
    && Abs(o.modelScore - o.goldScore) / o.maxScore <= 0.1
  }

  function PointOf(o: Observation): Point {
    Point(ReliabilitySignal(o), if AcceptableAgreement(o) then 1 else 0)
  }

  function Points(observations: seq<Observation>): (points: seq<Point>)
    ensures |points| == |observations|
    ensures forall i :: 0 <= i < |points| ==> points[i] == PointOf(observations[i])
  {
    seq(|observations|, i requires 0 <= i < |observations| => PointOf(observations[i]))
  }

  // ----- the stable sort by signal -----

  ghost predicate Sorted(points: seq<Point>) {
    forall i, j :: 0 <= i <= j < |points| ==> points[i].signal <= points[j].signal
  }

  /** Places p after every element whose signal is not larger. */
  function Insert(points: seq<Point>, p: Point): (r: seq<Point>)
    ensures |r| == |points| + 1
    ensures multiset(r) == multiset(points) + multiset{p}
  {
    if points == [] || points[|points| - 1].signal <= p.signal then points + [p]
    else
      assert points == points[..|points| - 1] + [points[|points| - 1]];
      Insert(points[..|points| - 1], p) + [points[|points| - 1]]
  }

  function SortBySignal(points: seq<Point>): (r: seq<Point>)
    ensures |r| == |points|
    ensures multiset(r) == multiset(points)
  {
    if points == [] then []
    else
      assert points == points[..|points| - 1] + [points[|points| - 1]];
      Insert(SortBySignal(points[..|points| - 1]), points[|points| - 1])
  }

  lemma {:induction false} InsertWithin(points: seq<Point>, p: Point, bound: real)
    requires p.signal <= bound && forall i :: 0 <= i < |points| ==> points[i].signal <= bound
    ensures forall i :: 0 <= i < |points| + 1 ==> Insert(points, p)[i].signal <= bound
  {
    if points != [] && points[|points| - 1].signal > p.signal {
      InsertWithin(points[..|points| - 1], p, bound);
    }
  }

  lemma {:induction false} InsertKeepsSorted(points: seq<Point>, p: Point)
    requires Sorted(points)
    ensures Sorted(Insert(points, p))
  {
    if points != [] && points[|points| - 1].signal > p.signal {
      var init := points[..|points| - 1];
      InsertKeepsSorted(init, p);
      InsertWithin(init, p, points[|points| - 1].signal);
    }
  }

  lemma {:induction false} SortIsSorted(points: seq<Point>)
    ensures Sorted(SortBySignal(points))
  {
    if points != [] {
      SortIsSorted(points[..|points| - 1]);
      InsertKeepsSorted(SortBySignal(points[..|points| - 1]), points[|points| - 1]);
    }
  }

  // ----- the block stack -----

  function Mean(b: Block): real { b.sum as real / b.count as real }

  function Merge(left: Block, right: Block): Block {
    Block(left.minSignal, right.maxSignal, left.sum + right.sum, left.count + right.count)
  }

  /** Adds one point: into the last block on an equal signal, else as a new block. */
  function AddPoint(blocks: seq<Block>, p: Point): seq<Block> {
    if blocks != [] && blocks[|blocks| - 1].maxSignal == p.signal then
      var last := blocks[|blocks| - 1];
      blocks[..|blocks| - 1] + [last.(sum := last.sum + p.outcome, count := last.count + 1)]
    else
      blocks + [Block(p.signal, p.signal, p.outcome, 1)]
  }

  /** Merges the two rightmost blocks while their means decrease. */
  function Pool(blocks: seq<Block>): seq<Block>
    decreases |blocks|
  {
    var n := |blocks|;
    if n < 2 || Mean(blocks[n - 2]) <= Mean(blocks[n - 1]) then blocks
    else Pool(blocks[..n - 2] + [Merge(blocks[n - 2], blocks[n - 1])])
  }

  /** The stack after the first e points. */
  function FitPrefix(points: seq<Point>, e: nat): seq<Block>
    requires e <= |points|
  {
    if e == 0 then [] else Pool(AddPoint(FitPrefix(points, e - 1), points[e - 1]))
  }

  function ToModel(blocks: seq<Block>): (m: Model)
    ensures |m| == |blocks|
  {
    seq(|blocks|, i requires 0 <= i < |blocks| =>
      ModelBlock(blocks[i].minSignal, blocks[i].maxSignal, Mean(blocks[i]), blocks[i].count))
  }

  function FitPoints(points: seq<Point>): Model {
    ToModel(FitPrefix(points, |points|))
  }

  /** The whole fit as a function of the training records. */
  function Fit(observations: seq<Observation>): Model {
    FitPoints(SortBySignal(Points(observations)))
  }

  /** The inner loop: merges from the right until the last two means are in order. */
  method MergeRightmost(stack: seq<Block>) returns (blocks: seq<Block>)
    ensures blocks == Pool(stack)
  {
    hide Mean;
    blocks := stack;
    while |blocks| >= 2
      invariant Pool(blocks) == Pool(stack)
      decreases |blocks|
    {
      var right, left := blocks[|blocks| - 1], blocks[|blocks| - 2];
      if Mean(left) <= Mean(right) {
        break;
      }
      blocks := blocks[..|blocks| - 2] + [Merge(left, right)];
    }
  }

  /** One point joins the block with its signal, or starts a new one. */
  method Absorb(stack: seq<Block>, point: Point) returns (blocks: seq<Block>)
    ensures blocks == AddPoint(stack, point)
  {
    var last := |stack| - 1;
    if last >= 0 && stack[last].maxSignal == point.signal {
      var existing := stack[last];
      blocks := stack[..last] + [existing.(sum := existing.sum + point.outcome, count := existing.count + 1)];
    } else {
      blocks := stack + [Block(point.signal, point.signal, point.outcome, 1)];
    }
  }

  method FitIsotonicCalibration(observations: seq<Observation>) returns (r: Result<Model, Error>)
    ensures r == if observations == [] then Failure(NoObservations) else Success(Fit(observations))
  {
    hide Mean, Pool, AddPoint, SortBySignal;
    if |observations| == 0 {
      return Failure(NoObservations);
    }
    var sorted := SortBySignal(Points(observations));
    var blocks: seq<Block> := [];
    for i := 0 to |sorted|
      invariant blocks == FitPrefix(sorted, i)
    {
      blocks := Absorb(blocks, sorted[i]);
      blocks := MergeRightmost(blocks);
    }
    return Success(ToModel(blocks));
  }

  // ----- prediction -----

  /** The scan from block i on, exactly as the loop performs it. */
  function PredictFrom(model: Model, signal: real, i: nat): real
    requires i <= |model| && model != []
    decreases |model| - i
  {
    if i == |model| then model[|model| - 1].probability
    else if signal <= model[i].maxSignal then model[i].probability
    else if i + 1 < |model| && signal < model[i + 1].minSignal then model[i].probability
    else PredictFrom(model, signal, i + 1)
  }

  function Predict(model: Model, signal: real): real
    requires model != []
  {
    if signal < model[0].minSignal then model[0].probability else PredictFrom(model, signal, 0)
  }

  method PredictCalibratedProbability(model: Model, signal: real) returns (r: Result<real, Error>)
    ensures r == if model == [] then Failure(EmptyModel) else Success(Predict(model, signal))
  {
    if |model| == 0 {
      return Failure(EmptyModel);
    }
    if signal < model[0].minSignal {
      return Success(model[0].probability);
    }
    for i := 0 to |model|
      invariant PredictFrom(model, signal, 0) == PredictFrom(model, signal, i)
    {
      if signal <= model[i].maxSignal {
        return Success(model[i].probability);
      }
      if i + 1 < |model| && signal < model[i + 1].minSignal {
        return Success(model[i].probability);
      }
    }
    return Success(model[|model| - 1].probability);
  }

  // ----- evaluation -----

  datatype Prediction = Prediction(probability: real, outcome: Bit)
  datatype BinReport = BinReport(bin: nat, count: nat, averageProbability: real, empiricalAccuracy: real)
  datatype Evaluation = Evaluation(records: nat, ece: real, brier: real, bins: seq<BinReport>)

  function Predictions(points: seq<Point>, model: Model): (r: seq<Prediction>)
    requires model != []
    ensures |r| == |points|
  {
    seq(|points|, i requires 0 <= i < |points| => Prediction(Predict(model, points[i].signal), points[i].outcome))
  }

  function BinOf(probability: real, bins: Pos): (b: int)
    ensures b < bins
    ensures probability >= 0.0 ==> b >= 0
  {
    var index := (probability * bins as real).Floor;
    if index < bins - 1 then index else bins - 1
  }

  /** The predictions that fall into bin b, in order. */
  function InBin(predictions: seq<Prediction>, bins: Pos, b: int): seq<Prediction> {
    if predictions == [] then []
    else
      var last := predictions[|predictions| - 1];
      var rest := InBin(predictions[..|predictions| - 1], bins, b);
      if BinOf(last.probability, bins) == b then rest + [last] else rest
  }

  function SumProbability(predictions: seq<Prediction>): real {
    if predictions == [] then 0.0
    else SumProbability(predictions[..|predictions| - 1]) + predictions[|predictions| - 1].probability
  }

  function SumOutcome(predictions: seq<Prediction>): int {
    if predictions == [] then 0
    else SumOutcome(predictions[..|predictions| - 1]) + predictions[|predictions| - 1].outcome
  }

  function SumSquaredError(predictions: seq<Prediction>): real {
    if predictions == [] then 0.0
    else
      var last := predictions[|predictions| - 1];
      var error := last.probability - last.outcome as real;
      SumSquaredError(predictions[..|predictions| - 1]) + error * error
  }

  /** How far the observed successes of bin b are from their predicted number. */
  function BinGap(predictions: seq<Prediction>, bins: Pos, b: int): real {
    var bucket := InBin(predictions, bins, b);
    Abs(SumOutcome(bucket) as real - SumProbability(bucket))
  }

  /** Sum of the gaps of bins 0..k. */
  function TotalGap(predictions: seq<Prediction>, bins: Pos, k: nat): real {
    if k == 0 then 0.0 else TotalGap(predictions, bins, k - 1) + BinGap(predictions, bins, k - 1)
  }

  lemma WeightedGap(c: real, n: real, outcomes: real, probabilities: real)
    requires c > 0.0 && n > 0.0
    ensures c / n * Abs(outcomes / c - probabilities / c) == Abs(outcomes - probabilities) / n
  {
    var q, gap := (outcomes - probabilities) / c, Abs(outcomes - probabilities);
    QuotientDifference(outcomes, probabilities, c);
    QuotientBack(outcomes - probabilities, c);
    QuotientSign(outcomes - probabilities, c);
    QuotientBack(c, n);
    QuotientBack(gap, n);
    assert Abs(q) * c == gap;
    assert (c / n * Abs(q)) * n == (c / n * n) * Abs(q);
    Cancel(c / n * Abs(q), gap / n, n);
  }

  function Summary(bin: nat, bucket: seq<Prediction>): BinReport
    requires bucket != []
  {
    BinReport(bin, |bucket|, SumProbability(bucket) / |bucket| as real, SumOutcome(bucket) as real / |bucket| as real)
  }

  /** What a reported bin adds to the expected calibration error. */
  function Contribution(report: BinReport, records: Pos): real {
    report.count as real / records as real * Abs(report.empiricalAccuracy - report.averageProbability)
  }

  lemma GapStep(predictions: seq<Prediction>, bins: Pos, b: nat, records: Pos)
    requires InBin(predictions, bins, b) != []
    ensures TotalGap(predictions, bins, b + 1) / records as real
      == TotalGap(predictions, bins, b) / records as real
         + Contribution(Summary(b, InBin(predictions, bins, b)), records)
  {
    hide InBin, SumOutcome, SumProbability;
    var bucket := InBin(predictions, bins, b);
    WeightedGap(|bucket| as real, records as real, SumOutcome(bucket) as real, SumProbability(bucket));
    QuotientDifference(TotalGap(predictions, bins, b), BinGap(predictions, bins, b), records as real);
  }

  lemma EmptyGap(predictions: seq<Prediction>, bins: Pos, b: nat)
    requires InBin(predictions, bins, b) == []
    ensures TotalGap(predictions, bins, b + 1) == TotalGap(predictions, bins, b)
  {
  }

  ghost predicate NonNegative(model: Model) {
    forall b :: b in model ==> b.probability >= 0.0
  }

  lemma {:induction false} PredictionComesFromABlock(model: Model, signal: real, i: nat)
    requires i <= |model| && model != []
    ensures exists b :: b in model && PredictFrom(model, signal, i) == b.probability
    decreases |model| - i
  {
    if i < |model| {
      PredictionComesFromABlock(model, signal, i + 1);
      assert model[i] in model;
    } else {
      assert model[|model| - 1] in model;
    }
  }

  lemma PredictionsNonNegative(points: seq<Point>, model: Model)
    requires model != [] && NonNegative(model)
    ensures forall i :: 0 <= i < |points| ==> Predictions(points, model)[i].probability >= 0.0
  {
    forall i | 0 <= i < |points| ensures Predictions(points, model)[i].probability >= 0.0 {
      PredictionComesFromABlock(model, points[i].signal, 0);
      assert model[0] in model;
    }
  }

  /** The report summarises the non-empty bin it names. */
  ghost predicate ReportsBin(report: BinReport, predictions: seq<Prediction>, bins: Pos) {
    var bucket := InBin(predictions, bins, report.bin);
    bucket != [] && report == Summary(report.bin, bucket)
  }

  /** Exactly the non-empty bins below k are reported, in increasing order. */
  ghost predicate ReportsBelow(reports: seq<BinReport>, predictions: seq<Prediction>, bins: Pos, k: nat) {
    && (forall i :: 0 <= i < |reports| ==> reports[i].bin < k && ReportsBin(reports[i], predictions, bins))
    && (forall i, j :: 0 <= i < j < |reports| ==> reports[i].bin < reports[j].bin)
    && (forall b: nat :: b < k && InBin(predictions, bins, b) != [] ==>
      exists i :: 0 <= i < |reports| && reports[i].bin == b)
  }

  lemma ReportsExtend(reports: seq<BinReport>, predictions: seq<Prediction>, bins: Pos, k: nat)
    requires ReportsBelow(reports, predictions, bins, k) && InBin(predictions, bins, k) != []
    ensures ReportsBelow(reports + [Summary(k, InBin(predictions, bins, k))], predictions, bins, k + 1)
  {
    hide InBin, SumOutcome, SumProbability;
    var r := reports + [Summary(k, InBin(predictions, bins, k))];
    forall b: nat | b < k + 1 && InBin(predictions, bins, b) != []
      ensures exists i :: 0 <= i < |r| && r[i].bin == b
    {
      if b == k {
        assert r[|reports|].bin == b;
      } else {
        var i :| 0 <= i < |reports| && reports[i].bin == b;
        assert r[i].bin == b;
      }
    }
  }

  lemma ReportsSkip(reports: seq<BinReport>, predictions: seq<Prediction>, bins: Pos, k: nat)
    requires ReportsBelow(reports, predictions, bins, k)
    requires InBin(predictions, bins, k) == []
    ensures ReportsBelow(reports, predictions, bins, k + 1)
  {
  }

  lemma NothingReported(predictions: seq<Prediction>, bins: Pos, records: Pos)
    ensures ReportsBelow([], predictions, bins, 0)
    ensures 0.0 == TotalGap(predictions, bins, 0) / records as real
  {
    QuotientSign(0.0, records as real);
  }

  method FillBuckets(predictions: seq<Prediction>, bins: Pos) returns (buckets: array<seq<Prediction>>)
    requires forall i :: 0 <= i < |predictions| ==> predictions[i].probability >= 0.0
    ensures fresh(buckets) && buckets.Length == bins
    ensures forall b :: 0 <= b < bins ==> buckets[b] == InBin(predictions, bins, b)
  {
    buckets := new seq<Prediction>[bins](_ => []);
    for i := 0 to |predictions|
      invariant forall b :: 0 <= b < bins ==> buckets[b] == InBin(predictions[..i], bins, b)
    {
      var index := BinOf(predictions[i].probability, bins);
      assert predictions[..i + 1][..i] == predictions[..i];
      buckets[index] := buckets[index] + [predictions[i]];
    }
    assert predictions[..|predictions|] == predictions;
  }

  method SummariseBins(ghost predictions: seq<Prediction>, buckets: array<seq<Prediction>>, bins: Pos, records: Pos)
    returns (ece: real, reports: seq<BinReport>)
    requires buckets.Length == bins
    requires forall b :: 0 <= b < bins ==> buckets[b] == InBin(predictions, bins, b)
    ensures ece == TotalGap(predictions, bins, bins) / records as real
    ensures ReportsBelow(reports, predictions, bins, bins)
  {
    ece, reports := 0.0, [];
    NothingReported(predictions, bins, records);
    hide InBin, TotalGap, BinGap, ReportsBelow, ReportsBin, Contribution, Summary;
    for b := 0 to bins
      invariant ece == TotalGap(predictions, bins, b) / records as real
      invariant ReportsBelow(reports, predictions, bins, b)
    {
      var bucket := buckets[b];
      if |bucket| == 0 {
        EmptyGap(predictions, bins, b);
        ReportsSkip(reports, predictions, bins, b);
      } else {
        var report := Summary(b, bucket);
        GapStep(predictions, bins, b, records);
        ece := ece + Contribution(report, records);
        ReportsExtend(reports, predictions, bins, b);
        reports := reports + [report];
      }
    }
  }

  method EvaluateCalibration(observations: seq<Observation>, model: Model, bins: int)
    returns (r: Result<Evaluation, Error>)
    requires NonNegative(model)
    ensures observations == [] ==> r == Failure(NoObservations)
    ensures observations != [] && bins <= 0 ==> r == Failure(BadBins)
    ensures observations != [] && bins > 0 && model == [] ==> r == Failure(EmptyModel)
    ensures observations != [] && bins > 0 && model != [] ==>
      var predictions := Predictions(Points(observations), model);
      && r.Success?
      && r.value.records == |observations|
      && r.value.ece == TotalGap(predictions, bins, bins) / |observations| as real
      && r.value.brier == SumSquaredError(predictions) / |observations| as real
      && ReportsBelow(r.value.bins, predictions, bins, bins)
  {
    if |observations| == 0 {
      return Failure(NoObservations);
    }
    if bins <= 0 {
      return Failure(BadBins);
    }
    if |model| == 0 {
      return Failure(EmptyModel);
    }
    var predictions := Predictions(Points(observations), model);
    PredictionsNonNegative(Points(observations), model);
    var buckets := FillBuckets(predictions, bins);
    var ece, reports := SummariseBins(predictions, buckets, bins, |observations|);
    return Success(Evaluation(|observations|, ece, SumSquaredError(predictions) / |observations| as real, reports));
  }
}
