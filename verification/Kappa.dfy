/** Quadratic weighted kappa: the histogram loops of the agreement report,
    proved equal to a direct formula over pairs of ratings. */
module Kappa {
  datatype Pair = Pair(first: nat, second: nat)

  predicate InBins(pairs: seq<Pair>, bins: nat) {
    forall p :: 0 <= p < |pairs| ==> pairs[p].first <= bins && pairs[p].second <= bins
  }

  function Square(x: int): int { x * x }

  // ----- the direct formula -----

  /** Sum of squared gaps between the two ratings of each pair. */
  function PairGaps(pairs: seq<Pair>): int {
    if pairs == [] then 0
    else var last := pairs[|pairs| - 1];
      PairGaps(pairs[..|pairs| - 1]) + Square(last.first - last.second)
  }

  /** Sum of squared gaps between x and every second rating. */
  function GapsFrom(x: int, pairs: seq<Pair>): int {
    if pairs == [] then 0
    else GapsFrom(x, pairs[..|pairs| - 1]) + Square(x - pairs[|pairs| - 1].second)
  }

  /** Sum of squared gaps between every first and every second rating. */
  function CrossGaps(firsts: seq<Pair>, seconds: seq<Pair>): int {
    if firsts == [] then 0
    else CrossGaps(firsts[..|firsts| - 1], seconds) + GapsFrom(firsts[|firsts| - 1].first, seconds)
  }

  /** One minus the mean gap of the pairs over the mean gap of all cross pairs. */
  function KappaOf(pairs: seq<Pair>): real {
    var gaps, cross, n := PairGaps(pairs), CrossGaps(pairs, pairs), |pairs|;
    if n == 0 then 0.0
    else if cross == 0 then 1.0
    else 1.0 - (n * gaps) as real / cross as real
  }

  // ----- histograms -----

  function CountBoth(pairs: seq<Pair>, i: int, j: int): nat {
    if pairs == [] then 0
    else var last := pairs[|pairs| - 1];
      CountBoth(pairs[..|pairs| - 1], i, j) + if last.first == i && last.second == j then 1 else 0
  }

  function CountFirst(pairs: seq<Pair>, i: int): nat {
    if pairs == [] then 0
    else CountFirst(pairs[..|pairs| - 1], i) + if pairs[|pairs| - 1].first == i then 1 else 0
  }

  function CountSecond(pairs: seq<Pair>, j: int): nat {
    if pairs == [] then 0
    else CountSecond(pairs[..|pairs| - 1], j) + if pairs[|pairs| - 1].second == j then 1 else 0
  }

  /** Row i of the observed double loop, columns below j. */
  function ObservedRow(pairs: seq<Pair>, i: int, j: nat): int {
    if j == 0 then 0 else ObservedRow(pairs, i, j - 1) + Square(i - (j - 1)) * CountBoth(pairs, i, j - 1)
  }

  function ObservedRows(pairs: seq<Pair>, i: nat, size: nat): int {
    if i == 0 then 0 else ObservedRows(pairs, i - 1, size) + ObservedRow(pairs, i - 1, size)
  }

  /** Row i of the expected double loop without its first-histogram factor. */
  function SecondRow(pairs: seq<Pair>, i: int, j: nat): int {
    if j == 0 then 0 else SecondRow(pairs, i, j - 1) + Square(i - (j - 1)) * CountSecond(pairs, j - 1)
  }

  function ExpectedRows(firsts: seq<Pair>, seconds: seq<Pair>, i: nat, size: nat): int {
    if i == 0 then 0
    else ExpectedRows(firsts, seconds, i - 1, size) + CountFirst(firsts, i - 1) * SecondRow(seconds, i - 1, size)
  }

  // ----- the loops sum what the formula sums -----

  lemma Spread(w: int, n: int, k: int)
    ensures w * (n + k) == w * n + w * k
  {
  }

  lemma {:induction false} ObservedRowGrows(pairs: seq<Pair>, i: int, j: nat)
    requires pairs != []
    ensures var init, last := pairs[..|pairs| - 1], pairs[|pairs| - 1];
      ObservedRow(pairs, i, j) == ObservedRow(init, i, j)
        + if last.first == i && last.second < j then Square(i - last.second) else 0
  {
    if j > 0 {
      ObservedRowGrows(pairs, i, j - 1);
      var init, last := pairs[..|pairs| - 1], pairs[|pairs| - 1];
      Spread(Square(i - (j - 1)), CountBoth(init, i, j - 1), if last.first == i && last.second == j - 1 then 1 else 0);
    }
  }

  lemma {:induction false} ObservedRowsGrow(pairs: seq<Pair>, i: nat, size: nat)
    requires pairs != [] && pairs[|pairs| - 1].second < size
    ensures var init, last := pairs[..|pairs| - 1], pairs[|pairs| - 1];
      ObservedRows(pairs, i, size) == ObservedRows(init, i, size)
        + if last.first < i then Square(last.first - last.second) else 0
  {
    hide ObservedRow, Square;
    if i > 0 {
      ObservedRowsGrow(pairs, i - 1, size);
      ObservedRowGrows(pairs, i - 1, size);
    }
  }

  lemma {:induction false} NoObservedRow(i: int, j: nat)
    ensures ObservedRow([], i, j) == 0
  {
    if j > 0 { NoObservedRow(i, j - 1); }
  }

  lemma {:induction false} NoObservedRows(i: nat, size: nat)
    ensures ObservedRows([], i, size) == 0
  {
    if i > 0 { NoObservedRows(i - 1, size); NoObservedRow(i - 1, size); }
  }

  lemma {:induction false} ObservedIsPairGaps(pairs: seq<Pair>, bins: nat)
    requires InBins(pairs, bins)
    ensures ObservedRows(pairs, bins + 1, bins + 1) == PairGaps(pairs)
  {
    if pairs == [] {
      NoObservedRows(bins + 1, bins + 1);
    } else {
      hide ObservedRows, Square;
      ObservedIsPairGaps(pairs[..|pairs| - 1], bins);
      ObservedRowsGrow(pairs, bins + 1, bins + 1);
    }
  }

  lemma {:induction false} SecondRowGrows(pairs: seq<Pair>, i: int, j: nat)
    requires pairs != []
    ensures var init, last := pairs[..|pairs| - 1], pairs[|pairs| - 1];
      SecondRow(pairs, i, j) == SecondRow(init, i, j) + if last.second < j then Square(i - last.second) else 0
  {
    if j > 0 {
      SecondRowGrows(pairs, i, j - 1);
      var init, last := pairs[..|pairs| - 1], pairs[|pairs| - 1];
      Spread(Square(i - (j - 1)), CountSecond(init, j - 1), if last.second == j - 1 then 1 else 0);
    }
  }

  lemma {:induction false} NoSecondRow(i: int, j: nat)
    ensures SecondRow([], i, j) == 0
  {
    if j > 0 { NoSecondRow(i, j - 1); }
  }

  lemma {:induction false} SecondRowIsGaps(pairs: seq<Pair>, i: int, bins: nat)
    requires InBins(pairs, bins)
    ensures SecondRow(pairs, i, bins + 1) == GapsFrom(i, pairs)
  {
    if pairs == [] {
      NoSecondRow(i, bins + 1);
    } else {
      hide SecondRow, Square;
      SecondRowIsGaps(pairs[..|pairs| - 1], i, bins);
      SecondRowGrows(pairs, i, bins + 1);
    }
  }

  lemma {:induction false} ExpectedRowsGrow(firsts: seq<Pair>, seconds: seq<Pair>, i: nat, size: nat)
    requires firsts != []
    ensures var init, last := firsts[..|firsts| - 1], firsts[|firsts| - 1];
      ExpectedRows(firsts, seconds, i, size) == ExpectedRows(init, seconds, i, size)
        + if last.first < i then SecondRow(seconds, last.first, size) else 0
  {
    hide SecondRow;
    if i > 0 {
      ExpectedRowsGrow(firsts, seconds, i - 1, size);
      var init, last := firsts[..|firsts| - 1], firsts[|firsts| - 1];
      Spread(SecondRow(seconds, i - 1, size), CountFirst(init, i - 1), if last.first == i - 1 then 1 else 0);
    }
  }

  lemma {:induction false} NoExpectedRows(seconds: seq<Pair>, i: nat, size: nat)
    ensures ExpectedRows([], seconds, i, size) == 0
  {
    if i > 0 { NoExpectedRows(seconds, i - 1, size); }
  }

  lemma {:induction false} ExpectedIsCrossGaps(firsts: seq<Pair>, seconds: seq<Pair>, bins: nat)
    requires InBins(firsts, bins) && InBins(seconds, bins)
    ensures ExpectedRows(firsts, seconds, bins + 1, bins + 1) == CrossGaps(firsts, seconds)
  {
    if firsts == [] {
      NoExpectedRows(seconds, bins + 1, bins + 1);
    } else {
      hide ExpectedRows, SecondRow;
      ExpectedIsCrossGaps(firsts[..|firsts| - 1], seconds, bins);
      ExpectedRowsGrow(firsts, seconds, bins + 1, bins + 1);
      SecondRowIsGaps(seconds, firsts[|firsts| - 1].first, bins);
    }
  }

  // ----- one cell of the double loop in real arithmetic -----

  /** weight * count / n, added to a running sum over the same divisor. */
  lemma ObservedCell(sum: int, w: int, count: int, scale: real, n: real)
    requires scale > 0.0 && n > 0.0
    ensures sum as real / (scale * n) + w as real / scale * count as real / n == (sum + w * count) as real / (scale * n)
  {
    var wr, cr := w as real, count as real;
    CellProduct(wr, cr, scale, n);
    assert (sum + w * count) as real == sum as real + wr * cr;
    SumOfQuotients(sum as real, wr * cr, scale * n);
  }

  lemma CellProduct(w: real, c: real, scale: real, n: real)
    requires scale > 0.0 && n > 0.0
    ensures scale * n > 0.0
    ensures w / scale * c / n == (w * c) / (scale * n)
  {
    var q := w / scale;
    assert q * scale == w;
    var r := q * c / n;
    assert r * n == q * c;
    assert r * (scale * n) == (r * n) * scale;
    assert (q * c) * scale == (q * scale) * c;
  }

  lemma SumOfQuotients(a: real, b: real, d: real)
    requires d > 0.0
    ensures a / d + b / d == (a + b) / d
  {
  }

  lemma ExpectedCell(sum: int, w: int, first: int, second: int, scale: real, nn: real)
    requires scale > 0.0 && nn > 0.0
    ensures sum as real / (scale * nn) + w as real / scale * first as real * second as real / nn
      == (sum + first * (w * second)) as real / (scale * nn)
  {
    var count := first * second;
    ObservedCell(sum, w, count, scale, nn);
    assert w * count == first * (w * second);
    var q := w as real / scale;
    assert count as real == first as real * second as real;
    Associate(q, first as real, second as real);
  }

  lemma Positive(a: real, b: real)
    requires a > 0.0 && b > 0.0
    ensures a * b > 0.0
  {
  }

  lemma Associate(a: real, b: real, c: real)
    ensures a * b * c == a * (b * c)
  {
  }

  /** A weighted sum once the squared number of bins and a count k have divided it. */
  function Over(sum: int, bins: nat, k: nat): real
    requires bins > 0 && k > 0
  {
    sum as real / (Square(bins) as real * k as real)
  }

  function ObservedTerm(weight: real, count: nat, n: nat): real
    requires n > 0
  {
    weight * count as real / n as real
  }

  function ExpectedTerm(weight: real, first: nat, second: nat, nn: nat): real
    requires nn > 0
  {
    weight * first as real * second as real / nn as real
  }

  /** The expected double loop within row i, columns below j. */
  function ExpectedRow(pairs: seq<Pair>, i: int, j: nat): int {
    CountFirst(pairs, i) * SecondRow(pairs, i, j)
  }

  function Weight(i: int, j: int, bins: nat): real
    requires bins > 0
  {
    Square(i - j) as real / Square(bins) as real
  }

  lemma ObservedSum(sum: int, w: int, count: nat, bins: nat, n: nat)
    requires bins > 0 && n > 0
    ensures Over(sum, bins, n) + ObservedTerm(w as real / Square(bins) as real, count, n)
      == Over(sum + w * count, bins, n)
  {
    ObservedCell(sum, w, count, Square(bins) as real, n as real);
  }

  lemma ExpectedSum(e: int, h: nat, x: int, w: int, c: nat, bins: nat, nn: nat)
    requires bins > 0 && nn > 0
    ensures Over(e + h * x, bins, nn) + ExpectedTerm(w as real / Square(bins) as real, h, c, nn)
      == Over(e + h * (x + w * c), bins, nn)
  {
    ExpectedCell(e + h * x, w, h, c, Square(bins) as real, nn as real);
    Spread(h, x, w * c);
  }

  lemma ObservedStep(pairs: seq<Pair>, i: int, j: nat, o: int, bins: nat, n: nat)
    requires bins > 0 && n > 0
    ensures Over(o + ObservedRow(pairs, i, j), bins, n) + ObservedTerm(Weight(i, j, bins), CountBoth(pairs, i, j), n)
      == Over(o + ObservedRow(pairs, i, j + 1), bins, n)
  {
    hide CountBoth, Over, ObservedTerm;
    ObservedSum(o + ObservedRow(pairs, i, j), Square(i - j), CountBoth(pairs, i, j), bins, n);
  }

  lemma ExpectedStep(pairs: seq<Pair>, i: int, j: nat, e: int, bins: nat, nn: nat)
    requires bins > 0 && nn > 0
    ensures Over(e + ExpectedRow(pairs, i, j), bins, nn)
        + ExpectedTerm(Weight(i, j, bins), CountFirst(pairs, i), CountSecond(pairs, j), nn)
      == Over(e + ExpectedRow(pairs, i, j + 1), bins, nn)
  {
    hide CountSecond, CountFirst, Square, Over, ExpectedTerm;
    SquarePositive(bins);
    ExpectedSum(e, CountFirst(pairs, i), SecondRow(pairs, i, j), Square(i - j), CountSecond(pairs, j), bins, nn);
  }

  lemma SquarePositive(n: int)
    requires n > 0
    ensures Square(n) > 0
  {
  }

  /** The scale and the counts cancel in the quotient. */
  lemma RatioOfMeans(gaps: int, cross: int, bins: nat, n: nat)
    requires bins > 0 && n > 0
    ensures Square(n) > 0
    ensures Over(cross, bins, Square(n)) == 0.0 <==> cross == 0
    ensures cross != 0 ==> Over(gaps, bins, n) / Over(cross, bins, Square(n)) == (n * gaps) as real / cross as real
  {
    var scale, nr, nn := Square(bins) as real, n as real, Square(n) as real;
    Positive(scale, nr);
    Positive(scale, nn);
    var observed, expected := Over(gaps, bins, n), Over(cross, bins, Square(n));
    assert expected * (scale * nn) == cross as real;
    assert observed * (scale * nr) == gaps as real;
    if cross != 0 {
      assert nn == nr * nr;
      Regroup(observed, scale, nr);
      SameQuotient(observed, expected, scale * nn, (n * gaps) as real, cross as real);
    }
  }

  lemma Regroup(a: real, scale: real, n: real)
    ensures a * (scale * (n * n)) == n * (a * (scale * n))
  {
  }

  lemma SameQuotient(a: real, b: real, k: real, x: real, y: real)
    requires b != 0.0 && y != 0.0 && k != 0.0 && x == a * k && y == b * k
    ensures a / b == x / y
  {
    var q := a / b;
    assert q * b == a;
    assert q * y == x by { assert q * (b * k) == (q * b) * k; }
  }

  // ----- the loops -----

  method FillTables(pairs: seq<Pair>, bins: nat)
      returns (observed: array2<nat>, firstHistogram: array<nat>, secondHistogram: array<nat>)
    requires InBins(pairs, bins)
    ensures observed.Length0 == observed.Length1 == firstHistogram.Length == secondHistogram.Length == bins + 1
    ensures forall i, j :: 0 <= i <= bins && 0 <= j <= bins ==> observed[i, j] == CountBoth(pairs, i, j)
    ensures forall i :: 0 <= i <= bins ==> firstHistogram[i] == CountFirst(pairs, i)
    ensures forall j :: 0 <= j <= bins ==> secondHistogram[j] == CountSecond(pairs, j)
  {
    var size := bins + 1;
    observed := new nat[size, size]((i, j) => 0);
    firstHistogram := new nat[size](i => 0);
    secondHistogram := new nat[size](j => 0);
    for p := 0 to |pairs|
      invariant forall i, j :: 0 <= i < size && 0 <= j < size ==> observed[i, j] == CountBoth(pairs[..p], i, j)
      invariant forall i :: 0 <= i < size ==> firstHistogram[i] == CountFirst(pairs[..p], i)
      invariant forall j :: 0 <= j < size ==> secondHistogram[j] == CountSecond(pairs[..p], j)
    {
      assert pairs[..p + 1][..p] == pairs[..p];
      var pair := pairs[p];
      observed[pair.first, pair.second] := observed[pair.first, pair.second] + 1;
      firstHistogram[pair.first] := firstHistogram[pair.first] + 1;
      secondHistogram[pair.second] := secondHistogram[pair.second] + 1;
    }
    assert pairs[..|pairs|] == pairs;
  }

  /** The weighted double loop over both tables. */
  method WeightedSums(pairs: seq<Pair>, bins: nat, observed: array2<nat>, firstHistogram: array<nat>,
      secondHistogram: array<nat>)
      returns (observedWeighted: real, expectedWeighted: real)
    requires bins > 0 && |pairs| > 0
    requires observed.Length0 == observed.Length1 == firstHistogram.Length == secondHistogram.Length == bins + 1
    requires forall i, j :: 0 <= i <= bins && 0 <= j <= bins ==> observed[i, j] == CountBoth(pairs, i, j)
    requires forall i :: 0 <= i <= bins ==> firstHistogram[i] == CountFirst(pairs, i)
    requires forall j :: 0 <= j <= bins ==> secondHistogram[j] == CountSecond(pairs, j)
    ensures Square(|pairs|) > 0
    ensures observedWeighted == Over(ObservedRows(pairs, bins + 1, bins + 1), bins, |pairs|)
    ensures expectedWeighted == Over(ExpectedRows(pairs, pairs, bins + 1, bins + 1), bins, Square(|pairs|))
  {
    SquarePositive(|pairs|);
    EmptySums(pairs, bins);
    hide CountBoth, CountFirst, CountSecond, ObservedRow, SecondRow, ExpectedRow, ObservedRows, ExpectedRows, Weight,
      Over, Square, ObservedTerm, ExpectedTerm;
    var size, n, nn := bins + 1, |pairs|, Square(|pairs|);
    observedWeighted, expectedWeighted := 0.0, 0.0;
    for first := 0 to size
      invariant observedWeighted == Over(ObservedRows(pairs, first, size), bins, n)
      invariant expectedWeighted == Over(ExpectedRows(pairs, pairs, first, size), bins, nn)
    {
      ghost var o, e := ObservedRows(pairs, first, size), ExpectedRows(pairs, pairs, first, size);
      RowByRow(pairs, first, size);
      for second := 0 to size
        invariant observedWeighted == Over(o + ObservedRow(pairs, first, second), bins, n)
        invariant expectedWeighted == Over(e + ExpectedRow(pairs, first, second), bins, nn)
      {
        var weight := Weight(first, second, bins);
        ObservedStep(pairs, first, second, o, bins, n);
        ExpectedStep(pairs, first, second, e, bins, nn);
        observedWeighted := observedWeighted + ObservedTerm(weight, observed[first, second], n);
        expectedWeighted := expectedWeighted + ExpectedTerm(weight, firstHistogram[first], secondHistogram[second], nn);
      }
    }
  }

  lemma EmptySums(pairs: seq<Pair>, bins: nat)
    requires bins > 0 && |pairs| > 0 && Square(|pairs|) > 0
    ensures Over(ObservedRows(pairs, 0, bins + 1), bins, |pairs|) == 0.0
    ensures Over(ExpectedRows(pairs, pairs, 0, bins + 1), bins, Square(|pairs|)) == 0.0
  {
  }

  lemma RowByRow(pairs: seq<Pair>, i: nat, size: nat)
    ensures ObservedRow(pairs, i, 0) == 0 && ExpectedRow(pairs, i, 0) == 0
    ensures ObservedRows(pairs, i + 1, size) == ObservedRows(pairs, i, size) + ObservedRow(pairs, i, size)
    ensures ExpectedRows(pairs, pairs, i + 1, size) == ExpectedRows(pairs, pairs, i, size) + ExpectedRow(pairs, i, size)
  {
  }

  method QuadraticWeightedKappa(pairs: seq<Pair>, bins: nat) returns (kappa: real)
    requires bins > 0 && InBins(pairs, bins)
    ensures kappa == KappaOf(pairs)
  {
    hide PairGaps, CrossGaps, ObservedRows, ExpectedRows, Square, Over, CountBoth, CountFirst, CountSecond;
    if |pairs| == 0 {
      return 0.0;
    }
    var observed, firstHistogram, secondHistogram := FillTables(pairs, bins);
    var observedWeighted, expectedWeighted := WeightedSums(pairs, bins, observed, firstHistogram, secondHistogram);
    ObservedIsPairGaps(pairs, bins);
    ExpectedIsCrossGaps(pairs, pairs, bins);
    RatioOfMeans(PairGaps(pairs), CrossGaps(pairs, pairs), bins, |pairs|);
    kappa := if expectedWeighted == 0.0 then 1.0 else 1.0 - observedWeighted / expectedWeighted;
  }
}
