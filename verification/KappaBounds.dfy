/** What kappa means: its range, when it is extreme, and its symmetry. */
module KappaBounds {
  import opened RealArithmetic
  import opened Kappa

  function SumFirst(pairs: seq<Pair>): int {
    if pairs == [] then 0 else SumFirst(pairs[..|pairs| - 1]) + pairs[|pairs| - 1].first
  }

  function SumSecond(pairs: seq<Pair>): int {
    if pairs == [] then 0 else SumSecond(pairs[..|pairs| - 1]) + pairs[|pairs| - 1].second
  }

  function SquaresFirst(pairs: seq<Pair>): int {
    if pairs == [] then 0 else SquaresFirst(pairs[..|pairs| - 1]) + Square(pairs[|pairs| - 1].first)
  }

  function SquaresSecond(pairs: seq<Pair>): int {
    if pairs == [] then 0 else SquaresSecond(pairs[..|pairs| - 1]) + Square(pairs[|pairs| - 1].second)
  }

  function Products(pairs: seq<Pair>): int {
    if pairs == [] then 0
    else Products(pairs[..|pairs| - 1]) + pairs[|pairs| - 1].first * pairs[|pairs| - 1].second
  }

  // ----- both sums of gaps in terms of moments -----

  lemma SquareOfDifference(x: int, y: int)
    ensures Square(x - y) == Square(x) - 2 * (x * y) + Square(y)
  {
  }

  lemma {:induction false} PairGapsByMoments(pairs: seq<Pair>)
    ensures PairGaps(pairs) == SquaresFirst(pairs) - 2 * Products(pairs) + SquaresSecond(pairs)
  {
    hide Square;
    if pairs != [] {
      PairGapsByMoments(pairs[..|pairs| - 1]);
      SquareOfDifference(pairs[|pairs| - 1].first, pairs[|pairs| - 1].second);
    }
  }

  lemma OneMore(n: int, k: int)
    ensures (n + 1) * k == n * k + k
  {
  }

  lemma Distribute(x: int, a: int, b: int)
    ensures x * (a + b) == x * a + x * b
    ensures (a + b) * x == a * x + b * x
  {
  }

  lemma {:induction false} GapsFromByMoments(x: int, pairs: seq<Pair>)
    ensures GapsFrom(x, pairs) == |pairs| * Square(x) - 2 * (x * SumSecond(pairs)) + SquaresSecond(pairs)
  {
    hide Square;
    if pairs != [] {
      var init, y := pairs[..|pairs| - 1], pairs[|pairs| - 1].second;
      GapsFromByMoments(x, init);
      SquareOfDifference(x, y);
      OneMore(|init|, Square(x));
      Distribute(x, SumSecond(init), y);
    }
  }

  lemma {:induction false} CrossGapsByMoments(firsts: seq<Pair>, seconds: seq<Pair>)
    ensures CrossGaps(firsts, seconds)
      == |seconds| * SquaresFirst(firsts) - 2 * (SumFirst(firsts) * SumSecond(seconds))
        + |firsts| * SquaresSecond(seconds)
  {
    hide Square, SumSecond, SquaresSecond, GapsFrom;
    if firsts != [] {
      var init, x := firsts[..|firsts| - 1], firsts[|firsts| - 1].first;
      CrossGapsByMoments(init, seconds);
      GapsFromByMoments(x, seconds);
      OneMore(|init|, SquaresSecond(seconds));
      Distribute(SumSecond(seconds), SumFirst(init), x);
      Distribute(|seconds|, SquaresFirst(init), Square(x));
    }
  }

  // ----- signs -----

  lemma SquareSign(x: int)
    ensures Square(x) >= 0 && (Square(x) == 0 <==> x == 0)
  {
    if x > 0 { OneMore(x - 1, x); } else if x < 0 { assert Square(x) == Square(-x); }
  }

  predicate AllAgree(pairs: seq<Pair>) {
    forall p :: 0 <= p < |pairs| ==> pairs[p].first == pairs[p].second
  }

  lemma {:induction false} PairGapsSign(pairs: seq<Pair>)
    ensures PairGaps(pairs) >= 0 && (PairGaps(pairs) == 0 <==> AllAgree(pairs))
  {
    hide Square;
    if pairs != [] {
      var init, last := pairs[..|pairs| - 1], pairs[|pairs| - 1];
      PairGapsSign(init);
      SquareSign(last.first - last.second);
      assert AllAgree(pairs) <==> AllAgree(init) && last.first == last.second;
    }
  }

  lemma {:induction false} GapsFromSign(x: int, pairs: seq<Pair>)
    ensures GapsFrom(x, pairs) >= 0
    ensures GapsFrom(x, pairs) == 0 <==> forall p :: 0 <= p < |pairs| ==> pairs[p].second == x
  {
    hide Square;
    if pairs != [] {
      GapsFromSign(x, pairs[..|pairs| - 1]);
      SquareSign(x - pairs[|pairs| - 1].second);
      assert forall p :: 0 <= p < |pairs| - 1 ==> pairs[p] == pairs[..|pairs| - 1][p];
    }
  }

  lemma {:induction false} CrossGapsSign(firsts: seq<Pair>, seconds: seq<Pair>)
    ensures CrossGaps(firsts, seconds) >= 0
    ensures CrossGaps(firsts, seconds) == 0 <==>
      forall p, q :: 0 <= p < |firsts| && 0 <= q < |seconds| ==> firsts[p].first == seconds[q].second
  {
    hide GapsFrom;
    if firsts != [] {
      CrossGapsSign(firsts[..|firsts| - 1], seconds);
      GapsFromSign(firsts[|firsts| - 1].first, seconds);
      assert forall p :: 0 <= p < |firsts| - 1 ==> firsts[p] == firsts[..|firsts| - 1][p];
    }
  }

  // ----- the identity behind the lower bound -----

  /** Each pair's total, as a pair of itself. */
  function Totals(pairs: seq<Pair>): seq<Pair> {
    seq(|pairs|, p requires 0 <= p < |pairs| =>
      Pair(pairs[p].first + pairs[p].second, pairs[p].first + pairs[p].second))
  }

  lemma SquareOfSum(x: int, y: int)
    ensures Square(x + y) == Square(x) + 2 * (x * y) + Square(y)
  {
  }

  lemma {:induction false} TotalsMoments(pairs: seq<Pair>)
    ensures var t := Totals(pairs);
      && |t| == |pairs|
      && SumFirst(t) == SumSecond(t) == SumFirst(pairs) + SumSecond(pairs)
      && SquaresFirst(t) == SquaresSecond(t) == SquaresFirst(pairs) + 2 * Products(pairs) + SquaresSecond(pairs)
  {
    hide Square;
    if pairs != [] {
      var init, last := pairs[..|pairs| - 1], pairs[|pairs| - 1];
      TotalsMoments(init);
      assert Totals(pairs)[..|pairs| - 1] == Totals(init);
      SquareOfSum(last.first, last.second);
    }
  }

  /** With E the cross gaps, O the pair gaps and n pairs: 2(2E - nO) is a sum of squares. */
  lemma GapIdentity(pairs: seq<Pair>)
    ensures 2 * (2 * CrossGaps(pairs, pairs) - |pairs| * PairGaps(pairs))
      == CrossGaps(Totals(pairs), Totals(pairs)) + 2 * Square(SumFirst(pairs) - SumSecond(pairs))
  {
    hide CrossGaps, PairGaps, SumFirst, SumSecond, SquaresFirst, SquaresSecond, Products, Totals, Square;
    PairGapsByMoments(pairs);
    CrossGapsByMoments(pairs, pairs);
    CrossGapsByMoments(Totals(pairs), Totals(pairs));
    TotalsMoments(pairs);
    MomentAlgebra(|pairs|, SumFirst(pairs), SumSecond(pairs), SquaresFirst(pairs),
        SquaresSecond(pairs), Products(pairs));
  }

  lemma MomentAlgebra(n: int, a: int, b: int, aa: int, bb: int, ab: int)
    ensures 2 * (2 * (n * aa - 2 * (a * b) + n * bb) - n * (aa - 2 * ab + bb))
      == (n * (aa + 2 * ab + bb) - 2 * ((a + b) * (a + b)) + n * (aa + 2 * ab + bb)) + 2 * Square(a - b)
  {
    assert n * (aa - 2 * ab + bb) == n * aa - 2 * (n * ab) + n * bb;
    assert n * (aa + 2 * ab + bb) == n * aa + 2 * (n * ab) + n * bb;
    assert (a + b) * (a + b) == a * a + 2 * (a * b) + b * b;
    SquareOfDifference(a, b);
  }

  // ----- kappa itself -----

  lemma Ratio(x: int, y: int)
    requires y > 0
    ensures x >= 0 ==> x as real / y as real >= 0.0
    ensures x as real / y as real == 0.0 <==> x == 0
    ensures x <= 2 * y ==> x as real / y as real <= 2.0
    ensures x as real / y as real == 2.0 <==> x == 2 * y
  {
    var q := x as real / y as real;
    assert q * y as real == x as real;
    if q == 2.0 { assert x as real == 2.0 * y as real; }
    if x <= 2 * y && q > 2.0 { Larger(q, y as real); }
  }

  lemma Larger(q: real, y: real)
    requires q > 2.0 && y > 0.0
    ensures q * y > 2.0 * y
  {
  }

  lemma NonNegativeProduct(n: nat, x: int)
    requires x >= 0
    ensures n * x >= 0 && (n > 0 ==> (n * x == 0 <==> x == 0))
  {
  }

  /** Every pair's ratings add up to the same total. */
  predicate SameTotals(pairs: seq<Pair>) {
    forall p, q :: 0 <= p < |pairs| && 0 <= q < |pairs| ==>
      pairs[p].first + pairs[p].second == pairs[q].first + pairs[q].second
  }

  /** Kappa lies between -1 and 1. It is 1 exactly for full agreement, and -1 exactly when
      the two raters mirror each other around a common mean without all ratings being one value. */
  lemma KappaRange(pairs: seq<Pair>)
    requires |pairs| > 0
    ensures -1.0 <= KappaOf(pairs) <= 1.0
    ensures KappaOf(pairs) == 1.0 <==> AllAgree(pairs)
    ensures KappaOf(pairs) == -1.0 <==>
      SameTotals(pairs) && SumFirst(pairs) == SumSecond(pairs) && !AllAgree(pairs)
  {
    var n, gaps, cross := |pairs|, PairGaps(pairs), CrossGaps(pairs, pairs);
    var spread, bias := CrossGaps(Totals(pairs), Totals(pairs)), SumFirst(pairs) - SumSecond(pairs);
    MirrorMeans(pairs);
    hide CrossGaps, PairGaps, SumFirst, SumSecond, Totals, Square, AllAgree, SameTotals;
    PairGapsSign(pairs);
    CrossGapsSign(pairs, pairs);
    NonNegativeProduct(n, gaps);
    GapIdentity(pairs);
    SquareSign(bias);
    if cross != 0 {
      Ratio(n * gaps, cross);
    }
  }

  lemma MirrorMeans(pairs: seq<Pair>)
    ensures CrossGaps(Totals(pairs), Totals(pairs)) >= 0
    ensures CrossGaps(Totals(pairs), Totals(pairs)) == 0 <==> SameTotals(pairs)
  {
    hide CrossGaps;
    var t := Totals(pairs);
    CrossGapsSign(t, t);
    if SameTotals(pairs) {
      assert forall p, q :: 0 <= p < |t| && 0 <= q < |t| ==> t[p].first == t[q].second;
    }
    if CrossGaps(t, t) == 0 {
      forall p, q | 0 <= p < |pairs| && 0 <= q < |pairs|
        ensures pairs[p].first + pairs[p].second == pairs[q].first + pairs[q].second
      {
        assert t[p].first == t[q].second;
      }
    }
  }

  // ----- symmetry -----

  function Swapped(pairs: seq<Pair>): seq<Pair> {
    seq(|pairs|, p requires 0 <= p < |pairs| => Pair(pairs[p].second, pairs[p].first))
  }

  lemma {:induction false} SwappedMoments(pairs: seq<Pair>)
    ensures var s := Swapped(pairs);
      && |s| == |pairs| && PairGaps(s) == PairGaps(pairs)
      && SumFirst(s) == SumSecond(pairs) && SumSecond(s) == SumFirst(pairs)
      && SquaresFirst(s) == SquaresSecond(pairs) && SquaresSecond(s) == SquaresFirst(pairs)
  {
    hide Square;
    if pairs != [] {
      var init, last := pairs[..|pairs| - 1], pairs[|pairs| - 1];
      SwappedMoments(init);
      assert Swapped(pairs)[..|pairs| - 1] == Swapped(init);
      SquareOfDifference(last.first, last.second);
      SquareOfDifference(last.second, last.first);
      Commute(last.first, last.second);
    }
  }

  lemma Commute(x: int, y: int)
    ensures x * y == y * x
  {
  }

  lemma KappaIsSymmetric(pairs: seq<Pair>)
    ensures KappaOf(Swapped(pairs)) == KappaOf(pairs)
  {
    hide CrossGaps, PairGaps, SumFirst, SumSecond, SquaresFirst, SquaresSecond, Swapped;
    SwappedMoments(pairs);
    CrossGapsByMoments(pairs, pairs);
    CrossGapsByMoments(Swapped(pairs), Swapped(pairs));
    Commute(SumFirst(pairs), SumSecond(pairs));
  }

  // ----- bins -----

  /** Rounds half up, as Math.round does. */
  function BinIndex(score: real, maxScore: real, bins: nat): int
    requires maxScore > 0.0
  {
    (score / maxScore * bins as real + 0.5).Floor
  }

  lemma FractionOf(score: real, maxScore: real)
    requires maxScore > 0.0 && 0.0 <= score <= maxScore
    ensures 0.0 <= score / maxScore <= 1.0
    ensures score == 0.0 ==> score / maxScore == 0.0
    ensures score == maxScore ==> score / maxScore == 1.0
  {
    QuotientSign(score, maxScore);
    QuotientDifference(maxScore, score, maxScore);
    QuotientSign(maxScore - score, maxScore);
    QuotientOfItself(maxScore);
  }

  lemma QuotientOfItself(m: real)
    requires m > 0.0
    ensures m / m == 1.0
  {
    QuotientBack(m, m);
    Cancel(m / m, 1.0, m);
  }

  /** Every score in range lands in a bin, 0 and the maximum in the outermost ones. */
  lemma BinsInRange(score: real, maxScore: real, bins: nat)
    requires maxScore > 0.0 && 0.0 <= score <= maxScore
    ensures 0 <= BinIndex(score, maxScore, bins) <= bins
    ensures BinIndex(0.0, maxScore, bins) == 0 && BinIndex(maxScore, maxScore, bins) == bins
  {
    FractionOf(score, maxScore);
    FractionOf(0.0, maxScore);
    FractionOf(maxScore, maxScore);
    FloorInRange(score / maxScore, bins);
    FloorInRange(0.0 / maxScore, bins);
    FloorInRange(maxScore / maxScore, bins);
  }

  lemma FloorInRange(q: real, bins: nat)
    requires 0.0 <= q <= 1.0
    ensures 0 <= (q * bins as real + 0.5).Floor <= bins
    ensures q == 0.0 ==> (q * bins as real + 0.5).Floor == 0
    ensures q == 1.0 ==> (q * bins as real + 0.5).Floor == bins
  {
    ScaledInRange(q, bins as real);
  }

  lemma ScaledInRange(q: real, b: real)
    requires 0.0 <= q <= 1.0 && b >= 0.0
    ensures 0.0 <= q * b <= b
  {
  }

  /** A higher score never lands in a lower bin. */
  lemma BinsAreMonotone(low: real, high: real, maxScore: real, bins: nat)
    requires maxScore > 0.0 && low <= high
    ensures BinIndex(low, maxScore, bins) <= BinIndex(high, maxScore, bins)
  {
    FractionsOrdered(low, high, maxScore);
    ScaledOrdered(low / maxScore, high / maxScore, bins as real);
  }

  lemma FractionsOrdered(low: real, high: real, m: real)
    requires m > 0.0 && low <= high
    ensures low / m <= high / m
  {
    QuotientDifference(high, low, m);
    QuotientSign(high - low, m);
  }

  lemma ScaledOrdered(p: real, q: real, b: real)
    requires p <= q && b >= 0.0
    ensures p * b <= q * b
  {
    SignOfProduct(q - p, b);
    assert (q - p) * b == q * b - p * b;
  }
}
