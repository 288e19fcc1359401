/** The order reading order promises: sorts that sort, the nearest line, lines from
    the top each read from the left, and the most preferred usable gutter. */
module PaperLayoutOrder {
  import opened Wrappers
  import opened Ordering
  import opened RealArithmetic
  import opened PaperLayout

  // ----- the comparisons -----

  lemma GeometricOrder()
    ensures StrictWeak(GeometricBefore)
  {
    hide Middle;
    forall a, b, c | GeometricBefore(a, c) ensures GeometricBefore(a, b) || GeometricBefore(b, c) {
    }
  }

  lemma LineOrders()
    ensures StrictWeak(Higher) && StrictWeak(LeftOf) && StrictWeak(Smaller)
  {
    hide BoxOf;
  }

  lemma PreferenceOrder()
    ensures StrictWeak(Preferred)
  {
    forall a, b, c | Preferred(a, c) ensures Preferred(a, b) || Preferred(b, c) {
    }
  }

  // ----- the median -----

  function CountBelow(values: seq<real>, m: real): nat {
    if values == [] then 0 else CountBelow(values[..|values| - 1], m) + if values[|values| - 1] < m then 1 else 0
  }

  function CountAbove(values: seq<real>, m: real): nat {
    if values == [] then 0 else CountAbove(values[..|values| - 1], m) + if values[|values| - 1] > m then 1 else 0
  }

  lemma CountsAppend(values: seq<real>, v: real, m: real)
    ensures CountBelow(values + [v], m) == CountBelow(values, m) + if v < m then 1 else 0
    ensures CountAbove(values + [v], m) == CountAbove(values, m) + if v > m then 1 else 0
  {
    assert (values + [v])[..|values|] == values;
  }

  lemma {:induction false} InsertKeepsCounts(v: real, values: seq<real>, m: real)
    ensures CountBelow(InsertWith(v, values, Smaller), m) == CountBelow(values + [v], m)
    ensures CountAbove(InsertWith(v, values, Smaller), m) == CountAbove(values + [v], m)
  {
    CountsAppend(values, v, m);
    if values != [] && Smaller(v, values[|values| - 1]) {
      var init, last := values[..|values| - 1], values[|values| - 1];
      InsertKeepsCounts(v, init, m);
      CountsAppend(init, v, m);
      CountsAppend(InsertWith(v, init, Smaller), last, m);
    }
  }

  lemma {:induction false} SortKeepsCounts(values: seq<real>, m: real)
    ensures CountBelow(SortWith(values, Smaller), m) == CountBelow(values, m)
    ensures CountAbove(SortWith(values, Smaller), m) == CountAbove(values, m)
  {
    hide InsertWith;
    if values != [] {
      var init, last := values[..|values| - 1], values[|values| - 1];
      SortKeepsCounts(init, m);
      InsertKeepsCounts(last, SortWith(init, Smaller), m);
      CountsAppend(SortWith(init, Smaller), last, m);
    }
  }

  lemma {:induction false} CountsOfSorted(values: seq<real>, k: nat, n: nat)
    requires SortedBy(values, Smaller) && k < |values| && n <= |values|
    ensures CountBelow(values[..n], values[k]) <= k
    ensures CountAbove(values[..n], values[k]) <= if n <= k then 0 else n - k - 1
    decreases n
  {
    if n > 0 {
      CountsOfSorted(values, k, n - 1);
      assert values[..n] == values[..n - 1] + [values[n - 1]];
      CountsAppend(values[..n - 1], values[n - 1], values[k]);
      if n - 1 < k {
        assert !Smaller(values[k], values[n - 1]);
        CountIsSmall(values[..n - 1], values[k]);
      } else if k < n - 1 {
        assert !Smaller(values[n - 1], values[k]);
      }
    }
  }

  lemma {:induction false} CountIsSmall(values: seq<real>, m: real)
    ensures CountBelow(values, m) <= |values|
  {
    if values != [] { CountIsSmall(values[..|values| - 1], m); }
  }

  /** At most half of the values are below the median, and fewer than half of them above it. */
  lemma MedianIsMiddle(values: seq<real>)
    requires values != []
    ensures MedianOf(values) in values
    ensures 2 * CountBelow(values, MedianOf(values)) <= |values|
    ensures 2 * CountAbove(values, MedianOf(values)) < |values|
  {
    hide SortWith, CountBelow, CountAbove;
    var sorted, k := SortWith(values, Smaller), |values| / 2;
    SortWithKeepsAll(values, Smaller);
    SameMembers(sorted, values);
    LineOrders();
    SortWithSorts(values, Smaller);
    CountsOfSorted(sorted, k, |sorted|);
    assert sorted[..|sorted|] == sorted && sorted[k] in sorted;
    SortKeepsCounts(values, sorted[k]);
  }

  // ----- the nearest line -----

  predicate Within(lines: seq<Line>, b: Box, i: nat)
    requires i < |lines|
  {
    Distance(lines, b, i) <= Threshold(b.h, lines[i])
  }

  function Distance(lines: seq<Line>, b: Box, i: nat): real
    requires i < |lines|
  {
    Abs(Middle(b) - lines[i].center)
  }

  /** Line i is within its threshold, nearer than every earlier such line and no farther than any later one. */
  ghost predicate FirstNearest(lines: seq<Line>, b: Box, i: nat, k: nat)
    requires k <= |lines|
  {
    && i < k && Within(lines, b, i)
    && (forall j :: 0 <= j < i && Within(lines, b, j) ==> Distance(lines, b, i) < Distance(lines, b, j))
    && (forall j :: i < j < k && Within(lines, b, j) ==> Distance(lines, b, i) <= Distance(lines, b, j))
  }

  lemma {:induction false} NearestAmongFirst(lines: seq<Line>, b: Box, k: nat)
    requires k <= |lines|
    ensures NearestLine(lines, b, k).Some? ==> FirstNearest(lines, b, NearestLine(lines, b, k).value, k)
    ensures NearestLine(lines, b, k).None? ==> forall j :: 0 <= j < k ==> !Within(lines, b, j)
  {
    hide Threshold, Abs, Middle;
    if k > 0 {
      NearestAmongFirst(lines, b, k - 1);
    }
  }

  /** An item joins line i exactly when i is the first of the nearest lines within their thresholds,
      and no line exactly when none is. */
  lemma NearestLineIff(lines: seq<Line>, b: Box)
    ensures forall i: nat :: NearestLine(lines, b, |lines|) == Some(i) <==> FirstNearest(lines, b, i, |lines|)
    ensures NearestLine(lines, b, |lines|).None? <==> forall i: nat :: !FirstNearest(lines, b, i, |lines|)
    ensures NearestLine(lines, b, |lines|).None? <==> forall j :: 0 <= j < |lines| ==> !Within(lines, b, j)
  {
    hide NearestLine, Within, Distance;
    NearestAmongFirst(lines, b, |lines|);
  }

  // ----- lines -----

  /** The lines of a page, highest first. */
  function LinesOf(items: seq<Item>): seq<Line> {
    var sorted := SortWith(items, GeometricBefore);
    SortWith(RowsUpTo(sorted, |sorted|).lines, Higher)
  }

  function UnboxedOf(items: seq<Item>): seq<Item> {
    var sorted := SortWith(items, GeometricBefore);
    RowsUpTo(sorted, |sorted|).unboxed
  }

  ghost predicate Boxed(x: Item) { BoxOf(x).Some? }

  /** A line is not empty, holds boxed items, and lies at the mean of their centres. */
  ghost predicate LineSound(line: Line) {
    && line.items != [] && (forall x :: x in line.items ==> Boxed(x))
    && line.center == CenterSum(line.items) / |line.items| as real
  }

  lemma NewLineSound(item: Item, b: Box)
    requires BoxOf(item) == Some(b)
    ensures LineSound(Line(Middle(b), b.h, [item]))
  {
    assert [item][..0] == [];
    assert CenterSum([item]) == Middle(b);
  }

  lemma JoinedLineSound(line: Line, item: Item)
    requires LineSound(line) && Boxed(item)
    ensures LineSound(JoinLine(line, item))
  {
    hide BoxOf, CenterSum, MedianOf, Heights;
  }

  ghost predicate AllSound(lines: seq<Line>) {
    forall line :: line in lines ==> LineSound(line)
  }

  lemma AddedLinesSound(lines: seq<Line>, item: Item, b: Box)
    requires AllSound(lines) && BoxOf(item) == Some(b)
    ensures AllSound(AddToLines(lines, item, b))
  {
    hide BoxOf, NearestLine, JoinLine, LineSound;
    NewLineSound(item, b);
    match NearestLine(lines, b, |lines|)
    case None =>
    case Some(i) => JoinedLineSound(lines[i], item);
  }

  lemma {:induction false} RowsAreSound(sorted: seq<Item>, k: nat)
    requires k <= |sorted|
    ensures var r := RowsUpTo(sorted, k);
      && AllSound(r.lines)
      && (forall x :: x in r.unboxed ==> x in sorted[..k] && !Boxed(x))
  {
    hide BoxOf, AddToLines, LineSound;
    if k > 0 {
      RowsAreSound(sorted, k - 1);
      assert sorted[..k] == sorted[..k - 1] + [sorted[k - 1]];
      if BoxOf(sorted[k - 1]).Some? {
        AddedLinesSound(RowsUpTo(sorted, k - 1).lines, sorted[k - 1], BoxOf(sorted[k - 1]).value);
      }
    }
  }

  /** Unboxed items stay in the order of their indices. */
  lemma {:induction false} UnboxedByIndex(sorted: seq<Item>, k: nat)
    requires k <= |sorted| && SortedBy(sorted, GeometricBefore)
    ensures var r := RowsUpTo(sorted, k);
      forall i, j :: 0 <= i < j < |r.unboxed| ==> r.unboxed[i].index <= r.unboxed[j].index
  {
    hide BoxOf, AddToLines, SortedBy;
    if k > 0 {
      UnboxedByIndex(sorted, k - 1);
      RowsAreSound(sorted, k - 1);
      var r, item := RowsUpTo(sorted, k - 1), sorted[k - 1];
      if BoxOf(item).None? {
        forall i | 0 <= i < |r.unboxed| ensures r.unboxed[i].index <= item.index {
          UnboxedBefore(sorted, k - 1, r.unboxed[i]);
        }
      }
    }
  }

  lemma UnboxedBefore(sorted: seq<Item>, k: nat, x: Item)
    requires SortedBy(sorted, GeometricBefore) && k < |sorted| && x in sorted[..k] && !Boxed(x) && !Boxed(sorted[k])
    ensures x.index <= sorted[k].index
  {
    var j :| 0 <= j < k && sorted[j] == x;
    assert !GeometricBefore(sorted[k], sorted[j]);
  }

  lemma SortedMembers<T(!new)>(xs: seq<T>, less: (T, T) -> bool)
    ensures |SortWith(xs, less)| == |xs| && forall x :: x in SortWith(xs, less) <==> x in xs
  {
    SortWithKeepsAll(xs, less);
    SameMembers(SortWith(xs, less), xs);
  }

  /** Lines come from the top, and items without a box come after all lines, by index. */
  lemma LinesFromTheTop(items: seq<Item>)
    ensures SortLines(items) == Flatten(LinesOf(items)) + UnboxedOf(items)
    ensures var lines := LinesOf(items);
      && AllSound(lines)
      && (forall p, q :: 0 <= p < q < |lines| ==> lines[p].center <= lines[q].center)
    ensures var us := UnboxedOf(items);
      && (forall x :: x in us ==> !Boxed(x))
      && (forall i, j :: 0 <= i < j < |us| ==> us[i].index <= us[j].index)
  {
    hide SortWith, RowsUpTo, Flatten, LineSound, GeometricBefore, Boxed, StrictWeak;
    var sorted := SortWith(items, GeometricBefore);
    GeometricOrder();
    LineOrders();
    SortWithSorts(items, GeometricBefore);
    RowsAreSound(sorted, |sorted|);
    UnboxedByIndex(sorted, |sorted|);
    var rows := RowsUpTo(sorted, |sorted|).lines;
    SortWithSorts(rows, Higher);
    SortedMembers(rows, Higher);
    var lines := LinesOf(items);
    forall p, q | 0 <= p < q < |lines| ensures lines[p].center <= lines[q].center {
      assert !Higher(lines[q], lines[p]);
    }
  }

  /** Position i of the flattened lines lies in line p. */
  ghost predicate InLine(lines: seq<Line>, x: Item, p: nat) {
    p < |lines| && x in lines[p].items
  }

  /** Later positions lie in later lines, or further right in the same line. */
  lemma {:induction false} FlattenReadsInOrder(lines: seq<Line>, i: nat, j: nat) returns (p: nat, q: nat)
    requires i < j < |Flatten(lines)|
    ensures InLine(lines, Flatten(lines)[i], p) && InLine(lines, Flatten(lines)[j], q)
    ensures p <= q && (p == q ==> StartX(Flatten(lines)[i]) <= StartX(Flatten(lines)[j]))
  {
    hide StartX, SortWith, StrictWeak;
    var n := |lines| - 1;
    var front, last := Flatten(lines[..n]), SortWith(lines[n].items, LeftOf);
    SortedMembers(lines[n].items, LeftOf);
    if j < |front| {
      p, q := FlattenReadsInOrder(lines[..n], i, j);
    } else {
      q := n;
      assert Flatten(lines)[j] in last;
      if i < |front| {
        p := LineOfPosition(lines[..n], i);
      } else {
        p := n;
        assert Flatten(lines)[i] in last;
        LineOrders();
        SortWithSorts(lines[n].items, LeftOf);
        assert !LeftOf(last[j - |front|], last[i - |front|]);
      }
    }
  }

  lemma {:induction false} LineOfPosition(lines: seq<Line>, i: nat) returns (p: nat)
    requires i < |Flatten(lines)|
    ensures InLine(lines, Flatten(lines)[i], p)
  {
    hide SortWith;
    var n := |lines| - 1;
    var front := Flatten(lines[..n]);
    SortedMembers(lines[n].items, LeftOf);
    if i < |front| {
      p := LineOfPosition(lines[..n], i);
    } else {
      p := n;
      assert Flatten(lines)[i] in SortWith(lines[n].items, LeftOf);
    }
  }

  /** Of two items in the order of lines, the later one has no box and has the larger index if the earlier has
      none either; or it starts no further left in the same line; or it is in a line at least as low. */
  lemma LinesReadInOrder(items: seq<Item>, i: nat, j: nat)
    requires i < j < |SortLines(items)|
    ensures var (x, y) := (SortLines(items)[i], SortLines(items)[j]);
      var lines := LinesOf(items);
      || (!Boxed(y) && (!Boxed(x) ==> x.index <= y.index))
      || (exists p: nat :: InLine(lines, x, p) && InLine(lines, y, p) && StartX(x) <= StartX(y))
      || (exists p: nat, q: nat ::
            InLine(lines, x, p) && InLine(lines, y, q) && p < q && lines[p].center <= lines[q].center)
  {
    hide SortLines, LinesOf, UnboxedOf, Flatten, StartX, LineSound;
    LinesFromTheTop(items);
    var lines, us := LinesOf(items), UnboxedOf(items);
    var front := Flatten(lines);
    if j < |front| {
      var p, q := FlattenReadsInOrder(lines, i, j);
    } else {
      assert us[j - |front|] in us;
      if i < |front| {
        var p := LineOfPosition(lines, i);
        InLineBoxed(lines, front[i], p);
      }
    }
  }

  lemma InLineBoxed(lines: seq<Line>, x: Item, p: nat)
    requires InLine(lines, x, p) && LineSound(lines[p])
    ensures Boxed(x)
  {
  }

  // ----- the gutter -----

  /** The sample at some step finds g. */
  ghost predicate Sampled(bs: seq<Box>, g: Gutter)
    requires bs != []
  {
    exists step :: FIRST_STEP <= step <= LAST_STEP && GutterAt(bs, step) == Some(g)
  }

  lemma {:induction false} GuttersAreSampled(bs: seq<Box>, step: nat)
    requires bs != [] && FIRST_STEP <= step <= LAST_STEP + 1
    ensures forall g :: g in Gutters(bs, step) <==> exists k :: FIRST_STEP <= k < step && GutterAt(bs, k) == Some(g)
  {
    hide GutterAt;
    if step > FIRST_STEP {
      GuttersAreSampled(bs, step - 1);
      forall g ensures g in Gutters(bs, step) <==> exists k :: FIRST_STEP <= k < step && GutterAt(bs, k) == Some(g) {
        if g in Gutters(bs, step) && g !in Gutters(bs, step - 1) {
          assert GutterAt(bs, step - 1) == Some(g);
        }
      }
    }
  }

  ghost predicate FirstUsableAt(gs: seq<Gutter>, items: seq<Item>, boxed: nat, k: nat, i: int) {
    k <= i < |gs| && Usable(gs[i], items, boxed) && forall j :: k <= j < i ==> !Usable(gs[j], items, boxed)
  }

  lemma {:induction false} FirstUsableIsFirst(gs: seq<Gutter>, items: seq<Item>, boxed: nat, k: nat)
    requires k <= |gs|
    ensures match FirstUsable(gs, items, boxed, k)
      case None => forall i :: k <= i < |gs| ==> !Usable(gs[i], items, boxed)
      case Some(g) => exists i :: FirstUsableAt(gs, items, boxed, k, i) && gs[i] == g
    decreases |gs| - k
  {
    hide Usable;
    if k < |gs| {
      if Usable(gs[k], items, boxed) {
        assert FirstUsableAt(gs, items, boxed, k, k);
      } else {
        var next := k + 1;
        FirstUsableIsFirst(gs, items, boxed, next);
        if i :| FirstUsableAt(gs, items, boxed, next, i) {
          assert FirstUsableAt(gs, items, boxed, k, i);
        }
      }
    }
  }

  /** A gutter that may divide the page. */
  ghost predicate Candidate(items: seq<Item>, g: Gutter) {
    var bs := Boxes(items);
    && |bs| >= 8 && RightEdge(bs) - LeftEdge(bs) > 0.0
    && Sampled(bs, g) && Usable(g, items, |bs|)
  }

  lemma RankedGutters(bs: seq<Box>, ranked: seq<Gutter>)
    requires bs != [] && ranked == SortWith(Gutters(bs, LAST_STEP + 1), Preferred)
    ensures forall g :: g in ranked <==> Sampled(bs, g)
    ensures SortedBy(ranked, Preferred)
  {
    hide SortWith, Gutters, GutterAt, StrictWeak, Preferred;
    PreferenceOrder();
    SortWithSorts(Gutters(bs, LAST_STEP + 1), Preferred);
    SortedMembers(Gutters(bs, LAST_STEP + 1), Preferred);
    GuttersAreSampled(bs, LAST_STEP + 1);
  }

  /** No candidate is preferred to g. */
  ghost predicate BestCandidate(items: seq<Item>, g: Gutter) {
    Candidate(items, g) && forall h :: Candidate(items, h) ==> !Preferred(h, g)
  }

  lemma FirstUsableIsBest(items: seq<Item>, ranked: seq<Gutter>, i: nat)
    requires forall g :: Candidate(items, g) ==> g in ranked
    requires SortedBy(ranked, Preferred)
    requires FirstUsableAt(ranked, items, |Boxes(items)|, 0, i) && Candidate(items, ranked[i])
    ensures BestCandidate(items, ranked[i])
  {
    hide Preferred, Boxes, Usable, Sampled, RightEdge, LeftEdge;
    forall h | Candidate(items, h) ensures !Preferred(h, ranked[i]) {
      var j :| 0 <= j < |ranked| && ranked[j] == h;
      if j == i { Irreflexive(h); }
    }
  }

  /** A page stays whole exactly when no sampled gutter is usable; otherwise it is cut at a usable gutter
      to which no usable one is preferred. */
  lemma ColumnsFollowPreference(items: seq<Item>)
    ensures ColumnPartition(items).None? <==> forall g :: !Candidate(items, g)
    ensures ColumnPartition(items).Some? ==>
      exists g :: BestCandidate(items, g) && ColumnPartition(items) == Some(Cut(items, g.split))
  {
    hide SortWith, Gutters, Boxes, RightEdge, LeftEdge, Usable, Preferred, FirstUsable, Sampled, Cut;
    var bs := Boxes(items);
    if |bs| >= 8 && RightEdge(bs) - LeftEdge(bs) > 0.0 {
      var ranked := SortWith(Gutters(bs, LAST_STEP + 1), Preferred);
      RankedGutters(bs, ranked);
      FirstUsableIsFirst(ranked, items, |bs|, 0);
      if i: nat :| FirstUsableAt(ranked, items, |bs|, 0, i) {
        assert ranked[i] in ranked && Candidate(items, ranked[i]);
        FirstUsableIsBest(items, ranked, i);
      }
      if g :| Candidate(items, g) {
        assert g in ranked;
      }
    }
  }

  lemma Irreflexive(g: Gutter)
    ensures !Preferred(g, g)
  {
  }
}
