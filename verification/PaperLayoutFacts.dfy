/** Reading order loses and invents nothing, keeps columns apart and reads
    everything above a separator before it. */
module PaperLayoutFacts {
  import opened Wrappers
  import opened Ordering
  import opened PaperLayout

  // ----- lines keep all items -----

  function LinesBag(lines: seq<Line>): multiset<Item> {
    if lines == [] then multiset{}
    else LinesBag(lines[..|lines| - 1]) + multiset(lines[|lines| - 1].items)
  }

  lemma {:induction false} LinesBagUpdate(lines: seq<Line>, i: nat, line: Line, item: Item)
    requires i < |lines| && line.items == lines[i].items + [item]
    ensures LinesBag(lines[i := line]) == LinesBag(lines) + multiset{item}
  {
    var n := |lines| - 1;
    if i < n {
      LinesBagUpdate(lines[..n], i, line, item);
      assert lines[i := line][..n] == lines[..n][i := line];
    } else {
      assert lines[i := line][..n] == lines[..n];
    }
  }

  lemma LinesBagAppend(lines: seq<Line>, line: Line)
    ensures LinesBag(lines + [line]) == LinesBag(lines) + multiset(line.items)
  {
    assert (lines + [line])[..|lines|] == lines;
  }

  lemma AddToLinesKeepsAll(lines: seq<Line>, item: Item, b: Box)
    ensures LinesBag(AddToLines(lines, item, b)) == LinesBag(lines) + multiset{item}
  {
    hide NearestLine, LinesBag, MedianOf, CenterSum, Heights;
    match NearestLine(lines, b, |lines|)
    case None => LinesBagAppend(lines, Line(Middle(b), b.h, [item]));
    case Some(i) => LinesBagUpdate(lines, i, JoinLine(lines[i], item), item);
  }

  function RowsBag(r: Rows): multiset<Item> {
    LinesBag(r.lines) + multiset(r.unboxed)
  }

  lemma RowsStep(items: seq<Item>, k: nat)
    requires 0 < k <= |items|
    ensures RowsBag(RowsUpTo(items, k)) == RowsBag(RowsUpTo(items, k - 1)) + multiset{items[k - 1]}
  {
    hide AddToLines, BoxOf, LinesBag;
    var r := RowsUpTo(items, k - 1);
    match BoxOf(items[k - 1])
    case None =>
    case Some(b) => AddToLinesKeepsAll(r.lines, items[k - 1], b);
  }

  lemma {:induction false} RowsKeepAll(items: seq<Item>, k: nat)
    requires k <= |items|
    ensures RowsBag(RowsUpTo(items, k)) == multiset(items[..k])
    decreases k
  {
    hide RowsBag, RowsUpTo;
    if k == 0 {
      NoRows(items);
    } else {
      RowsKeepAll(items, k - 1);
      RowsStep(items, k);
      assert items[..k] == items[..k - 1] + [items[k - 1]];
    }
  }

  lemma NoRows(items: seq<Item>)
    ensures RowsBag(RowsUpTo(items, 0)) == multiset{}
  {
  }

  lemma {:induction false} FlattenKeepsAll(lines: seq<Line>)
    ensures multiset(Flatten(lines)) == LinesBag(lines)
  {
    if lines != [] {
      FlattenKeepsAll(lines[..|lines| - 1]);
      SortWithKeepsAll(lines[|lines| - 1].items, LeftOf);
    }
  }

  lemma {:induction false} LinesBagInsert(x: Line, xs: seq<Line>, less: (Line, Line) -> bool)
    ensures LinesBag(InsertWith(x, xs, less)) == LinesBag(xs) + multiset(x.items)
  {
    if xs == [] || !less(x, xs[|xs| - 1]) {
      LinesBagAppend(xs, x);
    } else {
      LinesBagInsert(x, xs[..|xs| - 1], less);
      LinesBagAppend(InsertWith(x, xs[..|xs| - 1], less), xs[|xs| - 1]);
    }
  }

  lemma {:induction false} LinesBagSort(xs: seq<Line>, less: (Line, Line) -> bool)
    ensures LinesBag(SortWith(xs, less)) == LinesBag(xs)
  {
    hide InsertWith;
    if xs != [] {
      LinesBagSort(xs[..|xs| - 1], less);
      LinesBagInsert(xs[|xs| - 1], SortWith(xs[..|xs| - 1], less), less);
    }
  }

  /** Grouping into lines keeps every item once. */
  lemma SortLinesKeepsAll(items: seq<Item>)
    ensures multiset(SortLines(items)) == multiset(items)
  {
    hide SortWith, Flatten, LinesBag, RowsUpTo, Higher, GeometricBefore;
    var sorted := SortWith(items, GeometricBefore);
    var r := RowsUpTo(sorted, |sorted|);
    SortWithKeepsAll(items, GeometricBefore);
    RowsKeepAll(sorted, |sorted|);
    assert sorted[..|sorted|] == sorted;
    FlattenKeepsAll(SortWith(r.lines, Higher));
    LinesBagSort(r.lines, Higher);
  }

  // ----- columns -----

  lemma {:induction false} CutKeepsAll(items: seq<Item>, split: real)
    ensures var c := Cut(items, split);
      multiset(items) == multiset(c.left) + multiset(c.right) + multiset(c.spanning)
  {
    hide SideOf;
    if items != [] {
      CutKeepsAll(items[..|items| - 1], split);
      InitAndLast(items);
    }
  }

  lemma {:induction false} OnSideHolds(items: seq<Item>, split: real, side: Side)
    ensures forall x :: x in OnSide(items, split, side) <==> x in items && SideOf(x, split) == side
  {
    hide SideOf;
    if items != [] {
      OnSideHolds(items[..|items| - 1], split, side);
      assert items == items[..|items| - 1] + [items[|items| - 1]];
    }
  }

  lemma {:induction false} UsableFound(gs: seq<Gutter>, items: seq<Item>, boxed: nat, k: nat)
    requires k <= |gs|
    ensures FirstUsable(gs, items, boxed, k).Some? ==> Usable(FirstUsable(gs, items, boxed, k).value, items, boxed)
    decreases |gs| - k
  {
    hide Usable;
    if k < |gs| {
      UsableFound(gs, items, boxed, k + 1);
    }
  }

  ghost predicate LeftOfGutter(x: Item, split: real) {
    BoxOf(x).Some? && BoxOf(x).value.x + BoxOf(x).value.w <= split
  }

  ghost predicate RightOfGutter(x: Item, split: real) {
    BoxOf(x).Some? && BoxOf(x).value.x >= split
  }

  ghost predicate OverGutter(x: Item, split: real) {
    BoxOf(x).Some? ==> Crosses(BoxOf(x).value, split)
  }

  lemma SidesOfGutter(x: Item, split: real)
    ensures match SideOf(x, split)
      case Left => LeftOfGutter(x, split)
      case Right => RightOfGutter(x, split)
      case Spanning => OverGutter(x, split)
  {
  }

  /** A partition splits the items along one gutter: the left column ends at it, the right column starts
      at it, and both hold at least four items. */
  lemma PartitionFollowsGutter(items: seq<Item>) returns (split: real)
    requires ColumnPartition(items).Some?
    ensures var c := ColumnPartition(items).value;
      && c == Cut(items, split) && |c.left| >= 4 && |c.right| >= 4
      && multiset(items) == multiset(c.left) + multiset(c.right) + multiset(c.spanning)
      && (forall x :: x in c.left ==> LeftOfGutter(x, split))
      && (forall x :: x in c.right ==> RightOfGutter(x, split))
      && (forall x :: x in c.spanning ==> OverGutter(x, split))
  {
    hide SortWith, Gutters, Boxes, SideOf, OnSide, LeftOfGutter, RightOfGutter, OverGutter, FirstUsable, RightEdge,
      LeftEdge, VerticalOverlap, Preferred;
    var bs := Boxes(items);
    var ranked := SortWith(Gutters(bs, LAST_STEP + 1), Preferred);
    UsableFound(ranked, items, |bs|, 0);
    split := FirstUsable(ranked, items, |bs|, 0).value.split;
    CutKeepsAll(items, split);
    OnSideHolds(items, split, Left);
    OnSideHolds(items, split, Right);
    OnSideHolds(items, split, Spanning);
    forall x | x in items ensures SideOf(x, split) == Left ==> LeftOfGutter(x, split) { SidesOfGutter(x, split); }
    forall x | x in items ensures SideOf(x, split) == Right ==> RightOfGutter(x, split) { SidesOfGutter(x, split); }
    forall x | x in items ensures SideOf(x, split) == Spanning ==> OverGutter(x, split) { SidesOfGutter(x, split); }
  }

  // ----- separators -----

  lemma {:induction false} AboveHolds(items: seq<Item>, top: Option<real>)
    ensures forall x :: x in Above(items, top) <==> x in items && AboveTop(x, top)
  {
    hide AboveTop;
    if items != [] {
      AboveHolds(items[..|items| - 1], top);
      assert items == items[..|items| - 1] + [items[|items| - 1]];
    }
  }

  /** The items at or below the top edge, in order. */
  function Below(items: seq<Item>, top: Option<real>): seq<Item> {
    if items == [] then []
    else
      var rest, last := Below(items[..|items| - 1], top), items[|items| - 1];
      if AboveTop(last, top) then rest else rest + [last]
  }

  lemma {:induction false} NotInFilters(part: seq<Item>, taken: seq<Item>, top: Option<real>)
    requires forall x :: x in part ==> (x in taken <==> AboveTop(x, top))
    ensures NotIn(part, taken) == Below(part, top)
  {
    hide AboveTop;
    if part != [] {
      assert part == part[..|part| - 1] + [part[|part| - 1]];
      NotInFilters(part[..|part| - 1], taken, top);
      assert part[|part| - 1] in part;
    }
  }

  /** Removing by equality what was read above leaves exactly the rest, even for equal items. */
  lemma RestIsBelow(items: seq<Item>, top: Option<real>)
    ensures NotIn(items, Above(items, top)) == Below(items, top)
  {
    hide AboveTop, Above, Below, NotIn;
    AboveHolds(items, top);
    NotInFilters(items, Above(items, top), top);
  }

  lemma {:induction false} AboveAndBelow(items: seq<Item>, top: Option<real>)
    ensures multiset(items) == multiset(Above(items, top)) + multiset(Below(items, top))
  {
    hide AboveTop;
    if items != [] {
      AboveAndBelow(items[..|items| - 1], top);
      InitAndLast(items);
    }
  }

  // ----- permutation -----

  /** Reading order is a permutation of the items, at every depth. */
  lemma {:induction false} ReadingOrderKeepsAll(items: seq<Item>, depth: nat)
    ensures multiset(ReadingOrder(items, depth)) == multiset(items)
    decreases 4 - depth, 0
  {
    hide SortLines, ColumnPartition, GeometricBefore, Bands, SortWith, Cut;
    SortLinesKeepsAll(items);
    if |items| >= 8 && depth < MAX_DEPTH && ColumnPartition(items).Some? {
      var c := ColumnPartition(items).value;
      var split := PartitionFollowsGutter(items);
      if c.spanning == [] {
        ReadingOrderKeepsAll(c.left, depth + 1);
        ReadingOrderKeepsAll(c.right, depth + 1);
      } else {
        BandsKeepAll(c.left, c.right, SortWith(c.spanning, GeometricBefore), depth + 1);
        SortWithKeepsAll(c.spanning, GeometricBefore);
      }
    }
  }

  lemma {:induction false} BandsKeepAll(left: seq<Item>, right: seq<Item>, separators: seq<Item>, depth: nat)
    requires 1 <= depth <= MAX_DEPTH
    ensures multiset(Bands(left, right, separators, depth)) == multiset(left) + multiset(right) + multiset(separators)
    decreases 4 - depth, 1 + |separators|
  {
    hide ReadingOrder, Above, NotIn, SeparatorTop, Below;
    if separators == [] {
      ReadingOrderKeepsAll(left, depth);
      ReadingOrderKeepsAll(right, depth);
    } else {
      var top := SeparatorTop(separators[0]);
      ReadingOrderKeepsAll(Above(left, top), depth);
      ReadingOrderKeepsAll(Above(right, top), depth);
      RestIsBelow(left, top);
      RestIsBelow(right, top);
      AboveAndBelow(left, top);
      AboveAndBelow(right, top);
      BandsKeepAll(Below(left, top), Below(right, top), separators[1..], depth);
      assert separators == [separators[0]] + separators[1..];
    }
  }

  /** Without spanning items, the whole left column is read before the right one. */
  lemma ColumnsReadLeftFirst(items: seq<Item>, depth: nat) returns (left: seq<Item>, right: seq<Item>, split: real)
    requires |items| >= 8 && depth < MAX_DEPTH
    requires ColumnPartition(items).Some? && ColumnPartition(items).value.spanning == []
    ensures ReadingOrder(items, depth) == left + right && multiset(left) + multiset(right) == multiset(items)
    ensures forall x :: x in left ==> LeftOfGutter(x, split)
    ensures forall x :: x in right ==> RightOfGutter(x, split)
  {
    hide ColumnPartition, SortLines, LeftOfGutter, RightOfGutter, Cut, OverGutter, Bands, SortWith;
    var c := ColumnPartition(items).value;
    split := PartitionFollowsGutter(items);
    left, right := ReadingOrder(c.left, depth + 1), ReadingOrder(c.right, depth + 1);
    ReadingOrderKeepsAll(c.left, depth + 1);
    ReadingOrderKeepsAll(c.right, depth + 1);
    SameMembers(left, c.left);
    SameMembers(right, c.right);
  }

  // ----- what comes before a separator -----

  /** Above the top edge of one of the separators up to k. */
  predicate CutBy(x: Item, separators: seq<Item>, k: nat) {
    exists j :: 0 <= j <= k && j < |separators| && AboveTop(x, SeparatorTop(separators[j]))
  }

  function Chosen(items: seq<Item>, separators: seq<Item>, k: nat, cut: bool): seq<Item> {
    if items == [] then []
    else
      var rest, last := Chosen(items[..|items| - 1], separators, k, cut), items[|items| - 1];
      if CutBy(last, separators, k) == cut then rest + [last] else rest
  }

  lemma CutByFirst(x: Item, separators: seq<Item>, k: nat)
    requires separators != []
    ensures CutBy(x, separators, k) <==>
      AboveTop(x, SeparatorTop(separators[0])) || (k > 0 && CutBy(x, separators[1..], k - 1))
  {
    hide AboveTop, SeparatorTop;
    if CutBy(x, separators, k) && !AboveTop(x, SeparatorTop(separators[0])) {
      var j :| 0 <= j <= k && j < |separators| && AboveTop(x, SeparatorTop(separators[j]));
      assert separators[1..][j - 1] == separators[j];
    }
    if k > 0 && CutBy(x, separators[1..], k - 1) {
      var j :| 0 <= j <= k - 1 && j < |separators[1..]| && AboveTop(x, SeparatorTop(separators[1..][j]));
      assert separators[j + 1] == separators[1..][j];
    }
  }

  lemma {:induction false} ChosenAtFirst(items: seq<Item>, separators: seq<Item>)
    requires separators != []
    ensures Chosen(items, separators, 0, true) == Above(items, SeparatorTop(separators[0]))
    ensures Chosen(items, separators, 0, false) == Below(items, SeparatorTop(separators[0]))
  {
    hide AboveTop, SeparatorTop, CutBy;
    if items != [] {
      ChosenAtFirst(items[..|items| - 1], separators);
      CutByFirst(items[|items| - 1], separators, 0);
    }
  }

  lemma {:induction false} ChosenLater(items: seq<Item>, separators: seq<Item>, k: nat)
    requires separators != [] && k > 0
    ensures var top := SeparatorTop(separators[0]);
      && multiset(Chosen(items, separators, k, true))
        == multiset(Above(items, top)) + multiset(Chosen(Below(items, top), separators[1..], k - 1, true))
      && Chosen(items, separators, k, false) == Chosen(Below(items, top), separators[1..], k - 1, false)
  {
    hide AboveTop, SeparatorTop, CutBy;
    if items != [] {
      var last, top := items[|items| - 1], SeparatorTop(separators[0]);
      ChosenLater(items[..|items| - 1], separators, k);
      CutByFirst(last, separators, k);
      if !AboveTop(last, top) {
        ChosenAppend(Below(items[..|items| - 1], top), last, separators[1..], k - 1);
      }
    }
  }

  lemma ChosenAppend(items: seq<Item>, last: Item, separators: seq<Item>, k: nat)
    ensures Chosen(items + [last], separators, k, true)
      == Chosen(items, separators, k, true) + if CutBy(last, separators, k) then [last] else []
    ensures Chosen(items + [last], separators, k, false)
      == Chosen(items, separators, k, false) + if CutBy(last, separators, k) then [] else [last]
  {
    hide CutBy;
    assert (items + [last])[..|items|] == items;
  }

  /** The parts of a page around separator k. */
  ghost predicate SplitsAt(before: seq<Item>, after: seq<Item>, left: seq<Item>, right: seq<Item>,
      separators: seq<Item>, k: nat)
    requires k < |separators|
  {
    && multiset(before) == multiset(separators[..k])
      + multiset(Chosen(left, separators, k, true)) + multiset(Chosen(right, separators, k, true))
    && multiset(after) == multiset(separators[k + 1..])
      + multiset(Chosen(left, separators, k, false)) + multiset(Chosen(right, separators, k, false))
  }

  lemma SplitsAtFirst(upper: seq<Item>, after: seq<Item>, left: seq<Item>, right: seq<Item>, separators: seq<Item>)
    requires separators != []
    requires var top := SeparatorTop(separators[0]);
      && multiset(upper) == multiset(Above(left, top)) + multiset(Above(right, top))
      && multiset(after) == multiset(Below(left, top)) + multiset(Below(right, top)) + multiset(separators[1..])
    ensures SplitsAt(upper, after, left, right, separators, 0)
  {
    hide Above, SeparatorTop, Below, Chosen;
    ChosenAtFirst(left, separators);
    ChosenAtFirst(right, separators);
    assert separators[..0] == [];
  }

  lemma SplitsLater(upper: seq<Item>, before: seq<Item>, after: seq<Item>, left: seq<Item>, right: seq<Item>,
                    separators: seq<Item>, k: nat)
    requires 0 < k < |separators|
    requires var top := SeparatorTop(separators[0]);
      && multiset(upper) == multiset(Above(left, top)) + multiset(Above(right, top))
      && SplitsAt(before, after, Below(left, top), Below(right, top), separators[1..], k - 1)
    ensures SplitsAt(upper + [separators[0]] + before, after, left, right, separators, k)
  {
    hide Above, SeparatorTop, Below, Chosen;
    ChosenLater(left, separators, k);
    ChosenLater(right, separators, k);
    SeparatorsAround(separators, k);
    assert multiset(upper + [separators[0]] + before) == multiset(upper) + multiset{separators[0]} + multiset(before);
  }

  lemma SeparatorsAround(separators: seq<Item>, k: nat)
    requires 0 < k < |separators|
    ensures multiset(separators[..k]) == multiset{separators[0]} + multiset(separators[1..][..k - 1])
    ensures separators[1..][k..] == separators[k + 1..]
  {
    assert separators[..k] == [separators[0]] + separators[1..][..k - 1];
  }

  /** Exactly the earlier separators, and the column items above the top edge of one of the separators
      up to this one, are read before it; everything else is read after it. */
  lemma {:induction false} ReadBeforeSeparator(left: seq<Item>, right: seq<Item>, separators: seq<Item>, k: nat,
      depth: nat)
      returns (before: seq<Item>, after: seq<Item>)
    requires 1 <= depth <= MAX_DEPTH && k < |separators|
    ensures Bands(left, right, separators, depth) == before + [separators[k]] + after
    ensures SplitsAt(before, after, left, right, separators, k)
    decreases k
  {
    hide ReadingOrder, Bands, Above, NotIn, SeparatorTop, Below, SplitsAt;
    var top, rest := SeparatorTop(separators[0]), separators[1..];
    var upper := ReadingOrder(Above(left, top), depth) + ReadingOrder(Above(right, top), depth);
    BandsStep(left, right, separators, 0, depth);
    assert separators[0..] == separators;
    ReadingOrderKeepsAll(Above(left, top), depth);
    ReadingOrderKeepsAll(Above(right, top), depth);
    RestIsBelow(left, top);
    RestIsBelow(right, top);
    if k == 0 {
      before, after := upper, Bands(Below(left, top), Below(right, top), rest, depth);
      BandsKeepAll(Below(left, top), Below(right, top), rest, depth);
      SplitsAtFirst(before, after, left, right, separators);
    } else {
      var b: seq<Item>;
      b, after := ReadBeforeSeparator(Below(left, top), Below(right, top), rest, k - 1, depth);
      before := upper + [separators[0]] + b;
      SplitsLater(upper, b, after, left, right, separators, k);
      assert rest[k - 1] == separators[k];
    }
  }
}
