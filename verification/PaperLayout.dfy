/** Reading order of a page of recognised blocks: lines, columns and the bounded
    recursive cut along a gutter. */
module PaperLayout {
  import opened Wrappers
  import opened Ordering
  import opened RealArithmetic

  datatype Box = Box(x: real, y: real, w: real, h: real)

  /** A page number as it arrived: an integer, a float or boolean with its value, text with what it converts
      to, or nothing. */
  datatype PageField = Page(n: int) | Valued(value: real) | Other(text: string, converted: int) | Absent

  /** bbox holds the raw numbers; confidence is None when it is not a finite number. */
  datatype Block = Block(id: string, page: PageField, bbox: seq<real>, confidence: Option<real>, text: string)

  datatype Item = Item(index: nat, block: Block)

  /** A usable box has four numbers and a positive extent. */
  function BoxOf(item: Item): Option<Box> {
    var b := item.block.bbox;
    if |b| != 4 || b[2] <= 0.0 || b[3] <= 0.0 then None else Some(Box(b[0], b[1], b[2], b[3]))
  }

  function Middle(b: Box): real { b.y + b.h / 2.0 }

  function CenterY(item: Item): real {
    match BoxOf(item)
    case Some(b) => Middle(b)
    case None => item.index as real
  }

  /** By vertical centre, left edge and index; items without a box come last. */
  predicate GeometricBefore(a: Item, b: Item) {
    match (BoxOf(a), BoxOf(b))
    case (Some(p), Some(q)) =>
      || Middle(p) < Middle(q)
      || (Middle(p) == Middle(q) && (p.x < q.x || (p.x == q.x && a.index < b.index)))
    case (Some(_), None) => true
    case (None, Some(_)) => false
    case (None, None) => a.index < b.index
  }

  // ----- lines -----

  datatype Line = Line(center: real, median: real, items: seq<Item>)

  function Threshold(height: real, line: Line): real {
    Max(8.0, Min(height, line.median) * 0.75)
  }

  /** The nearest line within its threshold among the first k; the first one on ties. */
  function NearestLine(lines: seq<Line>, b: Box, k: nat): Option<nat>
    requires k <= |lines|
    ensures NearestLine(lines, b, k).Some? ==> NearestLine(lines, b, k).value < k
  {
    if k == 0 then None
    else
      var best, d := NearestLine(lines, b, k - 1), Abs(Middle(b) - lines[k - 1].center);
      if d <= Threshold(b.h, lines[k - 1]) && (best.None? || d < Abs(Middle(b) - lines[best.value].center))
      then Some(k - 1)
      else best
  }

  function CenterSum(items: seq<Item>): real {
    if items == [] then 0.0 else CenterSum(items[..|items| - 1]) + CenterY(items[|items| - 1])
  }

  function Heights(items: seq<Item>): seq<real> {
    seq(|items|, i requires 0 <= i < |items| => if BoxOf(items[i]).Some? then BoxOf(items[i]).value.h else 0.0)
  }

  predicate Smaller(a: real, b: real) { a < b }

  /** The upper median. */
  function MedianOf(values: seq<real>): real
    requires values != []
  {
    SortWithKeepsAll(values, Smaller);
    SortWith(values, Smaller)[|values| / 2]
  }

  function JoinLine(line: Line, item: Item): Line {
    var items := line.items + [item];
    Line(CenterSum(items) / |items| as real, MedianOf(Heights(items)), items)
  }

  function AddToLines(lines: seq<Line>, item: Item, b: Box): seq<Line> {
    match NearestLine(lines, b, |lines|)
    case None => lines + [Line(Middle(b), b.h, [item])]
    case Some(i) => lines[i := JoinLine(lines[i], item)]
  }

  datatype Rows = Rows(lines: seq<Line>, unboxed: seq<Item>)

  function RowsUpTo(items: seq<Item>, k: nat): Rows
    requires k <= |items|
  {
    if k == 0 then Rows([], [])
    else
      var r, item := RowsUpTo(items, k - 1), items[k - 1];
      match BoxOf(item)
      case None => r.(unboxed := r.unboxed + [item])
      case Some(b) => r.(lines := AddToLines(r.lines, item, b))
  }

  /** Lines hold boxed items only. */
  function StartX(item: Item): real {
    if BoxOf(item).Some? then BoxOf(item).value.x else 0.0
  }

  predicate LeftOf(a: Item, b: Item) { StartX(a) < StartX(b) }

  function Flatten(lines: seq<Line>): seq<Item> {
    if lines == [] then []
    else Flatten(lines[..|lines| - 1]) + SortWith(lines[|lines| - 1].items, LeftOf)
  }

  predicate Higher(a: Line, b: Line) { a.center < b.center }

  function SortLines(items: seq<Item>): seq<Item> {
    var sorted := SortWith(items, GeometricBefore);
    var r := RowsUpTo(sorted, |sorted|);
    Flatten(SortWith(r.lines, Higher)) + r.unboxed
  }

  // ----- columns -----

  function Boxes(items: seq<Item>): seq<Box> {
    if items == [] then []
    else
      var rest, b := Boxes(items[..|items| - 1]), BoxOf(items[|items| - 1]);
      if b.Some? then rest + [b.value] else rest
  }

  function LeftEdge(bs: seq<Box>): real
    requires bs != []
  {
    if |bs| == 1 then bs[0].x else Min(LeftEdge(bs[..|bs| - 1]), bs[|bs| - 1].x)
  }

  function RightEdge(bs: seq<Box>): real
    requires bs != []
  {
    if |bs| == 1 then bs[0].x + bs[0].w else Max(RightEdge(bs[..|bs| - 1]), bs[|bs| - 1].x + bs[|bs| - 1].w)
  }

  predicate Crosses(b: Box, split: real) { b.x < split < b.x + b.w }

  function CrossingCount(bs: seq<Box>, split: real): nat {
    if bs == [] then 0 else CrossingCount(bs[..|bs| - 1], split) + if Crosses(bs[|bs| - 1], split) then 1 else 0
  }

  /** Left edges of the boxes wholly on one side of the split. */
  function EdgesBeside(bs: seq<Box>, split: real, left: bool): seq<real> {
    if bs == [] then []
    else
      var rest, b := EdgesBeside(bs[..|bs| - 1], split, left), bs[|bs| - 1];
      if (if left then b.x + b.w <= split else b.x >= split) then rest + [b.x] else rest
  }

  datatype Gutter = Gutter(crossing: nat, balance: real, offCentre: nat, split: real)

  function Ratio(a: nat, b: nat): real
    requires a > 0 && b > 0
  {
    if a < b then a as real / b as real else b as real / a as real
  }

  /** The split at step percent of the page width, if both sides are well supported. */
  function GutterAt(bs: seq<Box>, step: nat): Option<Gutter>
    requires bs != []
  {
    var from, width := LeftEdge(bs), RightEdge(bs) - LeftEdge(bs);
    var split := from + width * step as real / 100.0;
    var lefts, rights := EdgesBeside(bs, split, true), EdgesBeside(bs, split, false);
    if |lefts| < 4 || |rights| < 4 then None
    else if MedianOf(rights) - MedianOf(lefts) < width * 0.25 then None
    else
      Some(Gutter(CrossingCount(bs, split), Ratio(|lefts|, |rights|),
                  if step < 50 then 50 - step else step - 50, split))
  }

  /** Fewest crossings, then best balance, then most central, then leftmost. */
  predicate Preferred(a: Gutter, b: Gutter) {
    || a.crossing < b.crossing
    || (a.crossing == b.crossing &&
        (|| a.balance > b.balance
         || (a.balance == b.balance &&
             (a.offCentre < b.offCentre || (a.offCentre == b.offCentre && a.split < b.split)))))
  }

  const FIRST_STEP := 15
  const LAST_STEP := 85

  /** Candidates for the steps from 15 up to below step. */
  function Gutters(bs: seq<Box>, step: nat): seq<Gutter>
    requires bs != [] && FIRST_STEP <= step
  {
    if step == FIRST_STEP then []
    else
      var rest, g := Gutters(bs, step - 1), GutterAt(bs, step - 1);
      if g.Some? then rest + [g.value] else rest
  }

  datatype Side = Left | Right | Spanning

  function SideOf(item: Item, split: real): Side {
    match BoxOf(item)
    case None => Spanning
    case Some(b) => if Crosses(b, split) then Spanning else if b.x + b.w / 2.0 <= split then Left else Right
  }

  function OnSide(items: seq<Item>, split: real, side: Side): seq<Item> {
    if items == [] then []
    else
      var rest, last := OnSide(items[..|items| - 1], split, side), items[|items| - 1];
      if SideOf(last, split) == side then rest + [last] else rest
  }

  function TopEdge(bs: seq<Box>): real
    requires bs != []
  {
    if |bs| == 1 then bs[0].y else Min(TopEdge(bs[..|bs| - 1]), bs[|bs| - 1].y)
  }

  function BottomEdge(bs: seq<Box>): real
    requires bs != []
  {
    if |bs| == 1 then bs[0].y + bs[0].h else Max(BottomEdge(bs[..|bs| - 1]), bs[|bs| - 1].y + bs[|bs| - 1].h)
  }

  function VerticalOverlap(left: seq<Item>, right: seq<Item>): real {
    var ls, rs := Boxes(left), Boxes(right);
    if ls == [] || rs == [] then 0.0
    else
      var overlap := Max(0.0, Min(BottomEdge(ls), BottomEdge(rs)) - Max(TopEdge(ls), TopEdge(rs)));
      var smaller := Min(BottomEdge(ls) - TopEdge(ls), BottomEdge(rs) - TopEdge(rs));
      if smaller > 0.0 then overlap / smaller else 0.0
  }

  datatype Columns = Columns(left: seq<Item>, right: seq<Item>, spanning: seq<Item>)

  function Cut(items: seq<Item>, split: real): Columns {
    Columns(OnSide(items, split, Left), OnSide(items, split, Right), OnSide(items, split, Spanning))
  }

  predicate Usable(g: Gutter, items: seq<Item>, boxed: nat) {
    && g.crossing <= (if boxed / 20 > 3 then boxed / 20 else 3)
    && |OnSide(items, g.split, Left)| >= 4 && |OnSide(items, g.split, Right)| >= 4
    && VerticalOverlap(OnSide(items, g.split, Left), OnSide(items, g.split, Right)) >= 0.25
  }

  /** The first usable gutter at or after position k of the preference list. */
  function FirstUsable(gs: seq<Gutter>, items: seq<Item>, boxed: nat, k: nat): Option<Gutter>
    requires k <= |gs|
    decreases |gs| - k
  {
    if k == |gs| then None
    else if Usable(gs[k], items, boxed) then Some(gs[k])
    else FirstUsable(gs, items, boxed, k + 1)
  }

  function ColumnPartition(items: seq<Item>): Option<Columns> {
    var bs := Boxes(items);
    if |bs| < 8 || RightEdge(bs) - LeftEdge(bs) <= 0.0 then None
    else
      match FirstUsable(SortWith(Gutters(bs, LAST_STEP + 1), Preferred), items, |bs|, 0)
      case None => None
      case Some(g) => Some(Cut(items, g.split))
  }

  // ----- reading order -----

  /** The top edge of a separator; None stands for infinity. */
  function SeparatorTop(s: Item): Option<real> {
    match BoxOf(s)
    case Some(b) => Some(b.y)
    case None => None
  }

  predicate AboveTop(item: Item, top: Option<real>) {
    top.None? || CenterY(item) < top.value
  }

  function Above(items: seq<Item>, top: Option<real>): seq<Item> {
    if items == [] then []
    else
      var rest, last := Above(items[..|items| - 1], top), items[|items| - 1];
      if AboveTop(last, top) then rest + [last] else rest
  }

  function NotIn(items: seq<Item>, taken: seq<Item>): seq<Item> {
    if items == [] then []
    else
      var rest, last := NotIn(items[..|items| - 1], taken), items[|items| - 1];
      if last in taken then rest else rest + [last]
  }

  const MAX_DEPTH := 3

  function ReadingOrder(items: seq<Item>, depth: nat): seq<Item>
    decreases 4 - depth, 0
  {
    if |items| < 8 || depth >= MAX_DEPTH then SortLines(items)
    else
      match ColumnPartition(items)
      case None => SortLines(items)
      case Some(c) =>
        if c.spanning == [] then ReadingOrder(c.left, depth + 1) + ReadingOrder(c.right, depth + 1)
        else Bands(c.left, c.right, SortWith(c.spanning, GeometricBefore), depth + 1)
  }

  /** Between separators, the part of each column above the next one is read left then right. */
  function Bands(left: seq<Item>, right: seq<Item>, separators: seq<Item>, depth: nat): seq<Item>
    requires 1 <= depth <= MAX_DEPTH
    decreases 4 - depth, 1 + |separators|
  {
    if separators == [] then ReadingOrder(left, depth) + ReadingOrder(right, depth)
    else
      var top := SeparatorTop(separators[0]);
      var upperLeft, upperRight := Above(left, top), Above(right, top);
      ReadingOrder(upperLeft, depth) + ReadingOrder(upperRight, depth) + [separators[0]]
        + Bands(NotIn(left, upperLeft), NotIn(right, upperRight), separators[1..], depth)
  }

  // ----- the loops -----

  method FindLine(lines: seq<Line>, b: Box) returns (best: Option<nat>)
    ensures best == NearestLine(lines, b, |lines|)
  {
    hide Threshold;
    best := None;
    var bestDistance := 0.0;
    for i := 0 to |lines|
      invariant best == NearestLine(lines, b, i)
      invariant best.Some? ==> bestDistance == Abs(Middle(b) - lines[best.value].center)
    {
      var distance := Abs(Middle(b) - lines[i].center);
      if distance <= Threshold(b.h, lines[i]) && (best.None? || distance < bestDistance) {
        best, bestDistance := Some(i), distance;
      }
    }
  }

  /** Groups the boxed items into lines and reads the lines top down, each from the left. */
  method ArrangeLines(items: seq<Item>) returns (ordered: seq<Item>)
    ensures ordered == SortLines(items)
  {
    hide NearestLine, BoxOf, JoinLine, GeometricBefore, LeftOf, Higher;
    var sorted := SortWith(items, GeometricBefore);
    var lines: seq<Line>, unboxed: seq<Item> := [], [];
    for k := 0 to |sorted|
      invariant Rows(lines, unboxed) == RowsUpTo(sorted, k)
    {
      var item := sorted[k];
      var box := BoxOf(item);
      if box.None? {
        unboxed := unboxed + [item];
      } else {
        var best := FindLine(lines, box.value);
        if best.None? {
          lines := lines + [Line(Middle(box.value), box.value.h, [item])];
        } else {
          lines := lines[best.value := JoinLine(lines[best.value], item)];
        }
      }
    }
    var rows := SortWith(lines, Higher);
    ordered := [];
    for k := 0 to |rows|
      invariant ordered == Flatten(rows[..k])
    {
      assert rows[..k + 1][..k] == rows[..k];
      ordered := ordered + SortWith(rows[k].items, LeftOf);
    }
    assert rows[..|rows|] == rows;
    ordered := ordered + unboxed;
  }

  method CutAt(items: seq<Item>, split: real) returns (left: seq<Item>, right: seq<Item>, spanning: seq<Item>)
    ensures Columns(left, right, spanning) == Cut(items, split)
  {
    hide SideOf;
    left, right, spanning := [], [], [];
    for k := 0 to |items|
      invariant Columns(left, right, spanning) == Cut(items[..k], split)
    {
      assert items[..k + 1][..k] == items[..k];
      match SideOf(items[k], split)
      case Left => left := left + [items[k]];
      case Right => right := right + [items[k]];
      case Spanning => spanning := spanning + [items[k]];
    }
    assert items[..|items|] == items;
  }

  /** Samples gutters every percent and takes the most preferred usable one. */
  method FindColumns(items: seq<Item>) returns (r: Option<Columns>)
    ensures r == ColumnPartition(items)
  {
    hide GutterAt, Usable, Boxes, Preferred, Cut;
    var bs := Boxes(items);
    if |bs| < 8 {
      return None;
    }
    if RightEdge(bs) - LeftEdge(bs) <= 0.0 {
      return None;
    }
    var candidates: seq<Gutter> := [];
    for step := FIRST_STEP to LAST_STEP + 1
      invariant candidates == Gutters(bs, step)
    {
      var g := GutterAt(bs, step);
      if g.Some? {
        candidates := candidates + [g.value];
      }
    }
    var ranked := SortWith(candidates, Preferred);
    for k := 0 to |ranked|
      invariant FirstUsable(ranked, items, |bs|, k) == FirstUsable(ranked, items, |bs|, 0)
    {
      if Usable(ranked[k], items, |bs|) {
        var left, right, spanning := CutAt(items, ranked[k].split);
        return Some(Columns(left, right, spanning));
      }
    }
    r := None;
  }

  lemma BandsStep(left: seq<Item>, right: seq<Item>, separators: seq<Item>, k: nat, depth: nat)
    requires 1 <= depth <= MAX_DEPTH && k < |separators|
    ensures var top := SeparatorTop(separators[k]);
      var upperLeft, upperRight := Above(left, top), Above(right, top);
      Bands(left, right, separators[k..], depth)
        == ReadingOrder(upperLeft, depth) + ReadingOrder(upperRight, depth) + [separators[k]]
          + Bands(NotIn(left, upperLeft), NotIn(right, upperRight), separators[k + 1..], depth)
  {
    hide ReadingOrder, Above, NotIn, SeparatorTop;
    assert separators[k..][1..] == separators[k + 1..];
  }

  lemma BandsEnd(left: seq<Item>, right: seq<Item>, separators: seq<Item>, depth: nat)
    requires 1 <= depth <= MAX_DEPTH
    ensures separators[|separators|..] == [] && separators[0..] == separators
    ensures Bands(left, right, [], depth) == ReadingOrder(left, depth) + ReadingOrder(right, depth)
  {
    hide ReadingOrder;
  }

  /** The loop over separators: what lies above the next one is read first, left column before right. */
  method OrderBands(left: seq<Item>, right: seq<Item>, separators: seq<Item>, depth: nat) returns (ordered: seq<Item>)
    requires 1 <= depth <= MAX_DEPTH
    ensures ordered == Bands(left, right, separators, depth)
    decreases 4 - depth, 1
  {
    hide ReadingOrder, Bands, Above, NotIn, SeparatorTop;
    var remainingLeft, remainingRight := left, right;
    ordered := [];
    BandsEnd(left, right, separators, depth);
    for k := 0 to |separators|
      invariant ordered + Bands(remainingLeft, remainingRight, separators[k..], depth)
        == Bands(left, right, separators, depth)
    {
      BandsStep(remainingLeft, remainingRight, separators, k, depth);
      var top := SeparatorTop(separators[k]);
      var upperLeft, upperRight := Above(remainingLeft, top), Above(remainingRight, top);
      var first := OrderItems(upperLeft, depth);
      var second := OrderItems(upperRight, depth);
      ordered := ordered + first + second + [separators[k]];
      remainingLeft, remainingRight := NotIn(remainingLeft, upperLeft), NotIn(remainingRight, upperRight);
    }
    BandsEnd(remainingLeft, remainingRight, separators, depth);
    var first := OrderItems(remainingLeft, depth);
    var second := OrderItems(remainingRight, depth);
    ordered := ordered + first + second;
  }

  /** The recursive cut. */
  method OrderItems(items: seq<Item>, depth: nat) returns (ordered: seq<Item>)
    ensures ordered == ReadingOrder(items, depth)
    decreases 4 - depth, 0
  {
    hide SortLines, ColumnPartition, GeometricBefore, Bands;
    if |items| < 8 || depth >= MAX_DEPTH {
      ordered := ArrangeLines(items);
      return;
    }
    var columns := FindColumns(items);
    if columns.None? {
      ordered := ArrangeLines(items);
    } else if columns.value.spanning == [] {
      var first := OrderItems(columns.value.left, depth + 1);
      var second := OrderItems(columns.value.right, depth + 1);
      ordered := first + second;
    } else {
      ordered := OrderBands(columns.value.left, columns.value.right, SortWith(columns.value.spanning, GeometricBefore),
          depth + 1);
    }
  }
}
