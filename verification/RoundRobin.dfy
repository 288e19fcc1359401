/** Benchmark sampling: one sample from each question group in turn until the
    limit is reached. */
module RoundRobin {
  import opened Wrappers
  import opened Grouping
  import opened Ordering

  /** The positions of one group's samples, in input order. */
  type Bucket = Group<nat>

  function BucketsUpTo(keys: seq<string>, k: nat): seq<Bucket>
    requires k <= |keys|
  {
    if k == 0 then [] else AddTo(BucketsUpTo(keys, k - 1), keys[k - 1], k - 1)
  }

  function ByKey(order: string -> int): Bucket -> int { (b: Bucket) => order(b.key) }

  function Queues(keys: seq<string>, order: string -> int): seq<Bucket> {
    SortBy(BucketsUpTo(keys, |keys|), ByKey(order))
  }

  // ----- rounds -----

  /** Round r takes each queue's r-th sample, queue by queue. */
  datatype Cell = Cell(round: nat, queue: nat)

  /** All cells before queue i of round r. */
  function CellsUpTo(qs: seq<Bucket>, r: nat, i: nat): seq<Cell>
    requires i <= |qs|
    decreases r, i
  {
    if i > 0 then CellsUpTo(qs, r, i - 1) + (if r < |qs[i - 1].members| then [Cell(r, i - 1)] else [])
    else if r > 0 then CellsUpTo(qs, r - 1, |qs|)
    else []
  }

  predicate CellIn(c: Cell, qs: seq<Bucket>) {
    c.queue < |qs| && c.round < |qs[c.queue].members|
  }

  predicate AllIn(cells: seq<Cell>, qs: seq<Bucket>) {
    forall k :: 0 <= k < |cells| ==> CellIn(cells[k], qs)
  }

  function Pick(c: Cell, qs: seq<Bucket>): nat
    requires CellIn(c, qs)
  {
    qs[c.queue].members[c.round]
  }

  lemma {:induction false} CellsAreIn(qs: seq<Bucket>, r: nat, i: nat)
    requires i <= |qs|
    ensures AllIn(CellsUpTo(qs, r, i), qs)
    decreases r, i
  {
    if i > 0 {
      CellsAreIn(qs, r, i - 1);
    } else if r > 0 {
      CellsAreIn(qs, r - 1, |qs|);
    }
  }

  function Picks(cells: seq<Cell>, qs: seq<Bucket>): seq<nat>
    requires AllIn(cells, qs)
  {
    seq(|cells|, k requires 0 <= k < |cells| => Pick(cells[k], qs))
  }

  function Longest(qs: seq<Bucket>): nat {
    if qs == [] then 0
    else
      var rest, last := Longest(qs[..|qs| - 1]), |qs[|qs| - 1].members|;
      if rest < last then last else rest
  }

  /** Every cell, round by round. */
  function AllCells(qs: seq<Bucket>): seq<Cell> { CellsUpTo(qs, Longest(qs), 0) }

  function Total(qs: seq<Bucket>): nat {
    if qs == [] then 0 else Total(qs[..|qs| - 1]) + |qs[|qs| - 1].members|
  }

  // ----- how many cells of each queue come first -----

  function Min(a: nat, b: nat): nat { if b < a then b else a }

  /** How many samples queue g has given before queue i of round r. */
  function Level(qs: seq<Bucket>, g: nat, r: nat, i: nat): nat
    requires g < |qs|
  {
    Min(|qs[g].members|, if g < i then r + 1 else r)
  }

  function LevelSum(qs: seq<Bucket>, n: nat, r: nat, i: nat): nat
    requires n <= |qs|
  {
    if n == 0 then 0 else LevelSum(qs, n - 1, r, i) + Level(qs, n - 1, r, i)
  }

  lemma {:induction false} LevelSumStep(qs: seq<Bucket>, n: nat, r: nat, i: nat)
    requires n <= |qs| && 0 < i <= |qs|
    ensures LevelSum(qs, n, r, i) == LevelSum(qs, n, r, i - 1) + if i <= n && r < |qs[i - 1].members| then 1 else 0
  {
    if n > 0 { LevelSumStep(qs, n - 1, r, i); }
  }

  lemma {:induction false} LevelSumWrap(qs: seq<Bucket>, n: nat, r: nat)
    requires n <= |qs| && r > 0
    ensures LevelSum(qs, n, r, 0) == LevelSum(qs, n, r - 1, |qs|)
  {
    if n > 0 { LevelSumWrap(qs, n - 1, r); }
  }

  lemma {:induction false} LevelSumZero(qs: seq<Bucket>, n: nat)
    requires n <= |qs|
    ensures LevelSum(qs, n, 0, 0) == 0
  {
    if n > 0 { LevelSumZero(qs, n - 1); }
  }

  lemma {:induction false} CellCount(qs: seq<Bucket>, r: nat, i: nat)
    requires i <= |qs|
    ensures |CellsUpTo(qs, r, i)| == LevelSum(qs, |qs|, r, i)
    decreases r, i
  {
    hide LevelSum;
    if i > 0 {
      CellCount(qs, r, i - 1);
      LevelSumStep(qs, |qs|, r, i);
    } else if r > 0 {
      CellCount(qs, r - 1, |qs|);
      LevelSumWrap(qs, |qs|, r);
    } else {
      LevelSumZero(qs, |qs|);
    }
  }

  lemma {:induction false} LevelSumFull(qs: seq<Bucket>, n: nat, r: nat)
    requires n <= |qs| && forall g :: 0 <= g < n ==> |qs[g].members| <= r
    ensures LevelSum(qs, n, r, 0) == Total(qs[..n])
  {
    if n > 0 {
      LevelSumFull(qs, n - 1, r);
      assert qs[..n][..n - 1] == qs[..n - 1];
    }
  }

  /** A round that adds nothing finds every queue exhausted. */
  lemma {:induction false} IdleRound(qs: seq<Bucket>, r: nat, i: nat)
    requires i <= |qs| && |CellsUpTo(qs, r, i)| == |CellsUpTo(qs, r, 0)|
    ensures forall g :: 0 <= g < i ==> |qs[g].members| <= r
    decreases i
  {
    if i > 0 {
      CellsGrow(qs, r, 0, i - 1);
      IdleRound(qs, r, i - 1);
    }
  }

  lemma {:induction false} CellsGrow(qs: seq<Bucket>, r: nat, i: nat, j: nat)
    requires i <= j <= |qs|
    ensures CellsUpTo(qs, r, i) <= CellsUpTo(qs, r, j)
    decreases j
  {
    if i < j { CellsGrow(qs, r, i, j - 1); }
  }

  lemma IdleRoundIsLast(qs: seq<Bucket>, r: nat)
    requires |CellsUpTo(qs, r, |qs|)| == |CellsUpTo(qs, r, 0)|
    ensures |CellsUpTo(qs, r, 0)| == Total(qs)
  {
    hide CellsUpTo, LevelSum, Total;
    IdleRound(qs, r, |qs|);
    CellCount(qs, r, 0);
    LevelSumFull(qs, |qs|, r);
    assert qs[..|qs|] == qs;
  }

  // ----- prefixes of the order -----

  /** Cells before (r, i) come before those before any later point. */
  lemma {:induction false} CellsMonotone(qs: seq<Bucket>, r: nat, i: nat, s: nat, j: nat)
    requires i <= |qs| && j <= |qs| && (r < s || (r == s && i <= j))
    ensures CellsUpTo(qs, r, i) <= CellsUpTo(qs, s, j)
    decreases s, j
  {
    if r == s {
      CellsGrow(qs, r, i, j);
    } else if j > 0 {
      CellsMonotone(qs, r, i, s, j - 1);
    } else {
      CellsMonotone(qs, r, i, s - 1, |qs|);
    }
  }

  lemma {:induction false} LongestIsLongest(qs: seq<Bucket>)
    ensures forall g :: 0 <= g < |qs| ==> |qs[g].members| <= Longest(qs)
  {
    if qs != [] { LongestIsLongest(qs[..|qs| - 1]); }
  }

  /** All cells are as many as the queues hold. */
  lemma AllCellsCount(qs: seq<Bucket>)
    ensures |AllCells(qs)| == Total(qs)
  {
    hide CellsUpTo, LevelSum, Total, Longest;
    LongestIsLongest(qs);
    CellCount(qs, Longest(qs), 0);
    LevelSumFull(qs, |qs|, Longest(qs));
    assert qs[..|qs|] == qs;
  }

  lemma {:induction false} NothingLater(qs: seq<Bucket>, r: nat, i: nat)
    requires i <= |qs| && r >= Longest(qs)
    ensures CellsUpTo(qs, r, i) == AllCells(qs)
    decreases r, i
  {
    hide Longest;
    LongestIsLongest(qs);
    if i > 0 {
      NothingLater(qs, r, i - 1);
    } else if r > Longest(qs) {
      NothingLater(qs, r - 1, |qs|);
    }
  }

  lemma CellsArePrefix(qs: seq<Bucket>, r: nat, i: nat)
    requires i <= |qs|
    ensures CellsUpTo(qs, r, i) <= AllCells(qs)
  {
    hide CellsUpTo, Longest;
    if r >= Longest(qs) {
      NothingLater(qs, r, i);
    } else {
      CellsMonotone(qs, r, i, Longest(qs), 0);
    }
  }

  /** The first limit cells picked from their queues. */
  function Selection(qs: seq<Bucket>, limit: nat): seq<nat>
    requires limit <= Total(qs)
  {
    AllCellsCount(qs);
    CellsAreIn(qs, Longest(qs), 0);
    Picks(AllCells(qs)[..limit], qs)
  }

  // ----- the loops -----

  method GroupPositions(keys: seq<string>) returns (buckets: seq<Bucket>)
    ensures buckets == BucketsUpTo(keys, |keys|)
  {
    hide FindGroup;
    buckets := [];
    for k := 0 to |keys|
      invariant buckets == BucketsUpTo(keys, k)
    {
      var i := FindGroup(buckets, keys[k]);
      if i == |buckets| {
        buckets := buckets + [Group(keys[k], [k])];
      } else {
        buckets := buckets[i := Group(keys[k], buckets[i].members + [k])];
      }
    }
  }

  lemma PicksAppend(cells: seq<Cell>, c: Cell, qs: seq<Bucket>)
    requires AllIn(cells, qs) && CellIn(c, qs)
    ensures AllIn(cells + [c], qs)
    ensures Picks(cells + [c], qs) == Picks(cells, qs) + [Pick(c, qs)]
  {
  }

  /** Where the loop stands before queue i of round r. */
  ghost predicate Standing(qs: seq<Bucket>, remaining: seq<seq<nat>>, selected: seq<nat>, r: nat, i: nat)
    requires i <= |qs|
  {
    && |remaining| == |qs|
    && (forall g :: 0 <= g < |qs| ==> remaining[g] == qs[g].members[Level(qs, g, r, i)..])
    && AllIn(CellsUpTo(qs, r, i), qs)
    && selected == Picks(CellsUpTo(qs, r, i), qs)
  }

  lemma StandingSkip(qs: seq<Bucket>, remaining: seq<seq<nat>>, selected: seq<nat>, r: nat, i: nat)
    requires i < |qs| && Standing(qs, remaining, selected, r, i) && remaining[i] == []
    ensures Standing(qs, remaining, selected, r, i + 1) && CellsUpTo(qs, r, i + 1) == CellsUpTo(qs, r, i)
  {
    assert |remaining[i]| == |qs[i].members| - Level(qs, i, r, i);
  }

  lemma StandingTake(qs: seq<Bucket>, remaining: seq<seq<nat>>, selected: seq<nat>, r: nat, i: nat)
    requires i < |qs| && Standing(qs, remaining, selected, r, i) && remaining[i] != []
    ensures Standing(qs, remaining[i := remaining[i][1..]], selected + [remaining[i][0]], r, i + 1)
    ensures |CellsUpTo(qs, r, i + 1)| == |CellsUpTo(qs, r, i)| + 1
  {
    assert |remaining[i]| == |qs[i].members| - Level(qs, i, r, i);
    PicksAppend(CellsUpTo(qs, r, i), Cell(r, i), qs);
  }

  lemma StandingWrap(qs: seq<Bucket>, remaining: seq<seq<nat>>, selected: seq<nat>, r: nat)
    requires Standing(qs, remaining, selected, r, |qs|)
    ensures Standing(qs, remaining, selected, r + 1, 0)
  {
  }

  /** What has been taken once the limit is reached is the selection. */
  lemma StandingAtLimit(qs: seq<Bucket>, remaining: seq<seq<nat>>, selected: seq<nat>, r: nat, i: nat, limit: nat)
    requires i <= |qs| && Standing(qs, remaining, selected, r, i) && |selected| == limit <= Total(qs)
    ensures selected == Selection(qs, limit)
  {
    hide CellsUpTo, Level, Total;
    CellsArePrefix(qs, r, i);
    AllCellsCount(qs);
    assert AllCells(qs)[..limit] == CellsUpTo(qs, r, i);
  }

  lemma StandingAtStart(qs: seq<Bucket>)
    ensures Standing(qs, seq(|qs|, g requires 0 <= g < |qs| => qs[g].members), [], 0, 0)
  {
  }

  lemma StandingSize(qs: seq<Bucket>, remaining: seq<seq<nat>>, selected: seq<nat>, r: nat, i: nat)
    requires i <= |qs| && Standing(qs, remaining, selected, r, i)
    ensures |selected| == |CellsUpTo(qs, r, i)|
  {
  }

  /** Takes from the queues in turn. The round that adds nothing, on which the program would give up,
      never happens below the total. */
  method TakeInTurn(qs: seq<Bucket>, limit: nat) returns (selected: seq<nat>)
    requires 0 < limit < Total(qs)
    ensures selected == Selection(qs, limit)
  {
    hide CellsUpTo, Standing, Total, Selection;
    var remaining := seq(|qs|, g requires 0 <= g < |qs| => qs[g].members);
    selected := [];
    StandingAtStart(qs);
    ghost var r: nat := 0;
    while |selected| < limit
      invariant |selected| <= limit && |remaining| == |qs| && Standing(qs, remaining, selected, r, 0)
      invariant |selected| == limit ==> selected == Selection(qs, limit)
      decreases limit - |selected|
    {
      var added := false;
      ghost var before := |selected|;
      StandingSize(qs, remaining, selected, r, 0);
      for i := 0 to |qs|
        invariant |remaining| == |qs| && Standing(qs, remaining, selected, r, i) && before <= |selected| < limit
        invariant added <==> |selected| > before
      {
        if remaining[i] == [] {
          StandingSkip(qs, remaining, selected, r, i);
        } else {
          StandingTake(qs, remaining, selected, r, i);
          selected := selected + [remaining[i][0]];
          remaining := remaining[i := remaining[i][1..]];
          added := true;
          if |selected| == limit {
            StandingAtLimit(qs, remaining, selected, r, i + 1, limit);
            return;
          }
        }
      }
      if !added {
        StandingSize(qs, remaining, selected, r, |qs|);
        IdleRoundIsLast(qs, r);
        assert false;
      }
      StandingWrap(qs, remaining, selected, r);
      r := r + 1;
    }
  }

  // ----- the queues hold every position once -----

  /** The positions before k with this key, in order. */
  function PositionsOf(keys: seq<string>, key: string, k: nat): seq<nat>
    requires k <= |keys|
  {
    if k == 0 then []
    else PositionsOf(keys, key, k - 1) + (if keys[k - 1] == key then [k - 1] else [])
  }

  ghost predicate NewKey(buckets: seq<Bucket>, key: string) {
    forall i :: 0 <= i < |buckets| ==> buckets[i].key != key
  }

  /** Every bucket holds exactly the positions of its key, and keys differ. */
  ghost predicate GoodBuckets(buckets: seq<Bucket>, keys: seq<string>, k: nat)
    requires k <= |keys|
  {
    && (forall i :: 0 <= i < |buckets| ==> buckets[i].members == PositionsOf(keys, buckets[i].key, k))
    && (forall i, j :: 0 <= i < j < |buckets| ==> buckets[i].key != buckets[j].key)
  }

  /** No bucket means no position yet. */
  ghost predicate Covered(buckets: seq<Bucket>, keys: seq<string>, k: nat)
    requires k <= |keys|
  {
    forall key :: NewKey(buckets, key) ==> PositionsOf(keys, key, k) == []
  }

  lemma AddToIsGood(buckets: seq<Bucket>, keys: seq<string>, k: nat)
    requires 0 < k <= |keys| && GoodBuckets(buckets, keys, k - 1) && Covered(buckets, keys, k - 1)
    ensures GoodBuckets(AddTo(buckets, keys[k - 1], k - 1), keys, k)
    ensures Covered(AddTo(buckets, keys[k - 1], k - 1), keys, k)
  {
    var key, i := keys[k - 1], FindGroup(buckets, keys[k - 1]);
    var after := AddTo(buckets, key, k - 1);
    if i == |buckets| { assert NewKey(buckets, key); }
    forall other | NewKey(after, other) ensures PositionsOf(keys, other, k) == [] {
      assert after[i].key == key;
      forall j | 0 <= j < |buckets| ensures buckets[j].key != other {
        assert after[j].key == buckets[j].key;
      }
      assert NewKey(buckets, other);
    }
  }

  lemma {:induction false} TotalUpdate(buckets: seq<Bucket>, i: nat, b: Bucket)
    requires i < |buckets| && |b.members| == |buckets[i].members| + 1
    ensures Total(buckets[i := b]) == Total(buckets) + 1
  {
    var n := |buckets| - 1;
    if i < n {
      TotalUpdate(buckets[..n], i, b);
      assert buckets[i := b][..n] == buckets[..n][i := b];
    } else {
      assert buckets[i := b][..n] == buckets[..n];
    }
  }

  lemma TotalAppend(buckets: seq<Bucket>, b: Bucket)
    ensures Total(buckets + [b]) == Total(buckets) + |b.members|
  {
    assert (buckets + [b])[..|buckets|] == buckets;
  }

  lemma {:induction false} BucketsFacts(keys: seq<string>, k: nat)
    requires k <= |keys|
    ensures var b := BucketsUpTo(keys, k); GoodBuckets(b, keys, k) && Covered(b, keys, k) && Total(b) == k
    decreases k
  {
    hide FindGroup, Total, GoodBuckets, Covered;
    if k == 0 {
      NoBuckets(keys);
    } else {
      BucketsFacts(keys, k - 1);
      var b := BucketsUpTo(keys, k - 1);
      AddToIsGood(b, keys, k);
      var i := FindGroup(b, keys[k - 1]);
      if i < |b| {
        TotalUpdate(b, i, Group(keys[k - 1], b[i].members + [k - 1]));
      } else {
        TotalAppend(b, Group(keys[k - 1], [k - 1]));
      }
    }
  }

  lemma NoBuckets(keys: seq<string>)
    ensures GoodBuckets([], keys, 0) && Covered([], keys, 0) && Total([]) == 0
  {
  }

  lemma {:induction false} InsertBucket(x: Bucket, xs: seq<Bucket>, key: Bucket -> int, keys: seq<string>, k: nat)
    requires k <= |keys| && GoodBuckets(xs, keys, k) && NewKey(xs, x.key) && x.members == PositionsOf(keys, x.key, k)
    ensures GoodBuckets(Insert(x, xs, key), keys, k)
    ensures Total(Insert(x, xs, key)) == Total(xs) + |x.members|
    ensures forall other :: NewKey(Insert(x, xs, key), other) <==> NewKey(xs, other) && other != x.key
  {
    hide PositionsOf, Total;
    if xs == [] || key(x) >= key(xs[|xs| - 1]) {
      TotalAppend(xs, x);
      assert Insert(x, xs, key) == xs + [x];
      forall other ensures NewKey(xs + [x], other) <==> NewKey(xs, other) && other != x.key {
        NewKeyAppend(xs, x, other);
      }
    } else {
      var init, last := xs[..|xs| - 1], xs[|xs| - 1];
      assert xs == init + [last];
      InsertBucket(x, init, key, keys, k);
      var r := Insert(x, init, key);
      TotalAppend(r, last);
      TotalAppend(init, last);
      NewKeyAppend(init, last, x.key);
      assert NewKey(init, last.key);
      forall other ensures NewKey(r + [last], other) <==> NewKey(xs, other) && other != x.key {
        NewKeyAppend(r, last, other);
        NewKeyAppend(init, last, other);
      }
    }
  }

  lemma NewKeyAppend(xs: seq<Bucket>, x: Bucket, key: string)
    ensures NewKey(xs + [x], key) <==> NewKey(xs, key) && x.key != key
  {
    if NewKey(xs + [x], key) {
      assert (xs + [x])[|xs|] == x;
      forall i | 0 <= i < |xs| ensures xs[i].key != key { assert (xs + [x])[i] == xs[i]; }
    }
  }

  lemma {:induction false} SortBuckets(xs: seq<Bucket>, key: Bucket -> int, keys: seq<string>, k: nat)
    requires k <= |keys| && GoodBuckets(xs, keys, k)
    ensures GoodBuckets(SortBy(xs, key), keys, k) && Total(SortBy(xs, key)) == Total(xs)
    ensures forall other :: NewKey(SortBy(xs, key), other) <==> NewKey(xs, other)
  {
    hide PositionsOf, Total, Insert;
    if xs != [] {
      var init, last := xs[..|xs| - 1], xs[|xs| - 1];
      assert xs == init + [last];
      SortBuckets(init, key, keys, k);
      assert NewKey(init, last.key);
      InsertBucket(last, SortBy(init, key), key, keys, k);
      TotalAppend(init, last);
      forall other ensures NewKey(xs, other) <==> NewKey(init, other) && last.key != other {
        NewKeyAppend(init, last, other);
      }
    }
  }

  /** The queues partition the positions by key. */
  lemma QueuesPartition(keys: seq<string>, order: string -> int)
    ensures GoodBuckets(Queues(keys, order), keys, |keys|) && Covered(Queues(keys, order), keys, |keys|)
    ensures Total(Queues(keys, order)) == |keys|
  {
    hide PositionsOf, Total, SortBy, BucketsUpTo, GoodBuckets, NewKey;
    BucketsFacts(keys, |keys|);
    SortBuckets(BucketsUpTo(keys, |keys|), ByKey(order), keys, |keys|);
  }

  /** All samples without a limit or with a large one, an error for a limit below one, else the selection. */
  method SelectDiverse(keys: seq<string>, limit: Option<int>, order: string -> int) returns (r: Option<seq<nat>>)
    ensures Total(Queues(keys, order)) == |keys|
    ensures r ==
      if limit.None? then Some(seq(|keys|, k => k))
      else if limit.value <= 0 then None
      else if limit.value >= |keys| then Some(seq(|keys|, k => k))
      else Some(Selection(Queues(keys, order), limit.value))
  {
    hide Total, Selection, SortBy;
    QueuesPartition(keys, order);
    if limit.None? { return Some(seq(|keys|, k => k)); }
    if limit.value <= 0 { return None; }
    if limit.value >= |keys| { return Some(seq(|keys|, k => k)); }
    var buckets := GroupPositions(keys);
    var selected := TakeInTurn(SortBy(buckets, ByKey(order)), limit.value);
    r := Some(selected);
  }
}
