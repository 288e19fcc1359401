/** Chunks concatenate to the page, respect both bounds, and never split a
    logical group that fits into one chunk. */
module PaperChunkFacts {
  import opened PaperLayout
  import opened PaperChunks

  function Concat(parts: seq<seq<Item>>): seq<Item> {
    if parts == [] then [] else Concat(parts[..|parts| - 1]) + parts[|parts| - 1]
  }

  lemma ConcatAppend(parts: seq<seq<Item>>, part: seq<Item>)
    ensures Concat(parts + [part]) == Concat(parts) + part
  {
    assert (parts + [part])[..|parts|] == parts;
  }

  lemma {:induction false} ConcatJoin(a: seq<seq<Item>>, b: seq<seq<Item>>)
    ensures Concat(a + b) == Concat(a) + Concat(b)
  {
    if b == [] {
      assert a + b == a;
    } else {
      ConcatJoin(a, b[..|b| - 1]);
      assert (a + b)[..|a + b| - 1] == a + b[..|b| - 1];
    }
  }

  lemma ConcatOne(part: seq<Item>)
    ensures Concat([part]) == part
  {
    assert [part][..0] == [];
  }

  // ----- logical groups -----

  function QuestionCount(items: seq<Item>, p: Patterns): nat {
    if items == [] then 0
    else QuestionCount(items[..|items| - 1], p) + if StartsQuestion(items[|items| - 1], p) then 1 else 0
  }

  /** Not empty, at most one question start, and a section start only in front. */
  ghost predicate GoodGroup(group: seq<Item>, p: Patterns) {
    && group != [] && QuestionCount(group, p) <= 1
    && (forall i :: 0 < i < |group| ==> !StartsSection(group[i], p))
  }

  ghost predicate GoodGrouping(g: Grouping, p: Patterns) {
    && (forall i :: 0 <= i < |g.done| ==> GoodGroup(g.done[i], p))
    && (g.current != [] ==> GoodGroup(g.current, p))
    && (g.hasQuestion <==> QuestionCount(g.current, p) > 0)
  }

  lemma QuestionAppend(items: seq<Item>, item: Item, p: Patterns)
    ensures QuestionCount(items + [item], p) == QuestionCount(items, p) + if StartsQuestion(item, p) then 1 else 0
  {
    assert (items + [item])[..|items|] == items;
  }

  lemma AddItemIsGood(g: Grouping, item: Item, p: Patterns)
    requires GoodGrouping(g, p)
    ensures GoodGrouping(AddItem(g, item, p), p)
  {
    hide StartsQuestion, StartsSection, QuestionCount;
    QuestionAppend(g.current, item, p);
    QuestionAppend([], item, p);
    NoQuestions(p);
    assert [] + [item] == [item];
  }

  lemma NoQuestions(p: Patterns)
    ensures QuestionCount([], p) == 0
  {
  }

  lemma AddItemKeeps(g: Grouping, item: Item, p: Patterns)
    ensures var h := AddItem(g, item, p); Concat(h.done) + h.current == Concat(g.done) + g.current + [item]
  {
    hide StartsQuestion, StartsSection;
    ConcatAppend(g.done, g.current);
    assert [] + [item] == [item];
  }

  lemma {:induction false} GroupUpToKeeps(blocks: seq<Item>, k: nat, p: Patterns)
    requires k <= |blocks|
    ensures var g := GroupUpTo(blocks, k, p); Concat(g.done) + g.current == blocks[..k] && GoodGrouping(g, p)
  {
    hide AddItem, Concat, GoodGrouping;
    if k == 0 {
      NothingGrouped(p);
    } else {
      GroupUpToKeeps(blocks, k - 1, p);
      var g := GroupUpTo(blocks, k - 1, p);
      AddItemIsGood(g, blocks[k - 1], p);
      AddItemKeeps(g, blocks[k - 1], p);
      assert blocks[..k] == blocks[..k - 1] + [blocks[k - 1]];
    }
  }

  lemma NothingGrouped(p: Patterns)
    ensures GoodGrouping(Grouping([], [], false), p) && Concat([]) == []
  {
  }

  /** Logical groups partition the blocks in order; each holds at most one question start,
      and a section start only opens a group. */
  lemma GroupsFollowQuestions(blocks: seq<Item>, p: Patterns)
    ensures Concat(LogicalGroups(blocks, p)) == blocks
    ensures forall i :: 0 <= i < |LogicalGroups(blocks, p)| ==> GoodGroup(LogicalGroups(blocks, p)[i], p)
  {
    hide GroupUpTo, GoodGroup;
    GroupUpToKeeps(blocks, |blocks|, p);
    assert blocks[..|blocks|] == blocks;
    var g := GroupUpTo(blocks, |blocks|, p);
    ConcatAppend(g.done, g.current);
  }

  // ----- bounds -----

  /** Within both bounds, or a single block that is too long by itself. */
  ghost predicate GoodChunk(chunk: seq<Item>) {
    && chunk != [] && |chunk| <= MAX_BLOCKS
    && (Chars(chunk) <= MAX_CHARS || |chunk| == 1)
  }

  lemma CharsStep(group: seq<Item>, i: nat)
    requires i < |group|
    ensures Chars(group[..i + 1]) == Chars(group[..i]) + Size(group[i])
  {
    assert group[..i + 1][..i] == group[..i];
  }

  lemma {:induction false} TakenFits(group: seq<Item>, i: nat)
    requires i <= |group| && group != [] && (i == 0 || GoodChunk(group[..i]))
    ensures var n := TakeFrom(group, i, Chars(group[..i])); n > 0 && GoodChunk(group[..n])
    decreases |group| - i
  {
    hide Chars;
    if i < |group| {
      CharsStep(group, i);
      if i == 0 || !(i >= MAX_BLOCKS || Chars(group[..i]) + Size(group[i]) > MAX_CHARS) {
        TakenFits(group, i + 1);
      }
    }
  }

  lemma FirstPieceFits(group: seq<Item>)
    requires group != []
    ensures TakeFrom(group, 0, 0) > 0 && GoodChunk(group[..TakeFrom(group, 0, 0)])
  {
    hide TakeFrom, GoodChunk;
    TakenFits(group, 0);
    NoChars();
    assert group[..0] == [];
  }

  lemma {:induction false} ShredFacts(group: seq<Item>)
    ensures var s := Shred(group);
      && Concat(s.pieces) + s.rest == group
      && !Oversized(s.rest)
      && (forall i :: 0 <= i < |s.pieces| ==> GoodChunk(s.pieces[i]))
      && (!Oversized(group) ==> s.pieces == [] && s.rest == group)
    decreases |group|
  {
    hide Chars, TakeFrom, GoodChunk;
    if Oversized(group) {
      OversizedNotEmpty(group);
      var n := TakeFrom(group, 0, 0);
      FirstPieceFits(group);
      ShredFacts(group[n..]);
      var more := Shred(group[n..]);
      ConcatJoin([group[..n]], more.pieces);
      ConcatOne(group[..n]);
    }
  }

  ghost predicate GoodChunking(c: Chunking) {
    && (forall i :: 0 <= i < |c.chunks| ==> GoodChunk(c.chunks[i]))
    && !Oversized(c.current)
  }

  lemma AddGroupIsGood(c: Chunking, group: seq<Item>)
    requires GoodChunking(c)
    ensures GoodChunking(AddGroup(c, group))
  {
    hide Chars, Shred, Concat;
    ShredFacts(group);
    var s := Shred(group);
    CharsOfConcat(c.current, s.rest);
    assert [] + s.rest == s.rest;
    if c.current == [] {
      assert c.current + s.rest == s.rest;
    }
    ShreddedOnlyIfFlushed(c, group);
    if c.current != [] && !Oversized(c.current) { FittingIsGood(c.current); }
  }

  lemma AddGroupKeeps(c: Chunking, group: seq<Item>)
    ensures Concat(AddGroup(c, group).chunks) + AddGroup(c, group).current == Concat(c.chunks) + c.current + group
  {
    hide Oversized, Overflows, Shred, Concat, GoodChunk;
    ShredFacts(group);
    ShreddedOnlyIfFlushed(c, group);
    var s := Shred(group);
    if Overflows(c.current, group) {
      ConcatJoin(c.chunks + [c.current], s.pieces);
      ConcatAppend(c.chunks, c.current);
      assert [] + s.rest == s.rest;
    } else {
      ConcatJoin(c.chunks, s.pieces);
      if s.pieces == [] {
        NothingConcatenated();
      } else {
        assert c.current + s.rest == s.rest;
      }
    }
  }

  lemma AddGroupFacts(c: Chunking, group: seq<Item>)
    requires GoodChunking(c)
    ensures GoodChunking(AddGroup(c, group))
    ensures Concat(AddGroup(c, group).chunks) + AddGroup(c, group).current == Concat(c.chunks) + c.current + group
  {
    AddGroupIsGood(c, group);
    AddGroupKeeps(c, group);
  }

  /** Pieces are cut off only when nothing is waiting in front of them. */
  lemma ShreddedOnlyIfFlushed(c: Chunking, group: seq<Item>)
    ensures Oversized(group) ==> c.current == [] || Overflows(c.current, group)
  {
  }

  lemma {:induction false} ChunkUpToFacts(groups: seq<seq<Item>>, k: nat)
    requires k <= |groups|
    ensures var c := ChunkUpTo(groups, k); GoodChunking(c) && Concat(c.chunks) + c.current == Concat(groups[..k])
  {
    hide AddGroup, GoodChunking;
    if k == 0 {
      NothingChunked();
    } else {
      ChunkUpToFacts(groups, k - 1);
      AddGroupFacts(ChunkUpTo(groups, k - 1), groups[k - 1]);
      assert groups[..k] == groups[..k - 1] + [groups[k - 1]];
      ConcatAppend(groups[..k - 1], groups[k - 1]);
    }
  }

  lemma NothingChunked()
    ensures GoodChunking(Chunking([], [])) && Concat([]) == []
  {
  }

  lemma FittingIsGood(chunk: seq<Item>)
    requires chunk != [] && !Oversized(chunk)
    ensures GoodChunk(chunk)
  {
  }

  lemma ClosedIsGood(c: Chunking)
    requires GoodChunking(c)
    ensures var all := if c.current == [] then c.chunks else c.chunks + [c.current];
      Concat(all) == Concat(c.chunks) + c.current && forall i :: 0 <= i < |all| ==> GoodChunk(all[i])
  {
    hide GoodChunk, Oversized, Concat;
    ConcatAppend(c.chunks, c.current);
    if c.current != [] { FittingIsGood(c.current); }
  }

  /** The chunks are the blocks in order, none is empty, and each keeps both bounds unless it is one over-long block. */
  lemma ChunksAreBounded(blocks: seq<Item>, p: Patterns)
    ensures Concat(SplitBlockGroups(blocks, p)) == blocks
    ensures forall i :: 0 <= i < |SplitBlockGroups(blocks, p)| ==> GoodChunk(SplitBlockGroups(blocks, p)[i])
  {
    hide LogicalGroups, ChunkUpTo, GoodChunk, GoodGroup, GoodChunking, Concat;
    var groups := LogicalGroups(blocks, p);
    GroupsFollowQuestions(blocks, p);
    ChunkUpToFacts(groups, |groups|);
    assert groups[..|groups|] == groups;
    ClosedIsGood(ChunkUpTo(groups, |groups|));
  }

  // ----- groups that fit stay whole -----

  /** Where the first j parts end. */
  function Offset(parts: seq<seq<Item>>, j: nat): nat
    requires j <= |parts|
  {
    |Concat(parts[..j])|
  }

  /** A position inside group i, neither its start nor its end. */
  predicate Inside(groups: seq<seq<Item>>, i: nat, at: nat)
    requires i < |groups|
  {
    Offset(groups, i) < at < Offset(groups, i + 1)
  }

  /** No chunk made so far ends inside one of the first k groups that fit. */
  ghost predicate Whole(chunks: seq<seq<Item>>, groups: seq<seq<Item>>, k: nat) {
    forall i, j :: 0 <= i < k && i < |groups| && !Oversized(groups[i]) && 0 <= j <= |chunks| ==>
      !Inside(groups, i, Offset(chunks, j))
  }

  lemma OffsetStep(parts: seq<seq<Item>>, j: nat)
    requires j < |parts|
    ensures Offset(parts, j + 1) == Offset(parts, j) + |parts[j]|
  {
    assert parts[..j + 1] == parts[..j] + [parts[j]];
    ConcatAppend(parts[..j], parts[j]);
  }

  lemma {:induction false} OffsetMonotone(parts: seq<seq<Item>>, i: nat, j: nat)
    requires i <= j <= |parts|
    ensures Offset(parts, i) <= Offset(parts, j)
    decreases j
  {
    hide Offset;
    if i < j {
      OffsetMonotone(parts, i, j - 1);
      OffsetStep(parts, j - 1);
    }
  }

  lemma OffsetPrefix(a: seq<seq<Item>>, b: seq<seq<Item>>, j: nat)
    requires j <= |a|
    ensures Offset(a + b, j) == Offset(a, j)
  {
    assert (a + b)[..j] == a[..j];
  }

  lemma OffsetWithin(a: seq<seq<Item>>, b: seq<seq<Item>>, j: nat)
    requires |a| <= j <= |a| + |b|
    ensures Offset(a + b, j) == |Concat(a)| + Offset(b, j - |a|)
  {
    assert (a + b)[..j] == a + b[..j - |a|];
    ConcatJoin(a, b[..j - |a|]);
  }

  lemma OffsetAll(parts: seq<seq<Item>>)
    ensures Offset(parts, |parts|) == |Concat(parts)|
  {
    assert parts[..|parts|] == parts;
  }

  /** New chunk ends lie at or after the start of the group being added, and strictly inside it only
      if it is oversized. */
  lemma NewEnds(c: Chunking, group: seq<Item>, j: nat)
    requires GoodChunking(c) && j <= |AddGroup(c, group).chunks|
    ensures var start := |Concat(c.chunks)| + |c.current|;
      var at := Offset(AddGroup(c, group).chunks, j);
      && (j <= |c.chunks| ==> at == Offset(c.chunks, j))
      && (j > |c.chunks| ==> at >= start)
      && (j > |c.chunks| && !Oversized(group) ==> at == start)
  {
    hide Shred, Offset, Concat, Chars, GoodChunk;
    var s := Shred(group);
    ShredFacts(group);
    ShreddedOnlyIfFlushed(c, group);
    var d := if Overflows(c.current, group) then c.chunks + [c.current] else c.chunks;
    ConcatAppend(c.chunks, c.current);
    OffsetAll(d);
    OffsetAll(c.chunks);
    assert AddGroup(c, group).chunks == d + s.pieces;
    if j <= |c.chunks| {
      OffsetPrefix(c.chunks, [c.current], j);
      OffsetPrefix(d, s.pieces, j);
    } else {
      OffsetWithin(d, s.pieces, j);
      OffsetAll(s.pieces);
      NothingConcatenated();
    }
  }

  lemma NothingConcatenated()
    ensures Concat([]) == []
  {
  }

  lemma AddGroupKeepsWhole(c: Chunking, groups: seq<seq<Item>>, k: nat)
    requires k < |groups| && GoodChunking(c) && Whole(c.chunks, groups, k)
    requires |Concat(c.chunks)| + |c.current| == Offset(groups, k)
    ensures Whole(AddGroup(c, groups[k]).chunks, groups, k + 1)
  {
    hide Offset, Concat, AddGroup, GoodChunking, Oversized;
    var after := AddGroup(c, groups[k]).chunks;
    forall i, j | 0 <= i < k + 1 && !Oversized(groups[i]) && 0 <= j <= |after|
      ensures !Inside(groups, i, Offset(after, j))
    {
      NewEnds(c, groups[k], j);
      if j <= |c.chunks| {
        OldEnds(c, groups, i, j, k);
      } else if i < k {
        OffsetMonotone(groups, i + 1, k);
      }
    }
  }

  lemma OldEnds(c: Chunking, groups: seq<seq<Item>>, i: nat, j: nat, k: nat)
    requires i <= k < |groups| && j <= |c.chunks| && Whole(c.chunks, groups, k) && !Oversized(groups[i])
    requires |Concat(c.chunks)| + |c.current| == Offset(groups, k)
    ensures !Inside(groups, i, Offset(c.chunks, j))
  {
    hide Offset, Concat, Oversized;
    OffsetAll(c.chunks);
    OffsetMonotone(c.chunks, j, |c.chunks|);
    assert i < k ==> !Inside(groups, i, Offset(c.chunks, j));
  }

  lemma {:induction false} ChunkUpToKeepsWhole(groups: seq<seq<Item>>, k: nat)
    requires k <= |groups|
    ensures Whole(ChunkUpTo(groups, k).chunks, groups, k)
  {
    hide AddGroup, GoodChunking, Concat, Whole;
    if k == 0 {
      NothingCut(groups);
    } else {
      ChunkUpToKeepsWhole(groups, k - 1);
      ChunkUpToFacts(groups, k - 1);
      AddGroupKeepsWhole(ChunkUpTo(groups, k - 1), groups, k - 1);
    }
  }

  lemma NothingCut(groups: seq<seq<Item>>)
    ensures Whole([], groups, 0)
  {
  }

  /** A chunk never ends inside a logical group that fits into one chunk. */
  lemma FittingGroupsStayWhole(blocks: seq<Item>, p: Patterns)
    ensures var groups := LogicalGroups(blocks, p);
      Whole(SplitBlockGroups(blocks, p), groups, |groups|)
  {
    hide LogicalGroups, ChunkUpTo, Offset, Oversized, GoodChunking, Concat;
    var groups := LogicalGroups(blocks, p);
    var c := ChunkUpTo(groups, |groups|);
    ChunkUpToKeepsWhole(groups, |groups|);
    ChunkUpToFacts(groups, |groups|);
    if c.current != [] {
      var chunks := SplitBlockGroups(blocks, p);
      assert groups[..|groups|] == groups;
      forall i, j | 0 <= i < |groups| && !Oversized(groups[i]) && 0 <= j <= |chunks|
        ensures !Inside(groups, i, Offset(chunks, j))
      {
        if j <= |c.chunks| {
          OffsetPrefix(c.chunks, [c.current], j);
        } else {
          OffsetAll(chunks);
          ConcatAppend(c.chunks, c.current);
          OffsetAll(groups);
          OffsetMonotone(groups, i + 1, |groups|);
        }
      }
    }
  }
}
