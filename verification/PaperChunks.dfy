/** Cutting a page of ordered blocks into bounded chunks without splitting
    questions that fit. */
module PaperChunks {
  import opened PaperLayout

  const MAX_BLOCKS := 48
  const MAX_CHARS := 1100
  const MAX_TEXT := 2400

  /** Patterns over stripped text, and what counts as white space. */
  datatype Patterns = Patterns(question: string -> bool, section: string -> bool, space: char -> bool)

  function StripLeft(text: string, space: char -> bool): string {
    if text == "" then "" else if space(text[0]) then StripLeft(text[1..], space) else text
  }

  function StripRight(text: string, space: char -> bool): string {
    if text == "" then ""
    else if space(text[|text| - 1]) then StripRight(text[..|text| - 1], space)
    else text
  }

  function Strip(text: string, space: char -> bool): string {
    StripRight(StripLeft(text, space), space)
  }

  // ----- logical groups -----

  predicate StartsQuestion(item: Item, p: Patterns) { p.question(Strip(item.block.text, p.space)) }
  predicate StartsSection(item: Item, p: Patterns) { p.section(Strip(item.block.text, p.space)) }

  datatype Grouping = Grouping(done: seq<seq<Item>>, current: seq<Item>, hasQuestion: bool)

  predicate BreaksBefore(g: Grouping, item: Item, p: Patterns) {
    g.current != [] && ((StartsQuestion(item, p) && g.hasQuestion) || StartsSection(item, p))
  }

  function AddItem(g: Grouping, item: Item, p: Patterns): Grouping {
    var h := if BreaksBefore(g, item, p) then Grouping(g.done + [g.current], [], false) else g;
    Grouping(h.done, h.current + [item], h.hasQuestion || StartsQuestion(item, p))
  }

  function GroupUpTo(blocks: seq<Item>, k: nat, p: Patterns): Grouping
    requires k <= |blocks|
  {
    if k == 0 then Grouping([], [], false) else AddItem(GroupUpTo(blocks, k - 1, p), blocks[k - 1], p)
  }

  function LogicalGroups(blocks: seq<Item>, p: Patterns): seq<seq<Item>> {
    var g := GroupUpTo(blocks, |blocks|, p);
    if g.current == [] then g.done else g.done + [g.current]
  }

  // ----- chunks -----

  function Size(item: Item): nat { |item.block.text| }

  function Chars(items: seq<Item>): nat {
    if items == [] then 0 else Chars(items[..|items| - 1]) + Size(items[|items| - 1])
  }

  predicate Oversized(group: seq<Item>) { |group| > MAX_BLOCKS || Chars(group) > MAX_CHARS }

  /** How many items are taken, having taken i of them with the given total size. */
  function TakeFrom(group: seq<Item>, i: nat, chars: nat): (n: nat)
    requires i <= |group|
    ensures i <= n <= |group|
    ensures i == 0 && group != [] ==> n > 0
    decreases |group| - i
  {
    if i == |group| then i
    else if i > 0 && (i >= MAX_BLOCKS || chars + Size(group[i]) > MAX_CHARS) then i
    else TakeFrom(group, i + 1, chars + Size(group[i]))
  }

  lemma OversizedNotEmpty(group: seq<Item>)
    requires Oversized(group)
    ensures group != []
  {
  }

  datatype Shredded = Shredded(pieces: seq<seq<Item>>, rest: seq<Item>)

  /** Takes pieces off an oversized group until the rest fits. */
  function Shred(group: seq<Item>): Shredded
    decreases |group|
  {
    if !Oversized(group) then Shredded([], group)
    else
      OversizedNotEmpty(group);
      var n := TakeFrom(group, 0, 0);
      var more := Shred(group[n..]);
      Shredded([group[..n]] + more.pieces, more.rest)
  }

  datatype Chunking = Chunking(chunks: seq<seq<Item>>, current: seq<Item>)

  predicate Overflows(current: seq<Item>, group: seq<Item>) {
    current != [] && (|current| + |group| > MAX_BLOCKS || Chars(current) + Chars(group) > MAX_CHARS)
  }

  function AddGroup(c: Chunking, group: seq<Item>): Chunking {
    var d := if Overflows(c.current, group) then Chunking(c.chunks + [c.current], []) else c;
    var s := Shred(group);
    Chunking(d.chunks + s.pieces, d.current + s.rest)
  }

  function ChunkUpTo(groups: seq<seq<Item>>, k: nat): Chunking
    requires k <= |groups|
  {
    if k == 0 then Chunking([], []) else AddGroup(ChunkUpTo(groups, k - 1), groups[k - 1])
  }

  function SplitBlockGroups(blocks: seq<Item>, p: Patterns): seq<seq<Item>> {
    var groups := LogicalGroups(blocks, p);
    var c := ChunkUpTo(groups, |groups|);
    if c.current == [] then c.chunks else c.chunks + [c.current]
  }

  // ----- the loops -----

  method FormGroups(blocks: seq<Item>, p: Patterns) returns (groups: seq<seq<Item>>)
    ensures groups == LogicalGroups(blocks, p)
  {
    hide StartsQuestion, StartsSection;
    groups := [];
    var current: seq<Item>, hasQuestion := [], false;
    for k := 0 to |blocks|
      invariant Grouping(groups, current, hasQuestion) == GroupUpTo(blocks, k, p)
    {
      var startsQuestion := StartsQuestion(blocks[k], p);
      if current != [] && ((startsQuestion && hasQuestion) || StartsSection(blocks[k], p)) {
        groups := groups + [current];
        current, hasQuestion := [], false;
      }
      current := current + [blocks[k]];
      hasQuestion := hasQuestion || startsQuestion;
    }
    if current != [] {
      groups := groups + [current];
    }
  }

  /** The inner loop of the splitter: items that fit into one piece. */
  method TakePiece(group: seq<Item>) returns (take: seq<Item>)
    requires group != []
    ensures take == group[..TakeFrom(group, 0, 0)]
  {
    take := [];
    var chars: nat := 0;
    for i := 0 to |group|
      invariant take == group[..i] && TakeFrom(group, i, chars) == TakeFrom(group, 0, 0)
    {
      if take != [] && (|take| >= MAX_BLOCKS || chars + Size(group[i]) > MAX_CHARS) {
        return;
      }
      take := take + [group[i]];
      chars := chars + Size(group[i]);
    }
  }

  lemma {:induction false} CharsOfConcat(a: seq<Item>, b: seq<Item>)
    ensures Chars(a + b) == Chars(a) + Chars(b)
  {
    if b == [] {
      assert a + b == a;
    } else {
      CharsOfConcat(a, b[..|b| - 1]);
      assert (a + b)[..|a + b| - 1] == a + b[..|b| - 1];
    }
  }

  method SplitBlocks(blocks: seq<Item>, p: Patterns) returns (chunks: seq<seq<Item>>)
    ensures chunks == SplitBlockGroups(blocks, p)
  {
    hide LogicalGroups, Chars, TakeFrom;
    var groups := FormGroups(blocks, p);
    chunks := [];
    var current: seq<Item>, currentChars := [], 0;
    NoChars();
    for k := 0 to |groups|
      invariant Chunking(chunks, current) == ChunkUpTo(groups, k)
      invariant currentChars == Chars(current)
    {
      ghost var before, whole := Chunking(chunks, current), groups[k];
      var group, groupChars := groups[k], Chars(groups[k]);
      if current != [] && (|current| + |group| > MAX_BLOCKS || currentChars + groupChars > MAX_CHARS) {
        chunks := chunks + [current];
        current, currentChars := [], 0;
        NoChars();
      }
      ghost var flushed := chunks;
      while |group| > MAX_BLOCKS || groupChars > MAX_CHARS
        invariant groupChars == Chars(group)
        invariant chunks + Shred(group).pieces == flushed + Shred(whole).pieces
        invariant Shred(group).rest == Shred(whole).rest
        decreases |group|
      {
        OversizedNotEmpty(group);
        var take := TakePiece(group);
        chunks := chunks + [take];
        group := group[|take|..];
        groupChars := Chars(group);
      }
      CharsOfConcat(current, group);
      current := current + group;
      currentChars := currentChars + groupChars;
    }
    if current != [] {
      chunks := chunks + [current];
    }
  }

  lemma NoChars()
    ensures Chars([]) == 0
  {
  }
}
