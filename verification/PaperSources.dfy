/** From documents to chunks whose aliases resolve to trusted references. */
module PaperSources {
  import opened Wrappers
  import opened Ordering
  import opened PaperLayout
  import opened PaperLayoutFacts
  import opened PaperChunks
  import opened PaperChunkFacts
  import opened PaperText

  datatype Document = Document(source: string, asset: string, index: int, content: string, blocks: seq<Block>)

  /** Where a candidate came from: a recognised block, or a range of plain text. */
  datatype Ref = Ref(source: string, asset: string, index: int, page: PageField, block: Option<string>,
                     bbox: Option<seq<real>>, start: Option<int>, end: Option<int>, confidence: Option<real>)

  /** Alias n stands for the n-th reference name the schema enumerates. */
  datatype Chunk = Chunk(document: Document, page: Option<int>, texts: seq<string>, references: map<nat, Ref>)

  /** Conversion to an integer drops the fraction. */
  function Truncated(v: real): int { if v < 0.0 then -(-v).Floor else v.Floor }

  function PageOf(b: Block): int {
    match b.page
    case Page(n) => n
    case Valued(v) => Truncated(v)
    case Other(_, c) => c
    case Absent => 0
  }

  /** The first k blocks that are not blank, with their positions. */
  function Visible(blocks: seq<Block>, k: nat, space: char -> bool): seq<Item>
    requires k <= |blocks|
  {
    if k == 0 then []
    else
      var rest, b := Visible(blocks, k - 1, space), blocks[k - 1];
      if Strip(b.text, space) == "" then rest else rest + [Item(k - 1, b)]
  }

  function OnPage(items: seq<Item>, page: int): seq<Item> {
    if items == [] then []
    else
      var rest, last := OnPage(items[..|items| - 1], page), items[|items| - 1];
      if PageOf(last.block) == page then rest + [last] else rest
  }

  /** The pages in order of first appearance. */
  function PagesSeen(items: seq<Item>): seq<int> {
    if items == [] then []
    else
      var rest, page := PagesSeen(items[..|items| - 1]), PageOf(items[|items| - 1].block);
      if page in rest then rest else rest + [page]
  }

  function Self(n: int): int { n }

  function Pages(items: seq<Item>): seq<int> { SortBy(PagesSeen(items), Self) }

  datatype PageGroup = PageGroup(page: int, items: seq<Item>)

  function Tag(page: int, groups: seq<seq<Item>>): seq<PageGroup> {
    seq(|groups|, i requires 0 <= i < |groups| => PageGroup(page, groups[i]))
  }

  function GroupsOfPages(items: seq<Item>, pages: seq<int>, p: Patterns): seq<PageGroup> {
    if pages == [] then []
    else
      GroupsOfPages(items, pages[..|pages| - 1], p)
        + Tag(pages[|pages| - 1], SplitBlockGroups(ReadingOrder(OnPage(items, pages[|pages| - 1]), 0), p))
  }

  /** Page by page in page order, each page in reading order, each group within the bounds. */
  function OcrGroups(doc: Document, p: Patterns): seq<PageGroup> {
    var items := Visible(doc.blocks, |doc.blocks|, p.space);
    GroupsOfPages(items, Pages(items), p)
  }

  function BlockRef(doc: Document, page: int, b: Block): Ref {
    Ref(doc.source, doc.asset, doc.index, Page(page), Some(b.id), Some(b.bbox), None, None, b.confidence)
  }

  function TextRef(doc: Document, r: Range): Ref {
    Ref(doc.source, doc.asset, doc.index, Absent, None, None, Some(r.start), Some(r.end), None)
  }

  /** Aliases 1 to k for the first k items. */
  function References(doc: Document, page: int, items: seq<Item>, k: nat): map<nat, Ref>
    requires k <= |items|
  {
    if k == 0 then map[] else References(doc, page, items, k - 1)[k := BlockRef(doc, page, items[k - 1].block)]
  }

  lemma {:induction false} ReferencesHold(doc: Document, page: int, items: seq<Item>, k: nat)
    requires k <= |items|
    ensures forall n :: n in References(doc, page, items, k) <==> 1 <= n <= k
    ensures forall n :: n in References(doc, page, items, k) ==>
      References(doc, page, items, k)[n] == BlockRef(doc, page, items[n - 1].block)
    decreases k
  {
    hide BlockRef;
    if k > 0 { ReferencesHold(doc, page, items, k - 1); }
  }

  function OcrChunk(doc: Document, g: PageGroup, p: Patterns): Chunk {
    Chunk(doc, Some(g.page),
          seq(|g.items|, i requires 0 <= i < |g.items| => Strip(g.items[i].block.text, p.space)),
          References(doc, g.page, g.items, |g.items|))
  }

  function TextChunk(doc: Document, text: string, r: Range): Chunk
    requires r.start <= r.end <= |text|
  {
    Chunk(doc, None, [text[r.start..r.end]], map[1 := TextRef(doc, r)])
  }

  // ----- every visible block once -----

  function PagesBag(items: seq<Item>, pages: seq<int>): multiset<Item> {
    if pages == [] then multiset{}
    else PagesBag(items, pages[..|pages| - 1]) + multiset(OnPage(items, pages[|pages| - 1]))
  }

  lemma {:induction false} PagesBagEmpty(pages: seq<int>)
    ensures PagesBag([], pages) == multiset{}
  {
    if pages != [] { PagesBagEmpty(pages[..|pages| - 1]); }
  }

  lemma OnPageStep(items: seq<Item>, page: int)
    requires items != []
    ensures var init, last := items[..|items| - 1], items[|items| - 1];
      OnPage(items, page) == OnPage(init, page) + if PageOf(last.block) == page then [last] else []
  {
  }

  lemma {:induction false} PagesBagStep(items: seq<Item>, pages: seq<int>)
    requires items != [] && forall i, j :: 0 <= i < j < |pages| ==> pages[i] != pages[j]
    ensures var init, last := items[..|items| - 1], items[|items| - 1];
      PagesBag(items, pages) == PagesBag(init, pages)
        + if PageOf(last.block) in pages then multiset{last} else multiset{}
  {
    hide OnPage, PageOf;
    if pages != [] {
      PagesBagStep(items, pages[..|pages| - 1]);
      assert pages == pages[..|pages| - 1] + [pages[|pages| - 1]];
      OnPageStep(items, pages[|pages| - 1]);
    }
  }

  /** Pages that cover the items, each once, divide them. */
  lemma {:induction false} PagesDivide(items: seq<Item>, pages: seq<int>)
    requires forall i, j :: 0 <= i < j < |pages| ==> pages[i] != pages[j]
    requires forall x :: x in items ==> PageOf(x.block) in pages
    ensures PagesBag(items, pages) == multiset(items)
  {
    hide PageOf, OnPage;
    if items == [] {
      PagesBagEmpty(pages);
    } else {
      assert items == items[..|items| - 1] + [items[|items| - 1]];
      PagesDivide(items[..|items| - 1], pages);
      PagesBagStep(items, pages);
    }
  }

  lemma {:induction false} PagesSeenFacts(items: seq<Item>)
    ensures var pages := PagesSeen(items);
      && (forall i, j :: 0 <= i < j < |pages| ==> pages[i] != pages[j])
      && (forall x :: x in items ==> PageOf(x.block) in pages)
  {
    hide PageOf;
    if items != [] {
      PagesSeenFacts(items[..|items| - 1]);
      assert items == items[..|items| - 1] + [items[|items| - 1]];
    }
  }

  lemma PagesFacts(items: seq<Item>)
    ensures var pages := Pages(items);
      && (forall i, j :: 0 <= i < j < |pages| ==> pages[i] < pages[j])
      && (forall x :: x in items ==> PageOf(x.block) in pages)
  {
    hide PageOf, SortBy;
    var seen := PagesSeen(items);
    PagesSeenFacts(items);
    assert DistinctKeys(seen, Self);
    SortAscends(seen, Self);
    SortKeepsAll(seen, Self);
    SameMembers(Pages(items), seen);
    forall i, j | 0 <= i < j < |Pages(items)| ensures Pages(items)[i] < Pages(items)[j] {
      assert Self(Pages(items)[i]) < Self(Pages(items)[j]);
    }
  }

  function GroupsBag(groups: seq<PageGroup>): multiset<Item> {
    if groups == [] then multiset{} else GroupsBag(groups[..|groups| - 1]) + multiset(groups[|groups| - 1].items)
  }

  lemma BagAssociates(a: multiset<Item>, b: multiset<Item>, c: multiset<Item>)
    ensures a + b + c == a + (b + c)
  {
  }

  lemma LastGroup(groups: seq<PageGroup>, last: PageGroup)
    ensures GroupsBag(groups + [last]) == GroupsBag(groups) + multiset(last.items)
  {
    assert (groups + [last])[..|groups|] == groups;
  }

  lemma {:induction false} GroupsBagJoin(a: seq<PageGroup>, b: seq<PageGroup>)
    ensures GroupsBag(a + b) == GroupsBag(a) + GroupsBag(b)
  {
    hide GroupsBag;
    if b == [] {
      assert a + b == a;
      NoGroups();
    } else {
      var init, last := b[..|b| - 1], b[|b| - 1];
      GroupsBagJoin(a, init);
      assert a + b == (a + init) + [last] && b == init + [last];
      LastGroup(a + init, last);
      LastGroup(init, last);
      BagAssociates(GroupsBag(a), GroupsBag(init), multiset(last.items));
    }
  }

  lemma NoGroups()
    ensures GroupsBag([]) == multiset{}
  {
  }

  lemma {:induction false} TagKeeps(page: int, groups: seq<seq<Item>>)
    ensures GroupsBag(Tag(page, groups)) == multiset(Concat(groups))
  {
    if groups != [] {
      TagKeeps(page, groups[..|groups| - 1]);
      assert Tag(page, groups)[..|groups| - 1] == Tag(page, groups[..|groups| - 1]);
    }
  }

  /** A group of one page, within the bounds. */
  ghost predicate GoodPageGroup(g: PageGroup, items: seq<Item>) {
    GoodChunk(g.items) && forall x :: x in g.items ==> x in items && PageOf(x.block) == g.page
  }

  lemma {:induction false} OnPageHolds(items: seq<Item>, page: int)
    ensures forall x :: x in OnPage(items, page) <==> x in items && PageOf(x.block) == page
  {
    hide PageOf;
    if items != [] {
      OnPageHolds(items[..|items| - 1], page);
      assert items == items[..|items| - 1] + [items[|items| - 1]];
    }
  }

  lemma {:induction false} PartInConcat(parts: seq<seq<Item>>, i: nat)
    requires i < |parts|
    ensures forall x :: x in parts[i] ==> x in Concat(parts)
  {
    if i < |parts| - 1 {
      PartInConcat(parts[..|parts| - 1], i);
    }
  }

  lemma OnePage(items: seq<Item>, page: int, p: Patterns)
    ensures var groups := Tag(page, SplitBlockGroups(ReadingOrder(OnPage(items, page), 0), p));
      && GroupsBag(groups) == multiset(OnPage(items, page))
      && (forall i :: 0 <= i < |groups| ==> GoodPageGroup(groups[i], items))
  {
    hide SplitBlockGroups, ReadingOrder, OnPage, PageOf, GoodChunk, Concat, GroupsBag;
    var part := OnPage(items, page);
    var ordered := ReadingOrder(part, 0);
    var parts := SplitBlockGroups(ordered, p);
    ReadingOrderKeepsAll(part, 0);
    ChunksAreBounded(ordered, p);
    TagKeeps(page, parts);
    OnPageHolds(items, page);
    SameMembers(ordered, part);
    forall i | 0 <= i < |parts| ensures GoodPageGroup(PageGroup(page, parts[i]), items) {
      PartInConcat(parts, i);
    }
  }

  lemma {:induction false} GroupsOfPagesFacts(items: seq<Item>, pages: seq<int>, p: Patterns)
    ensures GroupsBag(GroupsOfPages(items, pages, p)) == PagesBag(items, pages)
    ensures forall i :: 0 <= i < |GroupsOfPages(items, pages, p)| ==>
      GoodPageGroup(GroupsOfPages(items, pages, p)[i], items)
  {
    hide SplitBlockGroups, ReadingOrder, OnPage, GoodPageGroup, Tag;
    if pages != [] {
      GroupsOfPagesFacts(items, pages[..|pages| - 1], p);
      OnePage(items, pages[|pages| - 1], p);
      GroupsBagJoin(GroupsOfPages(items, pages[..|pages| - 1], p),
                    Tag(pages[|pages| - 1], SplitBlockGroups(ReadingOrder(OnPage(items, pages[|pages| - 1]), 0), p)));
    }
  }

  /** Every visible block of a document is in exactly one chunk, each chunk stays on one page and within
      both bounds, so its aliases run from 1 to at most the 48 the schema enumerates. */
  lemma EveryBlockInOneChunk(doc: Document, p: Patterns)
    ensures var items, groups := Visible(doc.blocks, |doc.blocks|, p.space), OcrGroups(doc, p);
      && GroupsBag(groups) == multiset(items)
      && (forall i :: 0 <= i < |groups| ==>
            && GoodPageGroup(groups[i], items)
            && (forall n :: n in OcrChunk(doc, groups[i], p).references <==> 1 <= n <= |groups[i].items|)
            && |groups[i].items| <= MAX_BLOCKS)
  {
    hide GroupsOfPages, Pages, PageOf, Visible, PagesBag, GroupsBag;
    var items := Visible(doc.blocks, |doc.blocks|, p.space);
    PagesFacts(items);
    GroupsOfPagesFacts(items, Pages(items), p);
    PagesDivide(items, Pages(items));
    var groups := OcrGroups(doc, p);
    forall i | 0 <= i < |groups|
      ensures forall n :: n in OcrChunk(doc, groups[i], p).references <==> 1 <= n <= |groups[i].items|
    {
      ReferencesHold(doc, groups[i].page, groups[i].items, |groups[i].items|);
    }
  }

  lemma {:induction false} VisibleHolds(blocks: seq<Block>, k: nat, space: char -> bool)
    requires k <= |blocks|
    ensures forall i :: 0 <= i < k && Strip(blocks[i].text, space) != "" ==>
      Item(i, blocks[i]) in Visible(blocks, k, space)
    ensures forall x :: x in Visible(blocks, k, space) ==> x.index < k && blocks[x.index] == x.block
  {
    hide Strip;
    if k > 0 {
      VisibleHolds(blocks, k - 1, space);
    }
  }
}
