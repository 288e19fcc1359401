/** Validating references against their documents, hydrating aliases into
    references, and which documents let every hydrated reference pass. */
module PaperProvenance {
  import opened Wrappers
  import opened PaperLayout
  import opened PaperChunks
  import opened PaperChunkFacts
  import opened PaperText
  import opened PaperSources

  // ----- validating references -----

  function FindDocument(docs: seq<Document>, source: string): Option<Document> {
    if docs == [] then None
    else if docs[|docs| - 1].source == source then Some(docs[|docs| - 1])
    else FindDocument(docs[..|docs| - 1], source)
  }

  /** The first block with this identifier. */
  function FirstBlock(blocks: seq<Block>, id: string): Option<Block> {
    if blocks == [] then None
    else if blocks[0].id == id then Some(blocks[0])
    else FirstBlock(blocks[1..], id)
  }

  /** Numbers are equal by value, whatever their type. */
  predicate SamePage(a: PageField, b: PageField) {
    match (a, b)
    case (Page(n), Page(m)) => n == m
    case (Page(n), Valued(v)) => n as real == v
    case (Valued(v), Page(n)) => n as real == v
    case (Valued(v), Valued(w)) => v == w
    case (Other(s, _), Other(t, _)) => s == t
    case (Absent, Absent) => true
    case _ => false
  }

  predicate OcrRefValid(r: Ref, doc: Document) {
    && r.block.Some? && FirstBlock(doc.blocks, r.block.value).Some?
    && var matched := FirstBlock(doc.blocks, r.block.value).value;
       && SamePage(r.page, matched.page) && r.bbox == Some(matched.bbox)
       && r.confidence.Some? && r.confidence == matched.confidence
       && r.start.None? && r.end.None?
  }

  predicate TextRefValid(r: Ref, doc: Document) {
    && r.page.Absent? && r.block.None? && r.bbox.None? && r.confidence.None?
    && r.start.Some? && r.end.Some?
    && 0 <= r.start.value < r.end.value <= |doc.content|
  }

  predicate RefValid(r: Ref, docs: seq<Document>) {
    var doc := FindDocument(docs, r.source);
    && doc.Some? && r.asset == doc.value.asset && r.index == doc.value.index
    && if doc.value.blocks != [] then OcrRefValid(r, doc.value) else TextRefValid(r, doc.value)
  }

  predicate RefsValid(refs: seq<Ref>, docs: seq<Document>) {
    forall i :: 0 <= i < |refs| ==> RefValid(refs[i], docs)
  }

  datatype Refusal = NotGrounded | SourceMismatch | BlockMismatch | ConfidenceInvalid | RangeInvalid

  /** The checks in the program's order, one reference at a time. */
  method ValidateRefs(refs: seq<Ref>, docs: seq<Document>) returns (refusal: Option<Refusal>)
    ensures refusal.None? <==> RefsValid(refs, docs)
  {
    hide FindDocument, FirstBlock;
    for i := 0 to |refs|
      invariant RefsValid(refs[..i], docs)
    {
      var r := refs[i];
      var found := FindDocument(docs, r.source);
      if found.None? { return Some(NotGrounded); }
      var doc := found.value;
      if r.asset != doc.asset || r.index != doc.index { return Some(SourceMismatch); }
      if doc.blocks != [] {
        var matched := if r.block.Some? then FirstBlock(doc.blocks, r.block.value) else None;
        if matched.None? || !SamePage(r.page, matched.value.page) || r.bbox != Some(matched.value.bbox) {
          return Some(BlockMismatch);
        }
        if r.confidence.None? || matched.value.confidence != r.confidence || r.start.Some? || r.end.Some? {
          return Some(ConfidenceInvalid);
        }
      } else {
        if !r.page.Absent? || r.block.Some? || r.bbox.Some? || r.confidence.Some? || r.start.None? || r.end.None?
           || r.start.value < 0 || r.end.value <= r.start.value || r.end.value > |doc.content| {
          return Some(RangeInvalid);
        }
      }
      assert RefValid(refs[i], docs);
    }
    assert refs[..|refs|] == refs;
    refusal := None;
  }

  // ----- hydration -----

  predicate Repeats(aliases: seq<nat>, k: nat)
    requires k < |aliases|
  {
    exists i :: 0 <= i < k && aliases[i] == aliases[k]
  }

  predicate AliasesOk(aliases: seq<nat>, chunk: Chunk) {
    && aliases != []
    && forall k :: 0 <= k < |aliases| ==> !Repeats(aliases, k) && aliases[k] in chunk.references
  }

  function Hydrated(aliases: seq<nat>, chunk: Chunk): seq<Ref>
    requires AliasesOk(aliases, chunk)
  {
    seq(|aliases|, k requires 0 <= k < |aliases| => chunk.references[aliases[k]])
  }

  method HydrateRefs(aliases: seq<nat>, chunk: Chunk) returns (refs: Option<seq<Ref>>)
    ensures refs.Some? <==> AliasesOk(aliases, chunk)
    ensures refs.Some? ==> refs.value == Hydrated(aliases, chunk)
  {
    if aliases == [] { return None; }
    var found: seq<Ref>, seen: set<nat> := [], {};
    for k := 0 to |aliases|
      invariant seen == set i | 0 <= i < k :: aliases[i]
      invariant forall i :: 0 <= i < k ==> !Repeats(aliases, i) && aliases[i] in chunk.references
      invariant |found| == k && forall i :: 0 <= i < k ==> found[i] == chunk.references[aliases[i]]
    {
      if aliases[k] in seen || aliases[k] !in chunk.references {
        return None;
      }
      seen := seen + {aliases[k]};
      found := found + [chunk.references[aliases[k]]];
    }
    refs := Some(found);
  }

  // ----- what hydration produces passes validation -----

  ghost predicate DistinctSources(docs: seq<Document>) {
    forall i, j :: 0 <= i < j < |docs| ==> docs[i].source != docs[j].source
  }

  lemma {:induction false} FindDocumentHit(docs: seq<Document>, k: nat)
    requires DistinctSources(docs) && k < |docs|
    ensures FindDocument(docs, docs[k].source) == Some(docs[k])
  {
    if k < |docs| - 1 {
      FindDocumentHit(docs[..|docs| - 1], k);
    }
  }

  /** A block reference of a chunk is accepted exactly when the first block with its identifier has a page
      equal to that number, the same box, and a finite confidence equal to the block's own. */
  lemma BlockRefValidIff(docs: seq<Document>, d: nat, page: int, b: Block)
    requires DistinctSources(docs) && d < |docs| && b in docs[d].blocks
    ensures RefValid(BlockRef(docs[d], page, b), docs) <==>
      var first := FirstBlock(docs[d].blocks, b.id);
      && first.Some? && SamePage(Page(page), first.value.page) && first.value.bbox == b.bbox
      && b.confidence.Some? && first.value.confidence == b.confidence
  {
    hide FindDocument, FirstBlock;
    FindDocumentHit(docs, d);
  }

  /** The page survives conversion: an integer, or a float or boolean with an integer value. */
  predicate WholePage(page: PageField) {
    page.Page? || (page.Valued? && Truncated(page.value) as real == page.value)
  }

  lemma WholePageConverts(b: Block)
    ensures SamePage(Page(PageOf(b)), b.page) <==> WholePage(b.page)
  {
    hide Truncated;
  }

  /** Block identifiers are unique, pages are whole numbers and confidences finite. */
  ghost predicate Normalized(doc: Document) {
    && (forall i, j :: 0 <= i < j < |doc.blocks| ==> doc.blocks[i].id != doc.blocks[j].id)
    && (forall i :: 0 <= i < |doc.blocks| ==> WholePage(doc.blocks[i].page) && doc.blocks[i].confidence.Some?)
  }

  lemma {:induction false} FirstBlockHit(blocks: seq<Block>, k: nat)
    requires k < |blocks| && forall i, j :: 0 <= i < j < |blocks| ==> blocks[i].id != blocks[j].id
    ensures FirstBlock(blocks, blocks[k].id) == Some(blocks[k])
  {
    if k > 0 {
      FirstBlockHit(blocks[1..], k - 1);
    }
  }

  /** The first block with the same identifier has the block's converted page, box and finite confidence. */
  predicate Quotable(doc: Document, b: Block) {
    var first := FirstBlock(doc.blocks, b.id);
    && first.Some? && SamePage(Page(PageOf(b)), first.value.page) && first.value.bbox == b.bbox
    && b.confidence.Some? && first.value.confidence == b.confidence
  }

  /** Every block that goes into a chunk can be quoted; plain text always can. */
  ghost predicate QuotableDocument(doc: Document, p: Patterns) {
    forall x :: x in Visible(doc.blocks, |doc.blocks|, p.space) ==> Quotable(doc, x.block)
  }

  /** Unique identifiers, whole pages and finite confidences are enough. */
  lemma NormalizedIsQuotable(doc: Document, p: Patterns)
    requires Normalized(doc)
    ensures QuotableDocument(doc, p)
  {
    hide FirstBlock, Visible, SamePage, PageOf;
    VisibleHolds(doc.blocks, |doc.blocks|, p.space);
    forall x | x in Visible(doc.blocks, |doc.blocks|, p.space) ensures Quotable(doc, x.block) {
      FirstBlockHit(doc.blocks, x.index);
      WholePageConverts(x.block);
    }
  }

  lemma QuotableBlockRef(docs: seq<Document>, d: nat, b: Block)
    requires DistinctSources(docs) && d < |docs| && b in docs[d].blocks
    ensures RefValid(BlockRef(docs[d], PageOf(b), b), docs) <==> Quotable(docs[d], b)
  {
    hide FindDocument, FirstBlock, DistinctSources, RefValid, BlockRef, SamePage, PageOf;
    BlockRefValidIff(docs, d, PageOf(b), b);
  }

  /** A chunk the program builds for one of the documents. */
  ghost predicate ChunkOf(chunk: Chunk, docs: seq<Document>, d: nat, p: Patterns)
    requires d < |docs|
  {
    if docs[d].blocks != [] then
      exists g :: g in OcrGroups(docs[d], p) && chunk == OcrChunk(docs[d], g, p)
    else
      exists r :: r in Ranges(Strip(docs[d].content, p.space), 0) && IsTextChunk(chunk, docs[d], r, p)
  }

  ghost predicate IsTextChunk(chunk: Chunk, doc: Document, r: Range, p: Patterns) {
    var text := Strip(doc.content, p.space);
    r.start < r.end <= |text| && chunk == TextChunk(doc, text, r)
  }

  /** An alias of a chunk leads to a valid reference exactly when its block can be quoted. */
  lemma OcrChunkRefs(docs: seq<Document>, d: nat, p: Patterns, g: PageGroup, n: nat)
    requires DistinctSources(docs) && d < |docs|
    requires g in OcrGroups(docs[d], p) && n in OcrChunk(docs[d], g, p).references
    ensures 1 <= n <= |g.items| && g.items[n - 1] in Visible(docs[d].blocks, |docs[d].blocks|, p.space)
    ensures RefValid(OcrChunk(docs[d], g, p).references[n], docs) <==> Quotable(docs[d], g.items[n - 1].block)
  {
    hide OcrGroups, Visible, BlockRef, RefValid, Quotable, References, GoodChunk, Strip, GroupsBag;
    EveryBlockInOneChunk(docs[d], p);
    var i :| 0 <= i < |OcrGroups(docs[d], p)| && OcrGroups(docs[d], p)[i] == g;
    ReferencesHold(docs[d], g.page, g.items, |g.items|);
    var item := g.items[n - 1];
    assert item in g.items;
    VisibleHolds(docs[d].blocks, |docs[d].blocks|, p.space);
    assert item.block in docs[d].blocks;
    QuotableBlockRef(docs, d, item.block);
  }

  lemma StripShortens(text: string, space: char -> bool)
    ensures |Strip(text, space)| <= |text|
  {
    StripLeftIsSuffix(text, space);
    StripRightIsPrefix(StripLeft(text, space), space);
  }

  lemma TextChunkRefs(docs: seq<Document>, d: nat, p: Patterns, chunk: Chunk, r: Range, n: nat)
    requires DistinctSources(docs) && d < |docs| && docs[d].blocks == []
    requires IsTextChunk(chunk, docs[d], r, p) && n in chunk.references
    ensures RefValid(chunk.references[n], docs)
  {
    hide FindDocument, Strip;
    StripShortens(docs[d].content, p.space);
    FindDocumentHit(docs, d);
  }

  /** Provenance round trip: whatever aliases a model names from a chunk, the hydrated references pass
      validation against the documents the chunk was cut from. */
  lemma HydrationRoundTrip(docs: seq<Document>, d: nat, p: Patterns, chunk: Chunk, aliases: seq<nat>)
    requires DistinctSources(docs) && d < |docs| && QuotableDocument(docs[d], p) && ChunkOf(chunk, docs, d, p)
    requires AliasesOk(aliases, chunk)
    ensures RefsValid(Hydrated(aliases, chunk), docs)
  {
    hide RefValid, OcrGroups, Ranges, OcrChunk, Strip, IsTextChunk, Quotable, DistinctSources, Visible;
    forall k | 0 <= k < |aliases| ensures RefValid(chunk.references[aliases[k]], docs) {
      if docs[d].blocks != [] {
        var g :| g in OcrGroups(docs[d], p) && chunk == OcrChunk(docs[d], g, p);
        OcrChunkRefs(docs, d, p, g, aliases[k]);
      } else {
        var r :| r in Ranges(Strip(docs[d].content, p.space), 0) && IsTextChunk(chunk, docs[d], r, p);
        TextChunkRefs(docs, d, p, chunk, r, aliases[k]);
      }
    }
  }
}
