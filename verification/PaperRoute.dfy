/** The compact route from the model's answers to the merged result: what the
    model must get right, and that nothing else can fail. */
module PaperRoute {
  import opened Wrappers
  import opened PaperLayout
  import opened PaperChunks
  import opened PaperSources
  import opened PaperProvenance
  import opened PaperMerge
  import opened PaperMergeFacts

  /** One chunk's answer, expanded and validated against the chunk's own document. */
  function ParseChunk(raw: RawOutput, chunk: Chunk, number: nat): Option<Output> {
    var expanded := Expand(raw, chunk, number);
    if expanded.Some? && OutputValid(expanded.value, [chunk.document]) then expanded else None
  }

  function ParseChunks(raws: seq<RawOutput>, chunks: seq<Chunk>): Option<seq<Output>>
    requires |raws| == |chunks|
  {
    if raws == [] then Some([])
    else
      var n := |raws| - 1;
      var before, last := ParseChunks(raws[..n], chunks[..n]), ParseChunk(raws[n], chunks[n], n + 1);
      if before.Some? && last.Some? then Some(before.value + [last.value]) else None
  }

  /** Chunk by chunk, then merged and validated against all documents; documents without a chunk are refused. */
  function ParseCompact(raws: seq<RawOutput>, chunks: seq<Chunk>, docs: seq<Document>): Option<Output>
    requires |raws| == |chunks|
  {
    if chunks == [] then None
    else
      match ParseChunks(raws, chunks)
      case None => None
      case Some(parsed) =>
        var merged := MergeChunks(parsed, docs);
        if OutputValid(merged, docs) then Some(merged) else None
  }

  method RunCompact(raws: seq<RawOutput>, chunks: seq<Chunk>, docs: seq<Document>) returns (r: Option<Output>)
    requires |raws| == |chunks|
    ensures r == ParseCompact(raws, chunks, docs)
  {
    hide Expand, OutputValid, MergeChunks;
    if chunks == [] { return None; }
    var parsed: seq<Output> := [];
    for k := 0 to |raws|
      invariant ParseChunks(raws[..k], chunks[..k]) == Some(parsed)
    {
      ParseOneMore(raws, chunks, k);
      var expanded := Expand(raws[k], chunks[k], k + 1);
      var ok := false;
      if expanded.Some? {
        ok := ValidateOutput(expanded.value, [chunks[k].document]);
      }
      if !ok {
        NoChunkIsSkipped(raws, chunks, k + 1, |raws|);
        assert raws[..|raws|] == raws && chunks[..|raws|] == chunks;
        return None;
      }
      parsed := parsed + [expanded.value];
    }
    assert raws[..|raws|] == raws && chunks[..|raws|] == chunks;
    var merged := MergeCompactChunks(parsed, docs);
    var valid := ValidateOutput(merged, docs);
    r := if valid then Some(merged) else None;
  }

  lemma ParseOneMore(raws: seq<RawOutput>, chunks: seq<Chunk>, k: nat)
    requires |raws| == |chunks| && k < |raws|
    ensures var before, last := ParseChunks(raws[..k], chunks[..k]), ParseChunk(raws[k], chunks[k], k + 1);
      ParseChunks(raws[..k + 1], chunks[..k + 1])
        == if before.Some? && last.Some? then Some(before.value + [last.value]) else None
  {
    hide ParseChunk;
    assert raws[..k + 1][..k] == raws[..k] && chunks[..k + 1][..k] == chunks[..k];
  }

  lemma {:induction false} NoChunkIsSkipped(raws: seq<RawOutput>, chunks: seq<Chunk>, k: nat, n: nat)
    requires |raws| == |chunks| && k <= n <= |raws| && ParseChunks(raws[..k], chunks[..k]).None?
    ensures ParseChunks(raws[..n], chunks[..n]).None?
    decreases n
  {
    hide ParseChunk, ParseChunks;
    if k < n {
      NoChunkIsSkipped(raws, chunks, k, n - 1);
      ParseOneMore(raws, chunks, n - 1);
    }
  }

  // ----- what the model must get right -----

  predicate FieldsOk(raws: seq<RawCandidate>) {
    forall i :: 0 <= i < |raws| ==> Fraction(raws[i].confidence) && raws[i].fields
  }

  /** Known aliases for everything, confidences in range, sound fields, and the one source classified once. */
  ghost predicate Answered(raw: RawOutput, chunk: Chunk) {
    && Expandable(raw.questions, chunk) && Expandable(raw.answers, chunk)
    && Expandable(raw.solutions, chunk) && Expandable(raw.rubrics, chunk) && IssuesExpandable(raw.issues, chunk)
    && FieldsOk(raw.questions) && FieldsOk(raw.answers) && FieldsOk(raw.solutions) && FieldsOk(raw.rubrics)
    && |raw.documents| == 1 && raw.documents[0].source == chunk.document.source
    && raw.documents[0].role != Unsupported && Fraction(raw.documents[0].confidence)
  }

  lemma OneSource(doc: Document)
    ensures SourcesOf([doc]) == {doc.source}
  {
    assert [doc][0].source in SourcesOf([doc]);
  }

  lemma ClassifiedOnce(cs: seq<Classified>, doc: Document)
    ensures |cs| == |SourcesOf([doc])| && ClassifiedSources(cs) == SourcesOf([doc])
      <==> |cs| == 1 && cs[0].source == doc.source
  {
    OneSource(doc);
    if |cs| == 1 {
      assert ClassifiedSources(cs) == {cs[0].source};
    }
  }

  lemma DocumentsValidIff(cs: seq<Classified>, doc: Document)
    ensures && |cs| == |SourcesOf([doc])| && ClassifiedSources(cs) == SourcesOf([doc])
        && (forall i :: 0 <= i < |cs| ==> ClassificationValid(cs[i], [doc]))
      <==> && |cs| == 1 && cs[0].source == doc.source && cs[0].role != Unsupported && Fraction(cs[0].confidence)
  {
    hide ClassifiedSources, Fraction;
    ClassifiedOnce(cs, doc);
    OneSource(doc);
  }

  lemma ExpandedFields(raws: seq<RawCandidate>, kind: Kind, chunk: Chunk, number: nat, doc: Document)
    requires Expandable(raws, chunk)
    requires forall c :: c in ExpandAll(raws, kind, chunk, number) ==> c.refs != [] && RefsValid(c.refs, [doc])
    ensures (forall c :: c in ExpandAll(raws, kind, chunk, number) ==> CandidateValid(c, [doc])) <==> FieldsOk(raws)
  {
    hide RefsValid, Fraction, AliasesOk, Hydrated;
    var cs := ExpandAll(raws, kind, chunk, number);
    forall i | 0 <= i < |raws|
      ensures cs[i] in cs && (CandidateValid(cs[i], [doc]) <==> Fraction(raws[i].confidence) && raws[i].fields)
    {
    }
  }

  lemma MembersOfAll(o: Output)
    ensures forall c :: c in AllCandidates(o) <==>
      c in o.questions || c in o.answers || c in o.solutions || c in o.rubrics
  {
  }

  /** An expanded answer passes its own validation exactly when the model kept its side. */
  lemma ExpansionValidIff(raw: RawOutput, chunk: Chunk, number: nat, doc: Document, p: Patterns)
    requires QuotableDocument(doc, p) && ChunkOf(chunk, [doc], 0, p) && chunk.document == doc
    ensures ParseChunk(raw, chunk, number).Some? <==> Answered(raw, chunk)
  {
    hide RefsValid, QuotableDocument, ChunkOf, AliasesOk, Hydrated, DistinctIds, ExpandAll, ExpandIssues,
      CandidateValid, FieldsOk, ClassifiedSources, ClassificationValid, SourcesOf, Fraction, AllCandidates,
      Expandable, IssuesExpandable;
    if Expand(raw, chunk, number).Some? {
      var o := Expand(raw, chunk, number).value;
      ExpansionIsGrounded(raw, chunk, number, [doc], 0, p);
      MembersOfAll(o);
      DocumentsValidIff(raw.documents, doc);
      ExpandAllGrounded(raw.questions, Question, chunk, number, [doc], 0, p);
      ExpandAllGrounded(raw.answers, Answer, chunk, number, [doc], 0, p);
      ExpandAllGrounded(raw.solutions, Solution, chunk, number, [doc], 0, p);
      ExpandAllGrounded(raw.rubrics, Rubric, chunk, number, [doc], 0, p);
      ExpandedFields(raw.questions, Question, chunk, number, doc);
      ExpandedFields(raw.answers, Answer, chunk, number, doc);
      ExpandedFields(raw.solutions, Solution, chunk, number, doc);
      ExpandedFields(raw.rubrics, Rubric, chunk, number, doc);
      AllValidIff(o, doc);
    }
  }

  lemma AllValidIff(o: Output, doc: Document)
    ensures (forall i :: 0 <= i < |AllCandidates(o)| ==> CandidateValid(AllCandidates(o)[i], [doc]))
      <==> forall c :: c in AllCandidates(o) ==> CandidateValid(c, [doc])
  {
    hide CandidateValid, AllCandidates;
  }

  /** No answer in which the model keeps its side is refused for this document. */
  ghost predicate NeverRefused(doc: Document, p: Patterns) {
    forall raw, chunk, number :: ChunkOf(chunk, [doc], 0, p) && chunk.document == doc && Answered(raw, chunk) ==>
      ParseChunk(raw, chunk, number).Some?
  }

  lemma {:induction false} InSomeGroup(groups: seq<PageGroup>, x: Item) returns (i: nat, n: nat)
    requires x in GroupsBag(groups)
    ensures i < |groups| && n < |groups[i].items| && groups[i].items[n] == x
  {
    var last := |groups| - 1;
    if x in groups[last].items {
      i := last;
      n :| 0 <= n < |groups[last].items| && groups[last].items[n] == x;
    } else {
      i, n := InSomeGroup(groups[..last], x);
    }
  }

  /** An answer that cites one alias. */
  function Citing(source: string, alias: nat): RawOutput {
    RawOutput([Classified(source, Questions, Some(1.0))], [RawCandidate(Some(1.0), [alias], true)], [], [], [], [])
  }

  lemma CitingIsAnswered(chunk: Chunk, alias: nat)
    requires alias in chunk.references
    ensures Answered(Citing(chunk.document.source, alias), chunk)
  {
  }

  lemma CitingNeedsRef(chunk: Chunk, alias: nat, number: nat)
    requires alias in chunk.references
    ensures ParseChunk(Citing(chunk.document.source, alias), chunk, number).Some? ==>
      RefValid(chunk.references[alias], [chunk.document])
  {
    hide RefValid, SourcesOf, ClassifiedSources, DistinctIds, Fraction;
    var raw := Citing(chunk.document.source, alias);
    if ParseChunk(raw, chunk, number).Some? {
      var o := ParseChunk(raw, chunk, number).value;
      assert o.questions[0].refs == [chunk.references[alias]];
      assert AllCandidates(o)[0] == o.questions[0];
      assert RefsValid(o.questions[0].refs, [chunk.document]);
      assert o.questions[0].refs[0] == chunk.references[alias];
    }
  }

  lemma UnquotableIsRefused(doc: Document, p: Patterns, x: Item)
    requires x in Visible(doc.blocks, |doc.blocks|, p.space) && !Quotable(doc, x.block)
    ensures !NeverRefused(doc, p)
  {
    hide Quotable, RefValid, OcrGroups, Visible, Answered, ParseChunk, GroupsBag;
    EveryBlockInOneChunk(doc, p);
    var groups := OcrGroups(doc, p);
    assert x in multiset(Visible(doc.blocks, |doc.blocks|, p.space));
    var i, n := InSomeGroup(groups, x);
    var chunk := OcrChunk(doc, groups[i], p);
    NoneVisible(p.space);
    assert groups[i] in groups && n + 1 in chunk.references;
    OcrChunkRefs([doc], 0, p, groups[i], n + 1);
    CitingIsAnswered(chunk, n + 1);
    CitingNeedsRef(chunk, n + 1, 1);
  }

  lemma NoneVisible(space: char -> bool)
    ensures Visible([], 0, space) == []
  {
  }

  /** A document never spoils a good answer exactly when every block it shows can be quoted. */
  lemma NeverRefusedIffQuotable(doc: Document, p: Patterns)
    ensures NeverRefused(doc, p) <==> QuotableDocument(doc, p)
  {
    hide Quotable, Answered, ParseChunk, ChunkOf, Visible;
    if QuotableDocument(doc, p) {
      forall raw, chunk, number | ChunkOf(chunk, [doc], 0, p) && chunk.document == doc && Answered(raw, chunk)
        ensures ParseChunk(raw, chunk, number).Some?
      {
        ExpansionValidIff(raw, chunk, number, doc, p);
      }
    } else {
      var x :| x in Visible(doc.blocks, |doc.blocks|, p.space) && !Quotable(doc, x.block);
      UnquotableIsRefused(doc, p, x);
    }
  }

  // ----- the whole route -----

  /** Chunks built for these documents. */
  ghost predicate Built(chunks: seq<Chunk>, docs: seq<Document>, p: Patterns) {
    forall k :: 0 <= k < |chunks| ==> BuiltFor(chunks[k], docs, p)
  }

  ghost predicate BuiltFor(chunk: Chunk, docs: seq<Document>, p: Patterns) {
    chunk.document in docs && QuotableDocument(chunk.document, p) && ChunkOf(chunk, [chunk.document], 0, p)
  }

  function Owner(docs: seq<Document>, doc: Document): (d: nat)
    requires doc in docs
    ensures d < |docs| && docs[d] == doc
  {
    if docs[0] == doc then 0 else 1 + Owner(docs[1..], doc)
  }

  lemma {:induction false} ChunksParsed(raws: seq<RawOutput>, chunks: seq<Chunk>, docs: seq<Document>, p: Patterns)
    requires |raws| == |chunks| && Built(chunks, docs, p)
    ensures ParseChunks(raws, chunks).Some? <==> forall k :: 0 <= k < |raws| ==> Answered(raws[k], chunks[k])
    ensures ParseChunks(raws, chunks).Some? ==>
      var parsed := ParseChunks(raws, chunks).value;
      && |parsed| == |raws|
      && forall k :: 0 <= k < |raws| ==> ParseChunk(raws[k], chunks[k], k + 1) == Some(parsed[k])
  {
    hide ParseChunk, Answered, BuiltFor;
    if raws != [] {
      var n := |raws| - 1;
      ChunksParsed(raws[..n], chunks[..n], docs, p);
      LastAnswered(raws[n], chunks[n], n + 1, docs, p);
    }
  }

  lemma LastAnswered(raw: RawOutput, chunk: Chunk, number: nat, docs: seq<Document>, p: Patterns)
    requires BuiltFor(chunk, docs, p)
    ensures ParseChunk(raw, chunk, number).Some? <==> Answered(raw, chunk)
  {
    hide Answered, ParseChunk, QuotableDocument, ChunkOf;
    ExpansionValidIff(raw, chunk, number, chunk.document, p);
  }

  lemma ParsedChunkFacts(raw: RawOutput, chunk: Chunk, number: nat, o: Output)
    requires ParseChunk(raw, chunk, number) == Some(o)
    ensures Expand(raw, chunk, number) == Some(o) && OutputValid(o, [chunk.document])
  {
    hide Expand, OutputValid;
  }

  /** The compact route succeeds exactly when there is a chunk and the model keeps its side for every one;
      expansion, merging and the final validation never fail on their own, and the result is valid for all
      documents. */
  lemma RouteSucceedsIff(raws: seq<RawOutput>, chunks: seq<Chunk>, docs: seq<Document>, p: Patterns)
    requires |raws| == |chunks| && DistinctSources(docs) && Built(chunks, docs, p)
    ensures ParseCompact(raws, chunks, docs).Some? <==>
      chunks != [] && forall k :: 0 <= k < |raws| ==> Answered(raws[k], chunks[k])
    ensures ParseCompact(raws, chunks, docs).Some? ==> OutputValid(ParseCompact(raws, chunks, docs).value, docs)
  {
    hide ParseChunks, ParseChunk, Answered, BuiltFor, DistinctSources, OutputValid, MergeChunks,
      Expand, NumberedOutputs;
    ChunksParsed(raws, chunks, docs, p);
    if ParseChunks(raws, chunks).Some? {
      var parsed := ParseChunks(raws, chunks).value;
      forall k | 0 <= k < |raws| ensures chunks[k].document in docs { DocumentKnown(chunks[k], docs, p); }
      var owner := seq(|raws|, k requires 0 <= k < |raws| => Owner(docs, chunks[k].document));
      forall k | 0 <= k < |raws|
        ensures Expand(raws[k], chunks[k], k + 1) == Some(parsed[k]) && OutputValid(parsed[k], [docs[owner[k]]])
      {
        ParsedChunkFacts(raws[k], chunks[k], k + 1, parsed[k]);
      }
      ExpandedOutputsAreNumbered(raws, chunks, parsed);
      MergedOutputIsValid(parsed, docs, owner);
    }
  }

  lemma DocumentKnown(chunk: Chunk, docs: seq<Document>, p: Patterns)
    requires BuiltFor(chunk, docs, p)
    ensures chunk.document in docs
  {
  }
}
