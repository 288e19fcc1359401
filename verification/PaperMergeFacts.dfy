/** Expansion always yields grounded candidates, and merging chunks that each
    pass validation yields a result that passes it too. */
module PaperMergeFacts {
  import opened Wrappers
  import opened PaperChunks
  import opened PaperSources
  import opened PaperProvenance
  import opened PaperMerge

  // ----- expansion -----

  /** Every candidate has references and all of them are valid. */
  ghost predicate Provenance(o: Output, docs: seq<Document>) {
    && (forall c :: c in AllCandidates(o) ==> c.refs != [] && RefsValid(c.refs, docs))
    && (forall i :: 0 <= i < |o.issues| ==> RefsValid(o.issues[i], docs))
  }

  lemma ExpandAllGrounded(raws: seq<RawCandidate>, kind: Kind, chunk: Chunk, number: nat, docs: seq<Document>, d: nat,
      p: Patterns)
    requires DistinctSources(docs) && d < |docs| && QuotableDocument(docs[d], p) && ChunkOf(chunk, docs, d, p)
    requires Expandable(raws, chunk)
    ensures forall c :: c in ExpandAll(raws, kind, chunk, number) ==> c.refs != [] && RefsValid(c.refs, docs)
  {
    hide RefsValid, QuotableDocument, ChunkOf, DistinctSources, AliasesOk;
    forall i | 0 <= i < |raws|
      ensures ExpandAll(raws, kind, chunk, number)[i].refs != []
      ensures RefsValid(ExpandAll(raws, kind, chunk, number)[i].refs, docs)
    {
      HydratedNotEmpty(raws[i].aliases, chunk);
      HydrationRoundTrip(docs, d, p, chunk, raws[i].aliases);
    }
  }

  lemma HydratedNotEmpty(aliases: seq<nat>, chunk: Chunk)
    requires AliasesOk(aliases, chunk)
    ensures Hydrated(aliases, chunk) != []
  {
  }

  /** Whatever the model answers for a chunk, an expansion that succeeds is fully grounded. */
  lemma ExpansionIsGrounded(raw: RawOutput, chunk: Chunk, number: nat, docs: seq<Document>, d: nat, p: Patterns)
    requires DistinctSources(docs) && d < |docs| && QuotableDocument(docs[d], p) && ChunkOf(chunk, docs, d, p)
    requires Expand(raw, chunk, number).Some?
    ensures Provenance(Expand(raw, chunk, number).value, docs)
    ensures DistinctIds(AllCandidates(Expand(raw, chunk, number).value))
  {
    hide RefsValid, QuotableDocument, ChunkOf, DistinctSources, AliasesOk, Hydrated;
    var o := Expand(raw, chunk, number).value;
    ExpandAllGrounded(raw.questions, Question, chunk, number, docs, d, p);
    ExpandAllGrounded(raw.answers, Answer, chunk, number, docs, d, p);
    ExpandAllGrounded(raw.solutions, Solution, chunk, number, docs, d, p);
    ExpandAllGrounded(raw.rubrics, Rubric, chunk, number, docs, d, p);
    forall i | 0 <= i < |o.issues| ensures RefsValid(o.issues[i], docs) {
      if raw.issues[i] == [] {
        NoRefsValid(docs);
      } else {
        HydrationRoundTrip(docs, d, p, chunk, raw.issues[i]);
      }
    }
    hide ExpandAll;
    ExpandedNumbers(raw, chunk, number);
    FourKinds(o.questions, o.answers, o.solutions, o.rubrics);
  }

  lemma NoRefsValid(docs: seq<Document>)
    ensures RefsValid([], docs)
  {
  }

  /** All identifiers are of this kind and of a chunk up to n, and no two are equal. */
  ghost predicate NumberedUpTo(cs: seq<Candidate>, kind: Kind, n: nat) {
    && (forall i :: 0 <= i < |cs| ==> cs[i].id.Numbered? && cs[i].id.kind == kind && cs[i].id.chunk <= n)
    && DistinctIds(cs)
  }

  lemma ExpandedNumbers(raw: RawOutput, chunk: Chunk, number: nat)
    requires Expand(raw, chunk, number).Some?
    ensures var o := Expand(raw, chunk, number).value;
      && NumberedUpTo(o.questions, Question, number) && NumberedUpTo(o.answers, Answer, number)
      && NumberedUpTo(o.solutions, Solution, number) && NumberedUpTo(o.rubrics, Rubric, number)
  {
    hide AliasesOk, Hydrated;
  }

  lemma FourKinds(q: seq<Candidate>, a: seq<Candidate>, s: seq<Candidate>, r: seq<Candidate>)
    requires exists n :: NumberedUpTo(q, Question, n)
    requires exists n :: NumberedUpTo(a, Answer, n)
    requires exists n :: NumberedUpTo(s, Solution, n)
    requires exists n :: NumberedUpTo(r, Rubric, n)
    ensures DistinctIds(q + a + s + r)
  {
    var all := q + a + s + r;
    forall i, j | 0 <= i < j < |all| ensures all[i].id != all[j].id {
      At(q, a, s, r, i);
      At(q, a, s, r, j);
    }
  }

  /** Where position i of the four lists put together comes from. */
  lemma At(q: seq<Candidate>, a: seq<Candidate>, s: seq<Candidate>, r: seq<Candidate>, i: nat)
    requires i < |q| + |a| + |s| + |r|
    ensures (q + a + s + r)[i] ==
      if i < |q| then q[i]
      else if i < |q| + |a| then a[i - |q|]
      else if i < |q| + |a| + |s| then s[i - |q| - |a|]
      else r[i - |q| - |a| - |s|]
  {
  }

  // ----- collecting candidates -----

  /** Output number k expanded chunk k. */
  ghost predicate NumberedOutputs(parsed: seq<Output>) {
    forall k, kind :: 0 <= k < |parsed| ==> NumberedExactly(OfKind(parsed[k], kind), kind, k + 1)
  }

  ghost predicate NumberedExactly(cs: seq<Candidate>, kind: Kind, n: nat) {
    && (forall i :: 0 <= i < |cs| ==> cs[i].id.Numbered? && cs[i].id.kind == kind && cs[i].id.chunk == n)
    && DistinctIds(cs)
  }

  lemma {:induction false} CollectNumbers(parsed: seq<Output>, kind: Kind)
    requires NumberedOutputs(parsed)
    ensures NumberedUpTo(Collect(parsed, kind), kind, |parsed|)
  {
    hide OfKind;
    if parsed != [] {
      var init, last := parsed[..|parsed| - 1], OfKind(parsed[|parsed| - 1], kind);
      forall k, other | 0 <= k < |init| ensures NumberedExactly(OfKind(init[k], other), other, k + 1) {
        assert NumberedExactly(OfKind(parsed[k], other), other, k + 1);
      }
      CollectNumbers(init, kind);
      assert NumberedExactly(OfKind(parsed[|parsed| - 1], kind), kind, |init| + 1);
    }
  }

  lemma {:induction false} CollectedFrom(parsed: seq<Output>, kind: Kind, c: Candidate)
    ensures c in Collect(parsed, kind) <==> exists k :: 0 <= k < |parsed| && c in OfKind(parsed[k], kind)
  {
    hide OfKind;
    if parsed != [] {
      CollectedFrom(parsed[..|parsed| - 1], kind, c);
      if exists k :: 0 <= k < |parsed| && c in OfKind(parsed[k], kind) {
        var k :| 0 <= k < |parsed| && c in OfKind(parsed[k], kind);
        assert k < |parsed| - 1 ==> c in OfKind(parsed[..|parsed| - 1][k], kind);
      }
    }
  }

  lemma {:induction false} IssuesFrom(parsed: seq<Output>, issue: seq<Ref>)
    requires issue in CollectIssues(parsed)
    ensures exists k :: 0 <= k < |parsed| && issue in parsed[k].issues
  {
    if issue in parsed[|parsed| - 1].issues {
    } else {
      IssuesFrom(parsed[..|parsed| - 1], issue);
      var k :| 0 <= k < |parsed| - 1 && issue in parsed[..|parsed| - 1][k].issues;
      assert issue in parsed[k].issues;
    }
  }

  // ----- from one document to all -----

  lemma RefValidInAll(r: Ref, docs: seq<Document>, d: nat)
    requires DistinctSources(docs) && d < |docs| && RefValid(r, [docs[d]])
    ensures RefValid(r, docs)
  {
    hide OcrRefValid, TextRefValid, FindDocument, DistinctSources;
    OneDocument(docs[d], r.source);
    FindDocumentHit(docs, d);
  }

  lemma OneDocument(doc: Document, source: string)
    ensures FindDocument([doc], source) == if doc.source == source then Some(doc) else None
  {
    assert [doc][..0] == [];
  }

  lemma RefsValidInAll(refs: seq<Ref>, docs: seq<Document>, d: nat)
    requires DistinctSources(docs) && d < |docs| && RefsValid(refs, [docs[d]])
    ensures RefsValid(refs, docs)
  {
    hide RefValid, DistinctSources;
    forall i | 0 <= i < |refs| ensures RefValid(refs[i], docs) {
      RefValidInAll(refs[i], docs, d);
    }
  }

  lemma CandidateValidInAll(c: Candidate, docs: seq<Document>, d: nat)
    requires DistinctSources(docs) && d < |docs| && CandidateValid(c, [docs[d]])
    ensures CandidateValid(c, docs)
  {
    hide RefsValid, DistinctSources;
    RefsValidInAll(c.refs, docs, d);
  }

  // ----- merged classifications -----

  lemma {:induction false} SourceCount(docs: seq<Document>)
    requires DistinctSources(docs)
    ensures |SourcesOf(docs)| == |docs|
  {
    if docs != [] {
      var init, last := docs[..|docs| - 1], docs[|docs| - 1];
      SourceCount(init);
      assert SourcesOf(docs) == SourcesOf(init) + {last.source};
      assert last.source !in SourcesOf(init);
    }
  }

  lemma {:induction false} ObservedValid(parsed: seq<Output>, source: string)
    requires forall k, i :: 0 <= k < |parsed| && 0 <= i < |parsed[k].documents| ==>
      Fraction(parsed[k].documents[i].confidence) && parsed[k].documents[i].role != Unsupported
    ensures forall i :: 0 <= i < |Observed(parsed, source)| ==>
      Fraction(Observed(parsed, source)[i].confidence) && Observed(parsed, source)[i].role != Unsupported
  {
    hide Fraction, OfSource;
    if parsed != [] {
      var init, last := parsed[..|parsed| - 1], parsed[|parsed| - 1].documents;
      forall k, i | 0 <= k < |init| && 0 <= i < |init[k].documents|
        ensures Fraction(init[k].documents[i].confidence) && init[k].documents[i].role != Unsupported
      {
        assert init[k] == parsed[k];
      }
      ObservedValid(init, source);
      OfSourceFrom(last, source);
      forall i | 0 <= i < |OfSource(last, source)|
        ensures Fraction(OfSource(last, source)[i].confidence) && OfSource(last, source)[i].role != Unsupported
      {
        assert OfSource(last, source)[i] in last;
        var j :| 0 <= j < |last| && last[j] == OfSource(last, source)[i];
      }
    }
  }

  lemma {:induction false} OfSourceFrom(cs: seq<Classified>, source: string)
    ensures forall i :: 0 <= i < |OfSource(cs, source)| ==> OfSource(cs, source)[i] in cs
  {
    if cs != [] {
      OfSourceFrom(cs[..|cs| - 1], source);
      forall i | 0 <= i < |OfSource(cs, source)| ensures OfSource(cs, source)[i] in cs {
        if i < |OfSource(cs[..|cs| - 1], source)| {
          assert OfSource(cs[..|cs| - 1], source)[i] in cs[..|cs| - 1];
        }
      }
    }
  }

  lemma {:induction false} ConfidenceInRange(cs: seq<Classified>, role: Role, known: set<Role>)
    requires forall i :: 0 <= i < |cs| ==> Fraction(cs[i].confidence)
    ensures MergedConfidence(cs, role, known).Some? ==> Fraction(MergedConfidence(cs, role, known))
  {
    if cs != [] { ConfidenceInRange(cs[..|cs| - 1], role, known); }
  }

  /** One of the confidences that support a role. */
  ghost predicate Supporting(cs: seq<Classified>, role: Role, known: set<Role>, confidence: real) {
    exists i :: 0 <= i < |cs| && Supports(cs[i], role, known) && cs[i].confidence == Some(confidence)
  }

  /** The merged confidence is the highest of the supporting ones, and missing exactly when there is none. */
  lemma {:induction false} MergedConfidenceIsHighest(cs: seq<Classified>, role: Role, known: set<Role>)
    ensures MergedConfidence(cs, role, known).None? <==> forall v :: !Supporting(cs, role, known, v)
    ensures MergedConfidence(cs, role, known).Some? ==>
      var best := MergedConfidence(cs, role, known).value;
      Supporting(cs, role, known, best) && forall v :: Supporting(cs, role, known, v) ==> v <= best
  {
    hide Supports, Supporting;
    if cs == [] {
      NothingSupports(role, known);
    } else {
      MergedConfidenceIsHighest(cs[..|cs| - 1], role, known);
      OneMoreSupporting(cs, role, known);
    }
  }

  lemma NothingSupports(role: Role, known: set<Role>)
    ensures forall v :: !Supporting([], role, known, v)
  {
  }

  lemma OneMoreSupporting(cs: seq<Classified>, role: Role, known: set<Role>)
    requires cs != []
    ensures var last := cs[|cs| - 1];
      forall v :: Supporting(cs, role, known, v)
        <==> Supporting(cs[..|cs| - 1], role, known, v) || (Supports(last, role, known) && last.confidence == Some(v))
  {
    hide Supports;
    var init := cs[..|cs| - 1];
    forall v | Supporting(init, role, known, v) ensures Supporting(cs, role, known, v) {
      var i :| 0 <= i < |init| && Supports(init[i], role, known) && init[i].confidence == Some(v);
      assert cs[i] == init[i];
    }
    forall v | Supporting(cs, role, known, v)
      ensures Supporting(init, role, known, v)
        || (Supports(cs[|cs| - 1], role, known) && cs[|cs| - 1].confidence == Some(v))
    {
      var i :| 0 <= i < |cs| && Supports(cs[i], role, known) && cs[i].confidence == Some(v);
      if i < |init| { assert init[i] == cs[i]; }
    }
  }

  lemma {:induction false} FirstKnownFrom(cs: seq<Classified>)
    ensures FirstKnown(cs) == Unknown <==> forall i :: 0 <= i < |cs| ==> cs[i].role == Unknown
    ensures FirstKnown(cs) != Unknown ==> exists i :: 0 <= i < |cs| && cs[i].role == FirstKnown(cs)
  {
    if cs != [] {
      FirstKnownFrom(cs[1..]);
      if cs[0].role == Unknown && FirstKnown(cs[1..]) != Unknown {
        var i :| 0 <= i < |cs[1..]| && cs[1..][i].role == FirstKnown(cs[1..]);
        assert cs[i + 1].role == FirstKnown(cs);
      }
      assert forall i :: 1 <= i < |cs| ==> cs[i] == cs[1..][i - 1];
    }
  }

  /** Unknown when nothing is known, a role when all known observations agree on it, mixed otherwise. */
  lemma MergedRoleMeaning(cs: seq<Classified>, role: Role)
    requires role != Mixed && role != Unknown
    ensures MergedRole(cs) == Unknown <==> forall i :: 0 <= i < |cs| ==> cs[i].role == Unknown
    ensures MergedRole(cs) == role <==>
      && (exists i :: 0 <= i < |cs| && cs[i].role == role)
      && (forall i :: 0 <= i < |cs| ==> cs[i].role == role || cs[i].role == Unknown)
  {
    FirstKnownFrom(cs);
    var known := KnownRoles(cs);
    if exists r, s :: r in known && s in known && r != s {
      var r, s :| r in known && s in known && r != s;
      TwoRoles(known, r, s);
    } else if r :| r in known {
      assert known == {r};
    }
    assert forall i :: 0 <= i < |cs| && cs[i].role != Unknown ==> cs[i].role in known;
  }

  lemma TwoRoles(known: set<Role>, r: Role, s: Role)
    requires r in known && s in known && r != s
    ensures |known| > 1
  {
    assert known == {r, s} + (known - {r, s});
  }

  lemma RoleSupported(cs: seq<Classified>)
    requires forall i :: 0 <= i < |cs| ==> cs[i].role != Unsupported
    ensures MergedRole(cs) != Unsupported
  {
    hide KnownRoles;
    FirstKnownFrom(cs);
  }

  lemma MergedClassValid(parsed: seq<Output>, docs: seq<Document>, d: nat)
    requires d < |docs|
    requires forall k, i :: 0 <= k < |parsed| && 0 <= i < |parsed[k].documents| ==>
      Fraction(parsed[k].documents[i].confidence) && parsed[k].documents[i].role != Unsupported
    ensures ClassificationValid(MergedClass(parsed, docs[d].source), docs)
  {
    hide Observed, MergedRole, MergedConfidence, KnownRoles;
    var cs := Observed(parsed, docs[d].source);
    ObservedValid(parsed, docs[d].source);
    RoleSupported(cs);
    ConfidenceInRange(cs, MergedRole(cs), KnownRoles(cs));
  }

  // ----- the merged result -----

  /** Each output was validated against its own document and numbers its own chunk. */
  ghost predicate ChunkOutputs(parsed: seq<Output>, docs: seq<Document>, owner: seq<nat>) {
    && |owner| == |parsed| && NumberedOutputs(parsed)
    && forall k :: 0 <= k < |parsed| ==> owner[k] < |docs| && OutputValid(parsed[k], [docs[owner[k]]])
  }

  lemma MergedCandidateValid(parsed: seq<Output>, docs: seq<Document>, owner: seq<nat>, kind: Kind, c: Candidate)
    requires DistinctSources(docs) && ChunkOutputs(parsed, docs, owner) && c in Collect(parsed, kind)
    ensures CandidateValid(c, docs)
  {
    hide CandidateValid, DistinctSources, NumberedOutputs, Collect, DistinctIds, ClassificationValid, RefsValid;
    CollectedFrom(parsed, kind, c);
    var k :| 0 <= k < |parsed| && c in OfKind(parsed[k], kind);
    OfKindInAll(parsed[k], kind, c);
    var i :| 0 <= i < |AllCandidates(parsed[k])| && AllCandidates(parsed[k])[i] == c;
    assert OutputValid(parsed[k], [docs[owner[k]]]);
    CandidateValidInAll(c, docs, owner[k]);
  }

  lemma OfKindInAll(o: Output, kind: Kind, c: Candidate)
    requires c in OfKind(o, kind)
    ensures c in AllCandidates(o)
  {
  }

  lemma MergedIssueValid(parsed: seq<Output>, docs: seq<Document>, owner: seq<nat>, issue: seq<Ref>)
    requires DistinctSources(docs) && ChunkOutputs(parsed, docs, owner) && issue in CollectIssues(parsed)
    ensures RefsValid(issue, docs)
  {
    hide CandidateValid, DistinctSources, NumberedOutputs, CollectIssues, DistinctIds, ClassificationValid,
      RefsValid, AllCandidates;
    IssuesFrom(parsed, issue);
    var k :| 0 <= k < |parsed| && issue in parsed[k].issues;
    var i :| 0 <= i < |parsed[k].issues| && parsed[k].issues[i] == issue;
    assert OutputValid(parsed[k], [docs[owner[k]]]);
    RefsValidInAll(issue, docs, owner[k]);
  }

  lemma ClassesOfChunks(parsed: seq<Output>, docs: seq<Document>, owner: seq<nat>)
    requires ChunkOutputs(parsed, docs, owner)
    ensures forall k, i :: 0 <= k < |parsed| && 0 <= i < |parsed[k].documents| ==>
      Fraction(parsed[k].documents[i].confidence) && parsed[k].documents[i].role != Unsupported
  {
    hide CandidateValid, NumberedOutputs, DistinctIds, RefsValid, AllCandidates, SourcesOf, Fraction;
    forall k, i | 0 <= k < |parsed| && 0 <= i < |parsed[k].documents|
      ensures Fraction(parsed[k].documents[i].confidence) && parsed[k].documents[i].role != Unsupported
    {
      assert OutputValid(parsed[k], [docs[owner[k]]]);
      assert ClassificationValid(parsed[k].documents[i], [docs[owner[k]]]);
    }
  }

  lemma MergedIdsDistinct(parsed: seq<Output>, docs: seq<Document>)
    requires NumberedOutputs(parsed)
    ensures DistinctIds(AllCandidates(MergeChunks(parsed, docs)))
  {
    hide Collect, NumberedOutputs, NumberedUpTo, DistinctIds, MergedClass, CollectIssues;
    CollectNumbers(parsed, Question);
    CollectNumbers(parsed, Answer);
    CollectNumbers(parsed, Solution);
    CollectNumbers(parsed, Rubric);
    FourKinds(Collect(parsed, Question), Collect(parsed, Answer), Collect(parsed, Solution), Collect(parsed, Rubric));
  }

  lemma MergedClassesValid(parsed: seq<Output>, docs: seq<Document>, owner: seq<nat>)
    requires DistinctSources(docs) && ChunkOutputs(parsed, docs, owner)
    ensures var cs := MergeChunks(parsed, docs).documents;
      && |cs| == |SourcesOf(docs)| && ClassifiedSources(cs) == SourcesOf(docs)
      && forall i :: 0 <= i < |cs| ==> ClassificationValid(cs[i], docs)
  {
    hide ChunkOutputs, DistinctSources, ClassificationValid, Collect, CollectIssues, MergedClass;
    var cs := MergeChunks(parsed, docs).documents;
    SourceCount(docs);
    ClassesOfChunks(parsed, docs, owner);
    forall i | 0 <= i < |cs| ensures ClassificationValid(cs[i], docs) && cs[i].source == docs[i].source {
      MergedClassValid(parsed, docs, i);
      ClassSource(parsed, docs[i].source);
    }
  }

  lemma ClassSource(parsed: seq<Output>, source: string)
    ensures MergedClass(parsed, source).source == source
  {
  }

  /** Merging outputs that were validated chunk by chunk always passes the final validation: every source
      is classified once, identifiers stay unique across chunks, and all provenance still resolves. */
  lemma MergedOutputIsValid(parsed: seq<Output>, docs: seq<Document>, owner: seq<nat>)
    requires DistinctSources(docs) && ChunkOutputs(parsed, docs, owner)
    ensures OutputValid(MergeChunks(parsed, docs), docs)
  {
    MergedClassesValid(parsed, docs, owner);
    MergedIdsDistinct(parsed, docs);
    hide DistinctSources, ClassificationValid, Collect, CollectIssues, MergedClass, CandidateValid, RefsValid,
      DistinctIds, ChunkOutputs, SourcesOf, ClassifiedSources;
    var m := MergeChunks(parsed, docs);
    var q, a, s, r := m.questions, m.answers, m.solutions, m.rubrics;
    forall i | 0 <= i < |AllCandidates(m)| ensures CandidateValid(AllCandidates(m)[i], docs) {
      At(q, a, s, r, i);
      var kind := if i < |q| then Question else if i < |q| + |a| then Answer
        else if i < |q| + |a| + |s| then Solution else Rubric;
      assert AllCandidates(m)[i] in Collect(parsed, kind);
      MergedCandidateValid(parsed, docs, owner, kind, AllCandidates(m)[i]);
    }
    forall i | 0 <= i < |m.issues| ensures RefsValid(m.issues[i], docs) {
      assert m.issues[i] in CollectIssues(parsed);
      MergedIssueValid(parsed, docs, owner, m.issues[i]);
    }
  }

  lemma ExpandedExactly(raw: RawOutput, chunk: Chunk, number: nat)
    requires Expand(raw, chunk, number).Some?
    ensures forall kind :: NumberedExactly(OfKind(Expand(raw, chunk, number).value, kind), kind, number)
  {
    hide AliasesOk, Hydrated;
  }

  /** Expanded outputs number their own chunk, as merging needs. */
  lemma ExpandedOutputsAreNumbered(raws: seq<RawOutput>, chunks: seq<Chunk>, parsed: seq<Output>)
    requires |raws| == |chunks| == |parsed|
    requires forall k :: 0 <= k < |raws| ==> Expand(raws[k], chunks[k], k + 1) == Some(parsed[k])
    ensures NumberedOutputs(parsed)
  {
    hide Expand, NumberedExactly;
    forall k, kind | 0 <= k < |parsed| ensures NumberedExactly(OfKind(parsed[k], kind), kind, k + 1) {
      ExpandedExactly(raws[k], chunks[k], k + 1);
    }
  }
}
