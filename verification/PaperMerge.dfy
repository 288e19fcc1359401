/** Validating parser output, expanding each chunk's answer, and merging the
    validated chunks. */
module PaperMerge {
  import opened Wrappers
  import opened PaperSources
  import opened PaperProvenance

  datatype Role = Questions | Answers | Solutions | Rubrics | Mixed | Unknown | Unsupported

  /** confidence is None when it is not a finite number. */
  datatype Classified = Classified(source: string, role: Role, confidence: Option<real>)

  datatype Kind = Question | Answer | Solution | Rubric

  /** Expanded identifiers are made of the kind, the chunk and the position. */
  datatype CandidateId = Numbered(kind: Kind, chunk: nat, item: nat) | Given(text: string)

  /** fields stands for the remaining checks on types and scores of one candidate. */
  datatype Candidate = Candidate(id: CandidateId, confidence: Option<real>, refs: seq<Ref>, fields: bool)

  datatype Output = Output(documents: seq<Classified>, questions: seq<Candidate>, answers: seq<Candidate>,
                           solutions: seq<Candidate>, rubrics: seq<Candidate>, issues: seq<seq<Ref>>)

  // ----- validation -----

  predicate Fraction(c: Option<real>) { c.Some? && 0.0 <= c.value <= 1.0 }

  predicate NonBlank(id: CandidateId) { id.Given? ==> id.text != "" }

  function AllCandidates(o: Output): seq<Candidate> {
    o.questions + o.answers + o.solutions + o.rubrics
  }

  predicate DistinctIds(cs: seq<Candidate>) {
    forall i, j :: 0 <= i < j < |cs| ==> cs[i].id != cs[j].id
  }

  function SourcesOf(docs: seq<Document>): set<string> {
    set i | 0 <= i < |docs| :: docs[i].source
  }

  function ClassifiedSources(cs: seq<Classified>): set<string> {
    set i | 0 <= i < |cs| :: cs[i].source
  }

  predicate ClassificationValid(c: Classified, docs: seq<Document>) {
    c.source in SourcesOf(docs) && c.role != Unsupported && Fraction(c.confidence)
  }

  predicate CandidateValid(c: Candidate, docs: seq<Document>) {
    NonBlank(c.id) && Fraction(c.confidence) && c.refs != [] && RefsValid(c.refs, docs) && c.fields
  }

  /** Every source classified once, every candidate named, grounded and well formed, every issue grounded. */
  predicate OutputValid(o: Output, docs: seq<Document>) {
    && |o.documents| == |SourcesOf(docs)| && ClassifiedSources(o.documents) == SourcesOf(docs)
    && (forall i :: 0 <= i < |o.documents| ==> ClassificationValid(o.documents[i], docs))
    && DistinctIds(AllCandidates(o))
    && (forall i :: 0 <= i < |AllCandidates(o)| ==> CandidateValid(AllCandidates(o)[i], docs))
    && (forall i :: 0 <= i < |o.issues| ==> RefsValid(o.issues[i], docs))
  }

  method ValidateCandidates(cs: seq<Candidate>, docs: seq<Document>) returns (ok: bool)
    ensures ok <==> DistinctIds(cs) && forall i :: 0 <= i < |cs| ==> CandidateValid(cs[i], docs)
  {
    hide RefsValid;
    var ids: set<CandidateId> := {};
    for k := 0 to |cs|
      invariant ids == set i | 0 <= i < k :: cs[i].id
      invariant forall i, j :: 0 <= i < j < k ==> cs[i].id != cs[j].id
      invariant forall i :: 0 <= i < k ==> CandidateValid(cs[i], docs)
    {
      var c := cs[k];
      if !NonBlank(c.id) || c.id in ids { return false; }
      ids := ids + {c.id};
      if !Fraction(c.confidence) { return false; }
      if c.refs == [] { return false; }
      var refusal := ValidateRefs(c.refs, docs);
      if refusal.Some? || !c.fields { return false; }
    }
    ok := true;
  }

  method ValidateOutput(o: Output, docs: seq<Document>) returns (ok: bool)
    ensures ok <==> OutputValid(o, docs)
  {
    hide RefsValid, CandidateValid, DistinctIds, ClassificationValid, AllCandidates;
    if |o.documents| != |SourcesOf(docs)| || ClassifiedSources(o.documents) != SourcesOf(docs) { return false; }
    for k := 0 to |o.documents|
      invariant forall i :: 0 <= i < k ==> ClassificationValid(o.documents[i], docs)
    {
      if !ClassificationValid(o.documents[k], docs) { return false; }
    }
    var candidatesOk := ValidateCandidates(AllCandidates(o), docs);
    if !candidatesOk { return false; }
    for k := 0 to |o.issues|
      invariant forall i :: 0 <= i < k ==> RefsValid(o.issues[i], docs)
    {
      var refusal := ValidateRefs(o.issues[k], docs);
      if refusal.Some? { return false; }
    }
    ok := true;
  }

  // ----- expanding a chunk's answer -----

  datatype RawCandidate = RawCandidate(confidence: Option<real>, aliases: seq<nat>, fields: bool)

  datatype RawOutput = RawOutput(documents: seq<Classified>, questions: seq<RawCandidate>, answers: seq<RawCandidate>,
                                 solutions: seq<RawCandidate>, rubrics: seq<RawCandidate>, issues: seq<seq<nat>>)

  predicate Expandable(raws: seq<RawCandidate>, chunk: Chunk) {
    forall i :: 0 <= i < |raws| ==> AliasesOk(raws[i].aliases, chunk)
  }

  function ExpandAll(raws: seq<RawCandidate>, kind: Kind, chunk: Chunk, number: nat): seq<Candidate>
    requires Expandable(raws, chunk)
  {
    seq(|raws|, i requires 0 <= i < |raws| =>
      Candidate(Numbered(kind, number, i + 1), raws[i].confidence, Hydrated(raws[i].aliases, chunk), raws[i].fields))
  }

  predicate IssuesExpandable(issues: seq<seq<nat>>, chunk: Chunk) {
    forall i :: 0 <= i < |issues| ==> issues[i] == [] || AliasesOk(issues[i], chunk)
  }

  function ExpandIssues(issues: seq<seq<nat>>, chunk: Chunk): seq<seq<Ref>>
    requires IssuesExpandable(issues, chunk)
  {
    seq(|issues|, i requires 0 <= i < |issues| => if issues[i] == [] then [] else Hydrated(issues[i], chunk))
  }

  function Expand(raw: RawOutput, chunk: Chunk, number: nat): Option<Output> {
    if Expandable(raw.questions, chunk) && Expandable(raw.answers, chunk) && Expandable(raw.solutions, chunk)
       && Expandable(raw.rubrics, chunk) && IssuesExpandable(raw.issues, chunk)
    then
      Some(Output(raw.documents, ExpandAll(raw.questions, Question, chunk, number),
                  ExpandAll(raw.answers, Answer, chunk, number),
                  ExpandAll(raw.solutions, Solution, chunk, number), ExpandAll(raw.rubrics, Rubric, chunk, number),
                  ExpandIssues(raw.issues, chunk)))
    else None
  }

  /** Numbers and hydrates the candidates of one collection. */
  method ExpandCollection(raws: seq<RawCandidate>, kind: Kind, chunk: Chunk, number: nat)
      returns (r: Option<seq<Candidate>>)
    ensures r.Some? <==> Expandable(raws, chunk)
    ensures r.Some? ==> r.value == ExpandAll(raws, kind, chunk, number)
  {
    hide AliasesOk, Hydrated;
    var done: seq<Candidate> := [];
    for k := 0 to |raws|
      invariant |done| == k
      invariant forall i :: 0 <= i < k ==>
        && AliasesOk(raws[i].aliases, chunk)
        && done[i] == Candidate(Numbered(kind, number, i + 1), raws[i].confidence, Hydrated(raws[i].aliases, chunk),
                                raws[i].fields)
    {
      var refs := HydrateRefs(raws[k].aliases, chunk);
      if refs.None? { return None; }
      done := done + [Candidate(Numbered(kind, number, k + 1), raws[k].confidence, refs.value, raws[k].fields)];
    }
    r := Some(done);
  }

  // ----- merging -----

  function Observed(parsed: seq<Output>, source: string): seq<Classified> {
    if parsed == [] then []
    else Observed(parsed[..|parsed| - 1], source) + OfSource(parsed[|parsed| - 1].documents, source)
  }

  function OfSource(cs: seq<Classified>, source: string): seq<Classified> {
    if cs == [] then []
    else
      var rest, last := OfSource(cs[..|cs| - 1], source), cs[|cs| - 1];
      if last.source == source then rest + [last] else rest
  }

  function KnownRoles(cs: seq<Classified>): set<Role> {
    set i | 0 <= i < |cs| && cs[i].role != Unknown :: cs[i].role
  }

  /** The role of the first observation that is not unknown. */
  function FirstKnown(cs: seq<Classified>): Role {
    if cs == [] then Unknown else if cs[0].role != Unknown then cs[0].role else FirstKnown(cs[1..])
  }

  function MergedRole(cs: seq<Classified>): Role {
    var known := KnownRoles(cs);
    if |known| > 1 || Mixed in known then Mixed else if known != {} then FirstKnown(cs) else Unknown
  }

  predicate Supports(c: Classified, role: Role, known: set<Role>) {
    c.role == role || (role == Mixed && c.role in known)
  }

  /** The highest confidence among the supporting observations, 0.5 without any. */
  function MergedConfidence(cs: seq<Classified>, role: Role, known: set<Role>): Option<real> {
    if cs == [] then None
    else
      var best, last := MergedConfidence(cs[..|cs| - 1], role, known), cs[|cs| - 1];
      if Supports(last, role, known) && last.confidence.Some? && (best.None? || last.confidence.value > best.value)
      then last.confidence
      else best
  }

  function MergedClass(parsed: seq<Output>, source: string): Classified {
    var cs := Observed(parsed, source);
    var role := MergedRole(cs);
    var best := MergedConfidence(cs, role, KnownRoles(cs));
    Classified(source, role, if best.None? then Some(0.5) else best)
  }

  function Collect(parsed: seq<Output>, kind: Kind): seq<Candidate> {
    if parsed == [] then []
    else Collect(parsed[..|parsed| - 1], kind) + OfKind(parsed[|parsed| - 1], kind)
  }

  function OfKind(o: Output, kind: Kind): seq<Candidate> {
    match kind
    case Question => o.questions
    case Answer => o.answers
    case Solution => o.solutions
    case Rubric => o.rubrics
  }

  function CollectIssues(parsed: seq<Output>): seq<seq<Ref>> {
    if parsed == [] then [] else CollectIssues(parsed[..|parsed| - 1]) + parsed[|parsed| - 1].issues
  }

  function MergeChunks(parsed: seq<Output>, docs: seq<Document>): Output {
    Output(seq(|docs|, i requires 0 <= i < |docs| => MergedClass(parsed, docs[i].source)),
           Collect(parsed, Question), Collect(parsed, Answer), Collect(parsed, Solution), Collect(parsed, Rubric),
           CollectIssues(parsed))
  }

  method MergeCompactChunks(parsed: seq<Output>, docs: seq<Document>) returns (merged: Output)
    ensures merged == MergeChunks(parsed, docs)
  {
    hide MergedClass;
    var questions: seq<Candidate>, answers: seq<Candidate> := [], [];
    var solutions: seq<Candidate>, rubrics: seq<Candidate>, issues: seq<seq<Ref>> := [], [], [];
    for k := 0 to |parsed|
      invariant questions == Collect(parsed[..k], Question) && answers == Collect(parsed[..k], Answer)
      invariant solutions == Collect(parsed[..k], Solution) && rubrics == Collect(parsed[..k], Rubric)
      invariant issues == CollectIssues(parsed[..k])
    {
      assert parsed[..k + 1][..k] == parsed[..k];
      questions, answers := questions + parsed[k].questions, answers + parsed[k].answers;
      solutions, rubrics := solutions + parsed[k].solutions, rubrics + parsed[k].rubrics;
      issues := issues + parsed[k].issues;
    }
    assert parsed[..|parsed|] == parsed;
    var documents: seq<Classified> := [];
    for k := 0 to |docs|
      invariant |documents| == k && forall i :: 0 <= i < k ==> documents[i] == MergedClass(parsed, docs[i].source)
    {
      documents := documents + [MergedClass(parsed, docs[k].source)];
    }
    merged := Output(documents, questions, answers, solutions, rubrics, issues);
  }
}
