/** Samples, labels and bundles of the double-annotation protocol, the checks
    they must pass, and when two labels need an adjudicator. */
module Annotation {
  import opened Wrappers
  import opened RealArithmetic
  import opened Substrings

  /** Worker and sample identifiers, numbered in the order the program sorts them. */
  type Id = int

  /** Unicode, punctuation and white-space folding of a text. */
  type Normalizer = string -> string

  datatype Role = Teacher | Adjudicator | OtherRole
  datatype Status = Matched | Partial | Missing | OtherStatus

  datatype Point = Point(id: string, score: real)
  datatype Sample = Sample(id: Id, subject: string, grade: string, synthetic: bool, maxScore: real,
                           points: seq<Point>, answer: string)

  datatype Decision = Decision(point: string, status: Status, score: real, evidence: seq<string>)

  /** wellFormed stands for the checks on field names, pseudonyms, time stamp and rationale. */
  datatype Label = Label(id: string, labeler: Id, role: Role, score: real, confidence: real, wellFormed: bool,
                         sources: Option<seq<string>>, decisions: seq<Decision>)

  /** Hash identifiers, kept as what was hashed. */
  datatype BundleId = BundleId(plan: string, sample: Id)

  datatype Bundle = Bundle(id: BundleId, synthetic: bool, sample: Sample, labels: seq<Label>,
      adjudication: Option<Label>)

  datatype Policy = Policy(tolerance: real, evidenceMatters: bool, normalize: Normalizer)

  datatype Fault =
    | Malformed | NoLabelId | SourcesNotAllowed | RoleInvalid | ScoreOutOfRange | ConfidenceOutOfRange
    | UnknownPoint(point: string) | RepeatedPoint(point: string) | BadDecision(point: string)
    | Unclassified(point: string) | TotalDiffers

  // ----- one decision -----

  /** The score a rubric gives a point; a repeated id keeps its last entry. */
  function PointScore(points: seq<Point>, id: string): Option<real> {
    if points == [] then None
    else if points[|points| - 1].id == id then Some(points[|points| - 1].score)
    else PointScore(points[..|points| - 1], id)
  }

  predicate Grounded(excerpt: string, sample: Sample, norm: Normalizer) {
    norm(excerpt) != "" && Contains(norm(sample.answer), norm(excerpt))
  }

  predicate AllGrounded(evidence: seq<string>, sample: Sample, norm: Normalizer) {
    forall e :: e in evidence ==> Grounded(e, sample, norm)
  }

  /** Status, score and evidence fit together for a point worth full. */
  predicate Consistent(d: Decision, full: real, sample: Sample, norm: Normalizer) {
    && 0.0 <= d.score <= full
    && match d.status {
         case Missing => d.score == 0.0 && d.evidence == []
         case Matched => d.score == full && d.evidence != []
         case Partial => 0.0 < d.score < full && d.evidence != []
         case OtherStatus => false
       }
    && AllGrounded(d.evidence, sample, norm)
  }

  predicate Sound(d: Decision, sample: Sample, norm: Normalizer) {
    PointScore(sample.points, d.point).Some? && Consistent(d, PointScore(sample.points, d.point).value, sample, norm)
  }

  // ----- one label -----

  function Total(decisions: seq<Decision>): real {
    if decisions == [] then 0.0 else Total(decisions[..|decisions| - 1]) + decisions[|decisions| - 1].score
  }

  predicate HeaderValid(mark: Label, sample: Sample) {
    && mark.wellFormed && mark.id != "" && !mark.role.OtherRole?
    && (mark.sources.Some? ==> mark.role.Adjudicator?)
    && 0.0 <= mark.score <= sample.maxScore && 0.0 <= mark.confidence <= 1.0
  }

  predicate Distinct(decisions: seq<Decision>) {
    forall i, j :: 0 <= i < j < |decisions| ==> decisions[i].point != decisions[j].point
  }

  predicate Classified(decisions: seq<Decision>, point: string) {
    exists i :: 0 <= i < |decisions| && decisions[i].point == point
  }

  /** Every rubric point is decided exactly once, soundly, and the scores add up. */
  predicate ValidLabel(mark: Label, sample: Sample, norm: Normalizer) {
    && HeaderValid(mark, sample)
    && Distinct(mark.decisions)
    && (forall i :: 0 <= i < |mark.decisions| ==> Sound(mark.decisions[i], sample, norm))
    && (forall p :: 0 <= p < |sample.points| ==> Classified(mark.decisions, sample.points[p].id))
    && Total(mark.decisions) == mark.score
  }

  method CheckHeader(mark: Label, sample: Sample) returns (errors: seq<Fault>)
    ensures errors == [] <==> HeaderValid(mark, sample)
  {
    errors := [];
    if !mark.wellFormed { errors := errors + [Malformed]; }
    if mark.role != Adjudicator && mark.sources.Some? { errors := errors + [SourcesNotAllowed]; }
    if mark.id == "" { errors := errors + [NoLabelId]; }
    if mark.role != Teacher && mark.role != Adjudicator { errors := errors + [RoleInvalid]; }
    if mark.score < 0.0 || mark.score > sample.maxScore { errors := errors + [ScoreOutOfRange]; }
    if mark.confidence < 0.0 || mark.confidence > 1.0 { errors := errors + [ConfidenceOutOfRange]; }
  }

  /** The checks on one decision, in the order the program makes them. */
  method CheckDecision(d: Decision, sample: Sample, norm: Normalizer) returns (errors: seq<Fault>)
    ensures errors == [] <==> Sound(d, sample, norm)
  {
    errors := [];
    var known := PointScore(sample.points, d.point);
    if known.None? { errors := errors + [UnknownPoint(d.point)]; }
    if d.status.OtherStatus? { errors := errors + [BadDecision(d.point)]; }
    if d.score < 0.0 || (known.Some? && d.score > known.value) { errors := errors + [BadDecision(d.point)]; }
    if d.status.Missing? && d.score != 0.0 { errors := errors + [BadDecision(d.point)]; }
    if d.status.Matched? && known.Some? && d.score != known.value { errors := errors + [BadDecision(d.point)]; }
    if d.status.Partial? && known.Some? && !(d.score > 0.0 && d.score < known.value) {
      errors := errors + [BadDecision(d.point)];
    }
    if !d.status.Missing? && d.evidence == [] { errors := errors + [BadDecision(d.point)]; }
    if d.status.Missing? && d.evidence != [] { errors := errors + [BadDecision(d.point)]; }
    ghost var before := errors;
    for i := 0 to |d.evidence|
      invariant errors == [] <==> before == [] && AllGrounded(d.evidence[..i], sample, norm)
    {
      assert d.evidence[..i + 1] == d.evidence[..i] + [d.evidence[i]];
      if !Grounded(d.evidence[i], sample, norm) { errors := errors + [BadDecision(d.point)]; }
    }
    assert d.evidence[..|d.evidence|] == d.evidence;
  }

  /** Runs over the decisions with a set of seen points and a running total. */
  method CheckDecisions(mark: Label, sample: Sample, norm: Normalizer)
      returns (errors: seq<Fault>, seen: set<string>, total: real)
    ensures errors == [] <==>
      Distinct(mark.decisions) && forall i :: 0 <= i < |mark.decisions| ==> Sound(mark.decisions[i], sample, norm)
    ensures forall p :: p in seen <==> Classified(mark.decisions, p)
    ensures total == Total(mark.decisions)
  {
    hide Sound;
    errors, seen, total := [], {}, 0.0;
    var ds := mark.decisions;
    for k := 0 to |ds|
      invariant seen == set i | 0 <= i < k :: ds[i].point
      invariant total == Total(ds[..k])
      invariant errors == [] <==> Distinct(ds[..k]) && forall i :: 0 <= i < k ==> Sound(ds[i], sample, norm)
    {
      var faults := CheckDecision(ds[k], sample, norm);
      if ds[k].point in seen { faults := faults + [RepeatedPoint(ds[k].point)]; }
      DistinctOneMore(ds, k);
      assert ds[..k + 1][..k] == ds[..k];
      errors := errors + faults;
      seen := seen + {ds[k].point};
      total := total + ds[k].score;
    }
    assert ds[..|ds|] == ds;
  }

  lemma DistinctOneMore(ds: seq<Decision>, k: nat)
    requires k < |ds|
    ensures Distinct(ds[..k + 1]) <==> Distinct(ds[..k]) && ds[k].point !in set i | 0 <= i < k :: ds[i].point
  {
    if Distinct(ds[..k + 1]) {
      forall i | 0 <= i < k ensures ds[i].point != ds[k].point {
        assert ds[..k + 1][i] == ds[i];
      }
    }
  }

  /** No error is reported exactly for a valid mark. */
  method ValidateLabel(mark: Label, sample: Sample, norm: Normalizer) returns (errors: seq<Fault>)
    ensures errors == [] <==> ValidLabel(mark, sample, norm)
  {
    hide HeaderValid, Sound, Distinct, Classified, Total;
    errors := CheckHeader(mark, sample);
    var faults, seen, total := CheckDecisions(mark, sample, norm);
    errors := errors + faults;
    ghost var before := errors;
    for p := 0 to |sample.points|
      invariant errors == [] <==> before == [] && forall q :: 0 <= q < p ==>
        Classified(mark.decisions, sample.points[q].id)
    {
      if sample.points[p].id !in seen { errors := errors + [Unclassified(sample.points[p].id)]; }
    }
    if total != mark.score { errors := errors + [TotalDiffers]; }
  }

  // ----- two labels -----

  datatype Signature = Signature(point: string, status: Status, score: real, evidence: multiset<string>)

  function Normalized(evidence: seq<string>, norm: Normalizer): seq<string> {
    seq(|evidence|, i requires 0 <= i < |evidence| => norm(evidence[i]))
  }

  /** What a decision says once evidence order and spelling are ignored. */
  function SignatureOf(d: Decision, withEvidence: bool, norm: Normalizer): Signature {
    Signature(d.point, d.status, d.score, if withEvidence then multiset(Normalized(d.evidence, norm)) else multiset{})
  }

  function Signatures(decisions: seq<Decision>, withEvidence: bool, norm: Normalizer): multiset<Signature> {
    if decisions == [] then multiset{}
    else
      var last := SignatureOf(decisions[|decisions| - 1], withEvidence, norm);
      Signatures(decisions[..|decisions| - 1], withEvidence, norm) + multiset{last}
  }

  predicate RequiresAdjudication(first: Label, second: Label, policy: Policy) {
    || Abs(first.score - second.score) > policy.tolerance
    || Signatures(first.decisions, false, policy.normalize) != Signatures(second.decisions, false, policy.normalize)
    || (policy.evidenceMatters
        && Signatures(first.decisions, true, policy.normalize) != Signatures(second.decisions, true, policy.normalize))
  }

  // ----- bundles -----

  predicate AdjudicationValid(adjudication: Label, bundle: Bundle, norm: Normalizer)
    requires |bundle.labels| == 2
  {
    && ValidLabel(adjudication, bundle.sample, norm)
    && adjudication.role.Adjudicator?
    && adjudication.labeler != bundle.labels[0].labeler && adjudication.labeler != bundle.labels[1].labeler
    && adjudication.sources.Some?
    && multiset(adjudication.sources.value) == multiset{bundle.labels[0].id, bundle.labels[1].id}
  }

  /** Two valid labels by different labelers, and a valid adjudication if they disagree. */
  predicate ValidBundle(bundle: Bundle, policy: Policy) {
    && bundle.synthetic == bundle.sample.synthetic
    && |bundle.labels| == 2
    && ValidLabel(bundle.labels[0], bundle.sample, policy.normalize)
    && ValidLabel(bundle.labels[1], bundle.sample, policy.normalize)
    && bundle.labels[0].labeler != bundle.labels[1].labeler
    && (RequiresAdjudication(bundle.labels[0], bundle.labels[1], policy) ==> bundle.adjudication.Some?)
    && (bundle.adjudication.Some? ==> AdjudicationValid(bundle.adjudication.value, bundle, policy.normalize))
  }

  datatype Gold = Gold(score: real, decisions: seq<Decision>, adjudicated: bool)

  function BuildGold(bundle: Bundle, policy: Policy): Option<Gold> {
    if !ValidBundle(bundle, policy) then None
    else
      var chosen := if bundle.adjudication.Some? then bundle.adjudication.value else bundle.labels[0];
      Some(Gold(chosen.score, chosen.decisions, bundle.adjudication.Some?))
  }

  // ----- what the checks mean -----

  lemma AdjudicationIsSymmetric(first: Label, second: Label, policy: Policy)
    ensures RequiresAdjudication(first, second, policy) == RequiresAdjudication(second, first, policy)
  {
    hide Signatures;
  }

  lemma {:induction false} SignatureIn(ds: seq<Decision>, withEvidence: bool, norm: Normalizer, i: nat)
    requires i < |ds|
    ensures SignatureOf(ds[i], withEvidence, norm) in Signatures(ds, withEvidence, norm)
  {
    hide SignatureOf;
    if i < |ds| - 1 {
      SignatureIn(ds[..|ds| - 1], withEvidence, norm, i);
    }
  }

  lemma {:induction false} SignatureFrom(ds: seq<Decision>, withEvidence: bool, norm: Normalizer, sig: Signature)
      returns (i: nat)
    requires sig in Signatures(ds, withEvidence, norm)
    ensures i < |ds| && SignatureOf(ds[i], withEvidence, norm) == sig
  {
    hide SignatureOf;
    if sig == SignatureOf(ds[|ds| - 1], withEvidence, norm) {
      i := |ds| - 1;
    } else {
      i := SignatureFrom(ds[..|ds| - 1], withEvidence, norm, sig);
    }
  }

  /** When labels agree, each decided point has the same status and score in the other label,
      and the same evidence up to order and spelling where the policy asks for it. */
  lemma AgreementIsPointwise(first: Label, second: Label, policy: Policy, i: nat) returns (j: nat)
    requires !RequiresAdjudication(first, second, policy) && i < |first.decisions|
    ensures j < |second.decisions|
    ensures var d, e := first.decisions[i], second.decisions[j];
      && d.point == e.point && d.status == e.status && d.score == e.score
      && (policy.evidenceMatters ==>
        multiset(Normalized(d.evidence, policy.normalize)) == multiset(Normalized(e.evidence, policy.normalize)))
  {
    hide Signatures;
    SignatureIn(first.decisions, policy.evidenceMatters, policy.normalize, i);
    var sig := SignatureOf(first.decisions[i], policy.evidenceMatters, policy.normalize);
    j := SignatureFrom(second.decisions, policy.evidenceMatters, policy.normalize, sig);
  }

  function Drop(ds: seq<Decision>, i: nat): seq<Decision>
    requires i < |ds|
  {
    ds[..i] + ds[i + 1..]
  }

  lemma DropInit(ds: seq<Decision>, i: nat)
    requires i < |ds| - 1
    ensures Drop(ds, i) != [] && Drop(ds, i)[|ds| - 2] == ds[|ds| - 1]
    ensures Drop(ds, i)[..|ds| - 2] == Drop(ds[..|ds| - 1], i)
    ensures |Drop(ds, i)| == |ds| - 1
  {
  }

  lemma DropLast(ds: seq<Decision>)
    requires ds != []
    ensures Drop(ds, |ds| - 1) == ds[..|ds| - 1]
  {
  }

  lemma {:induction false} TotalDrop(ds: seq<Decision>, i: nat)
    requires i < |ds|
    ensures Total(ds) == Total(Drop(ds, i)) + ds[i].score
  {
    hide Drop;
    if i < |ds| - 1 {
      TotalDrop(ds[..|ds| - 1], i);
      DropInit(ds, i);
    } else {
      DropLast(ds);
    }
  }

  lemma {:induction false} SignaturesDrop(ds: seq<Decision>, i: nat, norm: Normalizer)
    requires i < |ds|
    ensures Signatures(ds, false, norm) == Signatures(Drop(ds, i), false, norm)
      + multiset{SignatureOf(ds[i], false, norm)}
  {
    hide SignatureOf, Drop;
    if i < |ds| - 1 {
      SignaturesDrop(ds[..|ds| - 1], i, norm);
      DropInit(ds, i);
    } else {
      DropLast(ds);
    }
  }

  lemma NoSignatures(ds: seq<Decision>, norm: Normalizer)
    ensures Signatures(ds, false, norm) == multiset{} ==> ds == []
  {
    if ds != [] { SignatureIn(ds, false, norm, 0); }
  }

  lemma CancelSignature(a: multiset<Signature>, b: multiset<Signature>, sig: Signature)
    requires a + multiset{sig} == b + multiset{sig}
    ensures a == b
  {
    assert a == (a + multiset{sig}) - multiset{sig};
    assert b == (b + multiset{sig}) - multiset{sig};
  }

  /** The total depends only on the decisions' signatures, not on their order. */
  lemma {:induction false} SameSignaturesSameTotal(a: seq<Decision>, b: seq<Decision>, norm: Normalizer)
    requires Signatures(a, false, norm) == Signatures(b, false, norm)
    ensures Total(a) == Total(b)
    decreases |a|
  {
    hide Normalized, Drop;
    if a == [] {
      NoSignatures(b, norm);
    } else {
      var n := |a| - 1;
      SignatureIn(a, false, norm, n);
      var j := SignatureFrom(b, false, norm, SignatureOf(a[n], false, norm));
      SignaturesDrop(b, j, norm);
      TotalDrop(b, j);
      CancelSignature(Signatures(a[..n], false, norm), Signatures(Drop(b, j), false, norm),
          SignatureOf(a[n], false, norm));
      SameSignaturesSameTotal(a[..n], Drop(b, j), norm);
    }
  }

  /** Without an adjudication both labelers gave the gold score. */
  lemma AgreedGoldIsBothScores(bundle: Bundle, policy: Policy)
    requires BuildGold(bundle, policy).Some? && bundle.adjudication.None?
    ensures BuildGold(bundle, policy).value.score == bundle.labels[0].score == bundle.labels[1].score
  {
    hide Signatures, Total, Distinct, Classified, HeaderValid, Sound;
    SameSignaturesSameTotal(bundle.labels[0].decisions, bundle.labels[1].decisions, policy.normalize);
  }
}
