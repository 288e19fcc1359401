/** Turning untrusted model output into a governed suggestion: exactly which
    outputs are accepted, and what the suggestion then holds. */
module Suggestion {
  import opened Wrappers
  import opened Substrings

  /** Text folding for comparisons, and what counts as blank. */
  datatype Texts = Texts(fold: string -> string, blank: string -> bool)

  datatype Point = Point(id: string, description: string, score: real, strictAlias: bool, aliases: seq<string>)

  datatype Request = Request(answer: string, maxScore: real, points: seq<Point>, ocrLow: bool, injection: bool)

  datatype Flag =
    | OcrLow | OcrEmpty | Ambiguous | Insufficient | OffTopic | NeedsReview | Repaired
    | Injection | HumanReview | Unsupported

  datatype RawMatch = RawMatch(point: string, score: real, evidence: seq<string>)
  datatype RawMissing = RawMissing(point: string, reason: string)
  datatype Evidence = Evidence(id: string, point: string, excerpt: string, inAnswer: bool, confidence: real)

  /** shaped stands for the checks on field names, texts for people and value types. */
  datatype Raw = Raw(shaped: bool, score: real, confidence: real, matched: seq<RawMatch>, missing: seq<RawMissing>,
                     evidence: seq<Evidence>, flags: seq<Flag>)

  datatype Match = Match(point: string, caption: string, score: real, evidence: seq<string>)
  datatype Missing = Missing(point: string, caption: string, reason: string)

  datatype Result = Suggested(score: real, matched: seq<Match>, missing: seq<Missing>, evidence: seq<Evidence>,
      flags: seq<Flag>)

  const STRICT_ALIAS_NOT_FOUND := "strict_alias_not_found"

  // ----- rubric and text -----

  /** A repeated id keeps its last entry. */
  function FindPoint(points: seq<Point>, id: string): Option<Point> {
    if points == [] then None
    else if points[|points| - 1].id == id then Some(points[|points| - 1])
    else FindPoint(points[..|points| - 1], id)
  }

  function PointIds(points: seq<Point>): set<string> {
    set i | 0 <= i < |points| :: points[i].id
  }

  predicate AliasFound(p: Point, req: Request, t: Texts) {
    exists i :: 0 <= i < |p.aliases| && Contains(t.fold(req.answer), t.fold(p.aliases[i]))
  }

  /** A strict point without any of its aliases in the answer. */
  predicate Refused(p: Point, req: Request, t: Texts) {
    p.strictAlias && !AliasFound(p, req, t)
  }

  // ----- what the accepted lists are -----

  predicate RefusedMatch(m: RawMatch, req: Request, t: Texts) {
    FindPoint(req.points, m.point).Some? && Refused(FindPoint(req.points, m.point).value, req, t)
  }

  function LabelOf(req: Request, id: string): string {
    match FindPoint(req.points, id)
    case Some(p) => p.description
    case None => ""
  }

  /** Matches that stand, in order. */
  function Kept(ms: seq<RawMatch>, req: Request, t: Texts): seq<Match> {
    if ms == [] then []
    else
      var rest, m := Kept(ms[..|ms| - 1], req, t), ms[|ms| - 1];
      if RefusedMatch(m, req, t) then rest else rest + [Match(m.point, LabelOf(req, m.point), m.score, m.evidence)]
  }

  /** Matches turned into missing points. */
  function Demoted(ms: seq<RawMatch>, req: Request, t: Texts): seq<Missing> {
    if ms == [] then []
    else
      var rest, m := Demoted(ms[..|ms| - 1], req, t), ms[|ms| - 1];
      if RefusedMatch(m, req, t) then rest + [Missing(m.point, LabelOf(req, m.point), STRICT_ALIAS_NOT_FOUND)] else rest
  }

  function Ids(xs: seq<string>): set<string> {
    set i | 0 <= i < |xs| :: xs[i]
  }

  /** Evidence ids linked by a refused match. */
  function RejectedIds(ms: seq<RawMatch>, req: Request, t: Texts): set<string> {
    if ms == [] then {}
    else
      var rest, m := RejectedIds(ms[..|ms| - 1], req, t), ms[|ms| - 1];
      if RefusedMatch(m, req, t) then rest + Ids(m.evidence) else rest
  }

  function Reported(ms: seq<RawMissing>, req: Request): seq<Missing> {
    if ms == [] then []
    else
      Reported(ms[..|ms| - 1], req)
        + [Missing(ms[|ms| - 1].point, LabelOf(req, ms[|ms| - 1].point), ms[|ms| - 1].reason)]
  }

  function MatchedIds(ms: seq<Match>): set<string> {
    set i | 0 <= i < |ms| :: ms[i].point
  }

  /** Evidence for a standing match that no refused match linked. */
  predicate Relevant(e: Evidence, rejected: set<string>, standing: set<string>) {
    e.id !in rejected && e.point in standing
  }

  function RelevantOf(es: seq<Evidence>, rejected: set<string>, standing: set<string>): seq<Evidence> {
    if es == [] then []
    else
      var rest, e := RelevantOf(es[..|es| - 1], rejected, standing), es[|es| - 1];
      if Relevant(e, rejected, standing) then rest + [e] else rest
  }

  function Referenced(ms: seq<Match>): set<string> {
    if ms == [] then {} else Referenced(ms[..|ms| - 1]) + Ids(ms[|ms| - 1].evidence)
  }

  function OnlyIds(es: seq<Evidence>, ids: set<string>): seq<Evidence> {
    if es == [] then []
    else
      var rest, e := OnlyIds(es[..|es| - 1], ids), es[|es| - 1];
      if e.id in ids then rest + [e] else rest
  }

  function Sum(ms: seq<Match>): real {
    if ms == [] then 0.0 else Sum(ms[..|ms| - 1]) + ms[|ms| - 1].score
  }

  function AppendUnique(flags: seq<Flag>, f: Flag): seq<Flag> {
    if f in flags then flags else flags + [f]
  }

  function Distinctly(flags: seq<Flag>): seq<Flag> {
    if flags == [] then [] else AppendUnique(Distinctly(flags[..|flags| - 1]), flags[|flags| - 1])
  }

  /** The model's flags, the two that are always set, and those the request and the retry call for. */
  function FlagsFor(raw: Raw, req: Request, repaired: bool): seq<Flag> {
    var a := AppendUnique(AppendUnique(Distinctly(raw.flags), NeedsReview), HumanReview);
    var b := if req.ocrLow then AppendUnique(a, OcrLow) else a;
    var c := if req.injection then AppendUnique(b, Injection) else b;
    if repaired then AppendUnique(c, Repaired) else c
  }

  function RelevantEvidence(raw: Raw, req: Request, t: Texts): seq<Evidence> {
    RelevantOf(raw.evidence, RejectedIds(raw.matched, req, t), MatchedIds(Kept(raw.matched, req, t)))
  }

  function SuggestionOf(raw: Raw, req: Request, t: Texts, repaired: bool): Result {
    var matched := Kept(raw.matched, req, t);
    Suggested(Sum(matched), matched, Demoted(raw.matched, req, t) + Reported(raw.missing, req),
              OnlyIds(RelevantEvidence(raw, req, t), Referenced(matched)), FlagsFor(raw, req, repaired))
  }

  // ----- what is accepted -----

  predicate NoRepeats(xs: seq<string>) {
    forall i, j :: 0 <= i < j < |xs| ==> xs[i] != xs[j]
  }

  predicate MatchOk(m: RawMatch, req: Request, t: Texts) {
    var p := FindPoint(req.points, m.point);
    && !t.blank(m.point) && p.Some? && 0.0 <= m.score <= p.value.score
    && m.evidence != [] && NoRepeats(m.evidence)
    && (forall i :: 0 <= i < |m.evidence| ==> !t.blank(m.evidence[i]))
  }

  predicate MissingOk(m: RawMissing, req: Request, t: Texts) {
    !t.blank(m.point) && FindPoint(req.points, m.point).Some? && !t.blank(m.reason)
  }

  predicate MatchesOk(ms: seq<RawMatch>, req: Request, t: Texts) {
    && (forall i :: 0 <= i < |ms| ==> MatchOk(ms[i], req, t))
    && (forall i, j :: 0 <= i < j < |ms| ==> ms[i].point != ms[j].point)
  }

  function ClaimedIds(ms: seq<RawMatch>): set<string> {
    set i | 0 <= i < |ms| :: ms[i].point
  }

  function AbsentIds(ms: seq<RawMissing>): set<string> {
    set i | 0 <= i < |ms| :: ms[i].point
  }

  predicate MissingsOk(ms: seq<RawMissing>, claimed: set<string>, req: Request, t: Texts) {
    && (forall i :: 0 <= i < |ms| ==> MissingOk(ms[i], req, t) && ms[i].point !in claimed)
    && (forall i, j :: 0 <= i < j < |ms| ==> ms[i].point != ms[j].point)
  }

  /** An excerpt that is not blank, lies in the answer and stays there after folding. */
  predicate Grounded(e: Evidence, req: Request, t: Texts) {
    && e.inAnswer && !t.blank(e.excerpt) && 0.0 <= e.confidence <= 1.0
    && t.fold(e.excerpt) != "" && Contains(t.fold(req.answer), t.fold(e.excerpt))
  }

  predicate EvidenceNamed(e: Evidence, t: Texts) { !t.blank(e.id) && !t.blank(e.point) }

  predicate EvidenceOk(es: seq<Evidence>, rejected: set<string>, standing: set<string>, req: Request, t: Texts) {
    && (forall i :: 0 <= i < |es| ==> EvidenceNamed(es[i], t))
    && (forall i :: 0 <= i < |es| && Relevant(es[i], rejected, standing) ==> Grounded(es[i], req, t))
    && (forall i, j :: 0 <= i < j < |es| && Relevant(es[i], rejected, standing) ==> es[i].id != es[j].id)
  }

  /** The standing evidence with this id that belongs to this point. */
  predicate Backs(es: seq<Evidence>, id: string, point: string) {
    exists i :: 0 <= i < |es| && es[i].id == id && es[i].point == point
  }

  predicate LinksOk(ms: seq<Match>, es: seq<Evidence>) {
    forall i, j :: 0 <= i < |ms| && 0 <= j < |ms[i].evidence| ==> Backs(es, ms[i].evidence[j], ms[i].point)
  }

  const MAX_POINTS := 100
  const MAX_EVIDENCE := 200
  const MAX_FLAGS := 20

  predicate Acceptable(raw: Raw, req: Request, t: Texts) {
    var matched, rejected := Kept(raw.matched, req, t), RejectedIds(raw.matched, req, t);
    && raw.shaped && 0.0 <= raw.score <= req.maxScore && 0.0 <= raw.confidence <= 1.0
    && |raw.matched| <= MAX_POINTS && |raw.missing| <= MAX_POINTS && |raw.evidence| <= MAX_EVIDENCE
    && |raw.flags| <= MAX_FLAGS
    && MatchesOk(raw.matched, req, t)
    && MissingsOk(raw.missing, ClaimedIds(raw.matched), req, t)
    && ClaimedIds(raw.matched) + AbsentIds(raw.missing) == PointIds(req.points)
    && EvidenceOk(raw.evidence, rejected, MatchedIds(matched), req, t)
    && LinksOk(matched, RelevantEvidence(raw, req, t))
    && Unsupported !in raw.flags
    && Sum(matched) <= req.maxScore
  }

  // ----- the loops -----

  /** The checks on one matched point. */
  method CheckMatch(m: RawMatch, req: Request, t: Texts) returns (ok: bool)
    ensures ok <==> MatchOk(m, req, t)
  {
    hide FindPoint;
    var p := FindPoint(req.points, m.point);
    if t.blank(m.point) || p.None? || m.score < 0.0 || m.score > p.value.score || m.evidence == [] { return false; }
    var seen: set<string> := {};
    for i := 0 to |m.evidence|
      invariant seen == set j | 0 <= j < i :: m.evidence[j]
      invariant forall j :: 0 <= j < i ==> !t.blank(m.evidence[j])
      invariant forall j, k :: 0 <= j < k < i ==> m.evidence[j] != m.evidence[k]
    {
      if t.blank(m.evidence[i]) || m.evidence[i] in seen { return false; }
      seen := seen + {m.evidence[i]};
    }
    ok := true;
  }

  lemma OneMoreMatch(ms: seq<RawMatch>, m: RawMatch, req: Request, t: Texts)
    ensures Kept(ms + [m], req, t) == Kept(ms, req, t)
      + if RefusedMatch(m, req, t) then [] else [Match(m.point, LabelOf(req, m.point), m.score, m.evidence)]
    ensures Demoted(ms + [m], req, t) == Demoted(ms, req, t)
      + if RefusedMatch(m, req, t) then [Missing(m.point, LabelOf(req, m.point), STRICT_ALIAS_NOT_FOUND)] else []
    ensures RejectedIds(ms + [m], req, t) == RejectedIds(ms, req, t)
      + if RefusedMatch(m, req, t) then Ids(m.evidence) else {}
  {
    hide RefusedMatch, LabelOf, Ids;
    assert (ms + [m])[..|ms|] == ms;
  }

  lemma NothingMatched(req: Request, t: Texts)
    ensures Kept([], req, t) == [] && Demoted([], req, t) == [] && RejectedIds([], req, t) == {}
  {
  }

  /** The loop over matched points: those that stand, those demoted, and the rejected evidence ids. */
  method ReadMatches(raw: Raw, req: Request, t: Texts)
      returns (ok: bool, classified: set<string>, matched: seq<Match>, demoted: seq<Missing>, rejected: set<string>)
    ensures ok <==> MatchesOk(raw.matched, req, t)
    ensures ok ==> classified == ClaimedIds(raw.matched) && matched == Kept(raw.matched, req, t)
    ensures ok ==> demoted == Demoted(raw.matched, req, t) && rejected == RejectedIds(raw.matched, req, t)
  {
    hide MatchOk, FindPoint, LabelOf, RefusedMatch, Kept, Demoted, RejectedIds, Ids;
    var ms := raw.matched;
    NothingMatched(req, t);
    classified, matched, demoted, rejected := {}, [], [], {};
    for k := 0 to |ms|
      invariant forall i :: 0 <= i < k ==> MatchOk(ms[i], req, t)
      invariant forall i, j :: 0 <= i < j < k ==> ms[i].point != ms[j].point
      invariant classified == set i | 0 <= i < k :: ms[i].point
      invariant matched == Kept(ms[..k], req, t) && demoted == Demoted(ms[..k], req, t)
      invariant rejected == RejectedIds(ms[..k], req, t)
    {
      var m := ms[k];
      assert ms[..k + 1] == ms[..k] + [m];
      OneMoreMatch(ms[..k], m, req, t);
      var fine := CheckMatch(m, req, t);
      if !fine || m.point in classified { return false, classified, matched, demoted, rejected; }
      classified := classified + {m.point};
      if RefusedMatch(m, req, t) {
        demoted := demoted + [Missing(m.point, LabelOf(req, m.point), STRICT_ALIAS_NOT_FOUND)];
        rejected := rejected + Ids(m.evidence);
      } else {
        matched := matched + [Match(m.point, LabelOf(req, m.point), m.score, m.evidence)];
      }
    }
    assert ms[..|ms|] == ms;
    ok := true;
  }

  lemma MissingsOneMore(ms: seq<RawMissing>, k: nat, claimed: set<string>, req: Request, t: Texts)
    requires k < |ms|
    ensures MissingsOk(ms[..k + 1], claimed, req, t) <==>
      && MissingsOk(ms[..k], claimed, req, t) && MissingOk(ms[k], req, t)
      && ms[k].point !in claimed + AbsentIds(ms[..k])
    ensures AbsentIds(ms[..k + 1]) == AbsentIds(ms[..k]) + {ms[k].point}
  {
    hide MissingOk;
    assert ms[..k + 1] == ms[..k] + [ms[k]];
    assert ms[k].point in AbsentIds(ms[..k]) <==> exists i :: 0 <= i < k && ms[..k][i].point == ms[k].point;
  }

  lemma {:induction false} BadMissingStays(ms: seq<RawMissing>, k: nat, claimed: set<string>, req: Request, t: Texts)
    requires k <= |ms| && !MissingsOk(ms[..k], claimed, req, t)
    ensures !MissingsOk(ms, claimed, req, t)
    decreases |ms| - k
  {
    hide MissingsOk, MissingOk, AbsentIds;
    if k == |ms| {
      assert ms[..k] == ms;
    } else {
      MissingsOneMore(ms, k, claimed, req, t);
      BadMissingStays(ms, k + 1, claimed, req, t);
    }
  }

  method ReadMissing(raw: Raw, req: Request, t: Texts, claimed: set<string>)
      returns (ok: bool, classified: set<string>, missing: seq<Missing>)
    ensures ok <==> MissingsOk(raw.missing, claimed, req, t)
    ensures ok ==> classified == claimed + AbsentIds(raw.missing) && missing == Reported(raw.missing, req)
  {
    NothingMissing(claimed, req, t);
    hide MissingOk, LabelOf, MissingsOk, AbsentIds;
    var ms := raw.missing;
    classified, missing := claimed, [];
    for k := 0 to |ms|
      invariant MissingsOk(ms[..k], claimed, req, t)
      invariant classified == claimed + AbsentIds(ms[..k])
      invariant missing == Reported(ms[..k], req)
    {
      assert ms[..k + 1][..k] == ms[..k];
      MissingsOneMore(ms, k, claimed, req, t);
      if !MissingOk(ms[k], req, t) || ms[k].point in classified {
        BadMissingStays(ms, k + 1, claimed, req, t);
        return false, classified, missing;
      }
      classified := classified + {ms[k].point};
      missing := missing + [Missing(ms[k].point, LabelOf(req, ms[k].point), ms[k].reason)];
    }
    assert ms[..|ms|] == ms;
    ok := true;
  }

  lemma NothingMissing(claimed: set<string>, req: Request, t: Texts)
    ensures MissingsOk([], claimed, req, t) && AbsentIds([]) == {}
  {
  }

  function EvidenceIds(es: seq<Evidence>): set<string> {
    set i | 0 <= i < |es| :: es[i].id
  }

  lemma {:induction false} RelevantIds(es: seq<Evidence>, rejected: set<string>, standing: set<string>, id: string)
    ensures id in EvidenceIds(RelevantOf(es, rejected, standing)) <==>
      exists i :: 0 <= i < |es| && Relevant(es[i], rejected, standing) && es[i].id == id
  {
    hide Relevant;
    if es != [] {
      var init, last := es[..|es| - 1], es[|es| - 1];
      RelevantIds(init, rejected, standing, id);
      AppendedIds(RelevantOf(init, rejected, standing), last, id);
      assert forall i :: 0 <= i < |init| ==> init[i] == es[i];
    }
  }

  lemma AppendedIds(es: seq<Evidence>, e: Evidence, id: string)
    ensures id in EvidenceIds(es + [e]) <==> id in EvidenceIds(es) || e.id == id
  {
    if id in EvidenceIds(es) {
      var i :| 0 <= i < |es| && es[i].id == id;
      assert (es + [e])[i] == es[i];
    }
    assert (es + [e])[|es|] == e;
  }

  lemma EvidenceOneMore(es: seq<Evidence>, k: nat, rejected: set<string>, standing: set<string>, req: Request, t: Texts)
    requires k < |es|
    ensures EvidenceOk(es[..k + 1], rejected, standing, req, t) <==>
      && EvidenceOk(es[..k], rejected, standing, req, t) && EvidenceNamed(es[k], t)
      && (Relevant(es[k], rejected, standing) ==> Grounded(es[k], req, t))
      && es[k].id !in EvidenceIds(RelevantOf(es[..k], rejected, standing))
    ensures es[k].id in rejected ==> es[k].id !in EvidenceIds(RelevantOf(es[..k], rejected, standing))
  {
    hide Grounded, EvidenceNamed, RelevantOf, EvidenceIds;
    RelevantIds(es[..k], rejected, standing, es[k].id);
    assert es[..k + 1] == es[..k] + [es[k]];
  }

  lemma {:induction false} BadEvidenceStays(es: seq<Evidence>, k: nat, rejected: set<string>, standing: set<string>,
      req: Request, t: Texts)
    requires k <= |es| && !EvidenceOk(es[..k], rejected, standing, req, t)
    ensures !EvidenceOk(es, rejected, standing, req, t)
    decreases |es| - k
  {
    hide EvidenceOk, Grounded, EvidenceNamed, RelevantOf, EvidenceIds;
    if k == |es| {
      assert es[..k] == es;
    } else {
      EvidenceOneMore(es, k, rejected, standing, req, t);
      BadEvidenceStays(es, k + 1, rejected, standing, req, t);
    }
  }

  /** The loop over evidence: skips what was rejected or belongs to no standing match. */
  method ReadEvidence(raw: Raw, req: Request, t: Texts, rejected: set<string>, standing: set<string>)
      returns (ok: bool, kept: seq<Evidence>)
    ensures ok <==> EvidenceOk(raw.evidence, rejected, standing, req, t)
    ensures ok ==> kept == RelevantOf(raw.evidence, rejected, standing)
  {
    NoEvidence(rejected, standing, req, t);
    hide Grounded, EvidenceNamed, EvidenceOk, EvidenceIds;
    var es := raw.evidence;
    kept := [];
    var ids: set<string> := {};
    for k := 0 to |es|
      invariant EvidenceOk(es[..k], rejected, standing, req, t)
      invariant kept == RelevantOf(es[..k], rejected, standing)
      invariant ids == EvidenceIds(kept)
    {
      var e := es[k];
      assert es[..k + 1][..k] == es[..k];
      EvidenceOneMore(es, k, rejected, standing, req, t);
      ghost var bad := !EvidenceOk(es[..k + 1], rejected, standing, req, t);
      if bad { BadEvidenceStays(es, k + 1, rejected, standing, req, t); }
      if !EvidenceNamed(e, t) { return false, kept; }
      if e.id !in rejected {
        if e.id in ids { return false, kept; }
        if e.point in standing {
          if !Grounded(e, req, t) { return false, kept; }
          MoreIds(kept, e);
          ids := ids + {e.id};
          kept := kept + [e];
        }
      }
    }
    assert es[..|es|] == es;
    ok := true;
  }

  lemma MoreIds(es: seq<Evidence>, e: Evidence)
    ensures EvidenceIds(es + [e]) == EvidenceIds(es) + {e.id}
  {
    hide EvidenceIds;
    forall id ensures id in EvidenceIds(es + [e]) <==> id in EvidenceIds(es) + {e.id} {
      AppendedIds(es, e, id);
    }
  }

  lemma NoEvidence(rejected: set<string>, standing: set<string>, req: Request, t: Texts)
    ensures EvidenceOk([], rejected, standing, req, t) && EvidenceIds([]) == {}
  {
  }

  /** Every link of a standing match must lead to its own evidence. */
  method CheckLinks(matched: seq<Match>, kept: seq<Evidence>) returns (ok: bool, referenced: set<string>)
    ensures ok <==> LinksOk(matched, kept)
    ensures ok ==> referenced == Referenced(matched)
  {
    hide Backs;
    referenced := {};
    for i := 0 to |matched|
      invariant forall a, b :: 0 <= a < i && 0 <= b < |matched[a].evidence| ==>
        Backs(kept, matched[a].evidence[b], matched[a].point)
      invariant referenced == Referenced(matched[..i])
    {
      assert matched[..i + 1][..i] == matched[..i];
      ghost var before := referenced;
      for j := 0 to |matched[i].evidence|
        invariant forall b :: 0 <= b < j ==> Backs(kept, matched[i].evidence[b], matched[i].point)
        invariant referenced == before + set b | 0 <= b < j :: matched[i].evidence[b]
      {
        if !Backs(kept, matched[i].evidence[j], matched[i].point) { return false, referenced; }
        referenced := referenced + {matched[i].evidence[j]};
      }
    }
    assert matched[..|matched|] == matched;
    ok := true;
  }

  method CollectFlags(raw: Raw, req: Request, repaired: bool) returns (flags: seq<Flag>)
    ensures flags == FlagsFor(raw, req, repaired)
  {
    flags := [];
    for k := 0 to |raw.flags|
      invariant flags == Distinctly(raw.flags[..k])
    {
      assert raw.flags[..k + 1][..k] == raw.flags[..k];
      flags := AppendUnique(flags, raw.flags[k]);
    }
    assert raw.flags[..|raw.flags|] == raw.flags;
    flags := AppendUnique(AppendUnique(flags, NeedsReview), HumanReview);
    if req.ocrLow { flags := AppendUnique(flags, OcrLow); }
    if req.injection { flags := AppendUnique(flags, Injection); }
    if repaired { flags := AppendUnique(flags, Repaired); }
  }

  /** A suggestion is returned exactly for acceptable output, and is then the one specified. */
  method NormalizeModelOutput(raw: Raw, req: Request, t: Texts, repaired: bool) returns (r: Option<Result>)
    ensures r == if Acceptable(raw, req, t) then Some(SuggestionOf(raw, req, t, repaired)) else None
  {
    hide MatchesOk, MissingsOk, EvidenceOk, LinksOk, Kept, Demoted, RejectedIds, Reported, RelevantOf, OnlyIds,
      Referenced, FlagsFor, ClaimedIds, AbsentIds, PointIds, MatchedIds, Sum;
    if !raw.shaped || raw.score < 0.0 || raw.score > req.maxScore || raw.confidence < 0.0 || raw.confidence > 1.0 {
      return None;
    }
    if |raw.matched| > MAX_POINTS { return None; }
    var ok, claimed, matched, demoted, rejected := ReadMatches(raw, req, t);
    if !ok || |raw.missing| > MAX_POINTS { return None; }
    var classified: set<string>, missing: seq<Missing>;
    ok, classified, missing := ReadMissing(raw, req, t, claimed);
    if !ok || classified != PointIds(req.points) || |raw.evidence| > MAX_EVIDENCE { return None; }
    var kept: seq<Evidence>;
    ok, kept := ReadEvidence(raw, req, t, rejected, MatchedIds(matched));
    if !ok { return None; }
    var referenced: set<string>;
    ok, referenced := CheckLinks(matched, kept);
    if !ok || |raw.flags| > MAX_FLAGS || Unsupported in raw.flags { return None; }
    var flags := CollectFlags(raw, req, repaired);
    var score := Sum(matched);
    var suggested := if score < 0.0 then 0.0 else if score > req.maxScore then req.maxScore else score;
    if score != suggested || score > req.maxScore {
      KeptSumNotNegative(raw.matched, req, t);
      return None;
    }
    r := Some(Suggested(suggested, matched, demoted + missing, OnlyIds(kept, referenced), flags));
  }

  lemma {:induction false} KeptSumNotNegative(ms: seq<RawMatch>, req: Request, t: Texts)
    requires MatchesOk(ms, req, t)
    ensures Sum(Kept(ms, req, t)) >= 0.0
  {
    hide RefusedMatch, LabelOf, FindPoint;
    if ms != [] {
      KeptSumNotNegative(ms[..|ms| - 1], req, t);
      assert MatchOk(ms[|ms| - 1], req, t);
    }
  }
}
