/** What every returned suggestion guarantees, whatever the model sent. */
module SuggestionFacts {
  import opened Suggestion

  function MissingIds(ms: seq<Missing>): set<string> {
    set i | 0 <= i < |ms| :: ms[i].point
  }

  ghost predicate DistinctMatches(ms: seq<Match>) {
    forall i, j :: 0 <= i < j < |ms| ==> ms[i].point != ms[j].point
  }

  ghost predicate DistinctMissing(ms: seq<Missing>) {
    forall i, j :: 0 <= i < j < |ms| ==> ms[i].point != ms[j].point
  }

  // ----- matches that stand and matches that are demoted -----

  lemma MatchedIdsAppend(ms: seq<Match>, m: Match)
    ensures MatchedIds(ms + [m]) == MatchedIds(ms) + {m.point}
  {
    forall id ensures id in MatchedIds(ms + [m]) <==> id in MatchedIds(ms) || id == m.point {
      if id in MatchedIds(ms) {
        var i :| 0 <= i < |ms| && ms[i].point == id;
        assert (ms + [m])[i] == ms[i];
      }
      assert (ms + [m])[|ms|] == m;
    }
  }

  lemma MissingIdsAppend(ms: seq<Missing>, m: Missing)
    ensures MissingIds(ms + [m]) == MissingIds(ms) + {m.point}
  {
    forall id ensures id in MissingIds(ms + [m]) <==> id in MissingIds(ms) || id == m.point {
      if id in MissingIds(ms) {
        var i :| 0 <= i < |ms| && ms[i].point == id;
        assert (ms + [m])[i] == ms[i];
      }
      assert (ms + [m])[|ms|] == m;
    }
  }

  lemma ClaimedAppend(ms: seq<RawMatch>)
    requires ms != []
    ensures ClaimedIds(ms) == ClaimedIds(ms[..|ms| - 1]) + {ms[|ms| - 1].point}
  {
    forall id ensures id in ClaimedIds(ms) <==> id in ClaimedIds(ms[..|ms| - 1]) || id == ms[|ms| - 1].point {
      if id in ClaimedIds(ms) && id != ms[|ms| - 1].point {
        var i :| 0 <= i < |ms| && ms[i].point == id;
        assert ms[..|ms| - 1][i] == ms[i];
      }
    }
  }

  ghost predicate DistinctClaims(ms: seq<RawMatch>) {
    forall i, j :: 0 <= i < j < |ms| ==> ms[i].point != ms[j].point
  }

  lemma LastClaimIsNew(ms: seq<RawMatch>)
    requires DistinctClaims(ms) && ms != []
    ensures DistinctClaims(ms[..|ms| - 1]) && ms[|ms| - 1].point !in ClaimedIds(ms[..|ms| - 1])
  {
  }

  /** Claimed points divide into those that stand and those that are demoted. */
  lemma {:induction false} ClaimsDivide(ms: seq<RawMatch>, req: Request, t: Texts)
    requires DistinctClaims(ms)
    ensures var kept, demoted := Kept(ms, req, t), Demoted(ms, req, t);
      && MatchedIds(kept) + MissingIds(demoted) == ClaimedIds(ms) && MatchedIds(kept) !! MissingIds(demoted)
      && DistinctMatches(kept) && DistinctMissing(demoted)
  {
    hide RefusedMatch, LabelOf, MatchedIds, MissingIds, ClaimedIds, DistinctMatches, DistinctMissing, DistinctClaims;
    if ms == [] {
      NothingClaimed();
    } else {
      var init, m := ms[..|ms| - 1], ms[|ms| - 1];
      LastClaimIsNew(ms);
      ClaimsDivide(init, req, t);
      ClaimedAppend(ms);
      if RefusedMatch(m, req, t) {
        MissingIdsAppend(Demoted(init, req, t), Missing(m.point, LabelOf(req, m.point), STRICT_ALIAS_NOT_FOUND));
        DistinctMissingAppend(Demoted(init, req, t), Missing(m.point, LabelOf(req, m.point), STRICT_ALIAS_NOT_FOUND));
      } else {
        MatchedIdsAppend(Kept(init, req, t), Match(m.point, LabelOf(req, m.point), m.score, m.evidence));
        DistinctMatchesAppend(Kept(init, req, t), Match(m.point, LabelOf(req, m.point), m.score, m.evidence));
      }
    }
  }

  lemma NothingClaimed()
    ensures MatchedIds([]) == {} && MissingIds([]) == {} && ClaimedIds([]) == {}
    ensures DistinctMatches([]) && DistinctMissing([])
  {
  }

  lemma DistinctMatchesAppend(ms: seq<Match>, m: Match)
    requires DistinctMatches(ms) && m.point !in MatchedIds(ms)
    ensures DistinctMatches(ms + [m])
  {
  }

  lemma DistinctMissingAppend(ms: seq<Missing>, m: Missing)
    requires DistinctMissing(ms) && m.point !in MissingIds(ms)
    ensures DistinctMissing(ms + [m])
  {
  }

  lemma {:induction false} ReportedPoints(ms: seq<RawMissing>, req: Request)
    ensures |Reported(ms, req)| == |ms| && forall i :: 0 <= i < |ms| ==> Reported(ms, req)[i].point == ms[i].point
  {
    hide LabelOf;
    if ms != [] { ReportedPoints(ms[..|ms| - 1], req); }
  }

  /** Matched and missing points are disjoint, each listed once, and together the whole rubric. */
  lemma PointsArePartitioned(raw: Raw, req: Request, t: Texts, repaired: bool)
    requires Acceptable(raw, req, t)
    ensures var s := SuggestionOf(raw, req, t, repaired);
      && MatchedIds(s.matched) + MissingIds(s.missing) == PointIds(req.points)
      && MatchedIds(s.matched) !! MissingIds(s.missing)
      && DistinctMatches(s.matched) && DistinctMissing(s.missing)
  {
    hide MatchOk, MissingOk, EvidenceOk, LinksOk, Kept, Demoted, RejectedIds, Reported, RelevantOf, OnlyIds,
      Referenced, FlagsFor, PointIds, Sum, FindPoint;
    ClaimsDivide(raw.matched, req, t);
    ReportedPoints(raw.missing, req);
    MissingsJoin(Demoted(raw.matched, req, t), raw.missing, Reported(raw.missing, req), ClaimedIds(raw.matched),
        req, t);
  }

  lemma MissingsJoin(demoted: seq<Missing>, ms: seq<RawMissing>, reported: seq<Missing>, claimed: set<string>,
      req: Request, t: Texts)
    requires MissingsOk(ms, claimed, req, t) && MissingIds(demoted) <= claimed && DistinctMissing(demoted)
    requires |reported| == |ms| && forall i :: 0 <= i < |ms| ==> reported[i].point == ms[i].point
    ensures MissingIds(demoted + reported) == MissingIds(demoted) + AbsentIds(ms)
    ensures DistinctMissing(demoted + reported) && AbsentIds(ms) !! claimed
  {
    hide MissingOk;
    var all := demoted + reported;
    forall id ensures id in MissingIds(all) <==> id in MissingIds(demoted) + AbsentIds(ms) {
      if id in MissingIds(all) {
        var i :| 0 <= i < |all| && all[i].point == id;
        assert i >= |demoted| ==> ms[i - |demoted|].point == id;
        assert i < |demoted| ==> demoted[i].point == id;
      }
      if id in MissingIds(demoted) {
        var i :| 0 <= i < |demoted| && demoted[i].point == id;
        assert all[i] == demoted[i];
      }
      if id in AbsentIds(ms) {
        var i :| 0 <= i < |ms| && ms[i].point == id;
        assert all[|demoted| + i] == reported[i];
      }
    }
    forall i, j | 0 <= i < j < |all| ensures all[i].point != all[j].point {
      if i < |demoted| <= j {
        assert demoted[i].point in MissingIds(demoted);
        assert ms[j - |demoted|].point !in claimed;
      }
    }
  }

  // ----- each matched point -----

  /** The match stems from a raw one that passed its checks and was not refused. */
  ghost predicate Stands(m: Match, ms: seq<RawMatch>, req: Request, t: Texts) {
    exists i :: 0 <= i < |ms| && m.point == ms[i].point && m.score == ms[i].score && m.evidence == ms[i].evidence
      && !RefusedMatch(ms[i], req, t)
  }

  lemma {:induction false} KeptStand(ms: seq<RawMatch>, req: Request, t: Texts)
    ensures forall i :: 0 <= i < |Kept(ms, req, t)| ==> Stands(Kept(ms, req, t)[i], ms, req, t)
  {
    hide RefusedMatch, LabelOf;
    if ms != [] {
      var init := ms[..|ms| - 1];
      KeptStand(init, req, t);
      forall i | 0 <= i < |Kept(init, req, t)| ensures Stands(Kept(init, req, t)[i], ms, req, t) {
        var j :| 0 <= j < |init| && Kept(init, req, t)[i].point == init[j].point
          && Kept(init, req, t)[i].score == init[j].score
          && Kept(init, req, t)[i].evidence == init[j].evidence && !RefusedMatch(init[j], req, t);
        assert ms[j] == init[j];
      }
      if !RefusedMatch(ms[|ms| - 1], req, t) {
        assert ms[|ms| - 1] == ms[|ms| - 1];
      }
    }
  }

  /** The point is in the rubric, its score is in range, and a strict point has one of its aliases in the answer. */
  lemma MatchIsGoverned(raw: Raw, req: Request, t: Texts, repaired: bool, i: nat)
    requires Acceptable(raw, req, t) && i < |SuggestionOf(raw, req, t, repaired).matched|
    ensures var m := SuggestionOf(raw, req, t, repaired).matched[i];
      && FindPoint(req.points, m.point).Some?
      && var p := FindPoint(req.points, m.point).value;
         0.0 <= m.score <= p.score && (p.strictAlias ==> AliasFound(p, req, t)) && m.evidence != []
  {
    hide MissingOk, EvidenceOk, LinksOk, Kept, Demoted, RejectedIds, Reported, RelevantOf, OnlyIds, Referenced,
      FlagsFor, FindPoint, PointIds, Sum, MissingsOk, AliasFound, NoRepeats;
    KeptStand(raw.matched, req, t);
    var m := Kept(raw.matched, req, t)[i];
    assert Stands(m, raw.matched, req, t);
    var j :| 0 <= j < |raw.matched| && m.point == raw.matched[j].point && m.score == raw.matched[j].score
      && m.evidence == raw.matched[j].evidence && !RefusedMatch(raw.matched[j], req, t);
    assert MatchOk(raw.matched[j], req, t);
  }

  // ----- evidence -----

  lemma {:induction false} OnlyIdsHold(es: seq<Evidence>, ids: set<string>)
    ensures forall e :: e in OnlyIds(es, ids) <==> e in es && e.id in ids
  {
    if es != [] {
      OnlyIdsHold(es[..|es| - 1], ids);
      assert es == es[..|es| - 1] + [es[|es| - 1]];
    }
  }

  lemma {:induction false} RelevantHold(es: seq<Evidence>, rejected: set<string>, standing: set<string>)
    ensures forall e :: e in RelevantOf(es, rejected, standing) <==> e in es && Relevant(e, rejected, standing)
  {
    hide Relevant;
    if es != [] {
      RelevantHold(es[..|es| - 1], rejected, standing);
      assert es == es[..|es| - 1] + [es[|es| - 1]];
    }
  }

  lemma {:induction false} ReferencedHold(ms: seq<Match>, id: string)
    ensures id in Referenced(ms) <==> exists i :: 0 <= i < |ms| && id in ms[i].evidence
  {
    if ms != [] {
      ReferencedHold(ms[..|ms| - 1], id);
      if exists i :: 0 <= i < |ms| && id in ms[i].evidence {
        var i :| 0 <= i < |ms| && id in ms[i].evidence;
        assert i < |ms| - 1 ==> id in ms[..|ms| - 1][i].evidence;
      }
    }
  }

  /** Every linked id has grounded evidence for the same point in the suggestion. */
  lemma LinksAreBacked(raw: Raw, req: Request, t: Texts, repaired: bool, i: nat, j: nat) returns (e: Evidence)
    requires Acceptable(raw, req, t) && i < |SuggestionOf(raw, req, t, repaired).matched|
    requires j < |SuggestionOf(raw, req, t, repaired).matched[i].evidence|
    ensures var s := SuggestionOf(raw, req, t, repaired);
      && e in s.evidence && e.id == s.matched[i].evidence[j] && e.point == s.matched[i].point && Grounded(e, req, t)
  {
    hide MatchesOk, MissingsOk, Kept, Demoted, RejectedIds, Reported, RelevantOf, OnlyIds, Referenced, FlagsFor,
      MatchedIds, ClaimedIds, AbsentIds, PointIds, Sum, Grounded, EvidenceNamed, Relevant;
    var s, rel := SuggestionOf(raw, req, t, repaired), RelevantEvidence(raw, req, t);
    assert Backs(rel, s.matched[i].evidence[j], s.matched[i].point);
    var k :| 0 <= k < |rel| && rel[k].id == s.matched[i].evidence[j] && rel[k].point == s.matched[i].point;
    e := rel[k];
    assert e in rel;
    RelevantHold(raw.evidence, RejectedIds(raw.matched, req, t), MatchedIds(s.matched));
    var n :| 0 <= n < |raw.evidence| && raw.evidence[n] == e;
    ReferencedHold(s.matched, e.id);
    assert e.id in s.matched[i].evidence;
    OnlyIdsHold(rel, Referenced(s.matched));
  }

  /** No unreferenced, rejected or ungrounded evidence survives: each item backs a link of its own point. */
  lemma EvidenceIsReferenced(raw: Raw, req: Request, t: Texts, repaired: bool, e: Evidence) returns (i: nat)
    requires Acceptable(raw, req, t) && e in SuggestionOf(raw, req, t, repaired).evidence
    ensures var s := SuggestionOf(raw, req, t, repaired);
      && i < |s.matched| && e.id in s.matched[i].evidence && e.point == s.matched[i].point
      && Grounded(e, req, t) && e.id !in RejectedIds(raw.matched, req, t)
  {
    hide MatchesOk, MissingsOk, Kept, Demoted, RejectedIds, Reported, RelevantOf, OnlyIds, Referenced, FlagsFor,
      MatchedIds, ClaimedIds, AbsentIds, PointIds, Sum, Grounded, EvidenceNamed;
    var s, rel := SuggestionOf(raw, req, t, repaired), RelevantEvidence(raw, req, t);
    OnlyIdsHold(rel, Referenced(s.matched));
    RelevantHold(raw.evidence, RejectedIds(raw.matched, req, t), MatchedIds(s.matched));
    ReferencedHold(s.matched, e.id);
    i :| 0 <= i < |s.matched| && e.id in s.matched[i].evidence;
    var j :| 0 <= j < |s.matched[i].evidence| && s.matched[i].evidence[j] == e.id;
    var backing := LinksAreBacked(raw, req, t, repaired, i, j);
    SameIdSameEvidence(raw.evidence, RejectedIds(raw.matched, req, t), MatchedIds(s.matched), req, t, e, backing);
  }

  lemma SameIdSameEvidence(es: seq<Evidence>, rejected: set<string>, standing: set<string>, req: Request, t: Texts,
      a: Evidence, b: Evidence)
    requires EvidenceOk(es, rejected, standing, req, t) && a in es && b in es && a.id == b.id
    requires Relevant(a, rejected, standing) && Relevant(b, rejected, standing)
    ensures a == b && Grounded(a, req, t)
  {
    hide Grounded, EvidenceNamed, Relevant;
    var i :| 0 <= i < |es| && es[i] == a;
    var j :| 0 <= j < |es| && es[j] == b;
    assert i == j;
  }

  // ----- score and flags -----

  /** The score is recomputed from the matches and never exceeds the maximum. */
  lemma ScoreIsRecomputed(raw: Raw, req: Request, t: Texts, repaired: bool)
    requires Acceptable(raw, req, t)
    ensures var s := SuggestionOf(raw, req, t, repaired); s.score == Sum(s.matched) && 0.0 <= s.score <= req.maxScore
  {
    hide MatchesOk, MissingsOk, Kept, Demoted, RejectedIds, Reported, RelevantOf, OnlyIds, Referenced, FlagsFor,
      MatchedIds, ClaimedIds, AbsentIds, PointIds, EvidenceOk, LinksOk, Sum;
    KeptSumNotNegative(raw.matched, req, t);
  }

  ghost predicate DistinctFlags(flags: seq<Flag>) {
    forall i, j :: 0 <= i < j < |flags| ==> flags[i] != flags[j]
  }

  lemma AppendUniqueFacts(flags: seq<Flag>, f: Flag)
    requires DistinctFlags(flags)
    ensures DistinctFlags(AppendUnique(flags, f))
    ensures forall g :: g in AppendUnique(flags, f) <==> g in flags || g == f
  {
  }

  lemma {:induction false} DistinctlyFacts(flags: seq<Flag>)
    ensures DistinctFlags(Distinctly(flags)) && forall g :: g in Distinctly(flags) <==> g in flags
  {
    hide AppendUnique;
    if flags != [] {
      DistinctlyFacts(flags[..|flags| - 1]);
      AppendUniqueFacts(Distinctly(flags[..|flags| - 1]), flags[|flags| - 1]);
      assert flags == flags[..|flags| - 1] + [flags[|flags| - 1]];
    }
  }

  /** Flags are listed once; a flag is set exactly when the model raised it or the rules call for it. */
  lemma FlagsAreGoverned(raw: Raw, req: Request, repaired: bool, f: Flag)
    ensures DistinctFlags(FlagsFor(raw, req, repaired))
    ensures f in FlagsFor(raw, req, repaired) <==>
      || f in raw.flags || f == NeedsReview || f == HumanReview
      || (f == OcrLow && req.ocrLow) || (f == Injection && req.injection) || (f == Repaired && repaired)
  {
    hide AppendUnique, Distinctly, DistinctFlags;
    DistinctlyFacts(raw.flags);
    var d := Distinctly(raw.flags);
    AppendUniqueFacts(d, NeedsReview);
    AppendUniqueFacts(AppendUnique(d, NeedsReview), HumanReview);
    var a := AppendUnique(AppendUnique(d, NeedsReview), HumanReview);
    AppendUniqueFacts(a, OcrLow);
    var b := if req.ocrLow then AppendUnique(a, OcrLow) else a;
    AppendUniqueFacts(b, Injection);
    var c := if req.injection then AppendUnique(b, Injection) else b;
    AppendUniqueFacts(c, Repaired);
  }
}
