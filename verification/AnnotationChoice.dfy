/** What the pair selection returns: an eligible pair that no eligible pair
    outranks, whenever there is an eligible pair at all. */
module AnnotationChoice {
  import opened Annotation
  import opened AnnotationPlan

  ghost predicate IsQualified(roster: seq<Worker>, s: Sample, role: Role, id: Id) {
    exists i :: 0 <= i < |roster| && roster[i].id == id && Qualified(roster[i], s, role)
  }

  /** Two different qualified teachers and a qualified adjudicator who is neither. */
  ghost predicate Eligible(roster: seq<Worker>, s: Sample, c: Choice) {
    && c.low < c.high
    && IsQualified(roster, s, Teacher, c.low) && IsQualified(roster, s, Teacher, c.high)
    && Independent(roster, s, c)
  }

  // ----- the candidate list holds exactly the eligible pairs -----

  lemma {:induction false} TeachersExactly(roster: seq<Worker>, s: Sample)
    requires DistinctWorkers(roster)
    ensures DistinctWorkers(TeachersFor(roster, s))
    ensures forall w :: w in TeachersFor(roster, s) <==> w in roster && Qualified(w, s, Teacher)
  {
    hide Qualified;
    if roster != [] {
      var init, last := roster[..|roster| - 1], roster[|roster| - 1];
      TeachersExactly(init, s);
      assert roster == init + [last];
      var rest := TeachersFor(init, s);
      forall i | 0 <= i < |rest| ensures rest[i].id != last.id {
        assert rest[i] in init;
      }
    }
  }

  lemma {:induction false} RowExactly(roster: seq<Worker>, s: Sample, ts: seq<Worker>, left: nat, right: nat)
    requires left < right <= |ts|
    ensures forall c :: c in Row(roster, s, ts, left, right) ==>
      Independent(roster, s, c) && exists j :: left < j < right && c == PairOf(ts[left], ts[j])
    ensures forall j :: left < j < right && Independent(roster, s, PairOf(ts[left], ts[j])) ==>
      PairOf(ts[left], ts[j]) in Row(roster, s, ts, left, right)
  {
    hide Independent, PairOf;
    if right > left + 1 {
      RowExactly(roster, s, ts, left, right - 1);
      forall c | c in Row(roster, s, ts, left, right)
        ensures exists j :: left < j < right && c == PairOf(ts[left], ts[j])
      {
        if c !in Row(roster, s, ts, left, right - 1) {
          assert c == PairOf(ts[left], ts[right - 1]);
        }
      }
    }
  }

  ghost predicate InRow(roster: seq<Worker>, s: Sample, ts: seq<Worker>, i: nat, c: Choice) {
    i < |ts| && c in Row(roster, s, ts, i, |ts|)
  }

  lemma {:induction false} RowsHold(roster: seq<Worker>, s: Sample, ts: seq<Worker>, n: nat, c: Choice)
    requires n <= |ts|
    ensures c in Rows(roster, s, ts, n) <==> exists i :: 0 <= i < n && InRow(roster, s, ts, i, c)
  {
    if n > 0 {
      RowsHold(roster, s, ts, n - 1, c);
      assert c in Row(roster, s, ts, n - 1, |ts|) <==> InRow(roster, s, ts, n - 1, c);
    }
  }

  lemma CandidateIsEligible(roster: seq<Worker>, s: Sample, c: Choice)
    requires DistinctWorkers(roster) && c in Candidates(roster, s)
    ensures Eligible(roster, s, c)
  {
    hide Row, Rows, TeachersFor, Qualified, Independent, DistinctWorkers;
    var ts := TeachersFor(roster, s);
    TeachersExactly(roster, s);
    RowsHold(roster, s, ts, |ts|, c);
    var i :| 0 <= i < |ts| && InRow(roster, s, ts, i, c);
    RowExactly(roster, s, ts, i, |ts|);
    var j :| i < j < |ts| && c == PairOf(ts[i], ts[j]);
    DifferentWorkers(ts, i, j);
    TeacherQualified(roster, s, ts[i]);
    TeacherQualified(roster, s, ts[j]);
  }

  lemma DifferentWorkers(ts: seq<Worker>, i: nat, j: nat)
    requires DistinctWorkers(ts) && i < j < |ts|
    ensures ts[i].id != ts[j].id
  {
  }

  lemma TeacherQualified(roster: seq<Worker>, s: Sample, w: Worker)
    requires w in roster && Qualified(w, s, Teacher)
    ensures IsQualified(roster, s, Teacher, w.id)
  {
  }

  lemma EligibleIsCandidate(roster: seq<Worker>, s: Sample, c: Choice)
    requires DistinctWorkers(roster) && Eligible(roster, s, c)
    ensures c in Candidates(roster, s)
  {
    hide Row, Rows, TeachersFor, Qualified, Independent, DistinctWorkers;
    var ts := TeachersFor(roster, s);
    TeachersExactly(roster, s);
    var i := TeacherIndex(roster, s, c.low);
    var j := TeacherIndex(roster, s, c.high);
    var lo, hi := if i < j then i else j, if i < j then j else i;
    assert c == PairOf(ts[lo], ts[hi]);
    RowExactly(roster, s, ts, lo, |ts|);
    assert InRow(roster, s, ts, lo, c);
    RowsHold(roster, s, ts, |ts|, c);
  }

  lemma TeacherIndex(roster: seq<Worker>, s: Sample, id: Id) returns (i: nat)
    requires DistinctWorkers(roster) && IsQualified(roster, s, Teacher, id)
    ensures i < |TeachersFor(roster, s)| && TeachersFor(roster, s)[i].id == id
  {
    hide Qualified, TeachersFor;
    TeachersExactly(roster, s);
    var k :| 0 <= k < |roster| && roster[k].id == id && Qualified(roster[k], s, Teacher);
    assert roster[k] in TeachersFor(roster, s);
    i :| i < |TeachersFor(roster, s)| && TeachersFor(roster, s)[i] == roster[k];
  }

  // ----- the choice is a least-ranked candidate -----

  lemma BeforeIsStrict(a: Rank, b: Rank, c: Rank)
    ensures !Before(a, a)
    ensures Before(a, b) && !Before(c, b) ==> !Before(c, a)
  {
  }

  lemma {:induction false} BestIsLeast(p: Progress, s: Sample, seed: Seed, cs: seq<Choice>, k: nat)
    requires 0 < k <= |cs|
    ensures Best(p, s, seed, cs, k) in cs[..k]
    ensures forall i :: 0 <= i < k ==>
      !Before(RankOf(p, s, seed, cs[i]), RankOf(p, s, seed, Best(p, s, seed, cs, k)))
  {
    hide Before, RankOf;
    BeforeIsStrict(RankOf(p, s, seed, cs[k - 1]), RankOf(p, s, seed, cs[k - 1]), RankOf(p, s, seed, cs[k - 1]));
    if k > 1 {
      BestIsLeast(p, s, seed, cs, k - 1);
      forall i | 0 <= i < k
        ensures !Before(RankOf(p, s, seed, cs[i]), RankOf(p, s, seed, Best(p, s, seed, cs, k)))
      {
        BeforeIsStrict(RankOf(p, s, seed, cs[k - 1]), RankOf(p, s, seed, Best(p, s, seed, cs, k - 1)),
                       RankOf(p, s, seed, cs[i]));
      }
    }
  }

  /** A pair is chosen exactly when one is eligible; it is eligible and never outranked. */
  lemma ChoiceIsLeastRanked(roster: seq<Worker>, s: Sample, p: Progress, seed: Seed)
    requires DistinctWorkers(roster)
    ensures ChooseTeacherPair(roster, s, p, seed).None? <==> forall c :: !Eligible(roster, s, c)
    ensures ChooseTeacherPair(roster, s, p, seed).Some? ==>
      var best := ChooseTeacherPair(roster, s, p, seed).value;
      && Eligible(roster, s, best)
      && forall c :: Eligible(roster, s, c) ==> !Before(RankOf(p, s, seed, c), RankOf(p, s, seed, best))
  {
    hide Eligible, Candidates, DistinctWorkers, Before, RankOf, Best;
    var cs := Candidates(roster, s);
    forall c ensures c in cs <==> Eligible(roster, s, c) {
      if c in cs { CandidateIsEligible(roster, s, c); }
      if Eligible(roster, s, c) { EligibleIsCandidate(roster, s, c); }
    }
    if cs != [] {
      assert cs[0] in cs;
      BestIsLeast(p, s, seed, cs, |cs|);
      assert cs[..|cs|] == cs;
    }
  }

  // ----- when planning succeeds -----

  /** Each sample has an eligible pair. */
  ghost predicate Annotatable(roster: seq<Worker>, s: Sample) {
    exists c :: Eligible(roster, s, c)
  }

  lemma {:induction false} PlanUpToSucceeds(planId: string, roster: seq<Worker>, sorted: seq<Sample>, seed: Seed,
      k: nat)
    requires DistinctWorkers(roster) && k <= |sorted|
    ensures PlanUpTo(planId, roster, sorted, seed, k).Success? <==> forall i :: 0 <= i < k ==>
      Annotatable(roster, sorted[i])
  {
    hide Eligible, ChooseTeacherPair, Place, DistinctWorkers, RankOf, Before;
    if k > 0 {
      PlanUpToSucceeds(planId, roster, sorted, seed, k - 1);
      if PlanUpTo(planId, roster, sorted, seed, k - 1).Success? {
        ChoiceIsLeastRanked(roster, sorted[k - 1], PlanUpTo(planId, roster, sorted, seed, k - 1).value, seed);
      }
    }
  }
}
