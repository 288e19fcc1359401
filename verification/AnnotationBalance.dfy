/** How evenly the greedy choice spreads work: when one step keeps all loads
    within one of each other, and when a whole plan does. */
module AnnotationBalance {
  import opened Annotation
  import opened AnnotationPlan
  import opened AnnotationChoice
  import opened AnnotationBuilt

  /** The teachers qualified for a sample. */
  ghost predicate Team(roster: seq<Worker>, s: Sample, team: set<Id>) {
    forall id :: IsQualified(roster, s, Teacher, id) <==> id in team
  }

  ghost predicate Balanced(team: set<Id>, loads: map<Id, nat>) {
    forall a, b :: a in team && b in team ==> Load(loads, a) <= Load(loads, b) + 1
  }

  ghost predicate LeastLoaded(team: set<Id>, loads: map<Id, nat>, w: Id) {
    w in team && forall v :: v in team ==> Load(loads, w) <= Load(loads, v)
  }

  predicate Holds(c: Choice, w: Id) { c.low == w || c.high == w }

  /** Some eligible pair consists of two least loaded teachers. */
  ghost predicate LeastPairEligible(roster: seq<Worker>, s: Sample, team: set<Id>, loads: map<Id, nat>) {
    exists c :: Eligible(roster, s, c) && LeastLoaded(team, loads, c.low) && LeastLoaded(team, loads, c.high)
  }

  /** One teacher alone is least loaded, and some eligible pair holds that teacher. */
  ghost predicate LoneLeastEligible(roster: seq<Worker>, s: Sample, team: set<Id>, loads: map<Id, nat>) {
    exists w :: LeastLoaded(team, loads, w) && (forall v :: LeastLoaded(team, loads, v) ==> v == w)
      && PairedWith(roster, s, w)
  }

  ghost predicate PairedWith(roster: seq<Worker>, s: Sample, w: Id) {
    exists c :: Eligible(roster, s, c) && Holds(c, w)
  }

  // ----- loads after a step -----

  lemma PlaceLoads(planId: string, s: Sample, seed: Seed, c: Choice, p: Progress, w: Id)
    requires c.low != c.high
    ensures Load(Place(planId, s, seed, c, p).loads, w) == Load(p.loads, w) + if Holds(c, w) then 1 else 0
  {
    hide Assign;
  }

  /** What a choice that no eligible pair outranks means for loads. */
  ghost predicate Least(roster: seq<Worker>, s: Sample, loads: map<Id, nat>, c: Choice) {
    && Eligible(roster, s, c)
    && forall d :: Eligible(roster, s, d) ==>
      || Peak(loads, c) < Peak(loads, d)
      || (Peak(loads, c) == Peak(loads, d) && Both(loads, c) <= Both(loads, d))
  }

  function Peak(loads: map<Id, nat>, c: Choice): nat {
    Max(Load(loads, c.low) + 1, Load(loads, c.high) + 1)
  }

  function Both(loads: map<Id, nat>, c: Choice): nat {
    Load(loads, c.low) + Load(loads, c.high)
  }

  lemma ChosenIsLeast(roster: seq<Worker>, s: Sample, p: Progress, seed: Seed)
    requires DistinctWorkers(roster) && ChooseTeacherPair(roster, s, p, seed).Some?
    ensures Least(roster, s, p.loads, ChooseTeacherPair(roster, s, p, seed).value)
  {
    hide ChooseTeacherPair, Eligible, Load, DistinctWorkers;
    ChoiceIsLeastRanked(roster, s, p, seed);
  }

  // ----- one step -----

  lemma EligibleInTeam(roster: seq<Worker>, s: Sample, team: set<Id>, c: Choice)
    requires Team(roster, s, team) && Eligible(roster, s, c)
    ensures c.low in team && c.high in team && c.low != c.high
  {
    hide IsQualified, Independent;
  }

  lemma LeastPairKeepsBalance(roster: seq<Worker>, s: Sample, team: set<Id>, loads: map<Id, nat>, c: Choice,
      after: map<Id, nat>)
    requires Team(roster, s, team) && Balanced(team, loads) && Least(roster, s, loads, c)
    requires forall w :: w in team ==> Load(after, w) == Load(loads, w) + if Holds(c, w) then 1 else 0
    requires LeastPairEligible(roster, s, team, loads)
    ensures Balanced(team, after)
  {
    hide Eligible, Load, Team;
    var d :| Eligible(roster, s, d) && LeastLoaded(team, loads, d.low) && LeastLoaded(team, loads, d.high);
    EligibleInTeam(roster, s, team, c);
    EligibleInTeam(roster, s, team, d);
  }

  lemma LoneLeastKeepsBalance(roster: seq<Worker>, s: Sample, team: set<Id>, loads: map<Id, nat>, c: Choice,
      after: map<Id, nat>)
    requires Team(roster, s, team) && Balanced(team, loads) && Least(roster, s, loads, c)
    requires forall w :: w in team ==> Load(after, w) == Load(loads, w) + if Holds(c, w) then 1 else 0
    requires LoneLeastEligible(roster, s, team, loads)
    ensures Balanced(team, after)
  {
    hide Eligible, Load, Team;
    var w :| LeastLoaded(team, loads, w) && (forall v :: LeastLoaded(team, loads, v) ==> v == w)
      && PairedWith(roster, s, w);
    var d :| Eligible(roster, s, d) && Holds(d, w);
    EligibleInTeam(roster, s, team, c);
    EligibleInTeam(roster, s, team, d);
    forall v | v in team && v != w ensures Load(loads, v) == Load(loads, w) + 1 {
      AboveLeast(team, loads, w, v);
    }
    assert Holds(c, w);
  }

  lemma AboveLeast(team: set<Id>, loads: map<Id, nat>, w: Id, v: Id)
    requires Balanced(team, loads) && LeastLoaded(team, loads, w) && v in team && !LeastLoaded(team, loads, v)
    ensures Load(loads, v) == Load(loads, w) + 1
  {
    hide Load;
  }

  lemma BalanceNeedsGuard(roster: seq<Worker>, s: Sample, team: set<Id>, loads: map<Id, nat>, c: Choice,
      after: map<Id, nat>)
    requires Team(roster, s, team) && Balanced(team, loads) && Least(roster, s, loads, c)
    requires forall w :: w in team ==> Load(after, w) == Load(loads, w) + if Holds(c, w) then 1 else 0
    requires Balanced(team, after)
    ensures LeastPairEligible(roster, s, team, loads) || LoneLeastEligible(roster, s, team, loads)
  {
    hide Eligible, Load, Team;
    EligibleInTeam(roster, s, team, c);
    if !LeastLoaded(team, loads, c.low) || !LeastLoaded(team, loads, c.high) {
      var high := if !LeastLoaded(team, loads, c.low) then c.low else c.high;
      var other := if high == c.low then c.high else c.low;
      assert !LeastLoaded(team, loads, high);
      var u :| u in team && Load(loads, u) < Load(loads, high);
      forall v | LeastLoaded(team, loads, v) ensures v == other {
        assert Load(loads, v) < Load(loads, high);
        assert Holds(c, v);
      }
      assert LeastLoaded(team, loads, u) by {
        forall v | v in team ensures Load(loads, u) <= Load(loads, v) {
        }
      }
      assert PairedWith(roster, s, other);
    }
  }

  /** From balanced loads, a step keeps all loads within one exactly when two least loaded teachers
      form an eligible pair, or a lone least loaded teacher is in one. */
  lemma StepStaysBalancedIff(planId: string, roster: seq<Worker>, s: Sample, seed: Seed, p: Progress, team: set<Id>)
    requires DistinctWorkers(roster) && Team(roster, s, team) && Balanced(team, p.loads)
    requires ChooseTeacherPair(roster, s, p, seed).Some?
    ensures var c := ChooseTeacherPair(roster, s, p, seed).value;
      Balanced(team, Place(planId, s, seed, c, p).loads) <==>
        LeastPairEligible(roster, s, team, p.loads) || LoneLeastEligible(roster, s, team, p.loads)
  {
    hide Eligible, Load, Team, ChooseTeacherPair, Place, Balanced, Least, LeastPairEligible, LoneLeastEligible,
      Holds, DistinctWorkers;
    var c := ChooseTeacherPair(roster, s, p, seed).value;
    var after := Place(planId, s, seed, c, p).loads;
    ChosenIsLeast(roster, s, p, seed);
    ChosenIsEligible(roster, s, p, seed);
    forall w ensures Load(after, w) == Load(p.loads, w) + if Holds(c, w) then 1 else 0 {
      PlaceLoads(planId, s, seed, c, p, w);
    }
    if LeastPairEligible(roster, s, team, p.loads) {
      LeastPairKeepsBalance(roster, s, team, p.loads, c, after);
    }
    if LoneLeastEligible(roster, s, team, p.loads) {
      LoneLeastKeepsBalance(roster, s, team, p.loads, c, after);
    }
    if Balanced(team, after) {
      BalanceNeedsGuard(roster, s, team, p.loads, c, after);
    }
  }

  // ----- whole plans -----

  /** Every two teachers of the team leave an independent adjudicator. */
  ghost predicate AllPairsEligible(roster: seq<Worker>, s: Sample, team: set<Id>) {
    forall a, b :: a in team && b in team && a < b ==> Eligible(roster, s, Choice(a, b))
  }

  lemma {:induction false} LeastExists(team: set<Id>, loads: map<Id, nat>, start: Id) returns (w: Id)
    requires start in team
    ensures LeastLoaded(team, loads, w)
    decreases Load(loads, start)
  {
    if v :| v in team && Load(loads, v) < Load(loads, start) {
      w := LeastExists(team, loads, v);
    } else {
      w := start;
    }
  }

  lemma AllPairsGiveGuard(roster: seq<Worker>, s: Sample, team: set<Id>, loads: map<Id, nat>, c: Choice)
    requires Team(roster, s, team) && AllPairsEligible(roster, s, team) && Eligible(roster, s, c)
    ensures LeastPairEligible(roster, s, team, loads) || LoneLeastEligible(roster, s, team, loads)
  {
    hide Eligible, Load, Team, LeastLoaded;
    EligibleInTeam(roster, s, team, c);
    var w := LeastExists(team, loads, c.low);
    LeastInTeam(team, loads);
    if v :| LeastLoaded(team, loads, v) && v != w {
      var d := if v < w then Choice(v, w) else Choice(w, v);
      assert Eligible(roster, s, d);
    } else {
      var v := if c.low == w then c.high else c.low;
      var d := if v < w then Choice(v, w) else Choice(w, v);
      assert Eligible(roster, s, d) && Holds(d, w);
    }
  }

  lemma LeastInTeam(team: set<Id>, loads: map<Id, nat>)
    ensures forall w :: LeastLoaded(team, loads, w) ==> w in team
  {
  }

  /** When all samples share one team and every pair of it leaves an adjudicator, loads stay
      within one of each other after every sample. */
  lemma {:induction false} SharedTeamStaysBalanced(planId: string, roster: seq<Worker>, sorted: seq<Sample>, seed: Seed,
                                                   team: set<Id>, k: nat)
    requires DistinctWorkers(roster) && k <= |sorted| && PlanUpTo(planId, roster, sorted, seed, k).Success?
    requires forall i :: 0 <= i < k ==> Team(roster, sorted[i], team) && AllPairsEligible(roster, sorted[i], team)
    ensures Balanced(team, PlanUpTo(planId, roster, sorted, seed, k).value.loads)
    decreases k
  {
    hide PlanUpTo, PairsUpTo, ChooseTeacherPair, Place, Team, AllPairsEligible, Beginning, Balanced, DistinctWorkers,
      Eligible, LeastPairEligible, LoneLeastEligible;
    if k == 0 {
      NothingPlaced(planId, roster, sorted, seed);
      BeginsBalanced(roster, team);
    } else {
      PlanStep(planId, roster, sorted, seed, k);
      SharedTeamStaysBalanced(planId, roster, sorted, seed, team, k - 1);
      var s, p := sorted[k - 1], PlanUpTo(planId, roster, sorted, seed, k - 1).value;
      ChosenIsEligible(roster, s, p, seed);
      AllPairsGiveGuard(roster, s, team, p.loads, ChooseTeacherPair(roster, s, p, seed).value);
      StepStaysBalancedIff(planId, roster, s, seed, p, team);
    }
  }

  lemma BeginsBalanced(roster: seq<Worker>, team: set<Id>)
    ensures Balanced(team, Beginning(roster).loads)
  {
  }

  // ----- where sharing a team is not enough -----

  function Helper(id: Id, roles: seq<Role>): Worker { Worker(id, true, roles, ["*"], ["*"]) }

  /** Three teachers with one shared eligibility; the third is also the only adjudicator. */
  const SMALL_ROSTER := [Helper(1, [Teacher]), Helper(2, [Teacher]), Helper(3, [Teacher, Adjudicator])]

  function Plain(id: Id): Sample { Sample(id, "math", "7", true, 1.0, [], "") }

  lemma SmallRosterPairs(s: Sample, c: Choice)
    ensures Eligible(SMALL_ROSTER, s, c) <==> c == Choice(1, 2)
    ensures Team(SMALL_ROSTER, s, {1, 2, 3})
  {
    var r := SMALL_ROSTER;
    assert Qualified(r[0], s, Teacher) && Qualified(r[1], s, Teacher) && Qualified(r[2], s, Teacher);
    assert Qualified(r[2], s, Adjudicator) && !Qualified(r[0], s, Adjudicator) && !Qualified(r[1], s, Adjudicator);
  }

  /** Equal eligibility alone does not balance: after two samples the loads are 2, 2 and 0. */
  lemma SharedEligibilityIsNotEnough(planId: string, seed: Seed)
    ensures var r := PlanUpTo(planId, SMALL_ROSTER, [Plain(1), Plain(2)], seed, 2);
      && RosterValid(SMALL_ROSTER)
      && r.Success? && Load(r.value.loads, 1) == 2 && Load(r.value.loads, 2) == 2 && Load(r.value.loads, 3) == 0
      && !Balanced({1, 2, 3}, r.value.loads)
  {
    hide PlanUpTo, PairsUpTo, ChooseTeacherPair, Eligible, Team, RankOf, Before;
    var sorted := [Plain(1), Plain(2)];
    forall i | 0 <= i < 2 ensures Annotatable(SMALL_ROSTER, sorted[i]) {
      SmallRosterPairs(sorted[i], Choice(1, 2));
    }
    PlanUpToSucceeds(planId, SMALL_ROSTER, sorted, seed, 2);
    PlanHasShape(planId, SMALL_ROSTER, sorted, seed, 2);
    var cs := PairsUpTo(planId, SMALL_ROSTER, sorted, seed, 2);
    assert cs == [Choice(1, 2), Choice(1, 2)] by {
      SmallRosterPairs(sorted[0], cs[0]);
      SmallRosterPairs(sorted[1], cs[1]);
    }
    TwiceTheSame(Choice(1, 2), 1);
    TwiceTheSame(Choice(1, 2), 2);
    TwiceTheSame(Choice(1, 2), 3);
  }

  lemma TwiceTheSame(c: Choice, w: Id)
    ensures PairsWith([c, c], w) == if Holds(c, w) then 2 else 0
  {
    assert [c][..0] == [];
    assert PairsWith([c], w) == if Holds(c, w) then 1 else 0;
    assert [c, c][..1] == [c];
  }
}
