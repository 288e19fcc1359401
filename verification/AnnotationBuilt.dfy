/** What a built plan holds: two assignments per sample, work and pair counts
    that add up, and everything the later stages check. */
module AnnotationBuilt {
  import opened Wrappers
  import opened Annotation
  import opened AnnotationPlan
  import opened AnnotationChoice

  /** The pairs chosen for the first k samples. */
  function PairsUpTo(planId: string, roster: seq<Worker>, sorted: seq<Sample>, seed: Seed, k: nat): seq<Choice>
    requires k <= |sorted| && PlanUpTo(planId, roster, sorted, seed, k).Success?
  {
    if k == 0 then []
    else
      var before := PlanUpTo(planId, roster, sorted, seed, k - 1).value;
      PairsUpTo(planId, roster, sorted, seed, k - 1) + [ChooseTeacherPair(roster, sorted[k - 1], before, seed).value]
  }

  function PairsWith(cs: seq<Choice>, w: Id): nat {
    if cs == [] then 0
    else PairsWith(cs[..|cs| - 1], w) + if cs[|cs| - 1].low == w || cs[|cs| - 1].high == w then 1 else 0
  }

  ghost predicate PairPlaced(planId: string, seed: Seed, s: Sample, c: Choice, given: seq<Assignment>, i: nat) {
    && 2 * i + 1 < |given|
    && given[2 * i] == Assign(planId, s, A, First(seed, s, c))
    && given[2 * i + 1] == Assign(planId, s, B, Second(seed, s, c))
  }

  /** The assignments are those of the chosen pairs, in order, and every pair was eligible. */
  ghost predicate PairsMatch(planId: string, roster: seq<Worker>, sorted: seq<Sample>, seed: Seed, cs: seq<Choice>,
                             given: seq<Assignment>)
  {
    && |cs| <= |sorted| && |given| == 2 * |cs|
    && (forall i :: 0 <= i < |cs| ==> Eligible(roster, sorted[i], cs[i]))
    && (forall i :: 0 <= i < |cs| ==> PairPlaced(planId, seed, sorted[i], cs[i], given, i))
  }

  /** Both counters count the chosen pairs. */
  ghost predicate CountsMatch(cs: seq<Choice>, p: Progress) {
    && (forall c :: Together(p.together, c) == multiset(cs)[c])
    && (forall w :: Load(p.loads, w) == PairsWith(cs, w))
  }

  lemma PlaceCounts(planId: string, s: Sample, seed: Seed, cs: seq<Choice>, c: Choice, p: Progress)
    requires c.low != c.high && CountsMatch(cs, p)
    ensures CountsMatch(cs + [c], Place(planId, s, seed, c, p))
  {
    var q, more := Place(planId, s, seed, c, p), cs + [c];
    assert more[..|cs|] == cs;
    forall w ensures Load(q.loads, w) == PairsWith(more, w) {
      assert Load(p.loads, w) == PairsWith(cs, w);
    }
    forall d ensures Together(q.together, d) == multiset(more)[d] {
      assert Together(p.together, d) == multiset(cs)[d];
    }
  }

  lemma PlacePairs(planId: string, roster: seq<Worker>, sorted: seq<Sample>, seed: Seed, cs: seq<Choice>, c: Choice,
      p: Progress)
    requires PairsMatch(planId, roster, sorted, seed, cs, p.assignments)
    requires |cs| < |sorted| && Eligible(roster, sorted[|cs|], c)
    ensures PairsMatch(planId, roster, sorted, seed, cs + [c], Place(planId, sorted[|cs|], seed, c, p).assignments)
  {
    hide AddLoad, Assign, Together, Eligible;
    var q, more := Place(planId, sorted[|cs|], seed, c, p), cs + [c];
    forall i | 0 <= i < |more| ensures PairPlaced(planId, seed, sorted[i], more[i], q.assignments, i) {
      if i < |cs| { assert PairPlaced(planId, seed, sorted[i], cs[i], p.assignments, i); }
    }
  }

  lemma ChosenIsEligible(roster: seq<Worker>, s: Sample, p: Progress, seed: Seed)
    requires DistinctWorkers(roster) && ChooseTeacherPair(roster, s, p, seed).Some?
    ensures var c := ChooseTeacherPair(roster, s, p, seed).value; c.low != c.high && Eligible(roster, s, c)
  {
    hide ChooseTeacherPair, DistinctWorkers, RankOf, Before;
    ChoiceIsLeastRanked(roster, s, p, seed);
  }

  lemma NothingPlaced(planId: string, roster: seq<Worker>, sorted: seq<Sample>, seed: Seed)
    ensures PairsUpTo(planId, roster, sorted, seed, 0) == []
    ensures PlanUpTo(planId, roster, sorted, seed, 0) == Success(Beginning(roster))
    ensures PairsMatch(planId, roster, sorted, seed, [], Beginning(roster).assignments)
    ensures CountsMatch([], Beginning(roster))
  {
  }

  /** One step of a successful plan. */
  lemma PlanStep(planId: string, roster: seq<Worker>, sorted: seq<Sample>, seed: Seed, k: nat)
    requires 0 < k <= |sorted| && PlanUpTo(planId, roster, sorted, seed, k).Success?
    ensures PlanUpTo(planId, roster, sorted, seed, k - 1).Success?
    ensures var p := PlanUpTo(planId, roster, sorted, seed, k - 1).value;
      var c := ChooseTeacherPair(roster, sorted[k - 1], p, seed);
      && c.Some? && PlanUpTo(planId, roster, sorted, seed, k).value == Place(planId, sorted[k - 1], seed, c.value, p)
      && PairsUpTo(planId, roster, sorted, seed, k) == PairsUpTo(planId, roster, sorted, seed, k - 1) + [c.value]
  {
    hide ChooseTeacherPair, Place;
  }

  /** The chosen pairs explain the assignments and the counters after every sample. */
  lemma {:induction false} PlanHasShape(planId: string, roster: seq<Worker>, sorted: seq<Sample>, seed: Seed, k: nat)
    requires DistinctWorkers(roster) && k <= |sorted| && PlanUpTo(planId, roster, sorted, seed, k).Success?
    ensures var cs, p := PairsUpTo(planId, roster, sorted, seed, k), PlanUpTo(planId, roster, sorted, seed, k).value;
      |cs| == k && PairsMatch(planId, roster, sorted, seed, cs, p.assignments) && CountsMatch(cs, p)
    decreases k
  {
    hide PlanUpTo, PairsUpTo, CountsMatch, PairsMatch, ChooseTeacherPair, Place, Eligible, DistinctWorkers, Beginning;
    if k == 0 {
      NothingPlaced(planId, roster, sorted, seed);
    } else {
      PlanStep(planId, roster, sorted, seed, k);
      PlanHasShape(planId, roster, sorted, seed, k - 1);
      var cs, p := PairsUpTo(planId, roster, sorted, seed, k - 1), PlanUpTo(planId, roster, sorted, seed, k - 1).value;
      ChosenIsEligible(roster, sorted[k - 1], p, seed);
      var c := ChooseTeacherPair(roster, sorted[k - 1], p, seed).value;
      PlacePairs(planId, roster, sorted, seed, cs, c, p);
      PlaceCounts(planId, sorted[k - 1], seed, cs, c, p);
    }
  }

  // ----- conservation -----

  function TotalLoad(roster: seq<Worker>, loads: map<Id, nat>): nat {
    if roster == [] then 0
    else TotalLoad(roster[..|roster| - 1], loads) + Load(loads, roster[|roster| - 1].id)
  }

  predicate OnRoster(roster: seq<Worker>, w: Id) {
    exists i :: 0 <= i < |roster| && roster[i].id == w
  }

  lemma {:induction false} AddLoadTotal(roster: seq<Worker>, loads: map<Id, nat>, w: Id)
    requires DistinctWorkers(roster)
    ensures TotalLoad(roster, AddLoad(loads, w)) == TotalLoad(roster, loads) + if OnRoster(roster, w) then 1 else 0
  {
    if roster != [] {
      var init, last := roster[..|roster| - 1], roster[|roster| - 1];
      AddLoadTotal(init, loads, w);
      assert OnRoster(roster, w) <==> OnRoster(init, w) || last.id == w by {
        if OnRoster(roster, w) && last.id != w {
          var i :| 0 <= i < |roster| && roster[i].id == w;
          assert init[i].id == w;
        }
      }
    }
  }

  lemma PlanAssignmentCount(planId: string, roster: seq<Worker>, sorted: seq<Sample>, seed: Seed, k: nat)
    requires DistinctWorkers(roster) && k <= |sorted| && PlanUpTo(planId, roster, sorted, seed, k).Success?
    ensures |PlanUpTo(planId, roster, sorted, seed, k).value.assignments| == 2 * k
  {
    hide PlanUpTo, PairsUpTo, CountsMatch, DistinctWorkers;
    PlanHasShape(planId, roster, sorted, seed, k);
  }

  /** Every prefix of the plan hands out two assignments and one pair per sample. */
  lemma {:induction false} WorkIsConserved(planId: string, roster: seq<Worker>, sorted: seq<Sample>, seed: Seed, k: nat)
    requires DistinctWorkers(roster) && k <= |sorted| && PlanUpTo(planId, roster, sorted, seed, k).Success?
    ensures var p := PlanUpTo(planId, roster, sorted, seed, k).value;
      && TotalLoad(roster, p.loads) == 2 * k == |p.assignments|
      && exists cs: seq<Choice> :: |cs| == k && CountsMatch(cs, p)
    decreases k
  {
    hide PlanUpTo, PairsUpTo, PairsMatch, ChooseTeacherPair, DistinctWorkers, CountsMatch, TotalLoad, AddLoad,
      OnRoster, Eligible, Beginning;
    PlanHasShape(planId, roster, sorted, seed, k);
    PlanAssignmentCount(planId, roster, sorted, seed, k);
    if k == 0 {
      NothingPlaced(planId, roster, sorted, seed);
      NoLoad(roster, roster);
    } else {
      PlanStep(planId, roster, sorted, seed, k);
      WorkIsConserved(planId, roster, sorted, seed, k - 1);
      var s, p := sorted[k - 1], PlanUpTo(planId, roster, sorted, seed, k - 1).value;
      ChosenIsEligible(roster, s, p, seed);
      var c := ChooseTeacherPair(roster, s, p, seed).value;
      EligibleOnRoster(roster, s, c);
      AddLoadTotal(roster, p.loads, First(seed, s, c));
      AddLoadTotal(roster, AddLoad(p.loads, First(seed, s, c)), Second(seed, s, c));
    }
  }

  lemma QualifiedOnRoster(roster: seq<Worker>, s: Sample, role: Role, id: Id)
    requires IsQualified(roster, s, role, id)
    ensures OnRoster(roster, id)
  {
  }

  lemma EligibleOnRoster(roster: seq<Worker>, s: Sample, c: Choice)
    requires Eligible(roster, s, c)
    ensures OnRoster(roster, c.low) && OnRoster(roster, c.high)
  {
    hide Independent, Qualified, OnRoster;
    QualifiedOnRoster(roster, s, Teacher, c.low);
    QualifiedOnRoster(roster, s, Teacher, c.high);
  }

  lemma {:induction false} NoLoad(roster: seq<Worker>, all: seq<Worker>)
    ensures TotalLoad(roster, Beginning(all).loads) == 0
  {
    if roster != [] {
      NoLoad(roster[..|roster| - 1], all);
    }
  }
}
