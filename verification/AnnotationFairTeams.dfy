/** Which rosters keep every plan balanced: exactly those that leave an independent
    adjudicator for every two teachers of a shared team. */
module AnnotationFairTeams {
  import opened Wrappers
  import opened Annotation
  import opened AnnotationPlan
  import opened AnnotationChoice
  import opened AnnotationBuilt
  import opened AnnotationBalance

  // ----- a given plan -----

  /** What a step needs to keep loads within one of each other. */
  ghost predicate Guard(roster: seq<Worker>, s: Sample, team: set<Id>, loads: map<Id, nat>) {
    LeastPairEligible(roster, s, team, loads) || LoneLeastEligible(roster, s, team, loads)
  }

  ghost predicate BalancedAfter(planId: string, roster: seq<Worker>, sorted: seq<Sample>, seed: Seed, team: set<Id>,
      k: nat) {
    && k <= |sorted| && PlanUpTo(planId, roster, sorted, seed, k).Success?
    && Balanced(team, PlanUpTo(planId, roster, sorted, seed, k).value.loads)
  }

  ghost predicate GuardedAt(planId: string, roster: seq<Worker>, sorted: seq<Sample>, seed: Seed, team: set<Id>,
      k: nat) {
    && k < |sorted| && PlanUpTo(planId, roster, sorted, seed, k).Success?
    && Guard(roster, sorted[k], team, PlanUpTo(planId, roster, sorted, seed, k).value.loads)
  }

  lemma StepBalancedIffGuarded(planId: string, roster: seq<Worker>, sorted: seq<Sample>, seed: Seed, team: set<Id>,
      k: nat)
    requires DistinctWorkers(roster) && k < |sorted| && PlanUpTo(planId, roster, sorted, seed, k + 1).Success?
    requires Team(roster, sorted[k], team) && BalancedAfter(planId, roster, sorted, seed, team, k)
    ensures BalancedAfter(planId, roster, sorted, seed, team, k + 1) <==>
      GuardedAt(planId, roster, sorted, seed, team, k)
  {
    hide PlanUpTo, ChooseTeacherPair, Place, Team, Balanced, DistinctWorkers, LeastPairEligible, LoneLeastEligible;
    PlanStep(planId, roster, sorted, seed, k + 1);
    StepStaysBalancedIff(planId, roster, sorted[k], seed, PlanUpTo(planId, roster, sorted, seed, k).value, team);
  }

  /** The loads of a plan for one team stay within one of each other after every sample exactly when every
      choice found two least loaded teachers who could be paired, or a lone one who could be paired at all. */
  lemma {:induction false} PlanStaysBalancedIff(planId: string, roster: seq<Worker>, sorted: seq<Sample>, seed: Seed,
                                                team: set<Id>, n: nat)
    requires DistinctWorkers(roster) && n <= |sorted| && PlanUpTo(planId, roster, sorted, seed, n).Success?
    requires forall k :: 0 <= k < n ==> Team(roster, sorted[k], team)
    ensures (forall k :: 0 <= k <= n ==> BalancedAfter(planId, roster, sorted, seed, team, k))
      <==> (forall k :: 0 <= k < n ==> GuardedAt(planId, roster, sorted, seed, team, k))
    decreases n
  {
    hide PlanUpTo, Team, DistinctWorkers, BalancedAfter, GuardedAt;
    if n == 0 {
      AtFirst(planId, roster, sorted, seed, team);
    } else {
      PlanStep(planId, roster, sorted, seed, n);
      PlanStaysBalancedIff(planId, roster, sorted, seed, team, n - 1);
      if forall k :: 0 <= k < n ==> BalancedAfter(planId, roster, sorted, seed, team, k) {
        StepBalancedIffGuarded(planId, roster, sorted, seed, team, n - 1);
      }
    }
  }

  lemma AtFirst(planId: string, roster: seq<Worker>, sorted: seq<Sample>, seed: Seed, team: set<Id>)
    ensures BalancedAfter(planId, roster, sorted, seed, team, 0)
  {
    NothingPlaced(planId, roster, sorted, seed);
    BeginsBalanced(roster, team);
  }

  // ----- kinds of samples -----

  /** What qualification looks at. */
  datatype Kind = Kind(subject: string, grade: string)

  function KindOf(s: Sample): Kind { Kind(s.subject, s.grade) }

  function Of(q: Kind, id: Id): Sample { Sample(id, q.subject, q.grade, true, 1.0, [], "") }

  lemma SameKind(roster: seq<Worker>, s: Sample, t: Sample, team: set<Id>)
    requires KindOf(s) == KindOf(t)
    ensures forall c :: Eligible(roster, s, c) <==> Eligible(roster, t, c)
    ensures Team(roster, s, team) <==> Team(roster, t, team)
    ensures Annotatable(roster, s) <==> Annotatable(roster, t)
    ensures AllPairsEligible(roster, s, team) <==> AllPairsEligible(roster, t, team)
  {
    forall role, id ensures IsQualified(roster, s, role, id) <==> IsQualified(roster, t, role, id) {
      forall w ensures Qualified(w, s, role) <==> Qualified(w, t, role) {
      }
    }
    forall c ensures Independent(roster, s, c) <==> Independent(roster, t, c) {
      forall w ensures Qualified(w, s, Adjudicator) <==> Qualified(w, t, Adjudicator) {
      }
    }
  }

  ghost predicate SharedTeam(roster: seq<Worker>, kinds: set<Kind>, team: set<Id>) {
    forall q :: q in kinds ==> Team(roster, Of(q, 0), team) && Annotatable(roster, Of(q, 0))
  }

  /** A sorted list of samples of these kinds. */
  ghost predicate Workload(kinds: set<Kind>, sorted: seq<Sample>) {
    && (forall i :: 0 <= i < |sorted| ==> KindOf(sorted[i]) in kinds)
    && (forall i, j :: 0 <= i < j < |sorted| ==> sorted[i].id < sorted[j].id)
  }

  /** Whatever the samples and the seed, loads stay within one of each other after every sample. */
  ghost predicate AlwaysBalanced(planId: string, roster: seq<Worker>, kinds: set<Kind>, team: set<Id>) {
    forall sorted, seed, k: nat :: Workload(kinds, sorted) && k <= |sorted| ==>
      BalancedAfter(planId, roster, sorted, seed, team, k)
  }

  ghost predicate EveryPairAdjudicable(roster: seq<Worker>, kinds: set<Kind>, team: set<Id>) {
    forall q :: q in kinds ==> AllPairsEligible(roster, Of(q, 0), team)
  }

  lemma WorkloadPlans(planId: string, roster: seq<Worker>, kinds: set<Kind>, team: set<Id>, sorted: seq<Sample>,
      seed: Seed, k: nat)
    requires DistinctWorkers(roster) && SharedTeam(roster, kinds, team) && Workload(kinds, sorted) && k <= |sorted|
    ensures PlanUpTo(planId, roster, sorted, seed, k).Success?
    ensures forall i :: 0 <= i < |sorted| ==> Team(roster, sorted[i], team)
  {
    hide PlanUpTo, Team, Annotatable, DistinctWorkers, Eligible, AllPairsEligible;
    forall i | 0 <= i < |sorted| ensures Annotatable(roster, sorted[i]) && Team(roster, sorted[i], team) {
      SameKind(roster, sorted[i], Of(KindOf(sorted[i]), 0), team);
    }
    PlanUpToSucceeds(planId, roster, sorted, seed, k);
  }

  lemma AdjudicablePairsBalance(planId: string, roster: seq<Worker>, kinds: set<Kind>, team: set<Id>,
      sorted: seq<Sample>,
                                seed: Seed, k: nat)
    requires DistinctWorkers(roster) && SharedTeam(roster, kinds, team) && EveryPairAdjudicable(roster, kinds, team)
    requires Workload(kinds, sorted) && k <= |sorted|
    ensures BalancedAfter(planId, roster, sorted, seed, team, k)
  {
    hide PlanUpTo, Team, DistinctWorkers, AllPairsEligible, Balanced, Eligible, Annotatable;
    WorkloadPlans(planId, roster, kinds, team, sorted, seed, k);
    forall i | 0 <= i < k ensures AllPairsEligible(roster, sorted[i], team) {
      SameKind(roster, sorted[i], Of(KindOf(sorted[i]), 0), team);
    }
    SharedTeamStaysBalanced(planId, roster, sorted, seed, team, k);
  }

  // ----- playing a list of pairs -----

  /** No eligible pair is better placed than c after the pairs cs, the seed's order aside. */
  ghost predicate Fits(roster: seq<Worker>, s: Sample, cs: seq<Choice>, c: Choice) {
    && Eligible(roster, s, c)
    && forall d :: Eligible(roster, s, d) ==> NotBetter(cs, d, c)
  }

  predicate NotBetter(cs: seq<Choice>, d: Choice, c: Choice) {
    var peakD, peakC := Max(PairsWith(cs, d.low), PairsWith(cs, d.high)),
        Max(PairsWith(cs, c.low), PairsWith(cs, c.high));
    var bothD, bothC := PairsWith(cs, d.low) + PairsWith(cs, d.high), PairsWith(cs, c.low) + PairsWith(cs, c.high);
    peakC < peakD || (peakC == peakD && (bothC < bothD || (bothC == bothD && multiset(cs)[c] <= multiset(cs)[d])))
  }

  ghost predicate Playable(roster: seq<Worker>, s: Sample, cs: seq<Choice>) {
    forall i :: 0 <= i < |cs| ==> Fits(roster, s, cs[..i], cs[i])
  }

  lemma PlayOne(roster: seq<Worker>, s: Sample, cs: seq<Choice>, c: Choice)
    requires Playable(roster, s, cs) && Fits(roster, s, cs, c)
    ensures Playable(roster, s, cs + [c])
    ensures forall w :: PairsWith(cs + [c], w) == PairsWith(cs, w) + if Holds(c, w) then 1 else 0
  {
    hide Fits;
    var more := cs + [c];
    assert more[..|cs|] == cs;
    forall i | 0 <= i < |more| ensures Fits(roster, s, more[..i], more[i]) {
      if i < |cs| { assert more[..i] == cs[..i]; }
    }
  }

  /** The seed whose order prefers pair i of the list for sample i. */
  function Wishing(cs: seq<Choice>): Seed {
    Seed((id: Id, c: Choice) => if 0 <= id < |cs| && c == cs[id] then 0 else 1, (id: Id) => false, (a: Id, b: Id) => 0)
  }

  function Samples(q: Kind, n: nat): seq<Sample> { seq(n, i requires 0 <= i < n => Of(q, i)) }

  lemma WishIsGranted(roster: seq<Worker>, q: Kind, cs: seq<Choice>, i: nat, p: Progress)
    requires DistinctWorkers(roster) && i < |cs| && Fits(roster, Of(q, i), cs[..i], cs[i]) && CountsMatch(cs[..i], p)
    ensures ChooseTeacherPair(roster, Of(q, i), p, Wishing(cs)) == Some(cs[i])
  {
    hide ChooseTeacherPair, DistinctWorkers, Eligible, PairsWith;
    var s, seed := Of(q, i), Wishing(cs);
    ChoiceIsLeastRanked(roster, s, p, seed);
    var best := ChooseTeacherPair(roster, s, p, seed).value;
    assert NotBetter(cs[..i], best, cs[i]);
    assert !Before(RankOf(p, s, seed, cs[i]), RankOf(p, s, seed, best));
  }

  /** A playable list is played by some plan. */
  lemma {:induction false} ListIsPlayed(planId: string, roster: seq<Worker>, q: Kind, cs: seq<Choice>, n: nat, k: nat)
    requires DistinctWorkers(roster) && Annotatable(roster, Of(q, 0)) && k <= |cs| && k <= n
    requires Playable(roster, Of(q, 0), cs)
    ensures PlanUpTo(planId, roster, Samples(q, n), Wishing(cs), k).Success?
    ensures PairsUpTo(planId, roster, Samples(q, n), Wishing(cs), k) == cs[..k]
    decreases k
  {
    hide PlanUpTo, PairsUpTo, ChooseTeacherPair, Wishing, DistinctWorkers, Annotatable, Fits, CountsMatch,
      PairsMatch, Eligible;
    var sorted, seed := Samples(q, n), Wishing(cs);
    forall i | 0 <= i < n ensures Annotatable(roster, sorted[i]) {
      SameKind(roster, sorted[i], Of(q, 0), {});
    }
    PlanUpToSucceeds(planId, roster, sorted, seed, k);
    if k == 0 {
      NothingPlaced(planId, roster, sorted, seed);
    } else {
      ListIsPlayed(planId, roster, q, cs, n, k - 1);
      PlanStep(planId, roster, sorted, seed, k);
      PlanHasShape(planId, roster, sorted, seed, k - 1);
      FitsSameKind(roster, Of(q, 0), Of(q, k - 1), cs[..k - 1], cs[k - 1]);
      WishIsGranted(roster, q, cs, k - 1, PlanUpTo(planId, roster, sorted, seed, k - 1).value);
      assert cs[..k] == cs[..k - 1] + [cs[k - 1]];
    }
  }

  lemma FitsSameKind(roster: seq<Worker>, s: Sample, t: Sample, cs: seq<Choice>, c: Choice)
    requires KindOf(s) == KindOf(t) && Fits(roster, s, cs, c)
    ensures Fits(roster, t, cs, c)
  {
    hide Eligible, NotBetter;
    SameKind(roster, s, t, {});
  }

  // ----- a teacher in no eligible pair -----

  function Idle(team: set<Id>, loads: map<Id, nat>): set<Id> {
    set w | w in team && Load(loads, w) == 0
  }

  lemma IdleStep(planId: string, s: Sample, seed: Seed, team: set<Id>, c: Choice, p: Progress, x: Id)
    requires c.low != c.high && c.low in team && x in team && !Holds(c, x) && Load(p.loads, x) == 0
    requires Balanced(team, Place(planId, s, seed, c, p).loads)
    ensures var after := Place(planId, s, seed, c, p).loads;
      Load(after, x) == 0 && |Idle(team, after)| < |Idle(team, p.loads)|
  {
    hide Place, Load;
    var after := Place(planId, s, seed, c, p).loads;
    forall w ensures Load(after, w) == Load(p.loads, w) + if Holds(c, w) then 1 else 0 {
      PlaceLoads(planId, s, seed, c, p, w);
    }
    assert c.low in Idle(team, p.loads) && c.low !in Idle(team, after);
    assert Idle(team, after) <= Idle(team, p.loads) - {c.low};
    Smaller(Idle(team, after), Idle(team, p.loads) - {c.low});
  }

  lemma {:induction false} Smaller<T>(a: set<T>, b: set<T>)
    requires a <= b
    ensures |a| <= |b|
  {
    if a != {} {
      var x :| x in a;
      Smaller(a - {x}, b - {x});
    }
  }

  /** Were the plan balanced, each sample would need a teacher without work; but x stays the one. */
  lemma {:induction false} IdleRunsOut(planId: string, roster: seq<Worker>, q: Kind, seed: Seed, team: set<Id>, x: Id,
      n: nat, k: nat)
    requires DistinctWorkers(roster) && Team(roster, Of(q, 0), team) && k <= n
    requires x in team && !PairedWith(roster, Of(q, 0), x) && PlanUpTo(planId, roster, Samples(q, n), seed, k).Success?
    requires forall i :: 0 <= i <= k ==> BalancedAfter(planId, roster, Samples(q, n), seed, team, i)
    ensures var loads := PlanUpTo(planId, roster, Samples(q, n), seed, k).value.loads;
      Load(loads, x) == 0 && |Idle(team, loads)| + k <= |team|
    decreases k
  {
    hide PlanUpTo, ChooseTeacherPair, Place, DistinctWorkers, Idle, Beginning, Load, Team, Eligible;
    var sorted := Samples(q, n);
    if k == 0 {
      NothingPlaced(planId, roster, sorted, seed);
      IdleAtFirst(roster, team, x);
    } else {
      PlanStep(planId, roster, sorted, seed, k);
      IdleRunsOut(planId, roster, q, seed, team, x, n, k - 1);
      var s, p := sorted[k - 1], PlanUpTo(planId, roster, sorted, seed, k - 1).value;
      ChosenIsEligible(roster, s, p, seed);
      var c := ChooseTeacherPair(roster, s, p, seed).value;
      SameKind(roster, s, Of(q, 0), team);
      EligibleInTeam(roster, s, team, c);
      assert BalancedAfter(planId, roster, sorted, seed, team, k);
      IdleStep(planId, s, seed, team, c, p, x);
    }
  }

  lemma IdleAtFirst(roster: seq<Worker>, team: set<Id>, x: Id)
    ensures Load(Beginning(roster).loads, x) == 0 && |Idle(team, Beginning(roster).loads)| <= |team|
  {
    Smaller(Idle(team, Beginning(roster).loads), team);
  }

  lemma LonerUnbalances(planId: string, roster: seq<Worker>, kinds: set<Kind>, q: Kind, team: set<Id>, x: Id)
    requires DistinctWorkers(roster) && q in kinds && SharedTeam(roster, kinds, team)
    requires x in team && !PairedWith(roster, Of(q, 0), x)
    ensures !AlwaysBalanced(planId, roster, kinds, team)
  {
    hide PlanUpTo, DistinctWorkers, Team, Annotatable, PairedWith, BalancedAfter, Load, Idle;
    var n, seed := |team|, Wishing([]);
    if AlwaysBalanced(planId, roster, kinds, team) {
      IsWorkload(kinds, q, n);
      forall i | 0 <= i <= n ensures BalancedAfter(planId, roster, Samples(q, n), seed, team, i) {
      }
      WorkloadPlans(planId, roster, kinds, team, Samples(q, n), seed, n);
      IdleRunsOut(planId, roster, q, seed, team, x, n, n);
      IsIdle(team, PlanUpTo(planId, roster, Samples(q, n), seed, n).value.loads, x);
    }
  }

  lemma IsIdle(team: set<Id>, loads: map<Id, nat>, x: Id)
    requires x in team && Load(loads, x) == 0
    ensures |Idle(team, loads)| > 0
  {
    assert x in Idle(team, loads);
  }

  lemma IsWorkload(kinds: set<Kind>, q: Kind, n: nat)
    requires q in kinds
    ensures Workload(kinds, Samples(q, n)) && |Samples(q, n)| == n
  {
  }

  // ----- one pair that cannot be adjudicated -----

  function PairUp(x: Id, y: Id): Choice { if x < y then Choice(x, y) else Choice(y, x) }

  /** Within the team, a and b form the only pair that is not eligible. */
  ghost predicate OnlyPairMissing(roster: seq<Worker>, s: Sample, team: set<Id>, a: Id, b: Id) {
    && a in team && b in team && a < b && !Eligible(roster, s, Choice(a, b))
    && (forall c :: Eligible(roster, s, c) ==> c.low in team && c.high in team)
    && (forall x, y :: x in team && y in team && x < y && Choice(x, y) != Choice(a, b) ==>
      Eligible(roster, s, Choice(x, y)))
  }

  lemma AdjudicatorIs(roster: seq<Worker>, s: Sample, a: Id, b: Id, x: Id) returns (i: nat)
    requires !Independent(roster, s, Choice(a, b)) && PairedWith(roster, s, x) && (x == a || x == b)
    ensures i < |roster| && Qualified(roster[i], s, Adjudicator)
    ensures roster[i].id == if x == a then b else a
  {
    hide Qualified, IsQualified;
    var c :| Eligible(roster, s, c) && Holds(c, x);
    i :| 0 <= i < |roster| && Qualified(roster[i], s, Adjudicator) && roster[i].id != c.low && roster[i].id != c.high;
  }

  /** When a and b can each be paired but not with each other, each is the other's only adjudicator, so every
      other pair has one. */
  lemma OthersAreEligible(roster: seq<Worker>, s: Sample, team: set<Id>, a: Id, b: Id)
    requires Team(roster, s, team) && a in team && b in team && a < b && !Eligible(roster, s, Choice(a, b))
    requires PairedWith(roster, s, a) && PairedWith(roster, s, b)
    ensures OnlyPairMissing(roster, s, team, a, b)
  {
    hide Qualified, IsQualified;
    var i := AdjudicatorIs(roster, s, a, b, a);
    var j := AdjudicatorIs(roster, s, a, b, b);
    forall x, y | x in team && y in team && x < y && Choice(x, y) != Choice(a, b)
      ensures Eligible(roster, s, Choice(x, y))
    {
      assert Independent(roster, s, Choice(x, y)) by {
        assert (roster[i].id != x && roster[i].id != y) || (roster[j].id != x && roster[j].id != y);
      }
    }
    forall c | Eligible(roster, s, c) ensures c.low in team && c.high in team {
      EligibleInTeam(roster, s, team, c);
    }
  }

  /** Teachers of the team other than a and b, each listed once and each in v of the pairs. */
  ghost predicate Others(team: set<Id>, a: Id, b: Id, cs: seq<Choice>, v: nat, zs: seq<Id>) {
    && (forall i :: 0 <= i < |zs| ==> zs[i] in team && zs[i] != a && zs[i] != b && PairsWith(cs, zs[i]) == v)
    && (forall i, j :: 0 <= i < j < |zs| ==> zs[i] != zs[j])
  }

  ghost predicate AtLeast(team: set<Id>, cs: seq<Choice>, v: nat) {
    forall w :: w in team ==> PairsWith(cs, w) >= v
  }

  ghost predicate IsNeighbours(zs: seq<Id>, i: nat, c: Choice) {
    i % 2 == 0 && i + 1 < |zs| && c == PairUp(zs[i], zs[i + 1])
  }

  ghost predicate AreNeighbours(zs: seq<Id>, c: Choice) { exists i: nat :: IsNeighbours(zs, i, c) }

  lemma LowestPairFits(roster: seq<Worker>, s: Sample, team: set<Id>, a: Id, b: Id, cs: seq<Choice>, v: nat, x: Id,
      y: Id)
    requires OnlyPairMissing(roster, s, team, a, b) && AtLeast(team, cs, v)
    requires x in team && y in team && x != y && PairUp(x, y) != Choice(a, b) && PairUp(x, y) !in cs
    requires PairsWith(cs, x) == v == PairsWith(cs, y)
    ensures Fits(roster, s, cs, PairUp(x, y))
  {
    hide Eligible, PairsWith;
  }

  /** Teachers on the lowest level can be paired off in turn, if they have not been paired before. */
  lemma {:induction false} PairOff(roster: seq<Worker>, s: Sample, team: set<Id>, a: Id, b: Id, cs: seq<Choice>,
      v: nat, zs: seq<Id>)
      returns (more: seq<Choice>)
    requires OnlyPairMissing(roster, s, team, a, b) && Playable(roster, s, cs) && AtLeast(team, cs, v)
    requires Others(team, a, b, cs, v, zs) && |zs| % 2 == 0
    requires forall i: nat, c :: IsNeighbours(zs, i, c) ==> c !in cs
    ensures Playable(roster, s, more)
    ensures forall w :: PairsWith(more, w) == PairsWith(cs, w) + if w in zs then 1 else 0
    ensures forall c :: c in more ==> c in cs || AreNeighbours(zs, c)
    decreases |zs|
  {
    hide OnlyPairMissing, Playable, PairsWith, Eligible, Fits;
    if zs == [] {
      more := cs;
    } else {
      var x, y, rest := zs[0], zs[1], zs[2..];
      var c := PairUp(x, y);
      assert IsNeighbours(zs, 0, c);
      LowestPairFits(roster, s, team, a, b, cs, v, x, y);
      PlayOne(roster, s, cs, c);
      forall i: nat, d | IsNeighbours(rest, i, d) ensures d !in cs + [c] {
        assert IsNeighbours(zs, i + 2, d);
      }
      more := PairOff(roster, s, team, a, b, cs + [c], v, rest);
      forall d | d in more ensures d in cs || AreNeighbours(zs, d) {
        if i: nat :| IsNeighbours(rest, i, d) {
          assert IsNeighbours(zs, i + 2, d);
        }
      }
      assert zs == [x, y] + rest;
    }
  }

  /** After these pairs a and b are the two least loaded teachers, and everyone else has one more. */
  ghost predicate Stuck(roster: seq<Worker>, s: Sample, team: set<Id>, a: Id, b: Id, cs: seq<Choice>, v: nat) {
    && Playable(roster, s, cs)
    && PairsWith(cs, a) == v == PairsWith(cs, b)
    && forall w :: w in team && w != a && w != b ==> PairsWith(cs, w) == v + 1
  }

  lemma EvenTeamGetsStuck(roster: seq<Worker>, s: Sample, team: set<Id>, a: Id, b: Id, zs: seq<Id>)
      returns (cs: seq<Choice>)
    requires OnlyPairMissing(roster, s, team, a, b) && Others(team, a, b, [], 0, zs) && |zs| % 2 == 0
    requires forall w :: w in team <==> w in zs || w == a || w == b
    ensures Stuck(roster, s, team, a, b, cs, 0)
  {
    hide OnlyPairMissing, Fits;
    cs := PairOff(roster, s, team, a, b, [], 0, zs);
  }

  lemma LonelyPairFits(roster: seq<Worker>, s: Sample, team: set<Id>, a: Id, b: Id, cs: seq<Choice>, x: Id)
    requires OnlyPairMissing(roster, s, team, a, b) && x in team && x != a && x != b && PairUp(b, x) !in cs
    requires PairsWith(cs, b) == 0 && PairsWith(cs, x) == 1
    requires forall w :: w in team && w != b ==> PairsWith(cs, w) >= 1
    ensures Fits(roster, s, cs, PairUp(b, x))
  {
    hide PairsWith;
    forall d | Eligible(roster, s, d) ensures d.low < d.high {
    }
    hide Eligible;
  }

  /** Pairs of neighbours that start at an odd position were not made in the first round, nor with a or b. */
  lemma SecondRoundIsNew(team: set<Id>, a: Id, b: Id, zs: seq<Id>, made: seq<Choice>, i: nat, c: Choice)
    requires Others(team, a, b, [], 0, zs) && |zs| % 2 == 1
    requires forall d :: d in made ==> Holds(d, a) || Holds(d, b) || AreNeighbours(zs[..|zs| - 1], d)
    requires IsNeighbours(zs[1..], i, c)
    ensures c !in made
  {
    assert c == PairUp(zs[i + 1], zs[i + 2]);
    var init := zs[..|zs| - 1];
    forall j: nat, d | IsNeighbours(init, j, d) ensures d != c {
      assert d == PairUp(zs[j], zs[j + 1]);
    }
  }

  lemma NeighboursAvoid(team: set<Id>, a: Id, b: Id, cs: seq<Choice>, v: nat, zs: seq<Id>, c: Choice)
    requires Others(team, a, b, cs, v, zs) && AreNeighbours(zs, c)
    ensures !Holds(c, a) && !Holds(c, b)
  {
  }

  lemma FrontAndBack(zs: seq<Id>)
    requires zs != [] && forall i, j :: 0 <= i < j < |zs| ==> zs[i] != zs[j]
    ensures forall w :: w in zs[1..] <==> w in zs && w != zs[0]
    ensures forall w :: w in zs[..|zs| - 1] <==> w in zs && w != zs[|zs| - 1]
  {
    assert zs == zs[..|zs| - 1] + [zs[|zs| - 1]] && zs == [zs[0]] + zs[1..];
  }

  /** After the first round the last one is paired with a and the first one with b. */
  lemma PairAAndB(roster: seq<Worker>, s: Sample, team: set<Id>, a: Id, b: Id, cs: seq<Choice>, first: Id, last: Id)
      returns (more: seq<Choice>)
    requires OnlyPairMissing(roster, s, team, a, b) && Playable(roster, s, cs)
    requires {first, last} <= team - {a, b} && forall c :: c in cs ==> !Holds(c, a) && !Holds(c, b)
    requires PairsWith(cs, a) == PairsWith(cs, b) == PairsWith(cs, last) == 0
    requires forall w :: w in team && w != a && w != b && w != last ==> PairsWith(cs, w) == 1
    ensures Playable(roster, s, more) && more == cs + [PairUp(a, last), PairUp(b, first)]
    ensures forall w :: w in team ==> PairsWith(more, w) == if w == first then 2 else 1
  {
    hide OnlyPairMissing, Fits, Playable, PairsWith, Eligible;
    TeamMembers(roster, s, team, a, b);
    LowestPairFits(roster, s, team, a, b, cs, 0, a, last);
    PlayOne(roster, s, cs, PairUp(a, last));
    var two := cs + [PairUp(a, last)];
    LonelyPairFits(roster, s, team, a, b, two, first);
    PlayOne(roster, s, two, PairUp(b, first));
    more := two + [PairUp(b, first)];
  }

  /** Pairing off all but the last, the last with a, the first with b, and then everyone but the first. */
  lemma OddTeamGetsStuck(roster: seq<Worker>, s: Sample, team: set<Id>, a: Id, b: Id, zs: seq<Id>)
      returns (cs: seq<Choice>)
    requires OnlyPairMissing(roster, s, team, a, b) && Others(team, a, b, [], 0, zs) && |zs| % 2 == 1
    requires forall w :: w in team <==> w in zs || w == a || w == b
    ensures Stuck(roster, s, team, a, b, cs, 1)
  {
    hide OnlyPairMissing, Fits, Playable, PairsWith, Eligible, AreNeighbours, IsNeighbours;
    var n := |zs| - 1;
    NoPairs(roster, s);
    FrontAndBack(zs);
    var init, rest := zs[..n], zs[1..];
    var once := PairOff(roster, s, team, a, b, [], 0, init);
    forall c | c in once ensures !Holds(c, a) && !Holds(c, b) {
      NeighboursAvoid(team, a, b, [], 0, init, c);
    }
    var twice := PairAAndB(roster, s, team, a, b, once, zs[0], zs[n]);
    forall i: nat, c | IsNeighbours(rest, i, c) ensures c !in twice {
      SecondRoundIsNew(team, a, b, zs, twice, i, c);
    }
    cs := PairOff(roster, s, team, a, b, twice, 1, rest);
  }

  lemma NoPairs(roster: seq<Worker>, s: Sample)
    ensures Playable(roster, s, []) && forall w :: PairsWith([], w) == 0
  {
  }

  lemma TeamMembers(roster: seq<Worker>, s: Sample, team: set<Id>, a: Id, b: Id)
    requires OnlyPairMissing(roster, s, team, a, b)
    ensures a in team && b in team && a < b
  {
  }

  lemma {:induction false} Listed(xs: set<Id>) returns (zs: seq<Id>)
    ensures forall w :: w in xs <==> w in zs
    ensures forall i, j :: 0 <= i < j < |zs| ==> zs[i] != zs[j]
  {
    if x :| x in xs {
      zs := Listed(xs - {x});
      zs := zs + [x];
    } else {
      zs := [];
    }
  }

  lemma TeamGetsStuck(roster: seq<Worker>, s: Sample, team: set<Id>, a: Id, b: Id) returns (cs: seq<Choice>, v: nat)
    requires OnlyPairMissing(roster, s, team, a, b)
    ensures Stuck(roster, s, team, a, b, cs, v)
  {
    hide OnlyPairMissing, Stuck;
    TeamMembers(roster, s, team, a, b);
    var zs := Listed(team - {a, b});
    forall i | 0 <= i < |zs| ensures zs[i] in team - {a, b} {
      var w := zs[i];
      assert w in zs;
    }
    if |zs| % 2 == 0 {
      v := 0;
      cs := EvenTeamGetsStuck(roster, s, team, a, b, zs);
    } else {
      v := 1;
      cs := OddTeamGetsStuck(roster, s, team, a, b, zs);
    }
  }

  lemma StuckHasNoGuard(roster: seq<Worker>, s: Sample, team: set<Id>, a: Id, b: Id, cs: seq<Choice>, v: nat,
      p: Progress)
    requires OnlyPairMissing(roster, s, team, a, b) && Stuck(roster, s, team, a, b, cs, v) && CountsMatch(cs, p)
    ensures !Guard(roster, s, team, p.loads)
  {
    hide Playable, PairsWith, Load;
    forall w ensures LeastLoaded(team, p.loads, w) <==> w == a || w == b {
      assert Load(p.loads, w) == PairsWith(cs, w);
      assert Load(p.loads, a) == PairsWith(cs, a) && Load(p.loads, b) == PairsWith(cs, b);
    }
    assert LeastLoaded(team, p.loads, a) && LeastLoaded(team, p.loads, b);
    forall c | Eligible(roster, s, c)
      ensures !(LeastLoaded(team, p.loads, c.low) && LeastLoaded(team, p.loads, c.high))
    {
      assert c == Choice(c.low, c.high);
    }
  }

  lemma MissingPairUnbalances(planId: string, roster: seq<Worker>, kinds: set<Kind>, q: Kind, team: set<Id>, a: Id,
      b: Id)
    requires DistinctWorkers(roster) && q in kinds && SharedTeam(roster, kinds, team)
    requires OnlyPairMissing(roster, Of(q, 0), team, a, b)
    ensures !AlwaysBalanced(planId, roster, kinds, team)
  {
    hide PlanUpTo, PairsUpTo, DistinctWorkers, Team, Annotatable, OnlyPairMissing, Guard, CountsMatch,
      PairsMatch, Balanced;
    var cs, v := TeamGetsStuck(roster, Of(q, 0), team, a, b);
    var n := |cs|;
    var sorted, seed := Samples(q, n + 1), Wishing(cs);
    if AlwaysBalanced(planId, roster, kinds, team) {
      IsWorkload(kinds, q, n + 1);
      assert BalancedAfter(planId, roster, sorted, seed, team, n);
      assert BalancedAfter(planId, roster, sorted, seed, team, n + 1);
      ListIsPlayed(planId, roster, q, cs, n + 1, n);
      assert cs[..n] == cs;
      PlanHasShape(planId, roster, sorted, seed, n);
      SameKind(roster, sorted[n], Of(q, 0), team);
      StepBalancedIffGuarded(planId, roster, sorted, seed, team, n);
      StuckHasNoGuard(roster, Of(q, 0), team, a, b, cs, v, PlanUpTo(planId, roster, sorted, seed, n).value);
      SameGuard(roster, sorted[n], Of(q, 0), team, PlanUpTo(planId, roster, sorted, seed, n).value.loads);
    }
  }

  lemma SameGuard(roster: seq<Worker>, s: Sample, t: Sample, team: set<Id>, loads: map<Id, nat>)
    requires KindOf(s) == KindOf(t)
    ensures Guard(roster, s, team, loads) <==> Guard(roster, t, team, loads)
  {
    hide Eligible, LeastLoaded;
    SameKind(roster, s, t, team);
    forall w ensures PairedWith(roster, s, w) <==> PairedWith(roster, t, w) {
    }
  }

  // ----- the exact condition -----

  /** For samples whose qualified teachers are the same team: every plan for every list of them and every seed
      keeps the loads within one of each other after every sample exactly when every two teachers of the team
      leave an independent adjudicator for every kind of sample. */
  lemma AlwaysBalancedIff(planId: string, roster: seq<Worker>, kinds: set<Kind>, team: set<Id>)
    requires DistinctWorkers(roster) && SharedTeam(roster, kinds, team)
    ensures AlwaysBalanced(planId, roster, kinds, team) <==> EveryPairAdjudicable(roster, kinds, team)
  {
    hide DistinctWorkers, BalancedAfter, Team, Annotatable, Eligible, PairedWith, OnlyPairMissing;
    if EveryPairAdjudicable(roster, kinds, team) {
      forall sorted, seed, k: nat | Workload(kinds, sorted) && k <= |sorted|
        ensures BalancedAfter(planId, roster, sorted, seed, team, k)
      {
        AdjudicablePairsBalance(planId, roster, kinds, team, sorted, seed, k);
      }
    } else {
      var q :| q in kinds && !AllPairsEligible(roster, Of(q, 0), team);
      var a, b :| a in team && b in team && a < b && !Eligible(roster, Of(q, 0), Choice(a, b));
      if !PairedWith(roster, Of(q, 0), a) {
        LonerUnbalances(planId, roster, kinds, q, team, a);
      } else if !PairedWith(roster, Of(q, 0), b) {
        LonerUnbalances(planId, roster, kinds, q, team, b);
      } else {
        OthersAreEligible(roster, Of(q, 0), team, a, b);
        MissingPairUnbalances(planId, roster, kinds, q, team, a, b);
      }
    }
  }
}
