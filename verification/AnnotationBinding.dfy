/** A built plan passes the binding check and leaves an adjudicator for every sample. */
module AnnotationBinding {
  import opened Wrappers
  import opened Ordering
  import opened Annotation
  import opened AnnotationPlan
  import opened AnnotationChoice
  import opened AnnotationBuilt

  // ----- looking samples and workers up -----

  lemma {:induction false} FindSampleHit(samples: seq<Sample>, k: nat)
    requires DistinctSamples(samples) && k < |samples|
    ensures FindSample(samples, samples[k].id) == Some(samples[k])
  {
    if k < |samples| - 1 {
      FindSampleHit(samples[..|samples| - 1], k);
    }
  }

  lemma {:induction false} FindWorkerHit(roster: seq<Worker>, k: nat)
    requires DistinctWorkers(roster) && k < |roster|
    ensures FindWorker(roster, roster[k].id) == Some(roster[k])
  {
    if k < |roster| - 1 {
      FindWorkerHit(roster[..|roster| - 1], k);
    }
  }

  lemma QualifiedIsFound(roster: seq<Worker>, s: Sample, role: Role, id: Id)
    requires DistinctWorkers(roster) && IsQualified(roster, s, role, id)
    ensures FindWorker(roster, id).Some? && Qualified(FindWorker(roster, id).value, s, role)
  {
    hide Qualified, FindWorker, DistinctWorkers;
    var i :| 0 <= i < |roster| && roster[i].id == id && Qualified(roster[i], s, role);
    FindWorkerHit(roster, i);
  }

  // ----- the planning order -----

  /** Sorting keeps the samples and separates their identifiers. */
  lemma InOrderFacts(samples: seq<Sample>)
    requires DistinctSamples(samples)
    ensures |InOrder(samples)| == |samples|
    ensures multiset(InOrder(samples)) == multiset(samples)
    ensures Ascending(InOrder(samples), SampleKey)
    ensures forall s :: s in InOrder(samples) <==> s in samples
  {
    hide SortBy;
    assert DistinctKeys(samples, SampleKey);
    SortAscends(samples, SampleKey);
    SortKeepsAll(samples, SampleKey);
    SameMembers(InOrder(samples), samples);
  }

  lemma AscendingDistinct(sorted: seq<Sample>)
    requires Ascending(sorted, SampleKey)
    ensures DistinctSamples(sorted)
    ensures forall i, j :: 0 <= i < |sorted| && 0 <= j < |sorted| && sorted[i].id == sorted[j].id ==> i == j
  {
    forall i, j | 0 <= i < j < |sorted| ensures sorted[i].id != sorted[j].id {
      assert SampleKey(sorted[i]) < SampleKey(sorted[j]);
    }
  }

  // ----- the assignments of one sample -----

  ghost predicate Placed(planId: string, seed: Seed, sorted: seq<Sample>, cs: seq<Choice>, given: seq<Assignment>) {
    && |cs| <= |sorted| && |given| == 2 * |cs|
    && forall i :: 0 <= i < |cs| ==> PairPlaced(planId, seed, sorted[i], cs[i], given, i)
  }

  lemma PlacedInit(planId: string, seed: Seed, sorted: seq<Sample>, cs: seq<Choice>, given: seq<Assignment>)
    requires Placed(planId, seed, sorted, cs, given) && cs != []
    ensures Placed(planId, seed, sorted, cs[..|cs| - 1], given[..|given| - 2])
    ensures given[|given| - 2].sample == given[|given| - 1].sample == sorted[|cs| - 1].id
  {
    hide Assign;
    forall i | 0 <= i < |cs| - 1
      ensures PairPlaced(planId, seed, sorted[i], cs[..|cs| - 1][i], given[..|given| - 2], i)
    {
      assert PairPlaced(planId, seed, sorted[i], cs[i], given, i);
    }
    assert PairPlaced(planId, seed, sorted[|cs| - 1], cs[|cs| - 1], given, |cs| - 1);
    AssignSample();
  }

  lemma AssignSample()
    ensures forall planId, s, slot, w :: Assign(planId, s, slot, w).sample == s.id
  {
  }

  lemma {:induction false} NoAssignmentYet(planId: string, seed: Seed, sorted: seq<Sample>, cs: seq<Choice>,
                                           given: seq<Assignment>, id: Id)
    requires Placed(planId, seed, sorted, cs, given)
    requires forall i :: 0 <= i < |cs| ==> sorted[i].id != id
    ensures AssignmentsOf(given, id) == []
    decreases |cs|
  {
    if cs != [] {
      PlacedInit(planId, seed, sorted, cs, given);
      NoAssignmentYet(planId, seed, sorted, cs[..|cs| - 1], given[..|given| - 2], id);
      TwoMore(given, id);
    }
  }

  lemma TwoMore(given: seq<Assignment>, id: Id)
    requires |given| >= 2
    ensures AssignmentsOf(given, id) == AssignmentsOf(given[..|given| - 2], id)
      + (if given[|given| - 2].sample == id then [given[|given| - 2]] else [])
      + (if given[|given| - 1].sample == id then [given[|given| - 1]] else [])
  {
    assert given[..|given| - 1][..|given| - 2] == given[..|given| - 2];
  }

  lemma {:induction false} BothAssignments(planId: string, seed: Seed, sorted: seq<Sample>, cs: seq<Choice>,
                                           given: seq<Assignment>, i: nat)
    requires Placed(planId, seed, sorted, cs, given) && i < |cs| && Ascending(sorted, SampleKey)
    ensures 2 * i + 1 < |given| && AssignmentsOf(given, sorted[i].id) == [given[2 * i], given[2 * i + 1]]
    decreases |cs|
  {
    hide PairPlaced, AssignmentsOf, Ascending;
    AscendingDistinct(sorted);
    PlacedInit(planId, seed, sorted, cs, given);
    TwoMore(given, sorted[i].id);
    if i < |cs| - 1 {
      BothAssignments(planId, seed, sorted, cs[..|cs| - 1], given[..|given| - 2], i);
    } else {
      NoAssignmentYet(planId, seed, sorted, cs[..|cs| - 1], given[..|given| - 2], sorted[i].id);
    }
  }

  // ----- the built plan -----

  /** Every sample's two teachers leave a qualified adjudicator who is neither of them. */
  ghost predicate Staffed(given: seq<Assignment>, samples: seq<Sample>, roster: seq<Worker>) {
    forall k :: 0 <= k < |samples| ==> LeavesAdjudicator(AssignmentsOf(given, samples[k].id), samples[k], roster)
  }

  predicate LeavesAdjudicator(pair: seq<Assignment>, s: Sample, roster: seq<Worker>) {
    exists i :: 0 <= i < |roster| && Qualified(roster[i], s, Adjudicator)
      && forall j :: 0 <= j < |pair| ==> pair[j].labeler != roster[i].id
  }

  lemma PlacedFromShape(planId: string, roster: seq<Worker>, sorted: seq<Sample>, seed: Seed, cs: seq<Choice>,
      given: seq<Assignment>)
    requires PairsMatch(planId, roster, sorted, seed, cs, given)
    ensures Placed(planId, seed, sorted, cs, given)
  {
  }

  /** The pair of one sample, as the plan holds it. */
  lemma PairOfSample(planId: string, roster: seq<Worker>, sorted: seq<Sample>, seed: Seed, cs: seq<Choice>,
                     given: seq<Assignment>, i: nat)
    requires PairsMatch(planId, roster, sorted, seed, cs, given) && i < |cs| && Ascending(sorted, SampleKey)
    ensures var s, c := sorted[i], cs[i];
      && AssignmentsOf(given, s.id) 
        == [Assign(planId, s, A, First(seed, s, c)), Assign(planId, s, B, Second(seed, s, c))]
      && Eligible(roster, s, c)
  {
    hide Eligible, Assign, Ascending, AssignmentsOf;
    PlacedFromShape(planId, roster, sorted, seed, cs, given);
    BothAssignments(planId, seed, sorted, cs, given, i);
    assert PairPlaced(planId, seed, sorted[i], cs[i], given, i);
  }

  lemma PairIsValidAndStaffed(planId: string, roster: seq<Worker>, s: Sample, seed: Seed, c: Choice)
    requires Eligible(roster, s, c)
    ensures var pair := [Assign(planId, s, A, First(seed, s, c)), Assign(planId, s, B, Second(seed, s, c))];
      PairValid(pair) && LeavesAdjudicator(pair, s, roster)
  {
    hide IsQualified, Qualified;
    var i :| 0 <= i < |roster| && Qualified(roster[i], s, Adjudicator)
      && roster[i].id != c.low && roster[i].id != c.high;
  }

  /** Position i holds an assignment for sample i / 2, in slot A or B by parity, to a qualified teacher. */
  lemma AssignmentAt(planId: string, roster: seq<Worker>, sorted: seq<Sample>, seed: Seed, cs: seq<Choice>,
                     given: seq<Assignment>, i: nat)
    requires PairsMatch(planId, roster, sorted, seed, cs, given) && i < |given|
    ensures given[i].sample == sorted[i / 2].id && given[i].id.sample == sorted[i / 2].id
    ensures given[i].id.slot == if i % 2 == 0 then A else B
    ensures IsQualified(roster, sorted[i / 2], Teacher, given[i].labeler)
  {
    hide IsQualified, Independent;
    var k := i / 2;
    assert i == 2 * k || i == 2 * k + 1;
    assert PairPlaced(planId, seed, sorted[k], cs[k], given, k);
    assert Eligible(roster, sorted[k], cs[k]);
  }

  lemma AssignmentsAreDistinct(planId: string, roster: seq<Worker>, sorted: seq<Sample>, seed: Seed, cs: seq<Choice>,
                               given: seq<Assignment>)
    requires PairsMatch(planId, roster, sorted, seed, cs, given) && Ascending(sorted, SampleKey)
    ensures DistinctAssignments(given)
  {
    hide PairsMatch, Ascending, IsQualified;
    AscendingDistinct(sorted);
    assert |given| == 2 * |cs| && |cs| <= |sorted| by { MatchLengths(planId, roster, sorted, seed, cs, given); }
    forall i, j | 0 <= i < j < |given| ensures given[i].id != given[j].id {
      AssignmentAt(planId, roster, sorted, seed, cs, given, i);
      AssignmentAt(planId, roster, sorted, seed, cs, given, j);
    }
  }

  lemma MatchLengths(planId: string, roster: seq<Worker>, sorted: seq<Sample>, seed: Seed, cs: seq<Choice>,
      given: seq<Assignment>)
    requires PairsMatch(planId, roster, sorted, seed, cs, given)
    ensures |given| == 2 * |cs| && |cs| <= |sorted|
  {
  }

  lemma AssignmentsAreValid(planId: string, roster: seq<Worker>, samples: seq<Sample>, seed: Seed, cs: seq<Choice>,
                            given: seq<Assignment>, i: nat)
    requires DistinctWorkers(roster) && DistinctSamples(samples)
    requires PairsMatch(planId, roster, InOrder(samples), seed, cs, given) && i < |given|
    ensures AssignmentValid(given[i], samples, roster)
  {
    hide PairsMatch, IsQualified, FindSample, FindWorker, Qualified, DistinctWorkers, DistinctSamples, InOrder;
    var sorted := InOrder(samples);
    MatchLengths(planId, roster, sorted, seed, cs, given);
    InOrderFacts(samples);
    AssignmentAt(planId, roster, sorted, seed, cs, given, i);
    var s := sorted[i / 2];
    assert s in samples;
    var k :| 0 <= k < |samples| && samples[k] == s;
    FindSampleHit(samples, k);
    QualifiedIsFound(roster, s, Teacher, given[i].labeler);
  }

  lemma BuiltFrom(planId: string, samples: seq<Sample>, roster: seq<Worker>, dataset: Dataset, rosterSha: string,
      seed: Seed)
      returns (cs: seq<Choice>)
    requires BuildPlan(planId, samples, roster, dataset, rosterSha, seed).Success?
    ensures var plan := BuildPlan(planId, samples, roster, dataset, rosterSha, seed).value;
      && DistinctWorkers(roster) && DistinctSamples(samples)
      && plan.blind && plan.rosterSha == rosterSha && plan.id == planId
      && plan.dataset == dataset.(sampleIds := Some(SampleIds(samples)))
      && BindDataset(plan.dataset, samples).Success?
      && |cs| == |samples|
      && PairsMatch(planId, roster, InOrder(samples), seed, cs, plan.assignments)
  {
    hide ChooseTeacherPair, PairsMatch, CountsMatch, PlanUpTo, PairsUpTo, InOrder, SampleIds, RepeatedSample;
    BoundDataset(dataset, samples);
    InOrderFacts(samples);
    var sorted := InOrder(samples);
    PlanHasShape(planId, roster, sorted, seed, |sorted|);
    cs := PairsUpTo(planId, roster, sorted, seed, |sorted|);
    BoundDataset(dataset.(sampleIds := Some(SampleIds(samples))), samples);
  }

  /** Whatever buildBlindAnnotationPlan returns, the binding check accepts, and every
      sample keeps an adjudicator who did not label it. */
  lemma BuiltPlanBinds(planId: string, samples: seq<Sample>, roster: seq<Worker>, dataset: Dataset, rosterSha: string,
      seed: Seed)
    requires BuildPlan(planId, samples, roster, dataset, rosterSha, seed).Success?
    ensures var plan := BuildPlan(planId, samples, roster, dataset, rosterSha, seed).value;
      && PlanBinds(plan, samples, roster, dataset.sha, rosterSha)
      && Staffed(plan.assignments, samples, roster)
  {
    hide BuildPlan, BindDataset, PairsMatch, InOrder, DistinctWorkers, DistinctSamples, DistinctAssignments,
      AssignmentValid, AssignmentsOf, Ascending, PairValid, LeavesAdjudicator, Eligible, Assign;
    var plan := BuildPlan(planId, samples, roster, dataset, rosterSha, seed).value;
    var sorted := InOrder(samples);
    var cs := BuiltFrom(planId, samples, roster, dataset, rosterSha, seed);
    InOrderFacts(samples);
    AssignmentsAreDistinct(planId, roster, sorted, seed, cs, plan.assignments);
    forall i | 0 <= i < |plan.assignments| ensures AssignmentValid(plan.assignments[i], samples, roster) {
      AssignmentsAreValid(planId, roster, samples, seed, cs, plan.assignments, i);
    }
    forall k | 0 <= k < |samples|
      ensures PairValid(AssignmentsOf(plan.assignments, samples[k].id))
      ensures LeavesAdjudicator(AssignmentsOf(plan.assignments, samples[k].id), samples[k], roster)
    {
      assert samples[k] in sorted;
      var i :| 0 <= i < |sorted| && sorted[i] == samples[k];
      PairOfSample(planId, roster, sorted, seed, cs, plan.assignments, i);
      PairIsValidAndStaffed(planId, roster, samples[k], seed, cs[i]);
    }
  }

  /** Planning succeeds exactly when roster and dataset are in order and every sample has an eligible pair. */
  lemma PlanningSucceedsIff(planId: string, samples: seq<Sample>, roster: seq<Worker>, dataset: Dataset,
      rosterSha: string, seed: Seed)
    ensures BuildPlan(planId, samples, roster, dataset, rosterSha, seed).Success? <==>
      && RosterValid(roster) && dataset.records == |samples| && DistinctSamples(samples)
      && (dataset.sampleIds.Some? ==> dataset.sampleIds.value == SampleIds(samples))
      && forall k :: 0 <= k < |samples| ==> Annotatable(roster, samples[k])
  {
    hide PlanUpTo, InOrder, SampleIds, RepeatedSample, Annotatable, DistinctSamples, BindDataset;
    BoundDataset(dataset, samples);
    if RosterValid(roster) && BindDataset(dataset, samples).Success? {
      var sorted := InOrder(samples);
      InOrderFacts(samples);
      PlanUpToSucceeds(planId, roster, sorted, seed, |sorted|);
      forall k | 0 <= k < |samples| ensures samples[k] in sorted {
      }
      forall i | 0 <= i < |sorted| ensures sorted[i] in samples {
        assert sorted[i] in sorted;
      }
    }
  }

  // ----- packets -----

  function PacketOf(given: seq<Assignment>, w: Id): seq<Assignment> {
    if given == [] then []
    else
      var rest, last := PacketOf(given[..|given| - 1], w), given[|given| - 1];
      if last.labeler == w then rest + [last] else rest
  }

  lemma {:induction false} PacketHolds(given: seq<Assignment>, w: Id, a: Assignment)
    ensures a in PacketOf(given, w) <==> a in given && a.labeler == w
  {
    if given != [] {
      PacketHolds(given[..|given| - 1], w, a);
      assert given == given[..|given| - 1] + [given[|given| - 1]];
    }
  }

  /** A teacher's packet never holds both assignments of a sample, so it cannot reveal a peer label. */
  lemma PacketsAreBlind(plan: Plan, samples: seq<Sample>, roster: seq<Worker>, datasetSha: string, rosterSha: string,
                        w: Id, a: Assignment, b: Assignment)
    requires PlanBinds(plan, samples, roster, datasetSha, rosterSha)
    requires a in PacketOf(plan.assignments, w) && b in PacketOf(plan.assignments, w) && a.sample == b.sample
    ensures a == b
  {
    hide BindDataset, PacketOf, DistinctAssignments, FindWorker, Qualified, AssignmentsOf, FindSample;
    PacketHolds(plan.assignments, w, a);
    PacketHolds(plan.assignments, w, b);
    var i :| 0 <= i < |plan.assignments| && plan.assignments[i] == a;
    assert AssignmentValid(plan.assignments[i], samples, roster);
    var k := FoundSample(samples, a.sample);
    assert PairValid(AssignmentsOf(plan.assignments, samples[k].id));
    AssignmentsOfHolds(plan.assignments, a.sample, a);
    AssignmentsOfHolds(plan.assignments, a.sample, b);
  }

  lemma {:induction false} FoundSample(samples: seq<Sample>, id: Id) returns (k: nat)
    requires FindSample(samples, id).Some?
    ensures k < |samples| && samples[k].id == id && FindSample(samples, id) == Some(samples[k])
  {
    if samples[|samples| - 1].id == id {
      k := |samples| - 1;
    } else {
      k := FoundSample(samples[..|samples| - 1], id);
    }
  }

  lemma {:induction false} AssignmentsOfHolds(given: seq<Assignment>, sample: Id, a: Assignment)
    ensures a in AssignmentsOf(given, sample) <==> a in given && a.sample == sample
  {
    if given != [] {
      AssignmentsOfHolds(given[..|given| - 1], sample, a);
      assert given == given[..|given| - 1] + [given[|given| - 1]];
    }
  }
}
