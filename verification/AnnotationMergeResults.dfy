/** The main facts about merging teacher submissions. */
module AnnotationMergeResults {
  import opened Wrappers
  import opened Ordering
  import opened Annotation
  import opened AnnotationPlan
  import opened AnnotationBinding
  import opened AnnotationMerge
  import opened AnnotationMergeFacts

  // ----- the three kinds of sample -----

  function CompletedOf(sorted: seq<Sample>, k: nat, plan: Plan, received: Received, policy: Policy): seq<Bundle>
    requires k <= |sorted|
  {
    if k == 0 then []
    else
      var rest, v := CompletedOf(sorted, k - 1, plan, received, policy),
          VerdictOn(sorted[k - 1], plan, received, policy);
      if v.Agreed? then rest + [v.bundle] else rest
  }

  function DisputedOf(sorted: seq<Sample>, k: nat, plan: Plan, received: Received, policy: Policy): seq<Bundle>
    requires k <= |sorted|
  {
    if k == 0 then []
    else
      var rest, v := DisputedOf(sorted, k - 1, plan, received, policy),
          VerdictOn(sorted[k - 1], plan, received, policy);
      if v.Disputed? then rest + [v.bundle] else rest
  }

  function IncompleteOf(sorted: seq<Sample>, k: nat, plan: Plan, received: Received, policy: Policy): seq<Sample>
    requires k <= |sorted|
  {
    if k == 0 then []
    else
      var rest, v := IncompleteOf(sorted, k - 1, plan, received, policy),
          VerdictOn(sorted[k - 1], plan, received, policy);
      if v.Incomplete? then rest + [sorted[k - 1]] else rest
  }

  /** A task sends a disputed bundle with both label ids to a qualified worker who is neither teacher. */
  ghost predicate TaskMatches(t: Task, bundle: Bundle, planId: string, roster: seq<Worker>) {
    && t.bundle == bundle.id && t.sample == bundle.sample.id && t.sources == LabelIds(bundle.labels)
    && t.id == AdjudicationId(planId, bundle.id, t.adjudicator)
    && MayAdjudicateId(t.adjudicator, bundle, roster)
  }

  ghost predicate MayAdjudicateId(id: Id, bundle: Bundle, roster: seq<Worker>) {
    exists w: Worker :: w.id == id && MayAdjudicate(w, bundle.sample, bundle.labels, roster)
  }

  ghost predicate TasksMatch(tasks: seq<Task>, disputed: seq<Bundle>, planId: string, roster: seq<Worker>) {
    |tasks| == |disputed| && forall i :: 0 <= i < |tasks| ==> TaskMatches(tasks[i], disputed[i], planId, roster)
  }

  lemma BundleSample(s: Sample, plan: Plan, received: Received, policy: Policy)
    ensures var v := VerdictOn(s, plan, received, policy);
      (v.Agreed? || v.Disputed?) ==>
        && v.bundle.sample == s && Ready(received, PairFor(plan, s))
        && v.bundle == BundleFor(s, PairFor(plan, s), received)
        && (v.Disputed? <==> RequiresAdjudication(v.bundle.labels[0], v.bundle.labels[1], policy))
  {
  }

  lemma {:induction false} MergeUpToSplits(sorted: seq<Sample>, k: nat, plan: Plan, received: Received,
      roster: seq<Worker>,
                                           seed: Seed, policy: Policy)
    requires k <= |sorted| && MergeUpTo(sorted, k, plan, received, roster, seed, policy).Success?
    ensures var st := MergeUpTo(sorted, k, plan, received, roster, seed, policy).value;
      && st.completed == CompletedOf(sorted, k, plan, received, policy)
      && st.disputed == DisputedOf(sorted, k, plan, received, policy)
      && TasksMatch(st.tasks, st.disputed, plan.id, roster)
    decreases k
  {
    hide ChooseAdjudicator, VerdictOn, AddLoad, ValidBundle, NoWork, MayAdjudicate, RequiresAdjudication;
    if k > 0 {
      MergeUpToSplits(sorted, k - 1, plan, received, roster, seed, policy);
      var st, v := MergeUpTo(sorted, k - 1, plan, received, roster, seed, policy).value,
          VerdictOn(sorted[k - 1], plan, received, policy);
      if v.Disputed? {
        BundleSample(sorted[k - 1], plan, received, policy);
        AdjudicatorChosen(roster, sorted[k - 1], v.bundle.labels, st.loads, seed);
      }
    }
  }

  ghost predicate AdjudicatorLeft(s: Sample, plan: Plan, received: Received, roster: seq<Worker>, policy: Policy) {
    var v := VerdictOn(s, plan, received, policy);
    v.Disputed? ==> exists w :: MayAdjudicate(w, s, v.bundle.labels, roster)
  }

  /** One step fails exactly for lack of an adjudicator; agreed bundles never fail validation. */
  lemma StepOutcome(s: Sample, plan: Plan, samples: seq<Sample>, received: Received, roster: seq<Worker>, seed: Seed,
                    policy: Policy, st: Sorted)
    requires Bound(plan, samples) && Sane(received, plan, samples, policy.normalize) && s in samples
    ensures var r := MergeSample(s, plan, received, roster, seed, policy, st);
      if AdjudicatorLeft(s, plan, received, roster, policy) then r.Success? else r == Failure(NoAdjudicator(s.id))
  {
    hide Bound, Sane, PairFor, ValidBundle, RequiresAdjudication, MayAdjudicate, ChooseAdjudicator, Ready, AddLoad,
      TaskFor, BundleSound;
    var v := VerdictOn(s, plan, received, policy);
    if !v.Incomplete? {
      BundleSample(s, plan, received, policy);
      BundleIsSound(plan, samples, s, received, policy.normalize);
      if v.Agreed? {
        AgreedIsValid(v.bundle, s, PairFor(plan, s), policy);
      } else {
        AdjudicatorChosen(roster, s, v.bundle.labels, st.loads, seed);
      }
    }
  }

  lemma {:induction false} MergeUpToSucceedsIff(sorted: seq<Sample>, k: nat, plan: Plan, samples: seq<Sample>,
      received: Received,
                                                roster: seq<Worker>, seed: Seed, policy: Policy)
    requires k <= |sorted| && forall i :: 0 <= i < k ==> sorted[i] in samples
    requires Bound(plan, samples) && Sane(received, plan, samples, policy.normalize)
    ensures MergeUpTo(sorted, k, plan, received, roster, seed, policy).Success? <==>
      forall i :: 0 <= i < k ==> AdjudicatorLeft(sorted[i], plan, received, roster, policy)
    ensures MergeUpTo(sorted, k, plan, received, roster, seed, policy).Failure? ==>
      MergeUpTo(sorted, k, plan, received, roster, seed, policy).error.NoAdjudicator?
    decreases k
  {
    hide Bound, Sane, MergeSample, AdjudicatorLeft, NoWork;
    if k > 0 {
      MergeUpToSucceedsIff(sorted, k - 1, plan, samples, received, roster, seed, policy);
      if MergeUpTo(sorted, k - 1, plan, received, roster, seed, policy).Success? {
        StepOutcome(sorted[k - 1], plan, samples, received, roster, seed, policy,
                    MergeUpTo(sorted, k - 1, plan, received, roster, seed, policy).value);
      }
    }
  }

  // ----- success -----

  /** A disputed sample's assignments leave a qualified adjudicator. */
  ghost predicate DisputesStaffed(plan: Plan, samples: seq<Sample>, received: Received, roster: seq<Worker>,
      policy: Policy) {
    forall k :: 0 <= k < |samples| && VerdictOn(samples[k], plan, received, policy).Disputed? ==>
      LeavesAdjudicator(AssignmentsOf(plan.assignments, samples[k].id), samples[k], roster)
  }

  lemma LeftIffStaffed(s: Sample, plan: Plan, samples: seq<Sample>, received: Received, roster: seq<Worker>,
      policy: Policy)
    requires Bound(plan, samples) && Sane(received, plan, samples, policy.normalize) && s in samples
    ensures AdjudicatorLeft(s, plan, received, roster, policy) <==>
      (VerdictOn(s, plan, received, policy).Disputed? ==>
        LeavesAdjudicator(AssignmentsOf(plan.assignments, s.id), s, roster))
  {
    hide Bound, Sane, PairFor, RequiresAdjudication, MayAdjudicate, Ready, BundleSound, LeavesAdjudicator,
      AssignmentsOf, VerdictOn, BundleFor;
    var v := VerdictOn(s, plan, received, policy);
    if v.Disputed? {
      BundleSample(s, plan, received, policy);
      BundleIsSound(plan, samples, s, received, policy.normalize);
      StaffedGivesAdjudicator(plan, samples, s, v.bundle, roster, policy.normalize);
    }
  }

  /** On a bound plan, merging succeeds exactly when the submissions are acceptable and every disputed
      sample has an adjudicator left; no agreed bundle ever fails validation. */
  lemma MergeSucceedsIff(plan: Plan, samples: seq<Sample>, roster: seq<Worker>, datasetSha: string, rosterSha: string,
                         subs: seq<Submission>, seed: Seed, policy: Policy)
    requires RosterValid(roster) && PlanBinds(plan, samples, roster, datasetSha, rosterSha)
    ensures var r := Merge(plan, samples, roster, datasetSha, rosterSha, subs, seed, policy);
      && (r.Success? <==> Accepted(subs, plan, samples, policy.normalize)
                          && DisputesStaffed(plan, samples, ReceivedFrom(subs), roster, policy))
      && (r.Failure? ==> r.error.Rejected? || r.error.NoAdjudicator?)
  {
    hide RosterValid, PlanBinds, Accepted, MergeUpTo, ReceivedFrom, InOrder, Bound, Sane, VerdictOn,
      LeavesAdjudicator, AssignmentsOf, AdjudicatorLeft, StateFrom, Ascending;
    BindingBounds(plan, samples, roster, datasetSha, rosterSha);
    if Accepted(subs, plan, samples, policy.normalize) {
      var received, sorted := ReceivedFrom(subs), InOrder(samples);
      AcceptedIsSane(subs, plan, samples, policy.normalize);
      OrderedMembers(plan, samples);
      MergeUpToSucceedsIff(sorted, |sorted|, plan, samples, received, roster, seed, policy);
      forall k | 0 <= k < |samples|
        ensures samples[k] in sorted
        ensures AdjudicatorLeft(samples[k], plan, received, roster, policy) <==>
          (VerdictOn(samples[k], plan, received, policy).Disputed? ==>
            LeavesAdjudicator(AssignmentsOf(plan.assignments, samples[k].id), samples[k], roster))
      {
        LeftIffStaffed(samples[k], plan, samples, received, roster, policy);
      }
      SameEverywhere(samples, sorted, plan, received, roster, policy);
    }
  }

  lemma OrderedMembers(plan: Plan, samples: seq<Sample>)
    requires Bound(plan, samples)
    ensures forall s :: s in InOrder(samples) <==> s in samples
    ensures forall i :: 0 <= i < |InOrder(samples)| ==> InOrder(samples)[i] in samples
    ensures Ascending(InOrder(samples), SampleKey) && |InOrder(samples)| == |samples|
  {
    hide InOrder;
    InOrderFacts(samples);
  }

  lemma SameEverywhere(a: seq<Sample>, b: seq<Sample>, plan: Plan, received: Received, roster: seq<Worker>,
      policy: Policy)
    requires forall s :: s in a <==> s in b
    ensures (forall i :: 0 <= i < |a| ==> AdjudicatorLeft(a[i], plan, received, roster, policy))
       <==> (forall i :: 0 <= i < |b| ==> AdjudicatorLeft(b[i], plan, received, roster, policy))
  {
    hide AdjudicatorLeft;
    assert forall i :: 0 <= i < |a| ==> a[i] in b;
    assert forall i :: 0 <= i < |b| ==> b[i] in a;
  }

  /** A plan built by the planner never runs out of adjudicators. */
  lemma BuiltPlansMerge(plan: Plan, samples: seq<Sample>, roster: seq<Worker>, dataset: Dataset, rosterSha: string,
                        planId: string, subs: seq<Submission>, seed: Seed, policy: Policy)
    requires BuildPlan(planId, samples, roster, dataset, rosterSha, seed) == Success(plan)
    ensures var r := Merge(plan, samples, roster, dataset.sha, rosterSha, subs, seed, policy);
      if Accepted(subs, plan, samples, policy.normalize) then r.Success? else r == Failure(Rejected)
  {
    BuiltNeedsRoster(plan, samples, roster, dataset, rosterSha, planId, seed);
    BuiltPlanBinds(planId, samples, roster, dataset, rosterSha, seed);
    hide BuildPlan, PlanBinds, RosterValid, Accepted, ReceivedFrom, VerdictOn, LeavesAdjudicator, MergeUpTo,
      InOrder, StateFrom;
    MergeSucceedsIff(plan, samples, roster, dataset.sha, rosterSha, subs, seed, policy);
  }

  lemma BuiltNeedsRoster(plan: Plan, samples: seq<Sample>, roster: seq<Worker>, dataset: Dataset, rosterSha: string,
                         planId: string, seed: Seed)
    requires BuildPlan(planId, samples, roster, dataset, rosterSha, seed) == Success(plan)
    ensures RosterValid(roster)
  {
  }

  // ----- the three-way split -----

  lemma {:induction false} SplitCounts(sorted: seq<Sample>, k: nat, plan: Plan, received: Received, policy: Policy)
    requires k <= |sorted|
    ensures |CompletedOf(sorted, k, plan, received, policy)| + |DisputedOf(sorted, k, plan, received, policy)|
      + |IncompleteOf(sorted, k, plan, received, policy)| == k
  {
    hide VerdictOn;
    if k > 0 {
      SplitCounts(sorted, k - 1, plan, received, policy);
    }
  }

  lemma {:induction false} CompletedHolds(sorted: seq<Sample>, k: nat, plan: Plan, received: Received, policy: Policy)
    requires k <= |sorted|
    ensures forall b :: b in CompletedOf(sorted, k, plan, received, policy) <==>
      exists i :: 0 <= i < k && VerdictOn(sorted[i], plan, received, policy) == Agreed(b)
  {
    hide VerdictOn;
    if k > 0 {
      CompletedHolds(sorted, k - 1, plan, received, policy);
    }
  }

  lemma {:induction false} DisputedHolds(sorted: seq<Sample>, k: nat, plan: Plan, received: Received, policy: Policy)
    requires k <= |sorted|
    ensures forall b :: b in DisputedOf(sorted, k, plan, received, policy) <==>
      exists i :: 0 <= i < k && VerdictOn(sorted[i], plan, received, policy) == Disputed(b)
  {
    hide VerdictOn;
    if k > 0 {
      DisputedHolds(sorted, k - 1, plan, received, policy);
    }
  }

  lemma {:induction false} UnsubmittedHolds(given: seq<Assignment>, received: Received, a: Assignment)
    ensures a in Unsubmitted(given, received) <==> a in given && a.id !in received
  {
    if given != [] {
      UnsubmittedHolds(given[..|given| - 1], received, a);
      assert given == given[..|given| - 1] + [given[|given| - 1]];
    }
  }

  /** A sample is incomplete exactly when one of its assignments is unsubmitted. */
  lemma IncompleteMeansUnsubmitted(plan: Plan, samples: seq<Sample>, s: Sample, received: Received, policy: Policy)
    requires Bound(plan, samples) && s in samples
    ensures VerdictOn(s, plan, received, policy).Incomplete? <==>
      exists a :: a in Unsubmitted(plan.assignments, received) && a.sample == s.id
  {
    hide Bound, PairFor, RequiresAdjudication, Unsubmitted;
    var pair := PairFor(plan, s);
    PairForFacts(plan, samples, s);
    assert pair[0] in pair && pair[1] in pair;
    UnsubmittedHolds(plan.assignments, received, pair[0]);
    UnsubmittedHolds(plan.assignments, received, pair[1]);
    if a :| a in Unsubmitted(plan.assignments, received) && a.sample == s.id {
      UnsubmittedHolds(plan.assignments, received, a);
      assert a in pair;
    }
  }
}
