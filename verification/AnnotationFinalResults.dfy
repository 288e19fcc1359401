/** The end of the workflow: exactly when the merged state of a bound plan can be
    finalized, and that the result then covers every planned sample once. */
module AnnotationFinalResults {
  import opened Wrappers
  import opened Ordering
  import opened Annotation
  import opened AnnotationPlan
  import opened AnnotationBuilt
  import opened AnnotationBinding
  import opened AnnotationMerge
  import opened AnnotationMergeFacts
  import opened AnnotationMergeResults
  import opened AnnotationMergeOrder
  import opened AnnotationFinal
  import opened AnnotationFinalFacts

  // ----- from plan and merge to a merged state -----

  /** Every assignment's bundle identifier was derived from its plan and sample. */
  ghost predicate BundlesDerived(plan: Plan) {
    forall a :: a in plan.assignments ==> a.bundle == BundleId(plan.id, a.sample)
  }

  lemma AssignmentBundle(planId: string, roster: seq<Worker>, sorted: seq<Sample>, seed: Seed, cs: seq<Choice>,
                         given: seq<Assignment>, i: nat)
    requires PairsMatch(planId, roster, sorted, seed, cs, given) && i < |given|
    ensures given[i].bundle == BundleId(planId, given[i].sample)
  {
    var k := i / 2;
    assert i == 2 * k || i == 2 * k + 1;
    assert PairPlaced(planId, seed, sorted[k], cs[k], given, k);
  }

  lemma BuiltBundlesDerived(planId: string, samples: seq<Sample>, roster: seq<Worker>, dataset: Dataset,
      rosterSha: string, seed: Seed)
    requires BuildPlan(planId, samples, roster, dataset, rosterSha, seed).Success?
    ensures var plan := BuildPlan(planId, samples, roster, dataset, rosterSha, seed).value;
      && BundlesDerived(plan) && plan.id == planId && RosterValid(roster)
      && plan.dataset.records == |samples| && plan.dataset.sampleIds == Some(SampleIds(samples))
      && plan.dataset.sha == dataset.sha
  {
    BuiltNeedsRoster(BuildPlan(planId, samples, roster, dataset, rosterSha, seed).value, samples, roster, dataset,
        rosterSha, planId, seed);
    hide BuildPlan, PairsMatch, InOrder, SampleIds, RosterValid, DistinctSamples, DistinctWorkers, BindDataset;
    var cs := BuiltFrom(planId, samples, roster, dataset, rosterSha, seed);
    var plan := BuildPlan(planId, samples, roster, dataset, rosterSha, seed).value;
    BoundDataset(plan.dataset, samples);
    forall a | a in plan.assignments ensures a.bundle == BundleId(planId, a.sample) {
      var i :| 0 <= i < |plan.assignments| && plan.assignments[i] == a;
      AssignmentBundle(planId, roster, InOrder(samples), seed, cs, plan.assignments, i);
    }
  }

  lemma MergeMatches(plan: Plan, samples: seq<Sample>, roster: seq<Worker>, datasetSha: string, rosterSha: string,
                     subs: seq<Submission>, seed: Seed, policy: Policy, st: State)
    requires Merge(plan, samples, roster, datasetSha, rosterSha, subs, seed, policy) == Success(st)
    ensures DistinctBundles(st.disputed) ==> MergedState(st, plan, samples, roster, ReceivedFrom(subs), policy)
    ensures st.dataset == plan.dataset && st.dataset.sha == datasetSha && st.rosterSha == rosterSha
    ensures plan.dataset.sampleIds.Some? ==> plan.dataset.sampleIds == Some(SampleIds(samples))
  {
    hide Merge, Accepted, RosterValid, MergeUpTo, InOrder, ReceivedFrom, CompletedOf, DisputedOf, IncompleteOf,
      TasksMatch, Unsubmitted, SampleIds, Bound, Sane, BindDataset, DistinctSamples, DistinctAssignments,
      AssignmentValid, DistinctBundles;
    MergeOpened(plan, samples, roster, datasetSha, rosterSha, subs, seed, policy);
    MergeSplitsSamples(plan, samples, roster, datasetSha, rosterSha, subs, seed, policy);
    BindingBounds(plan, samples, roster, datasetSha, rosterSha);
    BoundDataset(plan.dataset, samples);
    AcceptedIsSane(subs, plan, samples, policy.normalize);
  }

  lemma DerivedBundle(plan: Plan, samples: seq<Sample>, s: Sample, received: Received, policy: Policy)
    requires Bound(plan, samples) && s in samples && BundlesDerived(plan)
    requires VerdictOn(s, plan, received, policy).Disputed?
    ensures VerdictOn(s, plan, received, policy).bundle.id == BundleId(plan.id, s.id)
  {
    hide Bound, PairFor, Ready, RequiresAdjudication;
    BundleSample(s, plan, received, policy);
    PairForFacts(plan, samples, s);
    var pair := PairFor(plan, s);
    assert pair[0] in pair;
  }

  /** Derived identifiers are shared by no two disputed bundles. */
  lemma DerivedAreDistinct(plan: Plan, samples: seq<Sample>, received: Received, policy: Policy)
    requires Bound(plan, samples) && BundlesDerived(plan)
    ensures var sorted := InOrder(samples); DistinctBundles(DisputedOf(sorted, |sorted|, plan, received, policy))
  {
    hide Bound, PairFor, Ready, RequiresAdjudication, BundlesDerived, VerdictOn, InOrder, DisputedOf, CompletedOf,
      Ascending, FromPrefix;
    var sorted := InOrder(samples);
    var disputed := DisputedOf(sorted, |sorted|, plan, received, policy);
    OrderedMembers(plan, samples);
    SplitAscends(sorted, |sorted|, plan, received, policy);
    DisputedHolds(sorted, |sorted|, plan, received, policy);
    forall i | 0 <= i < |disputed| ensures disputed[i].id == BundleId(plan.id, disputed[i].sample.id) {
      assert disputed[i] in disputed;
      var j :| 0 <= j < |sorted| && VerdictOn(sorted[j], plan, received, policy) == Disputed(disputed[i]);
      BundleSample(sorted[j], plan, received, policy);
      DerivedBundle(plan, samples, sorted[j], received, policy);
    }
  }

  lemma BuiltAreDistinct(planId: string, samples: seq<Sample>, roster: seq<Worker>, dataset: Dataset,
                         rosterSha: string, seed: Seed, plan: Plan, subs: seq<Submission>, policy: Policy, st: State)
    requires BuildPlan(planId, samples, roster, dataset, rosterSha, seed) == Success(plan)
    requires Merge(plan, samples, roster, dataset.sha, rosterSha, subs, seed, policy) == Success(st)
    ensures DistinctBundles(st.disputed) && plan.dataset.sampleIds.Some?
  {
    hide BuildPlan, Merge, PlanBinds, Accepted, RosterValid, MergeUpTo, InOrder, ReceivedFrom, CompletedOf,
      DisputedOf, IncompleteOf, TasksMatch, SampleIds, Bound, BundlesDerived, DistinctBundles;
    BuiltBundlesDerived(planId, samples, roster, dataset, rosterSha, seed);
    MergeOpened(plan, samples, roster, dataset.sha, rosterSha, subs, seed, policy);
    MergeSplitsSamples(plan, samples, roster, dataset.sha, rosterSha, subs, seed, policy);
    BindingBounds(plan, samples, roster, dataset.sha, rosterSha);
    DerivedAreDistinct(plan, samples, ReceivedFrom(subs), policy);
  }

  // ----- rulings -----

  /** The ruling cites exactly the two labels it was asked to settle. */
  predicate CitesSources(t: Task, given: Rulings)
    requires t.id in given
  {
    given[t.id].mark.sources.Some? && multiset(given[t.id].mark.sources.value) == multiset(t.sources)
  }

  lemma {:induction false} RulingKept(rulings: seq<Ruling>, id: AdjudicationId)
    requires id in RulingsFrom(rulings)
    ensures RulingsFrom(rulings)[id] in rulings && RulingsFrom(rulings)[id].task == id
  {
    if rulings[|rulings| - 1].task != id {
      RulingKept(rulings[..|rulings| - 1], id);
    }
  }

  lemma RulingOn(st: State, rulings: seq<Ruling>, norm: Normalizer, i: nat)
    requires i < |st.tasks| && DistinctTasks(st.tasks) && RulingsFit(rulings, st, norm)
    requires AllRuled(st.tasks, RulingsFrom(rulings))
    ensures var t, r := st.tasks[i], RulingsFrom(rulings)[st.tasks[i].id];
      && FindBundle(st.disputed, t.bundle).Some?
      && r.mark.labeler == t.adjudicator && r.mark.role.Adjudicator?
      && ValidLabel(r.mark, FindBundle(st.disputed, t.bundle).value.sample, norm)
  {
    hide RulingsFrom, ValidLabel, FindTask, FindBundle, SourceIds;
    var t, r := st.tasks[i], RulingsFrom(rulings)[st.tasks[i].id];
    RulingKept(rulings, t.id);
    var k :| 0 <= k < |rulings| && rulings[k] == r;
    assert RulingFits(rulings[k], st, norm);
    FindTaskHit(st.tasks, i);
  }

  lemma TwoLabelIds(labels: seq<Label>)
    requires |labels| == 2
    ensures multiset(LabelIds(labels)) == multiset{labels[0].id, labels[1].id}
  {
    assert LabelIds(labels) == [labels[0].id, labels[1].id];
  }

  lemma RuledValidIff(b: Bundle, pair: seq<Assignment>, mark: Label, policy: Policy)
    requires BundleSound(b, b.sample, pair, policy.normalize) && RequiresAdjudication(b.labels[0], b.labels[1], policy)
    requires mark.role.Adjudicator? && ValidLabel(mark, b.sample, policy.normalize)
    requires mark.labeler !in Labelers(b.labels)
    ensures ValidBundle(b.(adjudication := Some(mark)), policy) <==>
      mark.sources.Some? && multiset(mark.sources.value) == multiset(LabelIds(b.labels))
  {
    hide ValidLabel, RequiresAdjudication, LabelIds;
    TwoLabelIds(b.labels);
    assert b.labels[0].labeler in Labelers(b.labels) && b.labels[1].labeler in Labelers(b.labels);
  }

  /** With fitting rulings, an adjudicated bundle is valid exactly when the ruling cites its sources. */
  lemma RuledBundle(st: State, plan: Plan, samples: seq<Sample>, roster: seq<Worker>, received: Received,
      policy: Policy,
                    rulings: seq<Ruling>, i: nat)
    requires MergedState(st, plan, samples, roster, received, policy) && i < |st.tasks|
    requires RulingsFit(rulings, st, policy.normalize) && AllRuled(st.tasks, RulingsFrom(rulings))
    ensures FindBundle(st.disputed, st.tasks[i].bundle).Some? && i < |st.disputed|
    ensures Ruled(st, st.tasks[i], RulingsFrom(rulings)).sample == st.disputed[i].sample
    ensures ValidBundle(Ruled(st, st.tasks[i], RulingsFrom(rulings)), policy) <==>
      CitesSources(st.tasks[i], RulingsFrom(rulings))
  {
    hide MergedState, RulingsFit, RulingsFrom, ValidBundle, ValidLabel, RequiresAdjudication, FindBundle, BundleSound,
      VerdictOn, PairFor, LabelIds, Labelers, DistinctTasks, TaskValid, BundleAscends, DistinctBundles;
    TaskFacts(st, plan, samples, roster, received, policy, i);
    DisputedAreDistinct(st, plan, samples, roster, received, policy);
    DisputedBundle(st, plan, samples, roster, received, policy, i);
    RulingOn(st, rulings, policy.normalize, i);
    RuledValidIff(st.disputed[i], PairFor(plan, st.disputed[i].sample), RulingsFrom(rulings)[st.tasks[i].id].mark,
        policy);
  }

  lemma {:induction false} RuledUpToSucceedsIff(st: State, given: Rulings, k: nat, policy: Policy)
    requires k <= |st.tasks| && AllRuled(st.tasks, given)
    requires forall i :: 0 <= i < |st.tasks| ==> FindBundle(st.disputed, st.tasks[i].bundle).Some?
    requires forall i :: 0 <= i < |st.tasks| ==>
      (ValidBundle(Ruled(st, st.tasks[i], given), policy) <==> CitesSources(st.tasks[i], given))
    ensures RuledUpTo(st, given, k, policy).Success? <==> forall i :: 0 <= i < k ==> CitesSources(st.tasks[i], given)
    ensures RuledUpTo(st, given, k, policy).Success? ==>
      var r := RuledUpTo(st, given, k, policy).value;
      |r| == k && forall i :: 0 <= i < k ==> r[i] == Ruled(st, st.tasks[i], given)
    decreases k
  {
    hide ValidBundle, Ruled, FindBundle, CitesSources;
    if k > 0 {
      RuledUpToSucceedsIff(st, given, k - 1, policy);
    }
  }

  // ----- the final list -----

  lemma {:induction false} NothingIncomplete(sorted: seq<Sample>, k: nat, plan: Plan, received: Received,
      policy: Policy)
    requires k <= |sorted| && forall i :: 0 <= i < k ==> !VerdictOn(sorted[i], plan, received, policy).Incomplete?
    ensures IncompleteOf(sorted, k, plan, received, policy) == []
    decreases k
  {
    hide VerdictOn;
    if k > 0 {
      NothingIncomplete(sorted, k - 1, plan, received, policy);
    }
  }

  /** With nothing unsubmitted, completed and disputed bundles are as many as the samples and cover them. */
  lemma SplitCovers(st: State, plan: Plan, samples: seq<Sample>, roster: seq<Worker>, received: Received,
      policy: Policy)
    requires MergedState(st, plan, samples, roster, received, policy) && st.unsubmitted == []
    ensures |st.completed| + |st.disputed| == |samples|
    ensures forall s :: s in samples ==> HasBundle(st.completed, s) || HasBundle(st.disputed, s)
  {
    hide Bound, Sane, InOrder, VerdictOn, CompletedOf, DisputedOf, IncompleteOf, TasksMatch, RosterValid, SampleIds,
      Ascending, Unsubmitted;
    var sorted := InOrder(samples);
    OrderedMembers(plan, samples);
    forall s | s in samples ensures !VerdictOn(s, plan, received, policy).Incomplete? {
      IncompleteMeansUnsubmitted(plan, samples, s, received, policy);
    }
    NothingIncomplete(sorted, |sorted|, plan, received, policy);
    SplitCounts(sorted, |sorted|, plan, received, policy);
    CompletedHolds(sorted, |sorted|, plan, received, policy);
    DisputedHolds(sorted, |sorted|, plan, received, policy);
    forall s | s in samples ensures HasBundle(st.completed, s) || HasBundle(st.disputed, s) {
      assert s in sorted;
      var i :| 0 <= i < |sorted| && sorted[i] == s;
      BundleSample(s, plan, received, policy);
      var v := VerdictOn(s, plan, received, policy);
      assert v.Agreed? ==> VerdictOn(sorted[i], plan, received, policy) == Agreed(v.bundle);
      assert v.Disputed? ==> VerdictOn(sorted[i], plan, received, policy) == Disputed(v.bundle);
    }
  }

  lemma {:induction false} CountIds(bundles: seq<Bundle>)
    requires DistinctKeys(bundles, BundleKey)
    ensures |BundleSampleIds(bundles)| == |bundles|
  {
    if bundles != [] {
      var init, last := bundles[..|bundles| - 1], bundles[|bundles| - 1];
      CountIds(init);
      assert BundleSampleIds(bundles) == BundleSampleIds(init) + {last.sample.id};
      assert last.sample.id !in BundleSampleIds(init) by {
        assert forall i :: 0 <= i < |init| ==> BundleKey(bundles[i]) != BundleKey(bundles[|bundles| - 1]);
      }
    }
  }

  /** Bundles of both kinds, whose samples are the planned ones, each once. */
  ghost predicate CoversOnce(all: seq<Bundle>, samples: seq<Sample>) {
    && |all| == |samples| && DistinctKeys(all, BundleKey)
    && (forall b :: b in all ==> b.sample in samples)
    && (forall s :: s in samples ==> HasBundle(all, s))
  }

  /** The ruled bundles keep the disputed samples, in order. */
  ghost predicate SameSamples(ruled: seq<Bundle>, disputed: seq<Bundle>) {
    |ruled| == |disputed| && forall i :: 0 <= i < |ruled| ==> ruled[i].sample == disputed[i].sample
  }

  lemma DifferentVerdicts(st: State, plan: Plan, samples: seq<Sample>, roster: seq<Worker>, received: Received,
      policy: Policy, i: nat, j: nat)
    requires MergedState(st, plan, samples, roster, received, policy) && i < |st.completed| && j < |st.disputed|
    ensures st.completed[i].sample in samples && st.disputed[j].sample in samples
    ensures st.completed[i].sample.id != st.disputed[j].sample.id
  {
    hide Sane, InOrder, VerdictOn, CompletedOf, DisputedOf, TasksMatch, RosterValid, SampleIds, Unsubmitted,
      BundleSound, ValidBundle, RequiresAdjudication, PairFor, DistinctAssignments, AssignmentsOf, PairValid;
    CompletedBundle(st, plan, samples, roster, received, policy, i);
    DisputedBundle(st, plan, samples, roster, received, policy, j);
  }

  lemma AllDistinct(st: State, plan: Plan, samples: seq<Sample>, roster: seq<Worker>, received: Received,
      policy: Policy, ruled: seq<Bundle>)
    requires MergedState(st, plan, samples, roster, received, policy) && SameSamples(ruled, st.disputed)
    ensures DistinctKeys(st.completed + ruled, BundleKey)
    ensures forall b :: b in st.completed + ruled ==> b.sample in samples
  {
    hide MergedState, DistinctBundles, DistinctTasks;
    DisputedAreDistinct(st, plan, samples, roster, received, policy);
    var all, n := st.completed + ruled, |st.completed|;
    forall i, j | 0 <= i < j < |all| ensures BundleKey(all[i]) != BundleKey(all[j]) {
      if i < n <= j {
        DifferentVerdicts(st, plan, samples, roster, received, policy, i, j - n);
      } else if i >= n {
        assert st.disputed[i - n].sample.id < st.disputed[j - n].sample.id;
      }
    }
    forall i | 0 <= i < |all| ensures all[i].sample in samples {
      if i < n {
        InSamples(st, plan, samples, roster, received, policy, i, true);
      } else {
        InSamples(st, plan, samples, roster, received, policy, i - n, false);
      }
    }
  }

  lemma InSamples(st: State, plan: Plan, samples: seq<Sample>, roster: seq<Worker>, received: Received, policy: Policy,
      i: nat, agreed: bool)
    requires MergedState(st, plan, samples, roster, received, policy)
    requires i < if agreed then |st.completed| else |st.disputed|
    ensures (if agreed then st.completed[i] else st.disputed[i]).sample in samples
  {
    hide MergedState, BundleSound, ValidBundle, RequiresAdjudication, VerdictOn, PairFor;
    if agreed {
      CompletedBundle(st, plan, samples, roster, received, policy, i);
    } else {
      DisputedBundle(st, plan, samples, roster, received, policy, i);
    }
  }

  lemma AllCoverOnce(st: State, plan: Plan, samples: seq<Sample>, roster: seq<Worker>, received: Received,
      policy: Policy, ruled: seq<Bundle>)
    requires MergedState(st, plan, samples, roster, received, policy) && st.unsubmitted == []
    requires SameSamples(ruled, st.disputed)
    ensures CoversOnce(st.completed + ruled, samples)
  {
    hide MergedState, DistinctKeys;
    SplitCovers(st, plan, samples, roster, received, policy);
    AllDistinct(st, plan, samples, roster, received, policy, ruled);
    var all := st.completed + ruled;
    forall s | s in samples ensures HasBundle(all, s) {
      if HasBundle(st.completed, s) {
        var b :| b in st.completed && b.sample == s;
        assert b in all;
      } else {
        assert HasBundle(st.disputed, s);
        var b :| b in st.disputed && b.sample == s;
        var i :| 0 <= i < |st.disputed| && st.disputed[i] == b;
        assert ruled[i] in all;
      }
    }
  }

  lemma SortCoversOnce(all: seq<Bundle>, samples: seq<Sample>)
    requires CoversOnce(all, samples)
    ensures CoversOnce(SortBy(all, BundleKey), samples) && Ascending(SortBy(all, BundleKey), BundleKey)
    ensures forall b :: b in SortBy(all, BundleKey) <==> b in all
  {
    hide SortBy;
    var r := SortBy(all, BundleKey);
    SortKeepsAll(all, BundleKey);
    SortAscends(all, BundleKey);
    SameMembers(r, all);
    forall s | s in samples ensures HasBundle(r, s) {
      assert HasBundle(all, s);
    }
  }

  lemma CoveringIds(bundles: seq<Bundle>, samples: seq<Sample>)
    requires CoversOnce(bundles, samples)
    ensures BundleSampleIds(bundles) == SampleIds(samples)
  {
    hide DistinctKeys;
    forall id ensures id in BundleSampleIds(bundles) <==> id in SampleIds(samples) {
      if id in BundleSampleIds(bundles) {
        var i :| 0 <= i < |bundles| && bundles[i].sample.id == id;
        assert bundles[i] in bundles;
        var k :| 0 <= k < |samples| && samples[k] == bundles[i].sample;
      }
      if id in SampleIds(samples) {
        var k :| 0 <= k < |samples| && samples[k].id == id;
        assert HasBundle(bundles, samples[k]);
        var b :| b in bundles && b.sample == samples[k];
        var i :| 0 <= i < |bundles| && bundles[i] == b;
      }
    }
  }

  lemma {:induction false} NoneInvalid(bundles: seq<Bundle>, k: nat, policy: Policy)
    requires k <= |bundles| && forall i :: k <= i < |bundles| ==> ValidBundle(bundles[i], policy)
    ensures FirstInvalid(bundles, k, policy).None?
    decreases |bundles| - k
  {
    hide ValidBundle;
    if k < |bundles| {
      NoneInvalid(bundles, k + 1, policy);
    }
  }

  lemma FinalChecksPass(bundles: seq<Bundle>, samples: seq<Sample>, dataset: Dataset, policy: Policy)
    requires CoversOnce(bundles, samples) && dataset.records == |samples|
    requires dataset.sampleIds == Some(SampleIds(samples))
    requires forall b :: b in bundles ==> ValidBundle(b, policy)
    ensures CheckFinal(bundles, dataset, policy) == Success(bundles)
  {
    hide ValidBundle, SampleIds, BundleSampleIds, DistinctKeys;
    CountIds(bundles);
    CoveringIds(bundles, samples);
    NoneInvalid(bundles, 0, policy);
  }

  // ----- the theorem -----

  /** What finalize returns once everything is in. */
  ghost predicate FinalBundles(bundles: seq<Bundle>, samples: seq<Sample>, policy: Policy) {
    && |bundles| == |samples| && Ascending(bundles, BundleKey)
    && (forall s :: s in samples ==> HasBundle(bundles, s))
    && (forall b :: b in bundles ==> FinalBundle(b, samples, policy))
  }

  /** A valid bundle of a planned sample, adjudicated exactly when its labels disagree. */
  ghost predicate FinalBundle(b: Bundle, samples: seq<Sample>, policy: Policy) {
    && b.sample in samples && ValidBundle(b, policy)
    && (b.adjudication.Some? <==> RequiresAdjudication(b.labels[0], b.labels[1], policy))
  }

  lemma CompletedIsFinal(st: State, plan: Plan, samples: seq<Sample>, roster: seq<Worker>, received: Received,
      policy: Policy, i: nat)
    requires MergedState(st, plan, samples, roster, received, policy) && i < |st.completed|
    ensures FinalBundle(st.completed[i], samples, policy)
  {
    hide MergedState, VerdictOn, ValidBundle, RequiresAdjudication;
    CompletedBundle(st, plan, samples, roster, received, policy, i);
  }

  lemma RuledIsFinal(st: State, plan: Plan, samples: seq<Sample>, roster: seq<Worker>, received: Received,
      policy: Policy,
                     rulings: seq<Ruling>, i: nat)
    requires MergedState(st, plan, samples, roster, received, policy) && i < |st.tasks|
    requires RulingsFit(rulings, st, policy.normalize) && AllRuled(st.tasks, RulingsFrom(rulings))
    requires CitesSources(st.tasks[i], RulingsFrom(rulings))
    ensures FindBundle(st.disputed, st.tasks[i].bundle).Some?
    ensures FinalBundle(Ruled(st, st.tasks[i], RulingsFrom(rulings)), samples, policy)
  {
    hide MergedState, VerdictOn, ValidBundle, RequiresAdjudication, RulingsFit, RulingsFrom, CitesSources, FindBundle,
      BundleSound, PairFor, TaskValid, Labelers, LabelIds;
    RuledBundle(st, plan, samples, roster, received, policy, rulings, i);
    TaskFacts(st, plan, samples, roster, received, policy, i);
    DisputedBundle(st, plan, samples, roster, received, policy, i);
  }

  lemma AllFinal(st: State, plan: Plan, samples: seq<Sample>, roster: seq<Worker>, received: Received, policy: Policy,
                 rulings: seq<Ruling>, ruled: seq<Bundle>)
    requires MergedState(st, plan, samples, roster, received, policy) && st.unsubmitted == []
    requires st.dataset.sampleIds == Some(SampleIds(samples))
    requires RulingsFit(rulings, st, policy.normalize) && AllRuled(st.tasks, RulingsFrom(rulings))
    requires forall i :: 0 <= i < |st.tasks| ==> CitesSources(st.tasks[i], RulingsFrom(rulings))
    requires forall i :: 0 <= i < |st.tasks| ==> FindBundle(st.disputed, st.tasks[i].bundle).Some?
    requires |ruled| == |st.tasks| && forall i :: 0 <= i < |ruled| ==>
      ruled[i] == Ruled(st, st.tasks[i], RulingsFrom(rulings))
    ensures CheckFinal(SortBy(st.completed + ruled, BundleKey), st.dataset, policy)
      == Success(SortBy(st.completed + ruled, BundleKey))
    ensures FinalBundles(SortBy(st.completed + ruled, BundleKey), samples, policy)
  {
    hide MergedState, RulingsFit, RulingsFrom, CitesSources, FindBundle, FinalBundle, CheckFinal, SortBy,
      Ruled, TaskValid, DistinctTasks, DistinctBundles, BundleAscends, DistinctKeys, Ascending,
      ValidBundle, Labelers, LabelIds;
    DisputedAreDistinct(st, plan, samples, roster, received, policy);
    var all := st.completed + ruled;
    forall i | 0 <= i < |ruled|
      ensures ruled[i].sample == st.disputed[i].sample && FinalBundle(ruled[i], samples, policy)
    {
      RuledBundle(st, plan, samples, roster, received, policy, rulings, i);
      RuledIsFinal(st, plan, samples, roster, received, policy, rulings, i);
    }
    forall i | 0 <= i < |st.completed| ensures FinalBundle(st.completed[i], samples, policy) {
      CompletedIsFinal(st, plan, samples, roster, received, policy, i);
    }
    AllCoverOnce(st, plan, samples, roster, received, policy, ruled);
    SortCoversOnce(all, samples);
    FinalAreValid(SortBy(all, BundleKey), samples, policy);
    DatasetOfState(st, plan, samples, roster, received, policy);
    FinalChecksPass(SortBy(all, BundleKey), samples, st.dataset, policy);
  }

  lemma FinalAreValid(bundles: seq<Bundle>, samples: seq<Sample>, policy: Policy)
    requires forall b :: b in bundles ==> FinalBundle(b, samples, policy)
    ensures forall b :: b in bundles ==> ValidBundle(b, policy)
  {
    hide ValidBundle, RequiresAdjudication;
  }

  lemma DatasetOfState(st: State, plan: Plan, samples: seq<Sample>, roster: seq<Worker>, received: Received,
      policy: Policy)
    requires MergedState(st, plan, samples, roster, received, policy)
    ensures st.dataset.records == |samples|
  {
  }

  /** Nothing is open, and the adjudications fit, are complete and each cite the two labels they settle. */
  predicate AllSettled(st: State, rulings: seq<Ruling>, policy: Policy) {
    && st.unsubmitted == []
    && RulingsFit(rulings, st, policy.normalize) && AllRuled(st.tasks, RulingsFrom(rulings))
    && forall i :: 0 <= i < |st.tasks| ==> CitesSources(st.tasks[i], RulingsFrom(rulings))
  }

  /** For a bound plan and its merged state, finalizing succeeds exactly when everything is settled, no two disputed
      bundles share an identifier and the plan records its sample identifiers. It then returns one valid bundle
      per planned sample, in order, adjudicated by an independent worker exactly where the labels disagree. */
  lemma BoundFinalizeSucceedsIff(plan: Plan, samples: seq<Sample>, roster: seq<Worker>, datasetSha: string,
                                 rosterSha: string, subs: seq<Submission>, seed: Seed, policy: Policy, st: State,
                                 rulings: seq<Ruling>)
    requires Merge(plan, samples, roster, datasetSha, rosterSha, subs, seed, policy) == Success(st)
    ensures var r := Finalize(st, roster, datasetSha, rosterSha, rulings, policy);
      && (r.Success? <==>
            DistinctBundles(st.disputed) && plan.dataset.sampleIds.Some? && AllSettled(st, rulings, policy))
      && (r.Success? ==> FinalBundles(r.value, samples, policy))
  {
    hide Merge, MergedState, AllSettled, Finalize, FinalBundles, SampleIds, ReceivedFrom, DistinctBundles;
    MergeMatches(plan, samples, roster, datasetSha, rosterSha, subs, seed, policy, st);
    FinalizeNeeds(st, roster, datasetSha, rosterSha, rulings, policy);
    if DistinctBundles(st.disputed) && plan.dataset.sampleIds.Some? {
      FinalizeState(st, plan, samples, roster, ReceivedFrom(subs), policy, rulings);
    }
  }

  lemma FinalizeNeeds(st: State, roster: seq<Worker>, datasetSha: string, rosterSha: string, rulings: seq<Ruling>,
      policy: Policy)
    ensures Finalize(st, roster, datasetSha, rosterSha, rulings, policy).Success? ==>
      DistinctBundles(st.disputed) && st.dataset.sampleIds.Some?
  {
    hide RosterValid, DistinctTasks, FirstWrong, RulingsFit, AllRuled, RulingsFrom, RuledUpTo, SortBy,
      BundleSampleIds, FirstInvalid;
    NoneWrong(st, roster, 0);
  }

  /** For a built plan settling everything is enough. */
  lemma FinalizeSucceedsIff(planId: string, samples: seq<Sample>, roster: seq<Worker>, dataset: Dataset,
                            rosterSha: string, seed: Seed, plan: Plan, subs: seq<Submission>, policy: Policy,
                            st: State, rulings: seq<Ruling>)
    requires BuildPlan(planId, samples, roster, dataset, rosterSha, seed) == Success(plan)
    requires Merge(plan, samples, roster, dataset.sha, rosterSha, subs, seed, policy) == Success(st)
    ensures var r := Finalize(st, roster, dataset.sha, rosterSha, rulings, policy);
      (r.Success? <==> AllSettled(st, rulings, policy)) && (r.Success? ==> FinalBundles(r.value, samples, policy))
  {
    hide BuildPlan, Merge, Finalize, AllSettled, FinalBundles, DistinctBundles;
    BuiltAreDistinct(planId, samples, roster, dataset, rosterSha, seed, plan, subs, policy, st);
    BoundFinalizeSucceedsIff(plan, samples, roster, dataset.sha, rosterSha, subs, seed, policy, st, rulings);
  }

  lemma FinalizeState(st: State, plan: Plan, samples: seq<Sample>, roster: seq<Worker>, received: Received,
                      policy: Policy, rulings: seq<Ruling>)
    requires MergedState(st, plan, samples, roster, received, policy)
    requires st.dataset.sampleIds == Some(SampleIds(samples))
    ensures var r := Finalize(st, roster, st.dataset.sha, st.rosterSha, rulings, policy);
      (r.Success? <==> AllSettled(st, rulings, policy)) && (r.Success? ==> FinalBundles(r.value, samples, policy))
  {
    hide MergedState, RulingsFit, RulingsFrom, CitesSources, FindBundle, FinalBundles, CheckFinal, SortBy, Ruled,
      CheckState, RuledUpTo, ValidBundle, FirstWrong, TaskValid, SampleIds;
    StateChecks(st, plan, samples, roster, received, policy);
    if st.unsubmitted == [] && RulingsFit(rulings, st, policy.normalize) && AllRuled(st.tasks, RulingsFrom(rulings)) {
      var given := RulingsFrom(rulings);
      forall i | 0 <= i < |st.tasks|
        ensures ValidBundle(Ruled(st, st.tasks[i], given), policy) <==> CitesSources(st.tasks[i], given)
      {
        RuledBundle(st, plan, samples, roster, received, policy, rulings, i);
      }
      RuledUpToSucceedsIff(st, given, |st.tasks|, policy);
      if RuledUpTo(st, given, |st.tasks|, policy).Success? {
        AllFinal(st, plan, samples, roster, received, policy, rulings, RuledUpTo(st, given, |st.tasks|, policy).value);
      }
    }
  }
}
