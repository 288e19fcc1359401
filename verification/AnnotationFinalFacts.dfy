/** The merged state of a bound plan: what its bundles and tasks are, and what
    can stop it before the adjudications are read. */
module AnnotationFinalFacts {
  import opened Wrappers
  import opened Ordering
  import opened Annotation
  import opened AnnotationPlan
  import opened AnnotationBinding
  import opened AnnotationMerge
  import opened AnnotationMergeFacts
  import opened AnnotationMergeResults
  import opened AnnotationFinal

  // ----- bundles come in sample order -----

  ghost predicate BundleAscends(bundles: seq<Bundle>) {
    forall i, j :: 0 <= i < j < |bundles| ==> bundles[i].sample.id < bundles[j].sample.id
  }

  ghost predicate InPrefix(s: Sample, sorted: seq<Sample>, k: nat) {
    exists j :: 0 <= j < k && j < |sorted| && s == sorted[j]
  }

  ghost predicate FromPrefix(bundles: seq<Bundle>, sorted: seq<Sample>, k: nat) {
    forall i :: 0 <= i < |bundles| ==> InPrefix(bundles[i].sample, sorted, k)
  }

  lemma AppendAscends(bundles: seq<Bundle>, b: Bundle, sorted: seq<Sample>, k: nat)
    requires k < |sorted| && Ascending(sorted, SampleKey) && BundleAscends(bundles) && FromPrefix(bundles, sorted, k)
    requires b.sample == sorted[k]
    ensures BundleAscends(bundles + [b]) && FromPrefix(bundles + [b], sorted, k + 1)
  {
    forall i | 0 <= i < |bundles|
      ensures bundles[i].sample.id < b.sample.id && InPrefix(bundles[i].sample, sorted, k + 1)
    {
      assert InPrefix(bundles[i].sample, sorted, k);
      var j :| 0 <= j < k && j < |sorted| && bundles[i].sample == sorted[j];
      assert SampleKey(sorted[j]) < SampleKey(sorted[k]);
    }
  }

  lemma PrefixGrows(bundles: seq<Bundle>, sorted: seq<Sample>, k: nat)
    requires FromPrefix(bundles, sorted, k)
    ensures FromPrefix(bundles, sorted, k + 1)
  {
    forall i | 0 <= i < |bundles| ensures InPrefix(bundles[i].sample, sorted, k + 1) {
      assert InPrefix(bundles[i].sample, sorted, k);
    }
  }

  lemma NextCompleted(sorted: seq<Sample>, k: nat, plan: Plan, received: Received, policy: Policy)
    requires 0 < k <= |sorted|
    ensures var before, now := CompletedOf(sorted, k - 1, plan, received, policy),
        CompletedOf(sorted, k, plan, received, policy);
      now == before || exists b: Bundle :: b.sample == sorted[k - 1] && now == before + [b]
    ensures var before, now := DisputedOf(sorted, k - 1, plan, received, policy),
        DisputedOf(sorted, k, plan, received, policy);
      now == before || exists b: Bundle :: b.sample == sorted[k - 1] && now == before + [b]
  {
    hide VerdictOn, PairFor, Ready, RequiresAdjudication;
    BundleSample(sorted[k - 1], plan, received, policy);
  }

  lemma OneMoreAscends(before: seq<Bundle>, now: seq<Bundle>, sorted: seq<Sample>, k: nat)
    requires k < |sorted| && Ascending(sorted, SampleKey) && BundleAscends(before) && FromPrefix(before, sorted, k)
    requires now == before || exists b: Bundle :: b.sample == sorted[k] && now == before + [b]
    ensures BundleAscends(now) && FromPrefix(now, sorted, k + 1)
  {
    hide Ascending, FromPrefix, BundleAscends;
    PrefixGrows(before, sorted, k);
    if now != before {
      var b: Bundle :| b.sample == sorted[k] && now == before + [b];
      AppendAscends(before, b, sorted, k);
    }
  }

  lemma {:induction false} SplitAscends(sorted: seq<Sample>, k: nat, plan: Plan, received: Received, policy: Policy)
    requires k <= |sorted| && Ascending(sorted, SampleKey)
    ensures var c, d := CompletedOf(sorted, k, plan, received, policy), DisputedOf(sorted, k, plan, received, policy);
      BundleAscends(c) && BundleAscends(d) && FromPrefix(c, sorted, k) && FromPrefix(d, sorted, k)
    decreases k
  {
    hide CompletedOf, DisputedOf, Ascending, FromPrefix, BundleAscends;
    if k == 0 {
      NothingAscendsYet(sorted, plan, received, policy);
    } else {
      SplitAscends(sorted, k - 1, plan, received, policy);
      NextCompleted(sorted, k, plan, received, policy);
      OneMoreAscends(CompletedOf(sorted, k - 1, plan, received, policy),
          CompletedOf(sorted, k, plan, received, policy), sorted, k - 1);
      OneMoreAscends(DisputedOf(sorted, k - 1, plan, received, policy), DisputedOf(sorted, k, plan, received, policy),
          sorted, k - 1);
    }
  }

  lemma NothingAscendsYet(sorted: seq<Sample>, plan: Plan, received: Received, policy: Policy)
    ensures CompletedOf(sorted, 0, plan, received, policy) == [] && DisputedOf(sorted, 0, plan, received, policy) == []
    ensures BundleAscends([]) && FromPrefix([], sorted, 0)
  {
  }

  /** A merged bundle is sound for its sample. */
  lemma MergedBundleSound(plan: Plan, samples: seq<Sample>, s: Sample, received: Received, policy: Policy)
    requires Bound(plan, samples) && s in samples && Sane(received, plan, samples, policy.normalize)
    requires !VerdictOn(s, plan, received, policy).Incomplete?
    ensures var b := VerdictOn(s, plan, received, policy).bundle;
      b.sample == s && BundleSound(b, s, PairFor(plan, s), policy.normalize)
  {
    hide Bound, Sane, PairFor, Ready, VerdictOn, ValidLabel, RequiresAdjudication;
    BundleSample(s, plan, received, policy);
    BundleIsSound(plan, samples, s, received, policy.normalize);
  }

  /** What a merged state is made of when no two disputed bundles share an identifier. */
  ghost predicate MergedState(st: State, plan: Plan, samples: seq<Sample>, roster: seq<Worker>, received: Received,
      policy: Policy) {
    var sorted := InOrder(samples);
    && RosterValid(roster) && Bound(plan, samples) && Sane(received, plan, samples, policy.normalize)
    && DistinctBundles(st.disputed) && plan.dataset.records == |samples|
    && st.plan == plan.id && st.dataset == plan.dataset
    && st.completed == CompletedOf(sorted, |sorted|, plan, received, policy)
    && st.disputed == DisputedOf(sorted, |sorted|, plan, received, policy)
    && TasksMatch(st.tasks, st.disputed, plan.id, roster)
    && st.unsubmitted == Unsubmitted(plan.assignments, received)
  }

  lemma DisputedBundle(st: State, plan: Plan, samples: seq<Sample>, roster: seq<Worker>, received: Received,
      policy: Policy, i: nat)
    requires MergedState(st, plan, samples, roster, received, policy) && i < |st.disputed|
    ensures var b := st.disputed[i];
      && b.sample in samples && VerdictOn(b.sample, plan, received, policy) == Disputed(b)
      && BundleSound(b, b.sample, PairFor(plan, b.sample), policy.normalize)
      && RequiresAdjudication(b.labels[0], b.labels[1], policy)
  {
    hide Bound, Sane, PairFor, VerdictOn, ValidLabel, RequiresAdjudication, InOrder, RosterValid, CompletedOf,
      DisputedOf, TasksMatch, BundleSound, Unsubmitted, SampleIds, Ready;
    var sorted := InOrder(samples);
    DisputedHolds(sorted, |sorted|, plan, received, policy);
    assert st.disputed[i] in st.disputed;
    var j :| 0 <= j < |sorted| && VerdictOn(sorted[j], plan, received, policy) == Disputed(st.disputed[i]);
    OrderedMembers(plan, samples);
    MergedBundleSound(plan, samples, sorted[j], received, policy);
    BundleSample(sorted[j], plan, received, policy);
  }

  lemma CompletedBundle(st: State, plan: Plan, samples: seq<Sample>, roster: seq<Worker>, received: Received,
      policy: Policy, i: nat)
    requires MergedState(st, plan, samples, roster, received, policy) && i < |st.completed|
    ensures var b := st.completed[i];
      && b.sample in samples && VerdictOn(b.sample, plan, received, policy) == Agreed(b)
      && ValidBundle(b, policy) && b.adjudication.None?
      && |b.labels| == 2 && !RequiresAdjudication(b.labels[0], b.labels[1], policy)
  {
    hide Bound, Sane, PairFor, VerdictOn, ValidLabel, RequiresAdjudication, InOrder, RosterValid, CompletedOf,
      DisputedOf, TasksMatch, Unsubmitted, SampleIds, Ready, ValidBundle;
    var sorted := InOrder(samples);
    CompletedHolds(sorted, |sorted|, plan, received, policy);
    assert st.completed[i] in st.completed;
    var j :| 0 <= j < |sorted| && VerdictOn(sorted[j], plan, received, policy) == Agreed(st.completed[i]);
    OrderedMembers(plan, samples);
    MergedBundleSound(plan, samples, sorted[j], received, policy);
    BundleSample(sorted[j], plan, received, policy);
    AgreedIsValid(st.completed[i], sorted[j], PairFor(plan, sorted[j]), policy);
  }

  // ----- the state check passes -----

  lemma {:induction false} FindBundleHit(bundles: seq<Bundle>, k: nat)
    requires DistinctBundles(bundles) && k < |bundles|
    ensures FindBundle(bundles, bundles[k].id) == Some(bundles[k])
  {
    if k < |bundles| - 1 {
      FindBundleHit(bundles[..|bundles| - 1], k);
    }
  }

  lemma {:induction false} FindTaskHit(tasks: seq<Task>, k: nat)
    requires DistinctTasks(tasks) && k < |tasks|
    ensures FindTask(tasks, tasks[k].id) == Some(tasks[k])
  {
    if k < |tasks| - 1 {
      FindTaskHit(tasks[..|tasks| - 1], k);
    }
  }

  lemma DisputedAreDistinct(st: State, plan: Plan, samples: seq<Sample>, roster: seq<Worker>, received: Received,
      policy: Policy)
    requires MergedState(st, plan, samples, roster, received, policy)
    ensures BundleAscends(st.completed) && BundleAscends(st.disputed)
    ensures DistinctBundles(st.disputed) && DistinctTasks(st.tasks) && |st.tasks| == |st.disputed|
  {
    hide Bound, Sane, PairFor, VerdictOn, RequiresAdjudication, InOrder, RosterValid, CompletedOf, DisputedOf,
      Unsubmitted, SampleIds, BundleSound, MayAdjudicateId, Ascending, FromPrefix;
    var sorted := InOrder(samples);
    OrderedMembers(plan, samples);
    SplitAscends(sorted, |sorted|, plan, received, policy);
    forall i, j | 0 <= i < j < |st.tasks| ensures st.tasks[i].id != st.tasks[j].id {
      assert TaskMatches(st.tasks[i], st.disputed[i], plan.id, roster);
      assert TaskMatches(st.tasks[j], st.disputed[j], plan.id, roster);
    }
  }

  /** Task i is about disputed bundle i and its adjudicator is on the roster, qualified and independent. */
  lemma TaskFacts(st: State, plan: Plan, samples: seq<Sample>, roster: seq<Worker>, received: Received, policy: Policy,
      i: nat)
    requires MergedState(st, plan, samples, roster, received, policy) && i < |st.tasks|
    ensures i < |st.disputed| && FindBundle(st.disputed, st.tasks[i].bundle) == Some(st.disputed[i])
    ensures st.tasks[i].sources == LabelIds(st.disputed[i].labels)
    ensures st.tasks[i].adjudicator !in Labelers(st.disputed[i].labels)
    ensures TaskValid(st.tasks[i], st.disputed, roster)
  {
    hide Bound, Sane, PairFor, VerdictOn, RequiresAdjudication, InOrder, CompletedOf, DisputedOf, Unsubmitted,
      SampleIds, BundleSound, FindBundle, FindWorker, Qualified, BundleAscends, DistinctTasks, Labelers;
    DisputedAreDistinct(st, plan, samples, roster, received, policy);
    var t, b := st.tasks[i], st.disputed[i];
    assert TaskMatches(t, b, plan.id, roster);
    FindBundleHit(st.disputed, i);
    var w: Worker :| w.id == t.adjudicator && MayAdjudicate(w, b.sample, b.labels, roster);
    var k :| 0 <= k < |roster| && roster[k] == w;
    FindWorkerHit(roster, k);
  }

  lemma StateChecks(st: State, plan: Plan, samples: seq<Sample>, roster: seq<Worker>, received: Received,
      policy: Policy)
    requires MergedState(st, plan, samples, roster, received, policy)
    ensures CheckState(st, roster, st.dataset.sha, st.rosterSha)
      == if st.unsubmitted != [] then Some(TeachersIncomplete) else None
    ensures forall i :: 0 <= i < |st.tasks| ==> FindBundle(st.disputed, st.tasks[i].bundle).Some?
  {
    hide Bound, Sane, InOrder, CompletedOf, DisputedOf, Unsubmitted, SampleIds, TaskValid, FindBundle, BundleAscends,
      TasksMatch, DistinctTasks, DistinctBundles, FirstWrong;
    DisputedAreDistinct(st, plan, samples, roster, received, policy);
    forall i | 0 <= i < |st.tasks|
      ensures TaskValid(st.tasks[i], st.disputed, roster)
      ensures FindBundle(st.disputed, st.tasks[i].bundle).Some?
    {
      TaskFacts(st, plan, samples, roster, received, policy, i);
    }
    NoneWrong(st, roster, 0);
  }
}
