/** When an adjudication task outlasts further submissions: once all samples up to
    its own are decided. Before that, the task can move to another adjudicator. */
module AnnotationMergeTasks {
  import opened Wrappers
  import opened Ordering
  import opened Annotation
  import opened AnnotationPlan
  import opened AnnotationMerge
  import opened AnnotationMergeFacts
  import opened AnnotationMergeResults
  import opened AnnotationMergeOrder
  import opened AnnotationFinalLimits

  /** The first k samples are all completed or disputed. */
  ghost predicate DecidedUpTo(sorted: seq<Sample>, k: nat, plan: Plan, received: Received, policy: Policy)
    requires k <= |sorted|
  {
    forall i :: 0 <= i < k ==> !VerdictOn(sorted[i], plan, received, policy).Incomplete?
  }

  lemma {:induction false} DecidedMergesAlike(sorted: seq<Sample>, k: nat, plan: Plan, less: Received, more: Received,
                                              roster: seq<Worker>, seed: Seed, policy: Policy)
    requires k <= |sorted| && DecidedUpTo(sorted, k, plan, less, policy)
    requires forall id :: id in less ==> id in more && less[id] == more[id]
    ensures MergeUpTo(sorted, k, plan, more, roster, seed, policy)
      == MergeUpTo(sorted, k, plan, less, roster, seed, policy)
    decreases k
  {
    hide VerdictOn, ChooseAdjudicator, ValidBundle;
    if k > 0 {
      DecidedMergesAlike(sorted, k - 1, plan, less, more, roster, seed, policy);
      VerdictStays(sorted[k - 1], plan, less, more, policy);
    }
  }

  /** Tasks are only ever added at the end. */
  lemma {:induction false} TasksGrow(sorted: seq<Sample>, k: nat, n: nat, plan: Plan, received: Received,
                                     roster: seq<Worker>, seed: Seed, policy: Policy)
    requires k <= n <= |sorted| && MergeUpTo(sorted, n, plan, received, roster, seed, policy).Success?
    ensures MergeUpTo(sorted, k, plan, received, roster, seed, policy).Success?
    ensures MergeUpTo(sorted, k, plan, received, roster, seed, policy).value.tasks
      <= MergeUpTo(sorted, n, plan, received, roster, seed, policy).value.tasks
    decreases n
  {
    hide VerdictOn, ChooseAdjudicator, ValidBundle;
    if k < n {
      TasksGrow(sorted, k, n - 1, plan, received, roster, seed, policy);
    }
  }

  /** Once the first k samples are decided, their tasks are the same for every larger set of submissions that
      merges: the same adjudicators, in the same places. */
  lemma DecidedTasksStay(plan: Plan, samples: seq<Sample>, roster: seq<Worker>, datasetSha: string, rosterSha: string,
                         part: seq<Submission>, whole: seq<Submission>, seed: Seed, policy: Policy, k: nat)
      returns (kept: seq<Task>)
    requires multiset(part) <= multiset(whole)
    requires Merge(plan, samples, roster, datasetSha, rosterSha, whole, seed, policy).Success?
    requires k <= |InOrder(samples)| && DecidedUpTo(InOrder(samples), k, plan, ReceivedFrom(part), policy)
    ensures Merge(plan, samples, roster, datasetSha, rosterSha, part, seed, policy).Success?
    ensures kept <= Merge(plan, samples, roster, datasetSha, rosterSha, part, seed, policy).value.tasks
    ensures kept <= Merge(plan, samples, roster, datasetSha, rosterSha, whole, seed, policy).value.tasks
    ensures TasksMatch(kept, DisputedOf(InOrder(samples), k, plan, ReceivedFrom(part), policy), plan.id, roster)
  {
    hide RosterValid, PlanBinds, Accepted, ReceivedFrom, MergeUpTo, InOrder, Merge, DisputedOf, CompletedOf,
      TasksMatch, DecidedUpTo;
    var sorted, less, more := InOrder(samples), ReceivedFrom(part), ReceivedFrom(whole);
    MergeIsMonotone(plan, samples, roster, datasetSha, rosterSha, part, whole, seed, policy);
    MergeOpened(plan, samples, roster, datasetSha, rosterSha, part, seed, policy);
    MergeOpened(plan, samples, roster, datasetSha, rosterSha, whole, seed, policy);
    PartIsReceived(part, whole, plan, samples, policy.normalize);
    DecidedMergesAlike(sorted, k, plan, less, more, roster, seed, policy);
    TasksGrow(sorted, k, |sorted|, plan, less, roster, seed, policy);
    TasksGrow(sorted, k, |sorted|, plan, more, roster, seed, policy);
    MergeUpToSplits(sorted, k, plan, less, roster, seed, policy);
    kept := MergeUpTo(sorted, k, plan, less, roster, seed, policy).value.tasks;
  }

  // ----- a task that moves -----

  /** Adjudicators with equal work are taken in the order of their identifiers. */
  const ById := Seed((s: Id, c: Choice) => 0, (s: Id) => false, (s: Id, w: Id) => w)

  /** Teachers answered for the second sample only. */
  const LATER := [Answered(2, A, false), Answered(2, B, false)]

  lemma PagesInOrder()
    ensures InOrder(PAGES) == PAGES
  {
    assert PAGES[..1] == [Short(1)] && PAGES[..1][..0] == [];
    assert SortBy([Short(1)], SampleKey) == [Short(1)];
  }

  lemma Candidates(s: Sample, labels: seq<Label>)
    requires s in PAGES && Labelers(labels) == {1, 2}
    ensures AdjudicatorsFor(STAFF, s, labels) == [STAFF[2], STAFF[3]]
  {
    StaffFacts(s.id);
    var r := STAFF;
    assert !Qualified(r[0], s, Adjudicator) && !Qualified(r[1], s, Adjudicator) && Qualified(r[3], s, Adjudicator);
    assert r[..3][..2][..1][..0] == [] && r[..3][..2][..1] == [r[0]] && r[..3][..2] == [r[0], r[1]];
    assert AdjudicatorsFor([], s, labels) == [];
    assert AdjudicatorsFor([r[0]], s, labels) == [];
    assert AdjudicatorsFor([r[0], r[1]], s, labels) == [];
    assert AdjudicatorsFor(r[..3], s, labels) == [r[2]];
  }

  /** The third worker is chosen unless already busier than the fourth. */
  lemma ChosenById(s: Sample, labels: seq<Label>, loads: map<Id, nat>)
    requires s in PAGES && Labelers(labels) == {1, 2}
    ensures ChooseAdjudicator(STAFF, s, labels, loads, ById)
      == Some(if Load(loads, 4) < Load(loads, 3) then STAFF[3] else STAFF[2])
  {
    hide AdjudicatorsFor, Labelers, Load;
    Candidates(s, labels);
    var ws := [STAFF[2], STAFF[3]];
    assert FirstRanked(ws, 1, s, loads, ById) == STAFF[2];
  }

  lemma TwoLabelers(labels: seq<Label>)
    requires |labels| == 2 && labels[0].labeler == 1 && labels[1].labeler == 2
    ensures Labelers(labels) == {1, 2}
  {
    assert labels[0].labeler in Labelers(labels) && labels[1].labeler in Labelers(labels);
  }

  lemma BothLabelers(s: Sample, subs: seq<Submission>)
    requires s in PAGES && Accepted(subs, PlanOf(None, false), PAGES, EXACT.normalize)
    requires Answered(s.id, A, false) in subs && Answered(s.id, B, false) in subs
    ensures var v := VerdictOn(s, PlanOf(None, false), ReceivedFrom(subs), EXACT);
      v.Disputed? && Labelers(v.bundle.labels) == {1, 2} && v.bundle.sample == s
  {
    hide VerdictOn, ReceivedFrom, Accepted, Answered, PlanOf, Labelers;
    DisputedByAnswers(None, false, s, subs);
    TwoLabelers(VerdictOn(s, PlanOf(None, false), ReceivedFrom(subs), EXACT).bundle.labels);
  }

  lemma DisputeAdds(sorted: seq<Sample>, k: nat, plan: Plan, received: Received, roster: seq<Worker>, seed: Seed,
                    policy: Policy, st: Sorted, b: Bundle, w: Worker)
    requires k < |sorted| && MergeUpTo(sorted, k, plan, received, roster, seed, policy) == Success(st)
    requires VerdictOn(sorted[k], plan, received, policy) == Disputed(b)
    requires ChooseAdjudicator(roster, sorted[k], b.labels, st.loads, seed) == Some(w)
    ensures MergeUpTo(sorted, k + 1, plan, received, roster, seed, policy) == Success(
      Sorted(st.completed, st.disputed + [b], st.tasks + [TaskFor(plan.id, b, w.id)], AddLoad(st.loads, w.id)))
  {
    hide VerdictOn, ChooseAdjudicator, ValidBundle;
  }

  lemma NobodyBusy()
    ensures var loads := NoWork(STAFF);
      && Load(loads, 3) == Load(loads, 4) == 0
      && Load(AddLoad(loads, 3), 3) == 1 && Load(AddLoad(loads, 3), 4) == 0
  {
  }

  lemma LaterIsPart()
    ensures multiset(LATER) <= multiset(AllAnswered(false))
    ensures Accepted(AllAnswered(false), PlanOf(None, false), PAGES, EXACT.normalize)
    ensures Accepted(LATER, PlanOf(None, false), PAGES, EXACT.normalize)
  {
    hide Accepted, Answered, PlanOf;
    var all := AllAnswered(false);
    assert all == [all[0], all[1]] + LATER;
    AllFit(None, false);
    PartIsAccepted(LATER, all, PlanOf(None, false), PAGES, EXACT.normalize);
  }

  lemma FirstIsOpen()
    ensures VerdictOn(Short(1), PlanOf(None, false), ReceivedFrom(LATER), EXACT).Incomplete?
  {
    hide PairFor, ReceivedFrom, AssignmentsOf, PlanBinds, RequiresAdjudication;
    var plan := PlanOf(None, false);
    PlanIsBound(None, false);
    BindingBounds(plan, PAGES, STAFF, "data", "staff");
    PairForFacts(plan, PAGES, Short(1));
    ReceivedKeys(LATER);
    var pair := PairFor(plan, Short(1));
    assert pair[0] in pair;
    assert pair[0] == Given(1, A, false);
  }

  /** The answers for the second sample alone send it to worker 3. */
  lemma AloneGoesToThree()
    ensures var r := MergeUpTo(PAGES, 2, PlanOf(None, false), ReceivedFrom(LATER), STAFF, ById, EXACT);
      r.Success? && |r.value.tasks| == 1 && r.value.tasks[0].sample == 2 && r.value.tasks[0].adjudicator == 3
  {
    hide VerdictOn, ReceivedFrom, ChooseAdjudicator, Labelers, Accepted, Answered, PlanOf, Load, AddLoad, NoWork;
    var plan, received := PlanOf(None, false), ReceivedFrom(LATER);
    FirstIsOpen();
    LaterIsPart();
    NobodyBusy();
    assert Short(2) in PAGES;
    BothLabelers(Short(2), LATER);
    var b := VerdictOn(Short(2), plan, received, EXACT).bundle;
    var begin := Sorted([], [], [], NoWork(STAFF));
    assert MergeUpTo(PAGES, 0, plan, received, STAFF, ById, EXACT) == Success(begin);
    assert MergeUpTo(PAGES, 1, plan, received, STAFF, ById, EXACT) == Success(begin);
    ChosenById(Short(2), b.labels, begin.loads);
    DisputeAdds(PAGES, 1, plan, received, STAFF, ById, EXACT, begin, b, STAFF[2]);
  }

  /** With the answers for the first sample it goes to worker 4. */
  lemma TogetherGoesToFour()
    ensures var r := MergeUpTo(PAGES, 2, PlanOf(None, false), ReceivedFrom(AllAnswered(false)), STAFF, ById, EXACT);
      r.Success? && |r.value.tasks| == 2 && r.value.tasks[1].sample == 2 && r.value.tasks[1].adjudicator == 4
  {
    hide VerdictOn, ReceivedFrom, ChooseAdjudicator, Labelers, Accepted, Answered, PlanOf, Load, AddLoad,
      NoWork, MergeSample;
    var plan, subs := PlanOf(None, false), AllAnswered(false);
    var received := ReceivedFrom(subs);
    LaterIsPart();
    NobodyBusy();
    assert Short(1) in PAGES && Short(2) in PAGES;
    BothLabelers(Short(1), subs);
    BothLabelers(Short(2), subs);
    var b, c := VerdictOn(Short(1), plan, received, EXACT).bundle, VerdictOn(Short(2), plan, received, EXACT).bundle;
    var begin := Sorted([], [], [], NoWork(STAFF));
    assert MergeUpTo(PAGES, 0, plan, received, STAFF, ById, EXACT) == Success(begin);
    ChosenById(Short(1), b.labels, begin.loads);
    DisputeAdds(PAGES, 0, plan, received, STAFF, ById, EXACT, begin, b, STAFF[2]);
    var next := Sorted(begin.completed, begin.disputed + [b], begin.tasks + [TaskFor(plan.id, b, STAFF[2].id)],
                       AddLoad(begin.loads, STAFF[2].id));
    ChosenById(Short(2), c.labels, next.loads);
    DisputeAdds(PAGES, 1, plan, received, STAFF, ById, EXACT, next, c, STAFF[3]);
  }

  /** A task can move while an earlier sample is open: worker 3 is asked about the second sample first, and worker 4
      once the first sample is disputed too. */
  lemma OpenTasksCanMove()
    ensures multiset(LATER) <= multiset(AllAnswered(false))
    ensures var plan := PlanOf(None, false);
      var p := Merge(plan, PAGES, STAFF, "data", "staff", LATER, ById, EXACT);
      var w := Merge(plan, PAGES, STAFF, "data", "staff", AllAnswered(false), ById, EXACT);
      && p.Success? && |p.value.tasks| == 1 && w.Success? && |w.value.tasks| == 2
      && p.value.tasks[0].sample == 2 && p.value.tasks[0].adjudicator == 3
      && w.value.tasks[1].sample == 2 && w.value.tasks[1].adjudicator == 4
  {
    hide MergeUpTo, RosterValid, PlanBinds, Accepted, ReceivedFrom, InOrder, Unsubmitted, PlanOf, AllAnswered;
    StaffFacts(1);
    PlanIsBound(None, false);
    LaterIsPart();
    PagesInOrder();
    AloneGoesToThree();
    TogetherGoesToFour();
  }
}
