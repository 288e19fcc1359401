/** Two bound plans whose merged states can never be finalized: one shares a bundle
    identifier between samples, one records no sample identifiers. */
module AnnotationFinalLimits {
  import opened Wrappers
  import opened Annotation
  import opened AnnotationPlan
  import opened AnnotationBinding
  import opened AnnotationBalance
  import opened AnnotationMerge
  import opened AnnotationMergeFacts
  import opened AnnotationMergeResults
  import opened AnnotationMergeOrder
  import opened AnnotationFinal
  import opened AnnotationFinalResults
  import Substrings

  // ----- two samples, two teachers and two adjudicators -----

  const STAFF := [Helper(1, [Teacher]), Helper(2, [Teacher]), Helper(3, [Adjudicator]), Helper(4, [Adjudicator])]

  function Short(id: Id): Sample { Sample(id, "math", "7", true, 1.0, [Point("p", 1.0)], "a") }

  const PAGES := [Short(1), Short(2)]

  /** Each sample's own bundle, or the first one's for both. */
  function BundleOf(sample: Id, shared: bool): BundleId {
    BundleId("plan", if shared then 1 else sample)
  }

  function Given(sample: Id, slot: Slot, shared: bool): Assignment {
    var labeler := if slot.A? then 1 else 2;
    Assignment(AssignmentId("plan", sample, slot, labeler), BundleOf(sample, shared), sample, labeler, slot)
  }

  function AllGiven(shared: bool): seq<Assignment> {
    [Given(1, A, shared), Given(1, B, shared), Given(2, A, shared), Given(2, B, shared)]
  }

  function PlanOf(ids: Option<set<Id>>, shared: bool): Plan {
    Plan("plan", true, Dataset("data", 2, ids), "staff", AllGiven(shared), map[], map[])
  }

  const EXACT := Policy(0.0, false, (s: string) => s)

  /** Teacher 1 finds the point, teacher 2 does not. */
  function Verdict1(sample: Id): Label {
    Label(if sample == 1 then "1A" else "2A", 1, Teacher, 1.0, 1.0, true, None, [Decision("p", Matched, 1.0, ["a"])])
  }

  function Verdict2(sample: Id): Label {
    Label(if sample == 1 then "1B" else "2B", 2, Teacher, 0.0, 1.0, true, None,
          [Decision("p", Status.Missing, 0.0, [])])
  }

  function Answered(sample: Id, slot: Slot, shared: bool): Submission {
    var a := Given(sample, slot, shared);
    Submission(a.id, "plan", a.bundle, sample, a.labeler, if slot.A? then Verdict1(sample) else Verdict2(sample))
  }

  function AllAnswered(shared: bool): seq<Submission> {
    [Answered(1, A, shared), Answered(1, B, shared), Answered(2, A, shared), Answered(2, B, shared)]
  }

  // ----- everything fits -----

  lemma StaffFacts(id: Id)
    ensures RosterValid(STAFF)
    ensures FindWorker(STAFF, 1) == Some(STAFF[0]) && FindWorker(STAFF, 2) == Some(STAFF[1])
    ensures Qualified(STAFF[0], Short(id), Teacher) && Qualified(STAFF[1], Short(id), Teacher)
    ensures Qualified(STAFF[2], Short(id), Adjudicator)
  {
    FindWorkerHit(STAFF, 0);
    FindWorkerHit(STAFF, 1);
  }

  lemma PagesFacts()
    ensures FindSample(PAGES, 1) == Some(Short(1)) && FindSample(PAGES, 2) == Some(Short(2))
    ensures DistinctSamples(PAGES) && SampleIds(PAGES) == {1, 2}
  {
    assert PAGES[..1] == [Short(1)];
    assert PAGES[0].id in SampleIds(PAGES) && PAGES[1].id in SampleIds(PAGES);
  }

  lemma GivenOf(shared: bool)
    ensures AssignmentsOf(AllGiven(shared), 1) == [Given(1, A, shared), Given(1, B, shared)]
    ensures AssignmentsOf(AllGiven(shared), 2) == [Given(2, A, shared), Given(2, B, shared)]
  {
    var g := AllGiven(shared);
    assert g[..3][..2][..1][..0] == [] && g[..3][..2][..1] == [g[0]] && g[..3][..2] == [g[0], g[1]];
    assert AssignmentsOf([], 1) == [] && AssignmentsOf([], 2) == [];
    assert AssignmentsOf([g[0]], 1) == [g[0]] && AssignmentsOf([g[0]], 2) == [];
    assert AssignmentsOf([g[0], g[1]], 1) == [g[0], g[1]] && AssignmentsOf([g[0], g[1]], 2) == [];
    assert AssignmentsOf(g[..3], 1) == [g[0], g[1]] && AssignmentsOf(g[..3], 2) == [g[2]];
  }

  lemma PlanIsBound(ids: Option<set<Id>>, shared: bool)
    requires ids.None? || ids == Some({1, 2})
    ensures PlanBinds(PlanOf(ids, shared), PAGES, STAFF, "data", "staff")
  {
    hide FindWorker, FindSample, Qualified, SampleIds, AssignmentsOf, RosterValid, BindDataset;
    StaffFacts(1);
    StaffFacts(2);
    PagesFacts();
    GivenOf(shared);
    BoundDataset(PlanOf(ids, shared).dataset, PAGES);
  }

  lemma LabelsAreValid(sample: Id)
    ensures ValidLabel(Verdict1(sample), Short(sample), EXACT.normalize)
    ensures ValidLabel(Verdict2(sample), Short(sample), EXACT.normalize)
  {
    var s, ds, es := Short(sample), Verdict1(sample).decisions, Verdict2(sample).decisions;
    assert PointScore(s.points, "p") == Some(1.0);
    assert Substrings.OccursAt("a", "a", 0);
    assert Grounded("a", s, EXACT.normalize);
    assert ds[..0] == [] && es[..0] == [];
    assert Total(ds) == 1.0 && Total(es) == 0.0;
    assert ds[0].point == "p" && es[0].point == "p";
  }

  lemma OneFits(ids: Option<set<Id>>, shared: bool, sample: Id, slot: Slot)
    requires sample == 1 || sample == 2
    requires FindAssignment(AllGiven(shared), Given(sample, slot, shared).id) == Some(Given(sample, slot, shared))
    ensures Fits(Answered(sample, slot, shared), PlanOf(ids, shared), PAGES, EXACT.normalize)
  {
    hide ValidLabel, FindSample, FindAssignment, AllGiven, BundleOf;
    PagesFacts();
    LabelsAreValid(sample);
  }

  lemma SubmissionFits(ids: Option<set<Id>>, shared: bool, i: nat)
    requires i < 4
    ensures Fits(AllAnswered(shared)[i], PlanOf(ids, shared), PAGES, EXACT.normalize)
  {
    hide Fits, FindAssignment, PlanOf, Answered, BundleOf;
    AssignmentHit(AllGiven(shared), i);
    OneFits(ids, shared, if i < 2 then 1 else 2, if i % 2 == 0 then A else B);
  }

  lemma {:induction false} AssignmentHit(given: seq<Assignment>, i: nat)
    requires DistinctAssignments(given) && i < |given|
    ensures FindAssignment(given, given[i].id) == Some(given[i])
  {
    if i < |given| - 1 {
      AssignmentHit(given[..|given| - 1], i);
    }
  }

  lemma NoneClash(shared: bool, i: nat, j: nat)
    requires i < j < 4
    ensures !Clash(AllAnswered(shared)[i], AllAnswered(shared)[j])
  {
    hide BundleOf;
  }

  lemma AllFit(ids: Option<set<Id>>, shared: bool)
    ensures Accepted(AllAnswered(shared), PlanOf(ids, shared), PAGES, EXACT.normalize)
  {
    hide Fits, Clash, Answered, PlanOf;
    forall i | 0 <= i < 4 ensures Fits(AllAnswered(shared)[i], PlanOf(ids, shared), PAGES, EXACT.normalize) {
      SubmissionFits(ids, shared, i);
    }
    forall i, j | 0 <= i < j < 4 ensures !Clash(AllAnswered(shared)[i], AllAnswered(shared)[j]) {
      NoneClash(shared, i, j);
    }
  }

  lemma PairIs(ids: Option<set<Id>>, shared: bool, s: Sample)
    requires ids.None? || ids == Some({1, 2})
    requires s in PAGES
    ensures PairFor(PlanOf(ids, shared), s) == [Given(s.id, A, shared), Given(s.id, B, shared)]
  {
    hide AssignmentsOf, PlanBinds, PairFor, Bound;
    var plan := PlanOf(ids, shared);
    PlanIsBound(ids, shared);
    BindingBounds(plan, PAGES, STAFF, "data", "staff");
    PairForFacts(plan, PAGES, s);
    var pair := PairFor(plan, s);
    assert pair[0] in pair && pair[1] in pair;
  }

  lemma AnswersDiffer(a: Label, b: Label)
    requires a.score == 1.0 && b.score == 0.0
    ensures RequiresAdjudication(a, b, EXACT)
  {
    hide Signatures;
  }

  /** A sample both teachers answered is disputed, in the bundle of the plan. */
  lemma DisputedByAnswers(ids: Option<set<Id>>, shared: bool, s: Sample, subs: seq<Submission>)
    requires ids.None? || ids == Some({1, 2})
    requires s in PAGES && Accepted(subs, PlanOf(ids, shared), PAGES, EXACT.normalize)
    requires Answered(s.id, A, shared) in subs && Answered(s.id, B, shared) in subs
    ensures var v := VerdictOn(s, PlanOf(ids, shared), ReceivedFrom(subs), EXACT);
      && v.Disputed? && v.bundle.id == BundleOf(s.id, shared) && v.bundle.sample == s
      && |v.bundle.labels| == 2 && v.bundle.labels[0].labeler == 1 && v.bundle.labels[1].labeler == 2
  {
    hide PairFor, ReceivedFrom, Fits, RequiresAdjudication, PlanOf, BundleOf;
    PairIs(ids, shared, s);
    ReceivedHolds(subs);
    AnswersDiffer(Verdict1(s.id), Verdict2(s.id));
  }

  /** The submissions merge into a state with both samples disputed. */
  lemma BothMerge(ids: Option<set<Id>>, shared: bool, seed: Seed) returns (st: State)
    requires ids.None? || ids == Some({1, 2})
    ensures Merge(PlanOf(ids, shared), PAGES, STAFF, "data", "staff", AllAnswered(shared), seed, EXACT) == Success(st)
    ensures forall s :: s in PAGES ==> exists b :: b in st.disputed && b.sample == s && b.id == BundleOf(s.id, shared)
  {
    hide Merge, PlanBinds, RosterValid, Accepted, AssignmentsOf, Qualified, VerdictOn, ReceivedFrom, DisputedOf,
      CompletedOf, IncompleteOf, InOrder, TasksMatch;
    var plan, subs := PlanOf(ids, shared), AllAnswered(shared);
    PlanIsBound(ids, shared);
    AllFit(ids, shared);
    GivenOf(shared);
    forall k | 0 <= k < 2 ensures LeavesAdjudicator(AssignmentsOf(plan.assignments, PAGES[k].id), PAGES[k], STAFF) {
      StaffFacts(PAGES[k].id);
    }
    StaffFacts(1);
    MergeSucceedsIff(plan, PAGES, STAFF, "data", "staff", subs, seed, EXACT);
    st := Merge(plan, PAGES, STAFF, "data", "staff", subs, seed, EXACT).value;
    MergeSplitsSamples(plan, PAGES, STAFF, "data", "staff", subs, seed, EXACT);
    BindingBounds(plan, PAGES, STAFF, "data", "staff");
    OrderedMembers(plan, PAGES);
    var sorted := InOrder(PAGES);
    DisputedHolds(sorted, |sorted|, plan, ReceivedFrom(subs), EXACT);
    forall s | s in PAGES ensures exists b :: b in st.disputed && b.sample == s && b.id == BundleOf(s.id, shared) {
      assert Answered(s.id, A, shared) in subs && Answered(s.id, B, shared) in subs;
      DisputedByAnswers(ids, shared, s, subs);
      assert s in sorted;
      var j :| 0 <= j < |sorted| && sorted[j] == s;
      var b := VerdictOn(sorted[j], plan, ReceivedFrom(subs), EXACT).bundle;
      assert b in st.disputed;
    }
  }

  // ----- what cannot be finalized -----

  /** The merged state and what no adjudications can change. */
  ghost predicate NeverFinal(plan: Plan, subs: seq<Submission>, seed: Seed) {
    var r := Merge(plan, PAGES, STAFF, "data", "staff", subs, seed, EXACT);
    && PlanBinds(plan, PAGES, STAFF, "data", "staff") && RosterValid(STAFF) && r.Success?
    && forall rulings :: Finalize(r.value, STAFF, "data", "staff", rulings, EXACT).Failure?
  }

  /** One bundle identifier for both samples: the plan binds and its submissions merge, but nothing finalizes. */
  lemma SharedBundleIsNeverFinal(seed: Seed)
    ensures NeverFinal(PlanOf(Some({1, 2}), true), AllAnswered(true), seed)
  {
    hide Merge, PlanBinds, RosterValid, Finalize, AllSettled, FinalBundles, PlanOf, AllAnswered;
    var plan, subs := PlanOf(Some({1, 2}), true), AllAnswered(true);
    PlanIsBound(Some({1, 2}), true);
    StaffFacts(1);
    var st := BothMerge(Some({1, 2}), true, seed);
    assert PAGES[0] in PAGES && PAGES[1] in PAGES;
    var b :| b in st.disputed && b.sample == PAGES[0] && b.id == BundleOf(1, true);
    var c :| c in st.disputed && c.sample == PAGES[1] && c.id == BundleOf(2, true);
    SameIdTwice(st.disputed, b, c);
    forall rulings ensures Finalize(st, STAFF, "data", "staff", rulings, EXACT).Failure? {
      BoundFinalizeSucceedsIff(plan, PAGES, STAFF, "data", "staff", subs, seed, EXACT, st, rulings);
    }
  }

  lemma SameIdTwice(bundles: seq<Bundle>, b: Bundle, c: Bundle)
    requires b in bundles && c in bundles && b != c && b.id == c.id
    ensures !DistinctBundles(bundles)
  {
    var i :| 0 <= i < |bundles| && bundles[i] == b;
    var j :| 0 <= j < |bundles| && bundles[j] == c;
  }

  /** No recorded sample identifiers: the same, although every sample has its own bundle. */
  lemma UnrecordedIsNeverFinal(seed: Seed)
    ensures NeverFinal(PlanOf(None, false), AllAnswered(false), seed)
  {
    hide Merge, PlanBinds, RosterValid, Finalize, AllSettled, FinalBundles, AllAnswered;
    var plan, subs := PlanOf(None, false), AllAnswered(false);
    PlanIsBound(None, false);
    StaffFacts(1);
    var st := BothMerge(None, false, seed);
    forall rulings ensures Finalize(st, STAFF, "data", "staff", rulings, EXACT).Failure? {
      BoundFinalizeSucceedsIff(plan, PAGES, STAFF, "data", "staff", subs, seed, EXACT, st, rulings);
    }
  }
}
