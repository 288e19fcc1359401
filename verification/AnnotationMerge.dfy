/** Merging teacher submissions: every sample becomes a completed bundle, a
    bundle waiting for an adjudicator, or stays incomplete. */
module AnnotationMerge {
  import opened Wrappers
  import opened Ordering
  import opened Annotation
  import opened AnnotationPlan

  datatype Submission = Submission(assignment: AssignmentId, plan: string, bundle: BundleId, sample: Id, actor: Id,
      mark: Label)

  datatype AdjudicationId = AdjudicationId(plan: string, bundle: BundleId, adjudicator: Id)

  datatype Task = Task(id: AdjudicationId, bundle: BundleId, sample: Id, adjudicator: Id, sources: seq<string>)

  datatype Stage = TeacherPending | AdjudicationPending | Complete

  datatype State = State(plan: string, stage: Stage, dataset: Dataset, rosterSha: string, completed: seq<Bundle>,
                         unsubmitted: seq<Assignment>, disputed: seq<Bundle>, tasks: seq<Task>)

  datatype MergeError =
    | InvalidRoster | NotBound | Rejected | AgreedBundleInvalid(sample: Id) | NoAdjudicator(sample: Id)

  type Received = map<AssignmentId, Submission>

  // ----- accepting submissions -----

  function FindAssignment(given: seq<Assignment>, id: AssignmentId): Option<Assignment> {
    if given == [] then None
    else if given[|given| - 1].id == id then Some(given[|given| - 1])
    else FindAssignment(given[..|given| - 1], id)
  }

  /** The submission answers its assignment, comes from its owner and carries a valid teacher label. */
  predicate Answers(sub: Submission, a: Assignment, planId: string, samples: seq<Sample>, norm: Normalizer) {
    && sub.plan == planId && sub.bundle == a.bundle && sub.sample == a.sample
    && sub.actor == a.labeler && sub.mark.labeler == a.labeler
    && sub.mark.role.Teacher?
    && FindSample(samples, a.sample).Some?
    && ValidLabel(sub.mark, FindSample(samples, a.sample).value, norm)
  }

  predicate Fits(sub: Submission, plan: Plan, samples: seq<Sample>, norm: Normalizer) {
    var a := FindAssignment(plan.assignments, sub.assignment);
    a.Some? && Answers(sub, a.value, plan.id, samples, norm)
  }

  predicate Clash(x: Submission, y: Submission) {
    x.assignment == y.assignment || x.mark.id == y.mark.id
  }

  /** Every submission fits, and no two share an assignment or a label identifier. */
  predicate Accepted(subs: seq<Submission>, plan: Plan, samples: seq<Sample>, norm: Normalizer) {
    && (forall i :: 0 <= i < |subs| ==> Fits(subs[i], plan, samples, norm))
    && (forall i, j :: 0 <= i < j < |subs| ==> !Clash(subs[i], subs[j]))
  }

  function ReceivedFrom(subs: seq<Submission>): Received {
    if subs == [] then map[]
    else ReceivedFrom(subs[..|subs| - 1])[subs[|subs| - 1].assignment := subs[|subs| - 1]]
  }

  lemma {:induction false} ReceivedKeys(subs: seq<Submission>)
    ensures forall id :: id in ReceivedFrom(subs) <==> exists i :: 0 <= i < |subs| && subs[i].assignment == id
  {
    if subs != [] {
      ReceivedKeys(subs[..|subs| - 1]);
      assert forall i :: 0 <= i < |subs| - 1 ==> subs[..|subs| - 1][i] == subs[i];
    }
  }

  /** One submission against those before it, with every check the program makes. */
  method CheckSubmission(sub: Submission, plan: Plan, samples: seq<Sample>, norm: Normalizer, labelIds: set<string>)
      returns (faults: nat)
    requires forall i :: 0 <= i < |plan.assignments| ==> FindSample(samples, plan.assignments[i].sample).Some?
    requires FindAssignment(plan.assignments, sub.assignment).Some?
    ensures faults == 0 <==> Fits(sub, plan, samples, norm) && sub.mark.id !in labelIds
  {
    hide ValidLabel;
    var a := FindAssignment(plan.assignments, sub.assignment).value;
    AssignmentFound(plan.assignments, sub.assignment);
    faults := 0;
    if sub.plan != plan.id || sub.bundle != a.bundle || sub.sample != a.sample { faults := faults + 1; }
    if sub.actor != a.labeler || sub.mark.labeler != a.labeler { faults := faults + 1; }
    if !sub.mark.role.Teacher? { faults := faults + 1; }
    if sub.mark.id in labelIds { faults := faults + 1; }
    var errors := ValidateLabel(sub.mark, FindSample(samples, a.sample).value, norm);
    faults := faults + |errors|;
  }

  lemma {:induction false} AssignmentFound(given: seq<Assignment>, id: AssignmentId)
    requires FindAssignment(given, id).Some?
    ensures FindAssignment(given, id).value in given && FindAssignment(given, id).value.id == id
  {
    if given[|given| - 1].id != id {
      AssignmentFound(given[..|given| - 1], id);
    }
  }

  /** The loop over submissions; without faults it leaves exactly the received submissions. */
  method Receive(subs: seq<Submission>, plan: Plan, samples: seq<Sample>, norm: Normalizer)
      returns (faults: nat, received: Received)
    requires forall i :: 0 <= i < |plan.assignments| ==> FindSample(samples, plan.assignments[i].sample).Some?
    ensures faults == 0 <==> Accepted(subs, plan, samples, norm)
    ensures faults == 0 ==> received == ReceivedFrom(subs)
  {
    hide FindAssignment, Answers, FindSample;
    faults, received := 0, map[];
    var labelIds: set<string> := {};
    for k := 0 to |subs|
      invariant faults == 0 <==> Accepted(subs[..k], plan, samples, norm)
      invariant faults == 0 ==> received == ReceivedFrom(subs[..k]) && labelIds == set i | 0 <= i < k :: subs[i].mark.id
    {
      assert subs[..k + 1][..k] == subs[..k];
      AcceptOneMore(subs, k, plan, samples, norm);
      ReceivedKeys(subs[..k]);
      var sub := subs[k];
      if FindAssignment(plan.assignments, sub.assignment).None? {
        faults := faults + 1;
      } else if sub.assignment in received {
        faults := faults + 1;
      } else {
        var more := CheckSubmission(sub, plan, samples, norm, labelIds);
        faults := faults + more;
        labelIds := labelIds + {sub.mark.id};
        received := received[sub.assignment := sub];
      }
    }
    assert subs[..|subs|] == subs;
  }

  lemma AcceptOneMore(subs: seq<Submission>, k: nat, plan: Plan, samples: seq<Sample>, norm: Normalizer)
    requires k < |subs|
    ensures Accepted(subs[..k + 1], plan, samples, norm) <==>
      && Accepted(subs[..k], plan, samples, norm) && Fits(subs[k], plan, samples, norm)
      && (forall i :: 0 <= i < k ==> subs[i].assignment != subs[k].assignment && subs[i].mark.id != subs[k].mark.id)
  {
    hide Fits;
    var more := subs[..k + 1];
    if Accepted(more, plan, samples, norm) {
      assert more[k] == subs[k];
      assert forall i :: 0 <= i < k ==> more[i] == subs[i] && subs[..k][i] == subs[i];
    }
  }

  // ----- one sample -----

  function SlotKey(a: Assignment): int { if a.slot.A? then 0 else 1 }

  function PairFor(plan: Plan, s: Sample): seq<Assignment> {
    SortBy(AssignmentsOf(plan.assignments, s.id), SlotKey)
  }

  predicate Ready(received: Received, pair: seq<Assignment>) {
    |pair| == 2 && pair[0].id in received && pair[1].id in received
  }

  function BundleFor(s: Sample, pair: seq<Assignment>, received: Received): Bundle
    requires Ready(received, pair)
  {
    Bundle(pair[0].bundle, s.synthetic, s, [received[pair[0].id].mark, received[pair[1].id].mark], None)
  }

  datatype Verdict = Incomplete | Agreed(bundle: Bundle) | Disputed(bundle: Bundle)

  /** What the received submissions make of one sample. */
  function VerdictOn(s: Sample, plan: Plan, received: Received, policy: Policy): Verdict {
    var pair := PairFor(plan, s);
    if !Ready(received, pair) then Incomplete
    else
      var bundle := BundleFor(s, pair, received);
      if RequiresAdjudication(bundle.labels[0], bundle.labels[1], policy) then Disputed(bundle) else Agreed(bundle)
  }

  // ----- choosing an adjudicator -----

  function AdjudicatorsFor(roster: seq<Worker>, s: Sample, labels: seq<Label>): seq<Worker> {
    if roster == [] then []
    else
      var rest, w := AdjudicatorsFor(roster[..|roster| - 1], s, labels), roster[|roster| - 1];
      if Qualified(w, s, Adjudicator) && w.id !in Labelers(labels) then rest + [w] else rest
  }

  function Labelers(labels: seq<Label>): set<Id> {
    set i | 0 <= i < |labels| :: labels[i].labeler
  }

  predicate RanksBefore(a: Worker, b: Worker, s: Sample, loads: map<Id, nat>, seed: Seed) {
    || Load(loads, a.id) < Load(loads, b.id)
    || (Load(loads, a.id) == Load(loads, b.id) && seed.adjudicatorOrder(s.id, a.id) < seed.adjudicatorOrder(s.id, b.id))
  }

  /** The first of the least-ranked among the first k. */
  function FirstRanked(ws: seq<Worker>, k: nat, s: Sample, loads: map<Id, nat>, seed: Seed): Worker
    requires 0 < k <= |ws|
  {
    if k == 1 then ws[0]
    else
      var best := FirstRanked(ws, k - 1, s, loads, seed);
      if RanksBefore(ws[k - 1], best, s, loads, seed) then ws[k - 1] else best
  }

  function ChooseAdjudicator(roster: seq<Worker>, s: Sample, labels: seq<Label>, loads: map<Id, nat>,
      seed: Seed): Option<Worker> {
    var ws := AdjudicatorsFor(roster, s, labels);
    if ws == [] then None else Some(FirstRanked(ws, |ws|, s, loads, seed))
  }

  // ----- all samples -----

  datatype Sorted = Sorted(completed: seq<Bundle>, disputed: seq<Bundle>, tasks: seq<Task>, loads: map<Id, nat>)

  function TaskFor(planId: string, bundle: Bundle, w: Id): Task {
    Task(AdjudicationId(planId, bundle.id, w), bundle.id, bundle.sample.id, w, LabelIds(bundle.labels))
  }

  function LabelIds(labels: seq<Label>): seq<string> {
    seq(|labels|, i requires 0 <= i < |labels| => labels[i].id)
  }

  function MergeSample(s: Sample, plan: Plan, received: Received, roster: seq<Worker>, seed: Seed, policy: Policy,
      st: Sorted)
      : Result<Sorted, MergeError>
  {
    match VerdictOn(s, plan, received, policy)
    case Incomplete => Success(st)
    case Agreed(bundle) =>
      if ValidBundle(bundle, policy) then Success(st.(completed := st.completed + [bundle]))
      else Failure(AgreedBundleInvalid(s.id))
    case Disputed(bundle) =>
      match ChooseAdjudicator(roster, s, bundle.labels, st.loads, seed)
      case None => Failure(NoAdjudicator(s.id))
      case Some(w) =>
        Success(Sorted(st.completed, st.disputed + [bundle], st.tasks + [TaskFor(plan.id, bundle, w.id)],
                       AddLoad(st.loads, w.id)))
  }

  function NoWork(roster: seq<Worker>): map<Id, nat> {
    map i | 0 <= i < |roster| && Adjudicator in roster[i].roles :: roster[i].id := 0
  }

  function MergeUpTo(sorted: seq<Sample>, k: nat, plan: Plan, received: Received, roster: seq<Worker>, seed: Seed,
      policy: Policy)
      : Result<Sorted, MergeError>
    requires k <= |sorted|
  {
    if k == 0 then Success(Sorted([], [], [], NoWork(roster)))
    else
      match MergeUpTo(sorted, k - 1, plan, received, roster, seed, policy)
      case Failure(e) => Failure(e)
      case Success(st) => MergeSample(sorted[k - 1], plan, received, roster, seed, policy, st)
  }

  /** Assignments nobody has submitted yet, in plan order. */
  function Unsubmitted(given: seq<Assignment>, received: Received): seq<Assignment> {
    if given == [] then []
    else
      var rest, last := Unsubmitted(given[..|given| - 1], received), given[|given| - 1];
      if last.id in received then rest else rest + [last]
  }

  function StateFrom(plan: Plan, rosterSha: string, received: Received, st: Sorted): State {
    var open := Unsubmitted(plan.assignments, received);
    State(plan.id, if open != [] then TeacherPending else if st.disputed != [] then AdjudicationPending else Complete,
          plan.dataset, rosterSha, st.completed, open, st.disputed, st.tasks)
  }

  function Merge(plan: Plan, samples: seq<Sample>, roster: seq<Worker>, datasetSha: string, rosterSha: string,
                 subs: seq<Submission>, seed: Seed, policy: Policy): Result<State, MergeError>
  {
    if !RosterValid(roster) then Failure(InvalidRoster)
    else if !PlanBinds(plan, samples, roster, datasetSha, rosterSha) then Failure(NotBound)
    else if !Accepted(subs, plan, samples, policy.normalize) then Failure(Rejected)
    else
      var received, sorted := ReceivedFrom(subs), InOrder(samples);
      match MergeUpTo(sorted, |sorted|, plan, received, roster, seed, policy)
      case Failure(e) => Failure(e)
      case Success(st) => Success(StateFrom(plan, rosterSha, received, st))
  }

  lemma {:induction false} MergeFailureStays(sorted: seq<Sample>, k: nat, n: nat, plan: Plan, received: Received,
                                             roster: seq<Worker>, seed: Seed, policy: Policy)
    requires k <= n <= |sorted| && MergeUpTo(sorted, k, plan, received, roster, seed, policy).Failure?
    ensures MergeUpTo(sorted, n, plan, received, roster, seed, policy)
      == MergeUpTo(sorted, k, plan, received, roster, seed, policy)
    decreases n
  {
    hide MergeSample;
    if k < n {
      MergeFailureStays(sorted, k, n - 1, plan, received, roster, seed, policy);
    }
  }

  /** Filters, sorts and scans the roster for one disputed bundle. */
  method SelectAdjudicator(roster: seq<Worker>, s: Sample, labels: seq<Label>, loads: map<Id, nat>, seed: Seed)
      returns (r: Option<Worker>)
    ensures r == ChooseAdjudicator(roster, s, labels, loads, seed)
  {
    hide Qualified, RanksBefore, Labelers;
    var ws: seq<Worker> := [];
    for k := 0 to |roster|
      invariant ws == AdjudicatorsFor(roster[..k], s, labels)
    {
      assert roster[..k + 1][..k] == roster[..k];
      if Qualified(roster[k], s, Adjudicator) && roster[k].id !in Labelers(labels) {
        ws := ws + [roster[k]];
      }
    }
    assert roster[..|roster|] == roster;
    if ws == [] {
      return None;
    }
    var best := ws[0];
    for k := 1 to |ws|
      invariant best == FirstRanked(ws, k, s, loads, seed)
    {
      if RanksBefore(ws[k], best, s, loads, seed) {
        best := ws[k];
      }
    }
    r := Some(best);
  }

  /** The loop over samples. */
  method SortBundles(sorted: seq<Sample>, plan: Plan, received: Received, roster: seq<Worker>, seed: Seed,
      policy: Policy)
      returns (r: Result<Sorted, MergeError>)
    ensures r == MergeUpTo(sorted, |sorted|, plan, received, roster, seed, policy)
  {
    hide ChooseAdjudicator, ValidBundle, RequiresAdjudication, PairFor, Ready, TaskFor, AddLoad, NoWork;
    var completed: seq<Bundle>, disputed: seq<Bundle>, tasks: seq<Task> := [], [], [];
    var loads := NoWork(roster);
    for k := 0 to |sorted|
      invariant MergeUpTo(sorted, k, plan, received, roster, seed, policy)
        == Success(Sorted(completed, disputed, tasks, loads))
    {
      var s := sorted[k];
      var verdict := VerdictOn(s, plan, received, policy);
      if verdict.Agreed? {
        if !ValidBundle(verdict.bundle, policy) {
          MergeFailureStays(sorted, k + 1, |sorted|, plan, received, roster, seed, policy);
          return Failure(AgreedBundleInvalid(s.id));
        }
        completed := completed + [verdict.bundle];
      } else if verdict.Disputed? {
        var w := SelectAdjudicator(roster, s, verdict.bundle.labels, loads, seed);
        if w.None? {
          MergeFailureStays(sorted, k + 1, |sorted|, plan, received, roster, seed, policy);
          return Failure(NoAdjudicator(s.id));
        }
        loads := AddLoad(loads, w.value.id);
        tasks := tasks + [TaskFor(plan.id, verdict.bundle, w.value.id)];
        disputed := disputed + [verdict.bundle];
      }
    }
    r := Success(Sorted(completed, disputed, tasks, loads));
  }

  method MergeTeacherSubmissions(plan: Plan, samples: seq<Sample>, roster: seq<Worker>, datasetSha: string,
      rosterSha: string,
                                 subs: seq<Submission>, seed: Seed, policy: Policy)
      returns (r: Result<State, MergeError>)
    ensures r == Merge(plan, samples, roster, datasetSha, rosterSha, subs, seed, policy)
  {
    hide RosterValid, Accepted, MergeUpTo, ReceivedFrom, InOrder, BindDataset, AssignmentsOf, PairValid, StateFrom;
    if !RosterValid(roster) {
      return Failure(InvalidRoster);
    }
    var unbound := AssertPlanBinding(plan, samples, roster, datasetSha, rosterSha);
    if unbound.Some? {
      return Failure(NotBound);
    }
    var faults, received := Receive(subs, plan, samples, policy.normalize);
    if faults > 0 {
      return Failure(Rejected);
    }
    var sorted := InOrder(samples);
    var st := SortBundles(sorted, plan, received, roster, seed, policy);
    if st.Failure? {
      return Failure(st.error);
    }
    r := Success(StateFrom(plan, rosterSha, received, st.value));
  }
}
