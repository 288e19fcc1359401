/** Planning: two teachers per sample, chosen greedily so that work and pairs
    stay balanced, leaving an independent adjudicator for every sample. */
module AnnotationPlan {
  import opened Wrappers
  import opened Ordering
  import opened Annotation

  datatype Worker = Worker(id: Id, active: bool, roles: seq<Role>, subjects: seq<string>, grades: seq<string>)

  datatype Slot = A | B

  /** Hash identifiers keep what was hashed, so they are injective. */
  datatype AssignmentId = AssignmentId(plan: string, sample: Id, slot: Slot, labeler: Id)

  datatype Assignment = Assignment(id: AssignmentId, bundle: BundleId, sample: Id, labeler: Id, slot: Slot)

  /** sampleIds is the identifier set the recorded hash was taken of. */
  datatype Dataset = Dataset(sha: string, records: nat, sampleIds: Option<set<Id>>)

  /** The pseudo-random orders derived from the assignment seed. */
  datatype Seed = Seed(pairOrder: (Id, Choice) -> int, flips: Id -> bool, adjudicatorOrder: (Id, Id) -> int)

  datatype Choice = Choice(low: Id, high: Id)

  datatype Plan = Plan(id: string, blind: bool, dataset: Dataset, rosterSha: string, assignments: seq<Assignment>,
                       loads: map<Id, nat>, together: map<Choice, nat>)

  datatype PlanError =
    | RosterInvalid | RecordCount | DuplicateSample(sample: Id) | SampleSetMismatch | NoTeacherPair(sample: Id)
    | NotBlind | DatasetMismatch | RosterMismatch | DuplicateAssignment(id: AssignmentId) | UnknownSample(sample: Id)
    | UnqualifiedTeacher(id: AssignmentId) | NotTwoAssignments(sample: Id) | SameTeacher(sample: Id)
    | WrongSlots(sample: Id) | BundlesDiffer(sample: Id)

  // ----- roster and dataset -----

  predicate Qualified(w: Worker, s: Sample, role: Role) {
    && w.active && role in w.roles
    && ("*" in w.subjects || s.subject in w.subjects)
    && ("*" in w.grades || s.grade in w.grades)
  }

  predicate DistinctWorkers(roster: seq<Worker>) {
    forall i, j :: 0 <= i < j < |roster| ==> roster[i].id != roster[j].id
  }

  predicate WorkerValid(w: Worker) {
    && w.roles != [] && OtherRole !in w.roles && w.subjects != [] && w.grades != []
    && (forall i, j :: 0 <= i < j < |w.roles| ==> w.roles[i] != w.roles[j])
  }

  predicate RosterValid(roster: seq<Worker>) {
    roster != [] && DistinctWorkers(roster) && forall i :: 0 <= i < |roster| ==> WorkerValid(roster[i])
  }

  predicate DistinctSamples(samples: seq<Sample>) {
    forall i, j :: 0 <= i < j < |samples| ==> samples[i].id != samples[j].id
  }

  function SampleIds(samples: seq<Sample>): set<Id> {
    set i | 0 <= i < |samples| :: samples[i].id
  }

  /** The first identifier at or after k that occurred before it. */
  function RepeatedSample(samples: seq<Sample>, k: nat): Option<Id>
    requires k <= |samples|
    decreases |samples| - k
  {
    if k == |samples| then None
    else if samples[k].id in SampleIds(samples[..k]) then Some(samples[k].id)
    else RepeatedSample(samples, k + 1)
  }

  function BindDataset(dataset: Dataset, samples: seq<Sample>): Result<set<Id>, PlanError> {
    if dataset.records != |samples| then Failure(RecordCount)
    else if RepeatedSample(samples, 0).Some? then Failure(DuplicateSample(RepeatedSample(samples, 0).value))
    else if dataset.sampleIds.Some? && dataset.sampleIds.value != SampleIds(samples) then Failure(SampleSetMismatch)
    else Success(SampleIds(samples))
  }

  method AssertDatasetBinding(dataset: Dataset, samples: seq<Sample>) returns (r: Result<set<Id>, PlanError>)
    ensures r == BindDataset(dataset, samples)
  {
    if dataset.records != |samples| {
      return Failure(RecordCount);
    }
    var ids: set<Id> := {};
    for k := 0 to |samples|
      invariant ids == SampleIds(samples[..k])
      invariant RepeatedSample(samples, k) == RepeatedSample(samples, 0)
    {
      if samples[k].id in ids {
        return Failure(DuplicateSample(samples[k].id));
      }
      ids := ids + {samples[k].id};
    }
    assert samples[..|samples|] == samples;
    if dataset.sampleIds.Some? && dataset.sampleIds.value != ids {
      return Failure(SampleSetMismatch);
    }
    r := Success(ids);
  }

  lemma {:induction false} NoRepeatMeansDistinct(samples: seq<Sample>, k: nat)
    requires k <= |samples|
    ensures RepeatedSample(samples, k).None? <==>
      forall i, j :: 0 <= i < j < |samples| && k <= j ==> samples[i].id != samples[j].id
    decreases |samples| - k
  {
    if k < |samples| {
      NoRepeatMeansDistinct(samples, k + 1);
      assert samples[k].id in SampleIds(samples[..k]) <==>
        exists i :: 0 <= i < k && samples[..k][i].id == samples[k].id;
      assert forall i :: 0 <= i < k ==> samples[..k][i] == samples[i];
    }
  }

  lemma BoundDataset(dataset: Dataset, samples: seq<Sample>)
    ensures BindDataset(dataset, samples).Success? <==>
      && dataset.records == |samples| && DistinctSamples(samples)
      && (dataset.sampleIds.Some? ==> dataset.sampleIds.value == SampleIds(samples))
  {
    NoRepeatMeansDistinct(samples, 0);
  }

  // ----- candidate pairs -----

  function TeachersFor(roster: seq<Worker>, s: Sample): seq<Worker> {
    if roster == [] then []
    else
      var rest, w := TeachersFor(roster[..|roster| - 1], s), roster[|roster| - 1];
      if Qualified(w, s, Teacher) then rest + [w] else rest
  }

  predicate Independent(roster: seq<Worker>, s: Sample, c: Choice) {
    exists i :: 0 <= i < |roster| && Qualified(roster[i], s, Adjudicator)
      && roster[i].id != c.low && roster[i].id != c.high
  }

  function PairOf(a: Worker, b: Worker): Choice {
    if a.id < b.id then Choice(a.id, b.id) else Choice(b.id, a.id)
  }

  /** Candidates that pair the teacher at left with later ones below right. */
  function Row(roster: seq<Worker>, s: Sample, ts: seq<Worker>, left: nat, right: nat): seq<Choice>
    requires left < right <= |ts|
  {
    if right == left + 1 then []
    else
      var rest, c := Row(roster, s, ts, left, right - 1), PairOf(ts[left], ts[right - 1]);
      if Independent(roster, s, c) then rest + [c] else rest
  }

  function Rows(roster: seq<Worker>, s: Sample, ts: seq<Worker>, left: nat): seq<Choice>
    requires left <= |ts|
  {
    if left == 0 then [] else Rows(roster, s, ts, left - 1) + Row(roster, s, ts, left - 1, |ts|)
  }

  function Candidates(roster: seq<Worker>, s: Sample): seq<Choice> {
    var ts := TeachersFor(roster, s);
    Rows(roster, s, ts, |ts|)
  }

  // ----- ranking -----

  datatype Progress = Progress(loads: map<Id, nat>, together: map<Choice, nat>, assignments: seq<Assignment>)

  function Load(loads: map<Id, nat>, w: Id): nat {
    if w in loads then loads[w] else 0
  }

  function Together(together: map<Choice, nat>, c: Choice): nat {
    if c in together then together[c] else 0
  }

  function Max(a: nat, b: nat): nat { if a < b then b else a }

  datatype Rank = Rank(peak: nat, total: nat, together: nat, order: int)

  function RankOf(p: Progress, s: Sample, seed: Seed, c: Choice): Rank {
    Rank(Max(Load(p.loads, c.low) + 1, Load(p.loads, c.high) + 1),
         Load(p.loads, c.low) + Load(p.loads, c.high),
         Together(p.together, c),
         seed.pairOrder(s.id, c))
  }

  predicate Before(a: Rank, b: Rank) {
    || a.peak < b.peak
    || (a.peak == b.peak &&
        (|| a.total < b.total
         || (a.total == b.total &&
             (a.together < b.together || (a.together == b.together && a.order < b.order)))))
  }

  /** The first of the least-ranked among the first k candidates. */
  function Best(p: Progress, s: Sample, seed: Seed, cs: seq<Choice>, k: nat): Choice
    requires 0 < k <= |cs|
  {
    if k == 1 then cs[0]
    else
      var best := Best(p, s, seed, cs, k - 1);
      if Before(RankOf(p, s, seed, cs[k - 1]), RankOf(p, s, seed, best)) then cs[k - 1] else best
  }

  function ChooseTeacherPair(roster: seq<Worker>, s: Sample, p: Progress, seed: Seed): Option<Choice> {
    var cs := Candidates(roster, s);
    if cs == [] then None else Some(Best(p, s, seed, cs, |cs|))
  }

  method SelectTeacherPair(roster: seq<Worker>, s: Sample, p: Progress, seed: Seed) returns (r: Option<Choice>)
    ensures r == ChooseTeacherPair(roster, s, p, seed)
  {
    hide Qualified, Independent, Before, RankOf;
    var ts := TeachersFor(roster, s);
    var cs: seq<Choice> := [];
    for left := 0 to |ts|
      invariant cs == Rows(roster, s, ts, left)
    {
      ghost var before := cs;
      for right := left + 1 to |ts|
        invariant cs == before + Row(roster, s, ts, left, right)
      {
        var c := PairOf(ts[left], ts[right]);
        if Independent(roster, s, c) {
          cs := cs + [c];
        }
      }
    }
    if cs == [] {
      return None;
    }
    var best := cs[0];
    for k := 1 to |cs|
      invariant best == Best(p, s, seed, cs, k)
    {
      if Before(RankOf(p, s, seed, cs[k]), RankOf(p, s, seed, best)) {
        best := cs[k];
      }
    }
    r := Some(best);
  }

  // ----- building the plan -----

  function First(seed: Seed, s: Sample, c: Choice): Id { if seed.flips(s.id) then c.high else c.low }
  function Second(seed: Seed, s: Sample, c: Choice): Id { if seed.flips(s.id) then c.low else c.high }

  function Assign(planId: string, s: Sample, slot: Slot, labeler: Id): Assignment {
    Assignment(AssignmentId(planId, s.id, slot, labeler), BundleId(planId, s.id), s.id, labeler, slot)
  }

  function AddLoad(loads: map<Id, nat>, w: Id): map<Id, nat> {
    loads[w := Load(loads, w) + 1]
  }

  function Place(planId: string, s: Sample, seed: Seed, c: Choice, p: Progress): Progress {
    var first, second := First(seed, s, c), Second(seed, s, c);
    Progress(AddLoad(AddLoad(p.loads, first), second),
             p.together[c := Together(p.together, c) + 1],
             p.assignments + [Assign(planId, s, A, first), Assign(planId, s, B, second)])
  }

  function Beginning(roster: seq<Worker>): Progress {
    Progress(map i | 0 <= i < |roster| && Teacher in roster[i].roles :: roster[i].id := 0, map[], [])
  }

  function SampleKey(s: Sample): int { s.id }

  function InOrder(samples: seq<Sample>): seq<Sample> {
    SortBy(samples, SampleKey)
  }

  /** The state after the first k samples, or the first sample nobody can annotate. */
  function PlanUpTo(planId: string, roster: seq<Worker>, sorted: seq<Sample>, seed: Seed, k: nat)
      : Result<Progress, PlanError>
    requires k <= |sorted|
  {
    if k == 0 then Success(Beginning(roster))
    else
      match PlanUpTo(planId, roster, sorted, seed, k - 1)
      case Failure(e) => Failure(e)
      case Success(p) =>
        match ChooseTeacherPair(roster, sorted[k - 1], p, seed)
        case None => Failure(NoTeacherPair(sorted[k - 1].id))
        case Some(c) => Success(Place(planId, sorted[k - 1], seed, c, p))
  }

  function PlanFrom(planId: string, dataset: Dataset, ids: set<Id>, rosterSha: string, p: Progress): Plan {
    Plan(planId, true, dataset.(sampleIds := Some(ids)), rosterSha, p.assignments, p.loads, p.together)
  }

  function BuildPlan(planId: string, samples: seq<Sample>, roster: seq<Worker>, dataset: Dataset, rosterSha: string,
      seed: Seed)
      : Result<Plan, PlanError>
  {
    if !RosterValid(roster) then Failure(RosterInvalid)
    else
      match BindDataset(dataset, samples)
      case Failure(e) => Failure(e)
      case Success(ids) =>
        var sorted := InOrder(samples);
        match PlanUpTo(planId, roster, sorted, seed, |sorted|)
        case Failure(e) => Failure(e)
        case Success(p) => Success(PlanFrom(planId, dataset, ids, rosterSha, p))
  }

  lemma {:induction false} FailureStays(planId: string, roster: seq<Worker>, sorted: seq<Sample>, seed: Seed, k: nat,
      n: nat)
    requires k <= n <= |sorted| && PlanUpTo(planId, roster, sorted, seed, k).Failure?
    ensures PlanUpTo(planId, roster, sorted, seed, n) == PlanUpTo(planId, roster, sorted, seed, k)
  {
    hide ChooseTeacherPair, Place;
    if k < n {
      FailureStays(planId, roster, sorted, seed, k, n - 1);
    }
  }

  /** Fills slots A and B in turn and counts the pair. */
  method RecordPair(planId: string, s: Sample, seed: Seed, c: Choice, p: Progress)
      returns (loads: map<Id, nat>, together: map<Choice, nat>, assignments: seq<Assignment>)
    ensures Progress(loads, together, assignments) == Place(planId, s, seed, c, p)
  {
    hide AddLoad, Assign;
    loads, assignments := p.loads, p.assignments;
    var slotIds := [First(seed, s, c), Second(seed, s, c)];
    assignments := assignments + [Assign(planId, s, A, slotIds[0])];
    loads := AddLoad(loads, slotIds[0]);
    assignments := assignments + [Assign(planId, s, B, slotIds[1])];
    loads := AddLoad(loads, slotIds[1]);
    together := p.together[c := Together(p.together, c) + 1];
  }

  method BuildBlindAnnotationPlan(planId: string, samples: seq<Sample>, roster: seq<Worker>, dataset: Dataset,
                                  rosterSha: string, seed: Seed)
      returns (r: Result<Plan, PlanError>)
    ensures r == BuildPlan(planId, samples, roster, dataset, rosterSha, seed)
  {
    hide ChooseTeacherPair, RosterValid, BindDataset, InOrder, Place, Beginning;
    if !RosterValid(roster) {
      return Failure(RosterInvalid);
    }
    var bound := AssertDatasetBinding(dataset, samples);
    if bound.Failure? {
      return Failure(bound.error);
    }
    var sorted := InOrder(samples);
    var begin := Beginning(roster);
    var loads: map<Id, nat>, together: map<Choice, nat>, assignments := begin.loads, begin.together, begin.assignments;
    for k := 0 to |sorted|
      invariant PlanUpTo(planId, roster, sorted, seed, k) == Success(Progress(loads, together, assignments))
    {
      var s := sorted[k];
      var chosen := SelectTeacherPair(roster, s, Progress(loads, together, assignments), seed);
      if chosen.None? {
        FailureStays(planId, roster, sorted, seed, k + 1, |sorted|);
        return Failure(NoTeacherPair(s.id));
      }
      var c := chosen.value;
      loads, together, assignments := RecordPair(planId, s, seed, c, Progress(loads, together, assignments));
    }
    r := Success(PlanFrom(planId, dataset, bound.value, rosterSha, Progress(loads, together, assignments)));
  }

  // ----- binding a plan to its samples and roster -----

  function FindSample(samples: seq<Sample>, id: Id): Option<Sample> {
    if samples == [] then None
    else if samples[|samples| - 1].id == id then Some(samples[|samples| - 1])
    else FindSample(samples[..|samples| - 1], id)
  }

  function FindWorker(roster: seq<Worker>, id: Id): Option<Worker> {
    if roster == [] then None
    else if roster[|roster| - 1].id == id then Some(roster[|roster| - 1])
    else FindWorker(roster[..|roster| - 1], id)
  }

  function AssignmentsOf(assignments: seq<Assignment>, sample: Id): seq<Assignment> {
    if assignments == [] then []
    else
      var rest, last := AssignmentsOf(assignments[..|assignments| - 1], sample), assignments[|assignments| - 1];
      if last.sample == sample then rest + [last] else rest
  }

  predicate AssignmentValid(a: Assignment, samples: seq<Sample>, roster: seq<Worker>) {
    var s, w := FindSample(samples, a.sample), FindWorker(roster, a.labeler);
    s.Some? && w.Some? && Qualified(w.value, s.value, Teacher)
  }

  predicate DistinctAssignments(assignments: seq<Assignment>) {
    forall i, j :: 0 <= i < j < |assignments| ==> assignments[i].id != assignments[j].id
  }

  /** The two assignments of a sample: different teachers, slots A and B, one bundle. */
  predicate PairValid(pair: seq<Assignment>) {
    && |pair| == 2 && pair[0].labeler != pair[1].labeler
    && pair[0].slot != pair[1].slot && pair[0].bundle == pair[1].bundle
  }

  predicate PlanBinds(plan: Plan, samples: seq<Sample>, roster: seq<Worker>, datasetSha: string, rosterSha: string) {
    && plan.blind && plan.dataset.sha == datasetSha && plan.rosterSha == rosterSha
    && BindDataset(plan.dataset, samples).Success?
    && DistinctAssignments(plan.assignments)
    && (forall i :: 0 <= i < |plan.assignments| ==> AssignmentValid(plan.assignments[i], samples, roster))
    && (forall k :: 0 <= k < |samples| ==> PairValid(AssignmentsOf(plan.assignments, samples[k].id)))
  }

  /** The loop over assignments, which groups them by sample on the way. */
  method CheckAssignments(given: seq<Assignment>, samples: seq<Sample>, roster: seq<Worker>)
      returns (error: Option<PlanError>, bySample: map<Id, seq<Assignment>>)
    ensures error.None? <==>
      DistinctAssignments(given) && forall i :: 0 <= i < |given| ==> AssignmentValid(given[i], samples, roster)
    ensures error.None? ==>
      forall id :: AssignmentsOf(given, id) == if id in bySample then bySample[id] else []
  {
    hide FindSample, FindWorker, Qualified;
    var seen: set<AssignmentId> := {};
    bySample := map[];
    for i := 0 to |given|
      invariant seen == set j | 0 <= j < i :: given[j].id
      invariant forall j, k :: 0 <= j < k < i ==> given[j].id != given[k].id
      invariant forall j :: 0 <= j < i ==> AssignmentValid(given[j], samples, roster)
      invariant forall id :: AssignmentsOf(given[..i], id) == if id in bySample then bySample[id] else []
    {
      var a := given[i];
      if a.id in seen { return Some(DuplicateAssignment(a.id)), bySample; }
      seen := seen + {a.id};
      var s := FindSample(samples, a.sample);
      if s.None? { return Some(UnknownSample(a.sample)), bySample; }
      var w := FindWorker(roster, a.labeler);
      if w.None? || !Qualified(w.value, s.value, Teacher) { return Some(UnqualifiedTeacher(a.id)), bySample; }
      assert given[..i + 1][..i] == given[..i];
      var listed := if a.sample in bySample then bySample[a.sample] else [];
      bySample := bySample[a.sample := listed + [a]];
    }
    assert given[..|given|] == given;
    error := None;
  }

  method AssertPlanBinding(plan: Plan, samples: seq<Sample>, roster: seq<Worker>, datasetSha: string, rosterSha: string)
      returns (error: Option<PlanError>)
    ensures error.None? <==> PlanBinds(plan, samples, roster, datasetSha, rosterSha)
  {
    hide BindDataset, AssignmentValid, DistinctAssignments, AssignmentsOf;
    if !plan.blind { return Some(NotBlind); }
    if plan.dataset.sha != datasetSha { return Some(DatasetMismatch); }
    if plan.rosterSha != rosterSha { return Some(RosterMismatch); }
    var bound := AssertDatasetBinding(plan.dataset, samples);
    if bound.Failure? { return Some(bound.error); }
    var bySample: map<Id, seq<Assignment>>;
    error, bySample := CheckAssignments(plan.assignments, samples, roster);
    if error.Some? { return; }
    for k := 0 to |samples|
      invariant forall j :: 0 <= j < k ==> PairValid(AssignmentsOf(plan.assignments, samples[j].id))
    {
      var id := samples[k].id;
      var pair := if id in bySample then bySample[id] else [];
      if |pair| != 2 { return Some(NotTwoAssignments(id)); }
      if pair[0].labeler == pair[1].labeler { return Some(SameTeacher(id)); }
      if pair[0].slot == pair[1].slot { return Some(WrongSlots(id)); }
      if pair[0].bundle != pair[1].bundle { return Some(BundlesDiffer(id)); }
    }
    return None;
  }
}
