/** Finalizing: adjudication labels complete the disputed bundles, and the
    result must cover the planned samples exactly. */
module AnnotationFinal {
  import opened Wrappers
  import opened Ordering
  import opened Annotation
  import opened AnnotationPlan
  import opened AnnotationMerge

  datatype Ruling = Ruling(task: AdjudicationId, plan: string, bundle: BundleId, actor: Id, mark: Label)

  datatype FinalError =
    | RosterRefused | OtherDataset | OtherRoster | TeachersIncomplete | RepeatedTask | RepeatedBundle
    | CountsDiffer | WrongTask(task: AdjudicationId) | RulingsRefused | InvalidAdjudicated(bundle: BundleId)
    | WrongCount | RepeatedSample | WrongSamples | InvalidFinal(bundle: BundleId)

  type Rulings = map<AdjudicationId, Ruling>

  // ----- the state that is handed in -----

  function FindBundle(bundles: seq<Bundle>, id: BundleId): Option<Bundle> {
    if bundles == [] then None
    else if bundles[|bundles| - 1].id == id then Some(bundles[|bundles| - 1])
    else FindBundle(bundles[..|bundles| - 1], id)
  }

  function FindTask(tasks: seq<Task>, id: AdjudicationId): Option<Task> {
    if tasks == [] then None
    else if tasks[|tasks| - 1].id == id then Some(tasks[|tasks| - 1])
    else FindTask(tasks[..|tasks| - 1], id)
  }

  predicate DistinctTasks(tasks: seq<Task>) {
    forall i, j :: 0 <= i < j < |tasks| ==> tasks[i].id != tasks[j].id
  }

  predicate DistinctBundles(bundles: seq<Bundle>) {
    forall i, j :: 0 <= i < j < |bundles| ==> bundles[i].id != bundles[j].id
  }

  /** An adjudication task names its own bundle and an independent qualified worker. */
  predicate TaskValid(t: Task, disputed: seq<Bundle>, roster: seq<Worker>) {
    var b, w := FindBundle(disputed, t.bundle), FindWorker(roster, t.adjudicator);
    && b.Some? && t.sample == b.value.sample.id
    && w.Some? && Qualified(w.value, b.value.sample, Adjudicator) && w.value.id !in Labelers(b.value.labels)
    && multiset(t.sources) == multiset(LabelIds(b.value.labels))
  }

  // ----- accepting rulings -----

  function SourceIds(disputed: seq<Bundle>): set<string> {
    set i, j | 0 <= i < |disputed| && 0 <= j < |disputed[i].labels| :: disputed[i].labels[j].id
  }

  predicate RulingFits(r: Ruling, st: State, norm: Normalizer) {
    var t := FindTask(st.tasks, r.task);
    && t.Some?
    && r.plan == st.plan && r.bundle == t.value.bundle
    && r.actor == t.value.adjudicator && r.mark.labeler == t.value.adjudicator
    && r.mark.role.Adjudicator?
    && r.mark.id !in SourceIds(st.disputed)
    && FindBundle(st.disputed, t.value.bundle).Some?
    && ValidLabel(r.mark, FindBundle(st.disputed, t.value.bundle).value.sample, norm)
  }

  predicate RulingsClash(x: Ruling, y: Ruling) {
    x.task == y.task || x.mark.id == y.mark.id
  }

  predicate RulingsFit(rulings: seq<Ruling>, st: State, norm: Normalizer) {
    && (forall i :: 0 <= i < |rulings| ==> RulingFits(rulings[i], st, norm))
    && (forall i, j :: 0 <= i < j < |rulings| ==> !RulingsClash(rulings[i], rulings[j]))
  }

  function RulingsFrom(rulings: seq<Ruling>): Rulings {
    if rulings == [] then map[]
    else RulingsFrom(rulings[..|rulings| - 1])[rulings[|rulings| - 1].task := rulings[|rulings| - 1]]
  }

  predicate AllRuled(tasks: seq<Task>, given: Rulings) {
    forall i :: 0 <= i < |tasks| ==> tasks[i].id in given
  }

  // ----- the final bundles -----

  function Ruled(st: State, t: Task, given: Rulings): Bundle
    requires t.id in given && FindBundle(st.disputed, t.bundle).Some?
  {
    FindBundle(st.disputed, t.bundle).value.(adjudication := Some(given[t.id].mark))
  }

  function RuledUpTo(st: State, given: Rulings, k: nat, policy: Policy): Result<seq<Bundle>, FinalError>
    requires k <= |st.tasks| && AllRuled(st.tasks, given)
    requires forall i :: 0 <= i < |st.tasks| ==> FindBundle(st.disputed, st.tasks[i].bundle).Some?
  {
    if k == 0 then Success([])
    else
      match RuledUpTo(st, given, k - 1, policy)
      case Failure(e) => Failure(e)
      case Success(bundles) =>
        var b := Ruled(st, st.tasks[k - 1], given);
        if ValidBundle(b, policy) then Success(bundles + [b]) else Failure(InvalidAdjudicated(b.id))
  }

  function BundleKey(b: Bundle): int { b.sample.id }

  function FirstInvalid(bundles: seq<Bundle>, k: nat, policy: Policy): Option<Bundle>
    requires k <= |bundles|
    decreases |bundles| - k
  {
    if k == |bundles| then None
    else if !ValidBundle(bundles[k], policy) then Some(bundles[k])
    else FirstInvalid(bundles, k + 1, policy)
  }

  function BundleSampleIds(bundles: seq<Bundle>): set<Id> {
    set i | 0 <= i < |bundles| :: bundles[i].sample.id
  }

  function CheckFinal(bundles: seq<Bundle>, dataset: Dataset, policy: Policy): Result<seq<Bundle>, FinalError> {
    if |bundles| != dataset.records then Failure(WrongCount)
    else if |BundleSampleIds(bundles)| != |bundles| then Failure(RepeatedSample)
    else if dataset.sampleIds != Some(BundleSampleIds(bundles)) then Failure(WrongSamples)
    else if FirstInvalid(bundles, 0, policy).Some? then Failure(InvalidFinal(FirstInvalid(bundles, 0, policy).value.id))
    else Success(bundles)
  }

  /** The first task at or after k that names a wrong bundle, worker or label. */
  function FirstWrong(st: State, roster: seq<Worker>, k: nat): Option<Task>
    requires k <= |st.tasks|
    decreases |st.tasks| - k
  {
    if k == |st.tasks| then None
    else if !TaskValid(st.tasks[k], st.disputed, roster) then Some(st.tasks[k])
    else FirstWrong(st, roster, k + 1)
  }

  lemma {:induction false} NoneWrong(st: State, roster: seq<Worker>, k: nat)
    requires k <= |st.tasks|
    ensures FirstWrong(st, roster, k).None? <==> forall i :: k <= i < |st.tasks| ==>
      TaskValid(st.tasks[i], st.disputed, roster)
    ensures FirstWrong(st, roster, k).None? ==> forall i :: k <= i < |st.tasks| ==>
      FindBundle(st.disputed, st.tasks[i].bundle).Some?
    decreases |st.tasks| - k
  {
    hide FindBundle, FindWorker, Qualified;
    if k < |st.tasks| {
      NoneWrong(st, roster, k + 1);
    }
  }

  function CheckState(st: State, roster: seq<Worker>, datasetSha: string, rosterSha: string): Option<FinalError> {
    if !RosterValid(roster) then Some(RosterRefused)
    else if st.dataset.sha != datasetSha then Some(OtherDataset)
    else if st.rosterSha != rosterSha then Some(OtherRoster)
    else if st.unsubmitted != [] then Some(TeachersIncomplete)
    else if !DistinctTasks(st.tasks) then Some(RepeatedTask)
    else if !DistinctBundles(st.disputed) then Some(RepeatedBundle)
    else if |st.tasks| != |st.disputed| then Some(CountsDiffer)
    else
      match FirstWrong(st, roster, 0)
      case Some(t) => Some(WrongTask(t.id))
      case None => None
  }

  function Finalize(st: State, roster: seq<Worker>, datasetSha: string, rosterSha: string, rulings: seq<Ruling>,
      policy: Policy)
      : Result<seq<Bundle>, FinalError>
  {
    var wrong := CheckState(st, roster, datasetSha, rosterSha);
    if wrong.Some? then Failure(wrong.value)
    else if !RulingsFit(rulings, st, policy.normalize) || !AllRuled(st.tasks, RulingsFrom(rulings))
    then Failure(RulingsRefused)
    else
      NoneWrong(st, roster, 0);
      match RuledUpTo(st, RulingsFrom(rulings), |st.tasks|, policy)
      case Failure(e) => Failure(e)
      case Success(ruled) => CheckFinal(SortBy(st.completed + ruled, BundleKey), st.dataset, policy)
  }

  // ----- the loops -----

  /** The checks on the state that is handed in. */
  method CheckTasks(st: State, roster: seq<Worker>, datasetSha: string, rosterSha: string)
      returns (wrong: Option<FinalError>)
    ensures wrong == CheckState(st, roster, datasetSha, rosterSha)
  {
    hide RosterValid, TaskValid;
    if !RosterValid(roster) { return Some(RosterRefused); }
    if st.dataset.sha != datasetSha { return Some(OtherDataset); }
    if st.rosterSha != rosterSha { return Some(OtherRoster); }
    if st.unsubmitted != [] { return Some(TeachersIncomplete); }
    if !DistinctTasks(st.tasks) { return Some(RepeatedTask); }
    if !DistinctBundles(st.disputed) { return Some(RepeatedBundle); }
    if |st.tasks| != |st.disputed| { return Some(CountsDiffer); }
    for k := 0 to |st.tasks|
      invariant FirstWrong(st, roster, k) == FirstWrong(st, roster, 0)
    {
      if !TaskValid(st.tasks[k], st.disputed, roster) {
        return Some(WrongTask(st.tasks[k].id));
      }
    }
    wrong := None;
  }

  lemma {:induction false} RulingKeys(rulings: seq<Ruling>)
    ensures forall id :: id in RulingsFrom(rulings) <==> exists i :: 0 <= i < |rulings| && rulings[i].task == id
  {
    if rulings != [] {
      RulingKeys(rulings[..|rulings| - 1]);
      assert forall i :: 0 <= i < |rulings| - 1 ==> rulings[..|rulings| - 1][i] == rulings[i];
    }
  }

  lemma OneMoreRuling(rulings: seq<Ruling>, k: nat, st: State, norm: Normalizer)
    requires k < |rulings|
    ensures RulingsFit(rulings[..k + 1], st, norm) <==>
      && RulingsFit(rulings[..k], st, norm) && RulingFits(rulings[k], st, norm)
      && (forall i :: 0 <= i < k ==> rulings[i].task != rulings[k].task && rulings[i].mark.id != rulings[k].mark.id)
  {
    hide RulingFits;
    var more := rulings[..k + 1];
    if RulingsFit(more, st, norm) {
      assert more[k] == rulings[k];
      assert forall i :: 0 <= i < k ==> more[i] == rulings[i] && rulings[..k][i] == rulings[i];
    }
  }

  method CheckRuling(r: Ruling, t: Task, st: State, norm: Normalizer, labelIds: set<string>) returns (faults: nat)
    requires FindTask(st.tasks, r.task) == Some(t) && FindBundle(st.disputed, t.bundle).Some?
    ensures faults == 0 <==> RulingFits(r, st, norm) && r.mark.id !in labelIds
  {
    hide ValidLabel, FindTask, FindBundle, SourceIds;
    faults := 0;
    if r.plan != st.plan || r.bundle != t.bundle { faults := faults + 1; }
    if r.actor != t.adjudicator || r.mark.labeler != t.adjudicator { faults := faults + 1; }
    if !r.mark.role.Adjudicator? { faults := faults + 1; }
    if r.mark.id in SourceIds(st.disputed) || r.mark.id in labelIds { faults := faults + 1; }
    var errors := ValidateLabel(r.mark, FindBundle(st.disputed, t.bundle).value.sample, norm);
    faults := faults + |errors|;
  }

  lemma {:induction false} TaskFound(tasks: seq<Task>, id: AdjudicationId)
    requires FindTask(tasks, id).Some?
    ensures FindTask(tasks, id).value in tasks && FindTask(tasks, id).value.id == id
  {
    if tasks[|tasks| - 1].id != id {
      TaskFound(tasks[..|tasks| - 1], id);
    }
  }

  method ReceiveRulings(rulings: seq<Ruling>, st: State, norm: Normalizer) returns (faults: nat, given: Rulings)
    requires forall i :: 0 <= i < |st.tasks| ==> FindBundle(st.disputed, st.tasks[i].bundle).Some?
    ensures faults == 0 <==> RulingsFit(rulings, st, norm)
    ensures faults == 0 ==> given == RulingsFrom(rulings)
  {
    hide FindTask, RulingFits, FindBundle;
    faults, given := 0, map[];
    var labelIds: set<string> := {};
    for k := 0 to |rulings|
      invariant faults == 0 <==> RulingsFit(rulings[..k], st, norm)
      invariant faults == 0 ==> given == RulingsFrom(rulings[..k])
      invariant faults == 0 ==> labelIds == set i | 0 <= i < k :: rulings[i].mark.id
    {
      assert rulings[..k + 1][..k] == rulings[..k];
      OneMoreRuling(rulings, k, st, norm);
      RulingKeys(rulings[..k]);
      var r := rulings[k];
      var t := FindTask(st.tasks, r.task);
      if t.None? {
        NoTaskNoFit(r, st, norm);
        faults := faults + 1;
      } else if r.task in given {
        faults := faults + 1;
      } else {
        TaskFound(st.tasks, r.task);
        var more := CheckRuling(r, t.value, st, norm, labelIds);
        faults := faults + more;
        labelIds := labelIds + {r.mark.id};
        given := given[r.task := r];
      }
    }
    assert rulings[..|rulings|] == rulings;
  }

  lemma NoTaskNoFit(r: Ruling, st: State, norm: Normalizer)
    requires FindTask(st.tasks, r.task).None?
    ensures !RulingFits(r, st, norm)
  {
  }

  /** Adds each ruling to its bundle and validates the result. */
  method RuleAll(st: State, given: Rulings, policy: Policy) returns (r: Result<seq<Bundle>, FinalError>)
    requires AllRuled(st.tasks, given)
    requires forall i :: 0 <= i < |st.tasks| ==> FindBundle(st.disputed, st.tasks[i].bundle).Some?
    ensures r == RuledUpTo(st, given, |st.tasks|, policy)
  {
    hide ValidBundle, Ruled, FindBundle;
    var bundles: seq<Bundle> := [];
    for k := 0 to |st.tasks|
      invariant RuledUpTo(st, given, k, policy) == Success(bundles)
    {
      var b := Ruled(st, st.tasks[k], given);
      if !ValidBundle(b, policy) {
        RuledFailureStays(st, given, k + 1, |st.tasks|, policy);
        return Failure(InvalidAdjudicated(b.id));
      }
      bundles := bundles + [b];
    }
    r := Success(bundles);
  }

  lemma {:induction false} RuledFailureStays(st: State, given: Rulings, k: nat, n: nat, policy: Policy)
    requires k <= n <= |st.tasks| && AllRuled(st.tasks, given)
    requires forall i :: 0 <= i < |st.tasks| ==> FindBundle(st.disputed, st.tasks[i].bundle).Some?
    requires RuledUpTo(st, given, k, policy).Failure?
    ensures RuledUpTo(st, given, n, policy) == RuledUpTo(st, given, k, policy)
    decreases n
  {
    hide ValidBundle, Ruled, FindBundle;
    if k < n {
      RuledFailureStays(st, given, k, n - 1, policy);
    }
  }

  method CheckBundles(bundles: seq<Bundle>, dataset: Dataset, policy: Policy)
      returns (r: Result<seq<Bundle>, FinalError>)
    ensures r == CheckFinal(bundles, dataset, policy)
  {
    hide ValidBundle, BundleSampleIds;
    if |bundles| != dataset.records { return Failure(WrongCount); }
    if |BundleSampleIds(bundles)| != |bundles| { return Failure(RepeatedSample); }
    if dataset.sampleIds != Some(BundleSampleIds(bundles)) { return Failure(WrongSamples); }
    for k := 0 to |bundles|
      invariant FirstInvalid(bundles, k, policy) == FirstInvalid(bundles, 0, policy)
    {
      if !ValidBundle(bundles[k], policy) { return Failure(InvalidFinal(bundles[k].id)); }
    }
    r := Success(bundles);
  }

  method FinalizeAdjudications(st: State, roster: seq<Worker>, datasetSha: string, rosterSha: string,
      rulings: seq<Ruling>,
                               policy: Policy)
      returns (r: Result<seq<Bundle>, FinalError>)
    ensures r == Finalize(st, roster, datasetSha, rosterSha, rulings, policy)
  {
    NoneWrong(st, roster, 0);
    hide RosterValid, TaskValid, RulingsFit, RulingsFrom, RuledUpTo, CheckFinal, SortBy, FindBundle, FirstWrong;
    var wrong := CheckTasks(st, roster, datasetSha, rosterSha);
    if wrong.Some? {
      return Failure(wrong.value);
    }
    var faults, given := ReceiveRulings(rulings, st, policy.normalize);
    if faults > 0 || !AllRuled(st.tasks, given) {
      return Failure(RulingsRefused);
    }
    var ruled := RuleAll(st, given, policy);
    if ruled.Failure? {
      return Failure(ruled.error);
    }
    r := CheckBundles(SortBy(st.completed + ruled.value, BundleKey), st.dataset, policy);
  }
}
