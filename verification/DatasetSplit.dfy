/** Splitting a dataset by question group: rounding, excess repair, slices with
    the language's treatment of negative bounds, and the leakage audit. */
module DatasetSplit {
  import opened Wrappers
  import opened Grouping
  import opened Ordering

  datatype Sample = Sample(id: string, questionId: string, questionText: string, synthetic: bool, rubricVersion: string)

  datatype Ratios = Ratios(train: real, validation: real, test: real)

  const DEFAULT_RATIOS := Ratios(0.7, 0.15, 0.15)

  datatype SplitError = RatioOutOfRange | RatiosDoNotAddUp | NoGroupKey(sample: string) | Leakage

  datatype Splits = Splits(train: seq<Sample>, validation: seq<Sample>, test: seq<Sample>)

  datatype Counts = Counts(train: int, validation: int, test: int)

  /** The digest of trimmed text and the hash order of keys are given from outside. */
  datatype Hashing = Hashing(digest: string -> string, order: string -> int)

  // ----- group keys -----

  function QuestionGroupKey(s: Sample, h: Hashing): Option<string> {
    if s.rubricVersion == "" then None
    else if s.questionId != "" then Some(s.questionId + "::" + s.rubricVersion)
    else if s.synthetic && s.questionText != "" then
      Some("synthetic-question-" + h.digest(s.questionText) + "::" + s.rubricVersion)
    else None
  }

  predicate Keyed(samples: seq<Sample>, h: Hashing) {
    forall i :: 0 <= i < |samples| ==> QuestionGroupKey(samples[i], h).Some?
  }

  function KeyOf(s: Sample, h: Hashing): string {
    match QuestionGroupKey(s, h)
    case Some(k) => k
    case None => ""
  }

  // ----- grouping -----

  function GroupUpTo(samples: seq<Sample>, k: nat, h: Hashing): seq<Group<Sample>>
    requires k <= |samples|
  {
    if k == 0 then [] else AddTo(GroupUpTo(samples, k - 1, h), KeyOf(samples[k - 1], h), samples[k - 1])
  }

  /** The first sample at or after k without a key. */
  function FirstUnkeyed(samples: seq<Sample>, k: nat, h: Hashing): Option<Sample>
    requires k <= |samples|
    decreases |samples| - k
  {
    if k == |samples| then None
    else if QuestionGroupKey(samples[k], h).None? then Some(samples[k])
    else FirstUnkeyed(samples, k + 1, h)
  }

  // ----- counts -----

  /** Rounds half up, as Math.round does. */
  function Round(x: real): int { (x + 0.5).Floor }

  /** The real number of groups a ratio stands for. */
  function Share(n: nat, ratio: real): real { n as real * ratio }

  function Max(a: int, b: int): int { if a < b then b else a }

  /** At least one group each for validation and test from three groups on. */
  function Wanted(n: nat, ratio: real): int {
    var rounded := Round(Share(n, ratio));
    if n >= 3 then Max(1, rounded) else rounded
  }

  /** If nothing is left for training, the larger of the two gives up the excess. */
  function CountsFor(n: nat, r: Ratios): Counts {
    var v, t := Wanted(n, r.validation), Wanted(n, r.test);
    var excess := v + t - n + 1;
    var v1 := if v + t >= n && n > 0 && v >= t then v - excess else v;
    var t1 := if v + t >= n && n > 0 && v < t then t - excess else t;
    Counts(n - v1 - t1, v1, t1)
  }

  // ----- slices -----

  /** A slice bound: negative ones count from the end, and all are clamped. */
  function Bound(at: int, n: nat): nat {
    if at < 0 then (if n + at < 0 then 0 else n + at) else if at > n then n else at
  }

  function Slice(groups: seq<Group<Sample>>, from: int, to: int): seq<Group<Sample>> {
    var a, b := Bound(from, |groups|), Bound(to, |groups|);
    if a < b then groups[a..b] else []
  }

  function Records(groups: seq<Group<Sample>>): seq<Sample> {
    if groups == [] then [] else Records(groups[..|groups| - 1]) + groups[|groups| - 1].members
  }

  function Allocate(groups: seq<Group<Sample>>, c: Counts): Splits {
    Splits(Records(Slice(groups, 0, c.train)),
           Records(Slice(groups, c.train, c.train + c.validation)),
           Records(Slice(groups, c.train + c.validation, |groups|)))
  }

  // ----- audit -----

  predicate HasKey(samples: seq<Sample>, key: string, h: Hashing) {
    exists i :: 0 <= i < |samples| && KeyOf(samples[i], h) == key
  }

  /** No key is in two of the splits. */
  ghost predicate NoLeak(s: Splits, h: Hashing) {
    forall key ::
      && !(HasKey(s.train, key, h) && HasKey(s.validation, key, h))
      && !(HasKey(s.train, key, h) && HasKey(s.test, key, h))
      && !(HasKey(s.validation, key, h) && HasKey(s.test, key, h))
  }

  datatype Name = Train | Validation | Test

  /** The audit's loop over one split: who owned a key before, and whether that was someone else. */
  method AuditOne(samples: seq<Sample>, name: Name, h: Hashing, owners: map<string, Name>, leaked: bool)
      returns (owned: map<string, Name>, crossed: bool)
    requires forall key :: key in owners ==> owners[key] != name
    ensures forall key :: key in owned <==> key in owners || HasKey(samples, key, h)
    ensures forall key :: key in owned ==> owned[key] == if HasKey(samples, key, h) then name else owners[key]
    ensures crossed <==> leaked || exists key :: key in owners && HasKey(samples, key, h)
  {
    hide KeyOf;
    owned, crossed := owners, leaked;
    for k := 0 to |samples|
      invariant forall key :: key in owned <==> key in owners || HasKey(samples[..k], key, h)
      invariant forall key :: key in owned ==> owned[key] == if HasKey(samples[..k], key, h) then name else owners[key]
      invariant crossed <==> leaked || exists key :: key in owners && HasKey(samples[..k], key, h)
    {
      var key := KeyOf(samples[k], h);
      forall other ensures HasKey(samples[..k + 1], other, h) <==> HasKey(samples[..k], other, h) || other == key {
        HasKeyStep(samples, k, other, h);
      }
      if key in owned && owned[key] != name {
        crossed := true;
      }
      owned := owned[key := name];
    }
    assert samples[..|samples|] == samples;
  }

  lemma HasKeyStep(samples: seq<Sample>, k: nat, key: string, h: Hashing)
    requires k < |samples|
    ensures HasKey(samples[..k + 1], key, h) <==> HasKey(samples[..k], key, h) || KeyOf(samples[k], h) == key
  {
    hide KeyOf;
    var more, less := samples[..k + 1], samples[..k];
    if HasKey(less, key, h) {
      var i :| 0 <= i < |less| && KeyOf(less[i], h) == key;
      assert more[i] == less[i];
    }
    if HasKey(more, key, h) && KeyOf(samples[k], h) != key {
      var i :| 0 <= i < |more| && KeyOf(more[i], h) == key;
      assert less[i] == more[i];
    }
    assert more[k] == samples[k];
  }

  method AuditSplitLeakage(s: Splits, h: Hashing) returns (passed: bool)
    ensures passed <==> NoLeak(s, h)
  {
    hide HasKey;
    var owners, leaked := AuditOne(s.train, Train, h, map[], false);
    owners, leaked := AuditOne(s.validation, Validation, h, owners, leaked);
    assert leaked <==> exists key :: HasKey(s.train, key, h) && HasKey(s.validation, key, h);
    ghost var before := owners;
    assert forall key :: key in before <==> HasKey(s.train, key, h) || HasKey(s.validation, key, h);
    owners, leaked := AuditOne(s.test, Test, h, owners, leaked);
    passed := !leaked;
  }

  // ----- the whole split -----

  predicate ShareOk(x: real) { 0.0 <= x <= 1.0 }

  function ByHash(h: Hashing): Group<Sample> -> int { (g: Group<Sample>) => h.order(g.key) }

  function Ordered(samples: seq<Sample>, h: Hashing): seq<Group<Sample>> {
    SortBy(GroupUpTo(samples, |samples|, h), ByHash(h))
  }

  datatype Outcome = Outcome(counts: Counts, splits: Splits)

  ghost function Split(samples: seq<Sample>, r: Ratios, h: Hashing): Result<Outcome, SplitError> {
    if !ShareOk(r.train) || !ShareOk(r.validation) || !ShareOk(r.test) then Failure(RatioOutOfRange)
    else if r.train + r.validation + r.test != 1.0 then Failure(RatiosDoNotAddUp)
    else
      match FirstUnkeyed(samples, 0, h)
      case Some(s) => Failure(NoGroupKey(s.id))
      case None =>
        var groups := Ordered(samples, h);
        var counts := CountsFor(|groups|, r);
        var splits := Allocate(groups, counts);
        if NoLeak(splits, h) then Success(Outcome(counts, splits)) else Failure(Leakage)
  }

  /** Collects the groups in a map-like list, in order of first appearance. */
  method CollectGroups(samples: seq<Sample>, h: Hashing) returns (unkeyed: Option<Sample>, groups: seq<Group<Sample>>)
    ensures unkeyed == FirstUnkeyed(samples, 0, h)
    ensures unkeyed.None? ==> groups == GroupUpTo(samples, |samples|, h)
  {
    hide QuestionGroupKey, FindGroup;
    groups := [];
    for k := 0 to |samples|
      invariant FirstUnkeyed(samples, k, h) == FirstUnkeyed(samples, 0, h)
      invariant groups == GroupUpTo(samples, k, h)
    {
      var key := QuestionGroupKey(samples[k], h);
      if key.None? {
        return Some(samples[k]), groups;
      }
      ghost var before := groups;
      var i := FindGroup(groups, key.value);
      if i == |groups| {
        groups := groups + [Group(key.value, [])];
      }
      groups := groups[i := Group(key.value, groups[i].members + [samples[k]])];
      assert [] + [samples[k]] == [samples[k]];
      assert groups == AddTo(before, key.value, samples[k]);
    }
    unkeyed := None;
  }

  /** Rounds, guarantees one group each, and repairs the excess. */
  method CountGroups(n: nat, r: Ratios) returns (c: Counts)
    ensures c == CountsFor(n, r)
  {
    hide Round, Share;
    var validation, test := Round(Share(n, r.validation)), Round(Share(n, r.test));
    if n >= 3 {
      validation, test := Max(1, validation), Max(1, test);
    }
    assert validation == Wanted(n, r.validation);
    assert test == Wanted(n, r.test);
    if validation + test >= n && n > 0 {
      var excess := validation + test - n + 1;
      if validation >= test {
        validation := validation - excess;
      } else {
        test := test - excess;
      }
    }
    c := Counts(n - validation - test, validation, test);
  }

  method SplitByQuestionGroup(samples: seq<Sample>, r: Ratios, h: Hashing) returns (result: Result<Outcome, SplitError>)
    ensures result == Split(samples, r, h)
  {
    hide FirstUnkeyed, GroupUpTo, Allocate, NoLeak, CountsFor, SortBy;
    if !ShareOk(r.train) || !ShareOk(r.validation) || !ShareOk(r.test) {
      return Failure(RatioOutOfRange);
    }
    if r.train + r.validation + r.test != 1.0 {
      return Failure(RatiosDoNotAddUp);
    }
    var unkeyed, found := CollectGroups(samples, h);
    if unkeyed.Some? {
      return Failure(NoGroupKey(unkeyed.value.id));
    }
    var groups := SortBy(found, ByHash(h));
    var counts := CountGroups(|groups|, r);
    var splits := Allocate(groups, counts);
    var passed := AuditSplitLeakage(splits, h);
    if !passed {
      return Failure(Leakage);
    }
    result := Success(Outcome(counts, splits));
  }
}
