/** One sample at a time: what bound plans and accepted submissions say about it,
    that an agreed bundle is valid, and when it has an adjudicator. */
module AnnotationMergeFacts {
  import opened Ordering
  import opened Annotation
  import opened AnnotationPlan
  import opened AnnotationBinding
  import opened AnnotationMerge

  // ----- what binding gives -----

  /** The parts of the binding that merging relies on. */
  ghost predicate Bound(plan: Plan, samples: seq<Sample>) {
    && DistinctSamples(samples) && DistinctAssignments(plan.assignments)
    && (forall k :: 0 <= k < |samples| ==> PairValid(AssignmentsOf(plan.assignments, samples[k].id)))
  }

  lemma BindingBounds(plan: Plan, samples: seq<Sample>, roster: seq<Worker>, datasetSha: string, rosterSha: string)
    requires PlanBinds(plan, samples, roster, datasetSha, rosterSha)
    ensures Bound(plan, samples)
  {
    hide RepeatedSample, SampleIds, AssignmentsOf, FindSample, FindWorker, DistinctAssignments, DistinctSamples,
      BindDataset, PairValid;
    BoundDataset(plan.dataset, samples);
  }

  /** A sample's assignments by slot: A then B, by different teachers, for one bundle. */
  ghost predicate SlotPair(pair: seq<Assignment>, plan: Plan, s: Sample) {
    && |pair| == 2 && pair[0].slot == A && pair[1].slot == B
    && pair[0].labeler != pair[1].labeler && pair[0].bundle == pair[1].bundle && pair[0].id != pair[1].id
    && (forall a :: a in pair <==> a in plan.assignments && a.sample == s.id)
  }

  lemma SortedPair(pair: seq<Assignment>)
    requires PairValid(pair)
    ensures var r := SortBy(pair, SlotKey);
      && |r| == 2 && r[0].slot == A && r[1].slot == B
      && (r == pair || r == [pair[1], pair[0]])
  {
    var one := [pair[0]];
    assert pair[..1] == one && one[..0] == [];
    assert SortBy([], SlotKey) == [] && Insert(pair[0], [], SlotKey) == one;
    assert SortBy(one, SlotKey) == one;
    assert Insert(pair[1], [], SlotKey) == [pair[1]];
    assert Insert(pair[1], one, SlotKey)
      == if SlotKey(pair[1]) < SlotKey(pair[0]) then [pair[1]] + one else one + [pair[1]];
    assert SortBy(pair, SlotKey) == Insert(pair[1], one, SlotKey);
  }

  lemma DistinctAt(given: seq<Assignment>, a: Assignment, b: Assignment)
    requires DistinctAssignments(given) && a in given && b in given && a != b
    ensures a.id != b.id
  {
  }

  lemma PairForFacts(plan: Plan, samples: seq<Sample>, s: Sample)
    requires Bound(plan, samples) && s in samples
    ensures SlotPair(PairFor(plan, s), plan, s)
  {
    hide SortBy, AssignmentsOf, DistinctAssignments, DistinctSamples;
    var raw, pair := AssignmentsOf(plan.assignments, s.id), PairFor(plan, s);
    var k :| 0 <= k < |samples| && samples[k] == s;
    assert PairValid(raw);
    SortedPair(raw);
    forall a ensures a in pair <==> a in plan.assignments && a.sample == s.id {
      AssignmentsOfHolds(plan.assignments, s.id, a);
      assert a in pair <==> a in raw;
    }
    assert pair[0] in pair && pair[1] in pair;
    DistinctAt(plan.assignments, pair[0], pair[1]);
  }

  // ----- what acceptance gives -----

  /** Every received submission fits its assignment; different ones carry different label ids. */
  ghost predicate Sane(received: Received, plan: Plan, samples: seq<Sample>, norm: Normalizer) {
    && (forall id :: id in received ==> received[id].assignment == id && Fits(received[id], plan, samples, norm))
    && (forall x, y :: x in received && y in received && x != y ==> received[x].mark.id != received[y].mark.id)
  }

  lemma {:induction false} ReceivedHolds(subs: seq<Submission>)
    requires forall i, j :: 0 <= i < j < |subs| ==> !Clash(subs[i], subs[j])
    ensures forall id :: id in ReceivedFrom(subs) ==> Kept(subs, id)
    ensures forall x :: x in subs ==> x.assignment in ReceivedFrom(subs) && ReceivedFrom(subs)[x.assignment] == x
  {
    if subs != [] {
      var init, last := subs[..|subs| - 1], subs[|subs| - 1];
      ReceivedHolds(init);
      assert subs == init + [last];
      forall x | x in subs ensures x.assignment in ReceivedFrom(subs) && ReceivedFrom(subs)[x.assignment] == x {
        if x in init {
          var i :| 0 <= i < |init| && init[i] == x;
          assert !Clash(subs[i], subs[|subs| - 1]);
        }
      }
      forall id | id in ReceivedFrom(subs) ensures Kept(subs, id) {
        if id != last.assignment { assert Kept(init, id); }
      }
    }
  }

  ghost predicate Kept(subs: seq<Submission>, id: AssignmentId) {
    id in ReceivedFrom(subs) && ReceivedFrom(subs)[id] in subs && ReceivedFrom(subs)[id].assignment == id
  }

  lemma AcceptedIsSane(subs: seq<Submission>, plan: Plan, samples: seq<Sample>, norm: Normalizer)
    requires Accepted(subs, plan, samples, norm)
    ensures Sane(ReceivedFrom(subs), plan, samples, norm)
  {
    hide Fits, ReceivedFrom;
    var r := ReceivedFrom(subs);
    ReceivedHolds(subs);
    forall id | id in r ensures r[id].assignment == id && Fits(r[id], plan, samples, norm) {
      assert Kept(subs, id);
    }
    forall x, y | x in r && y in r && x != y ensures r[x].mark.id != r[y].mark.id {
      assert Kept(subs, x) && Kept(subs, y);
      var i :| 0 <= i < |subs| && subs[i] == r[x];
      var j :| 0 <= j < |subs| && subs[j] == r[y];
      assert i < j ==> !Clash(subs[i], subs[j]);
      assert j < i ==> !Clash(subs[j], subs[i]);
    }
  }

  // ----- one bundle -----

  lemma FitsLabel(sub: Submission, plan: Plan, samples: seq<Sample>, a: Assignment, s: Sample, norm: Normalizer)
    requires Fits(sub, plan, samples, norm) && sub.assignment == a.id && a in plan.assignments
    requires Bound(plan, samples) && s in samples && a.sample == s.id
    ensures sub.mark.labeler == a.labeler && sub.mark.role.Teacher? && ValidLabel(sub.mark, s, norm)
  {
    hide ValidLabel, AssignmentsOf, PairValid, FindAssignment, FindSample, DistinctSamples, DistinctAssignments;
    AssignmentFound(plan.assignments, a.id);
    var found := FindAssignment(plan.assignments, a.id).value;
    assert found == a by {
      if found != a { DistinctAt(plan.assignments, found, a); }
    }
    var k :| 0 <= k < |samples| && samples[k] == s;
    FindSampleHit(samples, k);
  }

  /** A merged bundle carries two valid labels with different labelers and identifiers. */
  ghost predicate BundleSound(bundle: Bundle, s: Sample, pair: seq<Assignment>, norm: Normalizer) {
    && bundle.sample == s && bundle.synthetic == s.synthetic && bundle.adjudication.None?
    && |bundle.labels| == 2 && |pair| == 2 && bundle.id == pair[0].bundle
    && ValidLabel(bundle.labels[0], s, norm) && ValidLabel(bundle.labels[1], s, norm)
    && bundle.labels[0].labeler == pair[0].labeler && bundle.labels[1].labeler == pair[1].labeler
    && pair[0].labeler != pair[1].labeler
    && bundle.labels[0].id != bundle.labels[1].id
    && bundle.labels[0].role.Teacher? && bundle.labels[1].role.Teacher?
  }

  lemma BundleIsSound(plan: Plan, samples: seq<Sample>, s: Sample, received: Received, norm: Normalizer)
    requires Bound(plan, samples) && s in samples && Sane(received, plan, samples, norm)
    requires Ready(received, PairFor(plan, s))
    ensures BundleSound(BundleFor(s, PairFor(plan, s), received), s, PairFor(plan, s), norm)
  {
    hide ValidLabel, Bound, Fits, PairFor;
    var pair := PairFor(plan, s);
    PairForFacts(plan, samples, s);
    assert pair[0] in pair && pair[1] in pair;
    FitsLabel(received[pair[0].id], plan, samples, pair[0], s, norm);
    FitsLabel(received[pair[1].id], plan, samples, pair[1], s, norm);
  }

  /** An agreed bundle always passes validation. */
  lemma AgreedIsValid(bundle: Bundle, s: Sample, pair: seq<Assignment>, policy: Policy)
    requires BundleSound(bundle, s, pair, policy.normalize)
    requires !RequiresAdjudication(bundle.labels[0], bundle.labels[1], policy)
    ensures ValidBundle(bundle, policy)
  {
    hide ValidLabel, RequiresAdjudication;
  }

  // ----- the adjudicator -----

  ghost predicate MayAdjudicate(w: Worker, s: Sample, labels: seq<Label>, roster: seq<Worker>) {
    w in roster && Qualified(w, s, Adjudicator) && w.id !in Labelers(labels)
  }

  lemma {:induction false} AdjudicatorsExactly(roster: seq<Worker>, s: Sample, labels: seq<Label>)
    ensures forall w :: w in AdjudicatorsFor(roster, s, labels) <==> MayAdjudicate(w, s, labels, roster)
  {
    hide Qualified, Labelers;
    if roster != [] {
      AdjudicatorsExactly(roster[..|roster| - 1], s, labels);
      assert roster == roster[..|roster| - 1] + [roster[|roster| - 1]];
      forall w ensures MayAdjudicate(w, s, labels, roster) <==>
        MayAdjudicate(w, s, labels, roster[..|roster| - 1])
        || (w == roster[|roster| - 1] && Qualified(w, s, Adjudicator) && w.id !in Labelers(labels))
      {
      }
    }
  }

  lemma {:induction false} FirstRankedIsLeast(ws: seq<Worker>, k: nat, s: Sample, loads: map<Id, nat>, seed: Seed)
    requires 0 < k <= |ws|
    ensures FirstRanked(ws, k, s, loads, seed) in ws
    ensures forall i :: 0 <= i < k ==> !RanksBefore(ws[i], FirstRanked(ws, k, s, loads, seed), s, loads, seed)
  {
    if k > 1 {
      FirstRankedIsLeast(ws, k - 1, s, loads, seed);
    }
  }

  /** An adjudicator is found exactly when one may adjudicate; no other candidate has less work. */
  lemma AdjudicatorChosen(roster: seq<Worker>, s: Sample, labels: seq<Label>, loads: map<Id, nat>, seed: Seed)
    ensures ChooseAdjudicator(roster, s, labels, loads, seed).None? <==>
      forall w :: !MayAdjudicate(w, s, labels, roster)
    ensures ChooseAdjudicator(roster, s, labels, loads, seed).Some? ==>
      var best := ChooseAdjudicator(roster, s, labels, loads, seed).value;
      && MayAdjudicate(best, s, labels, roster)
      && forall w :: MayAdjudicate(w, s, labels, roster) ==> Load(loads, best.id) <= Load(loads, w.id)
  {
    hide MayAdjudicate, FirstRanked, AdjudicatorsFor, Load;
    var ws := AdjudicatorsFor(roster, s, labels);
    AdjudicatorsExactly(roster, s, labels);
    if ws != [] {
      assert ws[0] in ws;
      FirstRankedIsLeast(ws, |ws|, s, loads, seed);
    }
  }

  lemma StaffedGivesAdjudicator(plan: Plan, samples: seq<Sample>, s: Sample, bundle: Bundle, roster: seq<Worker>,
      norm: Normalizer)
    requires Bound(plan, samples) && s in samples && BundleSound(bundle, s, PairFor(plan, s), norm)
    ensures LeavesAdjudicator(AssignmentsOf(plan.assignments, s.id), s, roster) <==>
      exists w :: MayAdjudicate(w, s, bundle.labels, roster)
  {
    hide ValidLabel, Qualified, Bound, PairFor, AssignmentsOf;
    var raw, pair := AssignmentsOf(plan.assignments, s.id), PairFor(plan, s);
    PairForFacts(plan, samples, s);
    forall a ensures a in raw <==> a in pair {
      AssignmentsOfHolds(plan.assignments, s.id, a);
    }
    forall w: Worker
      ensures w.id !in Labelers(bundle.labels) <==> forall j :: 0 <= j < |raw| ==> raw[j].labeler != w.id
    {
      SameLabelers(raw, pair, bundle.labels, w.id);
    }
    if LeavesAdjudicator(raw, s, roster) {
      var i :| 0 <= i < |roster| && Qualified(roster[i], s, Adjudicator)
        && forall j :: 0 <= j < |raw| ==> raw[j].labeler != roster[i].id;
      assert MayAdjudicate(roster[i], s, bundle.labels, roster);
    }
    if w :| MayAdjudicate(w, s, bundle.labels, roster) {
      var i :| 0 <= i < |roster| && roster[i] == w;
    }
  }

  lemma SameLabelers(raw: seq<Assignment>, pair: seq<Assignment>, labels: seq<Label>, id: Id)
    requires |pair| == 2 && |labels| == 2 && forall a :: a in raw <==> a in pair
    requires labels[0].labeler == pair[0].labeler && labels[1].labeler == pair[1].labeler
    ensures id !in Labelers(labels) <==> forall j :: 0 <= j < |raw| ==> raw[j].labeler != id
  {
    assert Labelers(labels) == {labels[0].labeler, labels[1].labeler};
    if forall j :: 0 <= j < |raw| ==> raw[j].labeler != id {
      assert pair[0] in raw && pair[1] in raw;
    }
    if id !in Labelers(labels) {
      forall j | 0 <= j < |raw| ensures raw[j].labeler != id {
        assert raw[j] in pair;
      }
    }
  }
}
