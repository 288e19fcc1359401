/** Merging depends only on which submissions there are, never on their order,
    and more submissions never change a verdict already reached. */
module AnnotationMergeOrder {
  import opened Ordering
  import opened Annotation
  import opened AnnotationPlan
  import opened AnnotationBinding
  import opened AnnotationMerge
  import opened AnnotationMergeFacts
  import opened AnnotationMergeResults

  // ----- the split, for a successful merge -----

  ghost predicate HasBundle(bundles: seq<Bundle>, s: Sample) {
    exists b :: b in bundles && b.sample == s
  }

  ghost predicate HasAssignment(open: seq<Assignment>, s: Sample) {
    exists a :: a in open && a.sample == s.id
  }

  lemma MergeOpened(plan: Plan, samples: seq<Sample>, roster: seq<Worker>, datasetSha: string, rosterSha: string,
                    subs: seq<Submission>, seed: Seed, policy: Policy)
    requires Merge(plan, samples, roster, datasetSha, rosterSha, subs, seed, policy).Success?
    ensures var sorted, received := InOrder(samples), ReceivedFrom(subs);
      var st := MergeUpTo(sorted, |sorted|, plan, received, roster, seed, policy);
      && Accepted(subs, plan, samples, policy.normalize) && RosterValid(roster)
      && PlanBinds(plan, samples, roster, datasetSha, rosterSha) && st.Success?
      && Merge(plan, samples, roster, datasetSha, rosterSha, subs, seed, policy).value
        == StateFrom(plan, rosterSha, received, st.value)
  {
    hide MergeUpTo, PlanBinds, RosterValid, Accepted, ReceivedFrom, InOrder;
  }

  /** Every sample ends in exactly one of three places, and the counts add up. */
  lemma MergeSplitsSamples(plan: Plan, samples: seq<Sample>, roster: seq<Worker>, datasetSha: string, rosterSha: string,
                           subs: seq<Submission>, seed: Seed, policy: Policy)
    requires Merge(plan, samples, roster, datasetSha, rosterSha, subs, seed, policy).Success?
    ensures var st := Merge(plan, samples, roster, datasetSha, rosterSha, subs, seed, policy).value;
      var sorted, received := InOrder(samples), ReceivedFrom(subs);
      && st.completed == CompletedOf(sorted, |sorted|, plan, received, policy)
      && st.disputed == DisputedOf(sorted, |sorted|, plan, received, policy)
      && |st.completed| + |st.disputed| + |IncompleteOf(sorted, |sorted|, plan, received, policy)| == |samples|
      && TasksMatch(st.tasks, st.disputed, plan.id, roster)
  {
    hide MergeUpTo, PlanBinds, RosterValid, Accepted, ReceivedFrom, InOrder, Merge, CompletedOf, DisputedOf,
      IncompleteOf, Bound, TasksMatch, Unsubmitted, Ascending;
    var sorted, received := InOrder(samples), ReceivedFrom(subs);
    MergeOpened(plan, samples, roster, datasetSha, rosterSha, subs, seed, policy);
    MergeUpToSplits(sorted, |sorted|, plan, received, roster, seed, policy);
    SplitCounts(sorted, |sorted|, plan, received, policy);
    BindingBounds(plan, samples, roster, datasetSha, rosterSha);
    OrderedMembers(plan, samples);
  }

  /** Which of the three places a sample is in. */
  lemma EachSampleOnce(plan: Plan, samples: seq<Sample>, roster: seq<Worker>, datasetSha: string, rosterSha: string,
                       subs: seq<Submission>, seed: Seed, policy: Policy, s: Sample)
    requires Merge(plan, samples, roster, datasetSha, rosterSha, subs, seed, policy).Success? && s in samples
    ensures var st := Merge(plan, samples, roster, datasetSha, rosterSha, subs, seed, policy).value;
      var v := VerdictOn(s, plan, ReceivedFrom(subs), policy);
      && (HasBundle(st.completed, s) <==> v.Agreed?)
      && (HasBundle(st.disputed, s) <==> v.Disputed?)
      && (HasAssignment(st.unsubmitted, s) <==> v.Incomplete?)
  {
    hide MergeUpTo, PlanBinds, RosterValid, Accepted, ReceivedFrom, InOrder, Merge, CompletedOf, DisputedOf,
      IncompleteOf, Bound, TasksMatch, Unsubmitted, Ascending, VerdictOn;
    var sorted, received := InOrder(samples), ReceivedFrom(subs);
    MergeOpened(plan, samples, roster, datasetSha, rosterSha, subs, seed, policy);
    MergeSplitsSamples(plan, samples, roster, datasetSha, rosterSha, subs, seed, policy);
    BindingBounds(plan, samples, roster, datasetSha, rosterSha);
    OrderedMembers(plan, samples);
    CompletedHolds(sorted, |sorted|, plan, received, policy);
    DisputedHolds(sorted, |sorted|, plan, received, policy);
    IncompleteMeansUnsubmitted(plan, samples, s, received, policy);
    VerdictsNameTheirSample(sorted, plan, received, policy);
    var i :| 0 <= i < |sorted| && sorted[i] == s;
    var v := VerdictOn(s, plan, received, policy);
    assert v.Agreed? ==> VerdictOn(sorted[i], plan, received, policy) == Agreed(v.bundle);
    assert v.Disputed? ==> VerdictOn(sorted[i], plan, received, policy) == Disputed(v.bundle);
  }

  lemma VerdictsNameTheirSample(sorted: seq<Sample>, plan: Plan, received: Received, policy: Policy)
    ensures forall i, b :: 0 <= i < |sorted| && VerdictOn(sorted[i], plan, received, policy) == Agreed(b) ==>
      b.sample == sorted[i]
    ensures forall i, b :: 0 <= i < |sorted| && VerdictOn(sorted[i], plan, received, policy) == Disputed(b) ==>
      b.sample == sorted[i]
  {
    hide VerdictOn, BundleFor, PairFor, Ready;
    forall i | 0 <= i < |sorted|
      ensures var v := VerdictOn(sorted[i], plan, received, policy);
        v.Agreed? || v.Disputed? ==> v.bundle.sample == sorted[i]
    {
      BundleSample(sorted[i], plan, received, policy);
    }
  }

  // ----- order does not matter -----

  lemma TwoCopies(subs: seq<Submission>, i: nat, j: nat)
    requires i < j < |subs| && subs[i] == subs[j]
    ensures multiset(subs)[subs[i]] >= 2
  {
    assert subs == subs[..i] + [subs[i]] + subs[i + 1..j] + [subs[j]] + subs[j + 1..];
  }

  lemma CountInAccepted(subs: seq<Submission>, x: Submission)
    requires forall i, j :: 0 <= i < j < |subs| ==> !Clash(subs[i], subs[j])
    ensures multiset(subs)[x] <= 1
    decreases |subs|
  {
    if subs != [] {
      var init, last := subs[..|subs| - 1], subs[|subs| - 1];
      CountInAccepted(init, x);
      assert subs == init + [last];
      if x == last {
        forall i | 0 <= i < |init| ensures init[i] != x {
          assert !Clash(subs[i], subs[|subs| - 1]);
        }
        assert x !in multiset(init);
      }
    }
  }

  lemma MembersOf(part: seq<Submission>, whole: seq<Submission>, x: Submission)
    requires multiset(part) <= multiset(whole) && x in part
    ensures x in whole
  {
    assert x in multiset(part);
    assert x in multiset(whole);
  }

  lemma NoClash(subs: seq<Submission>, x: Submission, y: Submission)
    requires forall i, j :: 0 <= i < j < |subs| ==> !Clash(subs[i], subs[j])
    requires x in subs && y in subs && x != y
    ensures !Clash(x, y)
  {
    var i :| 0 <= i < |subs| && subs[i] == x;
    var j :| 0 <= j < |subs| && subs[j] == y;
    assert i < j ==> !Clash(subs[i], subs[j]);
    assert j < i ==> !Clash(subs[j], subs[i]);
  }

  /** Part of an acceptable set of submissions, in any order, is acceptable. */
  lemma PartIsAccepted(part: seq<Submission>, whole: seq<Submission>, plan: Plan, samples: seq<Sample>,
      norm: Normalizer)
    requires multiset(part) <= multiset(whole) && Accepted(whole, plan, samples, norm)
    ensures Accepted(part, plan, samples, norm)
  {
    hide Fits;
    forall i | 0 <= i < |part| ensures Fits(part[i], plan, samples, norm) {
      MembersOf(part, whole, part[i]);
    }
    forall i, j | 0 <= i < j < |part| ensures !Clash(part[i], part[j]) {
      MembersOf(part, whole, part[i]);
      MembersOf(part, whole, part[j]);
      if part[i] == part[j] {
        TwoCopies(part, i, j);
        CountInAccepted(whole, part[i]);
      } else {
        NoClash(whole, part[i], part[j]);
      }
    }
  }

  /** What part receives, the whole receives too. */
  lemma PartIsReceived(part: seq<Submission>, whole: seq<Submission>, plan: Plan, samples: seq<Sample>,
      norm: Normalizer)
    requires multiset(part) <= multiset(whole) && Accepted(whole, plan, samples, norm)
    ensures var a, b := ReceivedFrom(part), ReceivedFrom(whole);
      forall id :: id in a ==> id in b && a[id] == b[id]
  {
    hide Fits, ReceivedFrom;
    PartIsAccepted(part, whole, plan, samples, norm);
    ReceivedHolds(part);
    ReceivedHolds(whole);
    var a, b := ReceivedFrom(part), ReceivedFrom(whole);
    forall id | id in a ensures id in b && a[id] == b[id] {
      assert Kept(part, id);
      MembersOf(part, whole, a[id]);
    }
  }

  lemma SameReceived(one: seq<Submission>, two: seq<Submission>, plan: Plan, samples: seq<Sample>, norm: Normalizer)
    requires multiset(one) == multiset(two)
    ensures Accepted(one, plan, samples, norm) <==> Accepted(two, plan, samples, norm)
    ensures Accepted(one, plan, samples, norm) ==> ReceivedFrom(one) == ReceivedFrom(two)
  {
    hide Fits, ReceivedFrom, Accepted;
    if Accepted(one, plan, samples, norm) || Accepted(two, plan, samples, norm) {
      if Accepted(one, plan, samples, norm) {
        PartIsAccepted(two, one, plan, samples, norm);
      } else {
        PartIsAccepted(one, two, plan, samples, norm);
      }
      PartIsReceived(one, two, plan, samples, norm);
      PartIsReceived(two, one, plan, samples, norm);
    }
  }

  /** The merged state, or the refusal, is the same for every order of the same submissions. */
  lemma MergeIgnoresOrder(plan: Plan, samples: seq<Sample>, roster: seq<Worker>, datasetSha: string, rosterSha: string,
                          one: seq<Submission>, two: seq<Submission>, seed: Seed, policy: Policy)
    requires multiset(one) == multiset(two)
    ensures Merge(plan, samples, roster, datasetSha, rosterSha, one, seed, policy)
      == Merge(plan, samples, roster, datasetSha, rosterSha, two, seed, policy)
  {
    hide RosterValid, PlanBinds, Accepted, ReceivedFrom, MergeUpTo, InOrder, StateFrom;
    SameReceived(one, two, plan, samples, policy.normalize);
  }

  // ----- more submissions -----

  lemma VerdictStays(s: Sample, plan: Plan, less: Received, more: Received, policy: Policy)
    requires forall id :: id in less ==> id in more && less[id] == more[id]
    requires !VerdictOn(s, plan, less, policy).Incomplete?
    ensures VerdictOn(s, plan, more, policy) == VerdictOn(s, plan, less, policy)
  {
    hide PairFor, RequiresAdjudication;
  }

  lemma DisputesStayStaffed(plan: Plan, samples: seq<Sample>, less: Received, more: Received, roster: seq<Worker>,
      policy: Policy)
    requires forall id :: id in less ==> id in more && less[id] == more[id]
    requires DisputesStaffed(plan, samples, more, roster, policy)
    ensures DisputesStaffed(plan, samples, less, roster, policy)
  {
    hide VerdictOn, LeavesAdjudicator, AssignmentsOf;
    forall k | 0 <= k < |samples| && VerdictOn(samples[k], plan, less, policy).Disputed?
      ensures LeavesAdjudicator(AssignmentsOf(plan.assignments, samples[k].id), samples[k], roster)
    {
      VerdictStays(samples[k], plan, less, more, policy);
    }
  }

  lemma {:induction false} BundlesStay(sorted: seq<Sample>, k: nat, plan: Plan, less: Received, more: Received,
      policy: Policy)
    requires k <= |sorted| && forall id :: id in less ==> id in more && less[id] == more[id]
    ensures forall b :: b in CompletedOf(sorted, k, plan, less, policy) ==>
      b in CompletedOf(sorted, k, plan, more, policy)
    ensures forall b :: b in DisputedOf(sorted, k, plan, less, policy) ==>
      b in DisputedOf(sorted, k, plan, more, policy)
  {
    hide VerdictOn;
    if k > 0 {
      BundlesStay(sorted, k - 1, plan, less, more, policy);
      if !VerdictOn(sorted[k - 1], plan, less, policy).Incomplete? {
        VerdictStays(sorted[k - 1], plan, less, more, policy);
      }
    }
  }

  /** If a larger set of submissions merges, so does each part of it, and every bundle the part
      completes or disputes is completed or disputed unchanged by the larger set. */
  lemma MergeIsMonotone(plan: Plan, samples: seq<Sample>, roster: seq<Worker>, datasetSha: string, rosterSha: string,
                        part: seq<Submission>, whole: seq<Submission>, seed: Seed, policy: Policy)
    requires multiset(part) <= multiset(whole)
    requires Merge(plan, samples, roster, datasetSha, rosterSha, whole, seed, policy).Success?
    ensures var p := Merge(plan, samples, roster, datasetSha, rosterSha, part, seed, policy);
      var w := Merge(plan, samples, roster, datasetSha, rosterSha, whole, seed, policy).value;
      && p.Success?
      && (forall b :: b in p.value.completed ==> b in w.completed)
      && (forall b :: b in p.value.disputed ==> b in w.disputed)
  {
    hide RosterValid, PlanBinds, Accepted, ReceivedFrom, MergeUpTo, InOrder, Merge, DisputesStaffed, CompletedOf,
      DisputedOf, IncompleteOf, TasksMatch, StateFrom;
    MergeOpened(plan, samples, roster, datasetSha, rosterSha, whole, seed, policy);
    MergeSucceedsIff(plan, samples, roster, datasetSha, rosterSha, whole, seed, policy);
    PartIsAccepted(part, whole, plan, samples, policy.normalize);
    PartIsReceived(part, whole, plan, samples, policy.normalize);
    DisputesStayStaffed(plan, samples, ReceivedFrom(part), ReceivedFrom(whole), roster, policy);
    MergeSucceedsIff(plan, samples, roster, datasetSha, rosterSha, part, seed, policy);
    MergeSplitsSamples(plan, samples, roster, datasetSha, rosterSha, part, seed, policy);
    MergeSplitsSamples(plan, samples, roster, datasetSha, rosterSha, whole, seed, policy);
    BundlesStay(InOrder(samples), |InOrder(samples)|, plan, ReceivedFrom(part), ReceivedFrom(whole), policy);
  }
}
