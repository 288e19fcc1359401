/** Agreement between annotators: the kappa of the report on valid bundles. */
module Agreement {
  import opened Wrappers
  import opened Annotation
  import opened Kappa
  import opened KappaBounds

  /** A valid bundle of a sample that can be scored. */
  predicate Scored(b: Bundle, policy: Policy) {
    ValidBundle(b, policy) && b.sample.maxScore > 0.0
  }

  predicate AllScored(bundles: seq<Bundle>, policy: Policy) {
    forall i :: 0 <= i < |bundles| ==> Scored(bundles[i], policy)
  }

  /** The bins of the two scores of a bundle. */
  function BinPair(b: Bundle, policy: Policy, bins: nat): (p: Pair)
    requires Scored(b, policy)
    ensures p.first <= bins && p.second <= bins
  {
    BinsInRange(b.labels[0].score, b.sample.maxScore, bins);
    BinsInRange(b.labels[1].score, b.sample.maxScore, bins);
    Pair(BinIndex(b.labels[0].score, b.sample.maxScore, bins), BinIndex(b.labels[1].score, b.sample.maxScore, bins))
  }

  function BinPairs(bundles: seq<Bundle>, policy: Policy, bins: nat): seq<Pair>
    requires AllScored(bundles, policy)
  {
    seq(|bundles|, i requires 0 <= i < |bundles| => BinPair(bundles[i], policy, bins))
  }

  method AgreementKappa(bundles: seq<Bundle>, policy: Policy, bins: nat) returns (kappa: real)
    requires AllScored(bundles, policy) && bins > 0
    ensures kappa == KappaOf(BinPairs(bundles, policy, bins))
  {
    hide Scored, BinPair;
    var pairs: seq<Pair> := [];
    for i := 0 to |bundles|
      invariant |pairs| == i && forall j :: 0 <= j < i ==> pairs[j] == BinPair(bundles[j], policy, bins)
    {
      pairs := pairs + [BinPair(bundles[i], policy, bins)];
    }
    assert pairs == BinPairs(bundles, policy, bins);
    kappa := QuadraticWeightedKappa(pairs, bins);
  }

  /** On valid bundles kappa lies in [-1, 1], and is 1 exactly when all label pairs fall into one bin each. */
  lemma AgreementInRange(bundles: seq<Bundle>, policy: Policy, bins: nat)
    requires bundles != [] && AllScored(bundles, policy)
    ensures -1.0 <= KappaOf(BinPairs(bundles, policy, bins)) <= 1.0
    ensures KappaOf(BinPairs(bundles, policy, bins)) == 1.0 <==> forall i :: 0 <= i < |bundles| ==>
      BinPair(bundles[i], policy, bins).first == BinPair(bundles[i], policy, bins).second
  {
    hide KappaOf, Scored, BinPair;
    var pairs := BinPairs(bundles, policy, bins);
    KappaRange(pairs);
    assert forall i :: 0 <= i < |bundles| ==> pairs[i] == BinPair(bundles[i], policy, bins);
  }

  lemma SameScore(b: Bundle, policy: Policy)
    requires ValidBundle(b, policy) && !RequiresAdjudication(b.labels[0], b.labels[1], policy)
    ensures b.labels[0].score == b.labels[1].score
  {
    hide ValidLabel, RequiresAdjudication;
    AgreedGoldIsBothScores(b.(adjudication := None), policy);
  }

  /** Bundles that need no adjudicator agree perfectly. */
  lemma UndisputedIsPerfect(bundles: seq<Bundle>, policy: Policy, bins: nat)
    requires bundles != [] && AllScored(bundles, policy)
    requires forall i :: 0 <= i < |bundles| ==>
      !RequiresAdjudication(bundles[i].labels[0], bundles[i].labels[1], policy)
    ensures KappaOf(BinPairs(bundles, policy, bins)) == 1.0
  {
    hide KappaOf, RequiresAdjudication, BinIndex;
    AgreementInRange(bundles, policy, bins);
    forall i | 0 <= i < |bundles|
      ensures BinPair(bundles[i], policy, bins).first == BinPair(bundles[i], policy, bins).second
    {
      SameScore(bundles[i], policy);
    }
  }
}
