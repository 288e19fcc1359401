/** The selection is fair: it takes a prefix of every group, group sizes permitting
    within one sample of each other, and never the same position twice. */
module RoundRobinFacts {
  import opened RoundRobin

  // ----- a cut of the order is a point in some round -----

  /** Every prefix length of the order is reached before some queue of some round. */
  lemma {:induction false} CutPoint(qs: seq<Bucket>, r: nat, i: nat, n: nat) returns (s: nat, j: nat)
    requires i <= |qs| && n <= |CellsUpTo(qs, r, i)|
    ensures j <= |qs| && |CellsUpTo(qs, s, j)| == n
    decreases r, i
  {
    if |CellsUpTo(qs, r, i)| == n {
      s, j := r, i;
    } else if i > 0 {
      s, j := CutPoint(qs, r, i - 1, n);
    } else {
      s, j := CutPoint(qs, r - 1, |qs|, n);
    }
  }

  lemma CutOfAll(qs: seq<Bucket>, limit: nat) returns (r: nat, i: nat)
    requires limit <= Total(qs)
    ensures i <= |qs| && limit <= |AllCells(qs)| && AllCells(qs)[..limit] == CellsUpTo(qs, r, i)
  {
    hide CellsUpTo, Longest, Total;
    AllCellsCount(qs);
    r, i := CutPoint(qs, Longest(qs), 0, limit);
    CellsArePrefix(qs, r, i);
  }

  // ----- what one group gives -----

  /** The members of a list of positions that have this key. */
  function OfKey(positions: seq<nat>, keys: seq<string>, key: string): seq<nat>
    requires forall k :: 0 <= k < |positions| ==> positions[k] < |keys|
  {
    if positions == [] then []
    else
      var last := positions[|positions| - 1];
      OfKey(positions[..|positions| - 1], keys, key) + (if keys[last] == key then [last] else [])
  }

  lemma {:induction false} PositionsHaveKey(keys: seq<string>, key: string, k: nat)
    requires k <= |keys|
    ensures forall a :: 0 <= a < |PositionsOf(keys, key, k)| ==>
      PositionsOf(keys, key, k)[a] < k && keys[PositionsOf(keys, key, k)[a]] == key
    ensures forall a, b :: 0 <= a < b < |PositionsOf(keys, key, k)| ==>
      PositionsOf(keys, key, k)[a] < PositionsOf(keys, key, k)[b]
  {
    if k > 0 { PositionsHaveKey(keys, key, k - 1); }
  }

  lemma PickInRange(qs: seq<Bucket>, keys: seq<string>, c: Cell)
    requires GoodBuckets(qs, keys, |keys|) && CellIn(c, qs)
    ensures Pick(c, qs) < |keys| && keys[Pick(c, qs)] == qs[c.queue].key
  {
    PositionsHaveKey(keys, qs[c.queue].key, |keys|);
  }

  lemma PicksInRange(qs: seq<Bucket>, keys: seq<string>, r: nat, i: nat)
    requires GoodBuckets(qs, keys, |keys|) && i <= |qs|
    ensures AllIn(CellsUpTo(qs, r, i), qs)
    ensures var ps := Picks(CellsUpTo(qs, r, i), qs); forall k :: 0 <= k < |ps| ==> ps[k] < |keys|
  {
    hide CellsUpTo, Pick, GoodBuckets;
    CellsAreIn(qs, r, i);
    forall k | 0 <= k < |CellsUpTo(qs, r, i)| ensures Pick(CellsUpTo(qs, r, i)[k], qs) < |keys| {
      PickInRange(qs, keys, CellsUpTo(qs, r, i)[k]);
    }
  }

  lemma OfKeyAppend(ps: seq<nat>, p: nat, keys: seq<string>, key: string)
    requires (forall k :: 0 <= k < |ps| ==> ps[k] < |keys|) && p < |keys|
    ensures forall k :: 0 <= k <= |ps| ==> (ps + [p])[k] < |keys|
    ensures OfKey(ps + [p], keys, key) == OfKey(ps, keys, key) + (if keys[p] == key then [p] else [])
  {
    assert (ps + [p])[..|ps|] == ps;
  }

  /** Before queue i of round r, queue g has given exactly its first Level samples, in order. */
  ghost predicate GivesPrefix(qs: seq<Bucket>, keys: seq<string>, r: nat, i: nat, g: nat)
    requires i <= |qs| && g < |qs|
  {
    && AllIn(CellsUpTo(qs, r, i), qs)
    && PrefixGiven(Picks(CellsUpTo(qs, r, i), qs), keys, qs[g], Level(qs, g, r, i))
  }

  ghost predicate PrefixGiven(ps: seq<nat>, keys: seq<string>, b: Bucket, level: nat) {
    && (forall k :: 0 <= k < |ps| ==> ps[k] < |keys|)
    && level <= |b.members| && OfKey(ps, keys, b.key) == b.members[..level]
  }

  lemma NothingGiven(qs: seq<Bucket>, keys: seq<string>, g: nat)
    requires g < |qs|
    ensures GivesPrefix(qs, keys, 0, 0, g)
  {
  }

  lemma WrapGives(qs: seq<Bucket>, keys: seq<string>, r: nat, g: nat)
    requires r > 0 && g < |qs| && GivesPrefix(qs, keys, r - 1, |qs|, g)
    ensures GivesPrefix(qs, keys, r, 0, g)
  {
    hide OfKey, PrefixGiven;
  }

  lemma SkipGives(qs: seq<Bucket>, keys: seq<string>, r: nat, i: nat, g: nat)
    requires i < |qs| && g < |qs| && r >= |qs[i].members| && GivesPrefix(qs, keys, r, i, g)
    ensures GivesPrefix(qs, keys, r, i + 1, g)
  {
    hide OfKey, PrefixGiven;
    assert CellsUpTo(qs, r, i + 1) == CellsUpTo(qs, r, i);
  }

  lemma TakeGives(qs: seq<Bucket>, keys: seq<string>, r: nat, i: nat, g: nat)
    requires GoodBuckets(qs, keys, |keys|) && i < |qs| && g < |qs| && r < |qs[i].members|
    requires GivesPrefix(qs, keys, r, i, g)
    ensures GivesPrefix(qs, keys, r, i + 1, g)
  {
    hide OfKey, PrefixGiven, GoodBuckets, Pick, Picks;
    var c, ps := Cell(r, i), Picks(CellsUpTo(qs, r, i), qs);
    assert CellsUpTo(qs, r, i + 1) == CellsUpTo(qs, r, i) + [c];
    PicksAppend(CellsUpTo(qs, r, i), c, qs);
    PickInRange(qs, keys, c);
    DifferentKeys(qs, keys, i, g);
    GiveOne(ps, Pick(c, qs), keys, qs[g], Level(qs, g, r, i), g == i);
    if g == i { PickIsNext(qs, c); }
  }

  lemma PickIsNext(qs: seq<Bucket>, c: Cell)
    requires CellIn(c, qs)
    ensures Pick(c, qs) == qs[c.queue].members[c.round]
  {
  }

  lemma DifferentKeys(qs: seq<Bucket>, keys: seq<string>, i: nat, g: nat)
    requires GoodBuckets(qs, keys, |keys|) && i < |qs| && g < |qs|
    ensures qs[i].key == qs[g].key <==> i == g
  {
  }

  /** One more position of a group, or of another one. */
  lemma GiveOne(ps: seq<nat>, p: nat, keys: seq<string>, b: Bucket, level: nat, own: bool)
    requires PrefixGiven(ps, keys, b, level) && p < |keys| && (keys[p] == b.key <==> own)
    ensures !own ==> PrefixGiven(ps + [p], keys, b, level)
    ensures own && level < |b.members| && b.members[level] == p ==> PrefixGiven(ps + [p], keys, b, level + 1)
  {
    hide OfKey;
    OfKeyAppend(ps, p, keys, b.key);
  }

  lemma {:induction false} QueueGivesPrefix(qs: seq<Bucket>, keys: seq<string>, r: nat, i: nat, g: nat)
    requires GoodBuckets(qs, keys, |keys|) && i <= |qs| && g < |qs|
    ensures GivesPrefix(qs, keys, r, i, g)
    decreases r, i
  {
    hide GivesPrefix, GoodBuckets;
    if i > 0 {
      QueueGivesPrefix(qs, keys, r, i - 1, g);
      if r < |qs[i - 1].members| {
        TakeGives(qs, keys, r, i - 1, g);
      } else {
        SkipGives(qs, keys, r, i - 1, g);
      }
    } else if r > 0 {
      QueueGivesPrefix(qs, keys, r - 1, |qs|, g);
      WrapGives(qs, keys, r, g);
    } else {
      NothingGiven(qs, keys, g);
    }
  }

  // ----- the selection -----

  /** How many samples of a group are selected. */
  function Share(qs: seq<Bucket>, keys: seq<string>, limit: nat, g: nat): nat
    requires limit <= Total(qs) && g < |qs|
    requires forall k :: 0 <= k < |Selection(qs, limit)| ==> Selection(qs, limit)[k] < |keys|
  {
    |OfKey(Selection(qs, limit), keys, qs[g].key)|
  }

  lemma SelectionInRange(qs: seq<Bucket>, keys: seq<string>, limit: nat)
    requires GoodBuckets(qs, keys, |keys|) && limit <= Total(qs)
    ensures forall k :: 0 <= k < |Selection(qs, limit)| ==> Selection(qs, limit)[k] < |keys|
  {
    hide CellsUpTo, GoodBuckets, Total;
    var r, i := CutOfAll(qs, limit);
    PicksInRange(qs, keys, r, i);
  }

  /** The selection has the limit's length, takes a prefix of every group in input order, and no group is more
      than one sample ahead of another that still has some left. */
  lemma SelectionIsFair(keys: seq<string>, order: string -> int, limit: nat, g: nat, h: nat)
    requires limit <= |keys| && g < |Queues(keys, order)| && h < |Queues(keys, order)|
    ensures var qs := Queues(keys, order);
      && limit <= Total(qs) && |Selection(qs, limit)| == limit
      && (forall k :: 0 <= k < limit ==> Selection(qs, limit)[k] < |keys|)
      && Share(qs, keys, limit, g) <= |qs[g].members|
      && OfKey(Selection(qs, limit), keys, qs[g].key) == qs[g].members[..Share(qs, keys, limit, g)]
      && (Share(qs, keys, limit, g) == |qs[g].members| || Share(qs, keys, limit, h) <= Share(qs, keys, limit, g) + 1)
  {
    hide Queues, CellsUpTo, GoodBuckets, Covered, Total, OfKey;
    var qs := Queues(keys, order);
    QueuesPartition(keys, order);
    SelectionInRange(qs, keys, limit);
    var r, i := CutOfAll(qs, limit);
    QueueGivesPrefix(qs, keys, r, i, g);
    QueueGivesPrefix(qs, keys, r, i, h);
  }

  // ----- no position twice -----

  lemma {:induction false} OfKeyHolds(ps: seq<nat>, keys: seq<string>, k: nat)
    requires (forall a :: 0 <= a < |ps| ==> ps[a] < |keys|) && k < |ps|
    ensures ps[k] in OfKey(ps, keys, keys[ps[k]])
  {
    if k < |ps| - 1 { OfKeyHolds(ps[..|ps| - 1], keys, k); }
  }

  ghost predicate NoRepeats(ps: seq<nat>) {
    forall a, b :: 0 <= a < b < |ps| ==> ps[a] != ps[b]
  }

  /** A list without repeats in any key has none at all. */
  lemma {:induction false} NoRepeatsByKey(ps: seq<nat>, keys: seq<string>)
    requires forall a :: 0 <= a < |ps| ==> ps[a] < |keys|
    requires forall key :: NoRepeats(OfKey(ps, keys, key))
    ensures NoRepeats(ps)
  {
    if ps != [] {
      var init, last := ps[..|ps| - 1], ps[|ps| - 1];
      assert ps == init + [last];
      forall key ensures NoRepeats(OfKey(init, keys, key)) {
        OfKeyAppend(init, last, keys, key);
        PrefixNoRepeats(OfKey(init, keys, key), OfKey(ps, keys, key));
      }
      NoRepeatsByKey(init, keys);
      forall a | 0 <= a < |init| ensures init[a] != last {
        if keys[init[a]] == keys[last] {
          OfKeyHolds(init, keys, a);
          OfKeyAppend(init, last, keys, keys[last]);
          LastIsNew(OfKey(init, keys, keys[last]), last);
        }
      }
    }
  }

  lemma PrefixNoRepeats(a: seq<nat>, b: seq<nat>)
    requires a <= b && NoRepeats(b)
    ensures NoRepeats(a)
  {
  }

  lemma LastIsNew(ps: seq<nat>, p: nat)
    requires NoRepeats(ps + [p])
    ensures p !in ps
  {
    forall a | 0 <= a < |ps| ensures ps[a] != p {
      assert (ps + [p])[a] != (ps + [p])[|ps|];
    }
  }

  lemma KeyGivesNoRepeats(qs: seq<Bucket>, keys: seq<string>, r: nat, i: nat, key: string)
    requires GoodBuckets(qs, keys, |keys|) && i <= |qs|
    ensures AllIn(CellsUpTo(qs, r, i), qs)
    ensures var ps := Picks(CellsUpTo(qs, r, i), qs);
      (forall k :: 0 <= k < |ps| ==> ps[k] < |keys|) && NoRepeats(OfKey(ps, keys, key))
  {
    hide CellsUpTo, OfKey, Pick, PositionsOf;
    PicksInRange(qs, keys, r, i);
    var ps := Picks(CellsUpTo(qs, r, i), qs);
    if g :| 0 <= g < |qs| && qs[g].key == key {
      QueueGivesPrefix(qs, keys, r, i, g);
      PositionsHaveKey(keys, key, |keys|);
    } else {
      forall k | 0 <= k < |ps| ensures keys[ps[k]] != key {
        PickInRange(qs, keys, CellsUpTo(qs, r, i)[k]);
      }
      NoneOfKey(ps, keys, key);
    }
  }

  lemma {:induction false} NoneOfKey(ps: seq<nat>, keys: seq<string>, key: string)
    requires forall k :: 0 <= k < |ps| ==> ps[k] < |keys| && keys[ps[k]] != key
    ensures OfKey(ps, keys, key) == []
  {
    if ps != [] { NoneOfKey(ps[..|ps| - 1], keys, key); }
  }

  /** No sample is selected twice. */
  lemma SelectionHasNoRepeats(keys: seq<string>, order: string -> int, limit: nat)
    requires limit <= |keys|
    ensures limit <= Total(Queues(keys, order)) && NoRepeats(Selection(Queues(keys, order), limit))
  {
    hide Queues, CellsUpTo, GoodBuckets, Covered, Total, OfKey, NoRepeats;
    var qs := Queues(keys, order);
    QueuesPartition(keys, order);
    var r, i := CutOfAll(qs, limit);
    PicksInRange(qs, keys, r, i);
    var ps := Picks(CellsUpTo(qs, r, i), qs);
    forall key ensures NoRepeats(OfKey(ps, keys, key)) {
      KeyGivesNoRepeats(qs, keys, r, i, key);
    }
    NoRepeatsByKey(ps, keys);
  }
}
