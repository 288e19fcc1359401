/** When the group-safe split succeeds, that it keeps every sample and lets no
    group cross, and when all three splits get something. */
module DatasetSplitFacts {
  import opened Wrappers
  import opened Grouping
  import opened Ordering
  import opened RealArithmetic
  import opened DatasetSplit

  ghost predicate RatiosOk(r: Ratios) {
    ShareOk(r.train) && ShareOk(r.validation) && ShareOk(r.test) && r.train + r.validation + r.test == 1.0
  }

  // ----- rounding -----

  lemma SharesFit(n: nat, a: real, b: real)
    requires 0.0 <= a && 0.0 <= b && a + b <= 1.0
    ensures 0.0 <= Share(n, a) && 0.0 <= Share(n, b) && Share(n, a) + Share(n, b) <= n as real
  {
    var m := n as real;
    SignOfProduct(m, a);
    SignOfProduct(m, b);
    SignOfProduct(m, 1.0 - (a + b));
    Expand(m, a, b);
  }

  lemma Expand(m: real, a: real, b: real)
    ensures m * (1.0 - (a + b)) == m - (m * a + m * b)
  {
  }

  /** Two shares that add up to at most the whole round to at most one more than it. */
  lemma RoundingLemma(x: real, y: real, n: nat)
    requires 0.0 <= x && 0.0 <= y && x + y <= n as real
    ensures 0 <= Round(x) <= n && 0 <= Round(y) <= n && Round(x) + Round(y) <= n + 1
  {
  }

  /** Counts before the repair. */
  lemma WantedFacts(n: nat, r: Ratios)
    requires RatiosOk(r) && n > 0
    ensures var v, t := Wanted(n, r.validation), Wanted(n, r.test);
      && 0 <= v <= n && 0 <= t <= n && v + t <= n + 1 && (n >= 3 ==> v >= 1 && t >= 1)
  {
    hide Round, Share;
    SharesFit(n, r.validation, r.test);
    RoundingLemma(Share(n, r.validation), Share(n, r.test), n);
  }

  /** From two groups on, the repaired counts are not negative, add up, and leave a group for training. */
  lemma CountsAreSound(n: nat, r: Ratios)
    requires RatiosOk(r) && n != 1
    ensures var c := CountsFor(n, r);
      && c.train + c.validation + c.test == n
      && c.train >= 0 && c.validation >= 0 && c.test >= 0
      && (n >= 2 ==> c.train >= 1)
  {
    hide Wanted;
    if n >= 2 {
      WantedFacts(n, r);
    } else {
      NothingWanted(r);
    }
  }

  lemma NothingWanted(r: Ratios)
    ensures Wanted(0, r.validation) == 0 && Wanted(0, r.test) == 0
  {
    assert Share(0, r.validation) == 0.0 && Share(0, r.test) == 0.0;
  }

  lemma RoundOfShare(a: real)
    requires 0.0 <= a <= 1.0
    ensures Round(a) == if a >= 0.5 then 1 else 0
  {
  }

  /** With one group, only two ratios of one half go wrong: validation gets -1. */
  lemma CountsOfOneGroup(r: Ratios)
    requires RatiosOk(r)
    ensures CountsFor(1, r) == if r.validation == 0.5 && r.test == 0.5 then Counts(1, -1, 1) else Counts(1, 0, 0)
  {
    RoundOfShare(r.validation);
    RoundOfShare(r.test);
    assert Share(1, r.validation) == r.validation && Share(1, r.test) == r.test;
  }

  /** With three groups, two ratios of one half take validation's group away again; otherwise, from three
      groups on, every split gets a group. */
  lemma AllSplitsGetGroupsIff(n: nat, r: Ratios)
    requires RatiosOk(r) && n >= 3
    ensures var c := CountsFor(n, r);
      c.train >= 1 && c.validation >= 1 && c.test >= 1 <==> !(n == 3 && r.validation == 0.5 && r.test == 0.5)
  {
    WantedFacts(n, r);
    HalvesOfThree(r);
    hide Wanted;
  }

  lemma HalvesOfThree(r: Ratios)
    requires RatiosOk(r)
    ensures Wanted(3, r.validation) == 2 && Wanted(3, r.test) == 2 <==> r.validation == 0.5 && r.test == 0.5
  {
    assert Share(3, r.validation) == r.validation + r.validation + r.validation;
    assert Share(3, r.test) == r.test + r.test + r.test;
  }

  // ----- groups -----

  ghost predicate GoodGroup(g: Group<Sample>, h: Hashing) {
    g.members != [] && forall s :: s in g.members ==> KeyOf(s, h) == g.key
  }

  ghost predicate NewKey(groups: seq<Group<Sample>>, key: string) {
    forall i :: 0 <= i < |groups| ==> groups[i].key != key
  }

  /** Each group holds samples of its key, and keys differ. */
  ghost predicate GoodGroups(groups: seq<Group<Sample>>, h: Hashing) {
    && (forall i :: 0 <= i < |groups| ==> GoodGroup(groups[i], h))
    && (forall i, j :: 0 <= i < j < |groups| ==> groups[i].key != groups[j].key)
  }

  lemma AddToGood(groups: seq<Group<Sample>>, s: Sample, h: Hashing)
    requires GoodGroups(groups, h)
    ensures GoodGroups(AddTo(groups, KeyOf(s, h), s), h)
  {
    hide KeyOf;
  }

  lemma {:induction false} RecordsUpdate(groups: seq<Group<Sample>>, i: nat, g: Group<Sample>, s: Sample)
    requires i < |groups| && g.members == groups[i].members + [s]
    ensures multiset(Records(groups[i := g])) == multiset(Records(groups)) + multiset{s}
  {
    var n := |groups| - 1;
    if i < n {
      RecordsUpdate(groups[..n], i, g, s);
      assert groups[i := g][..n] == groups[..n][i := g];
    } else {
      assert groups[i := g][..n] == groups[..n];
    }
  }

  lemma RecordsAppend(groups: seq<Group<Sample>>, g: Group<Sample>)
    ensures Records(groups + [g]) == Records(groups) + g.members
  {
    assert (groups + [g])[..|groups|] == groups;
  }

  lemma AddToKeepsAll(groups: seq<Group<Sample>>, key: string, s: Sample)
    ensures multiset(Records(AddTo(groups, key, s))) == multiset(Records(groups)) + multiset{s}
  {
    hide Records, FindGroup;
    var i := FindGroup(groups, key);
    if i < |groups| {
      RecordsUpdate(groups, i, Group(key, groups[i].members + [s]), s);
    } else {
      RecordsAppend(groups, Group(key, [s]));
    }
  }

  lemma {:induction false} GroupUpToFacts(samples: seq<Sample>, k: nat, h: Hashing)
    requires k <= |samples|
    ensures GoodGroups(GroupUpTo(samples, k, h), h)
    ensures multiset(Records(GroupUpTo(samples, k, h))) == multiset(samples[..k])
    decreases k
  {
    hide AddTo, KeyOf, GoodGroups, Records;
    if k == 0 {
      NoGroupsYet(h);
    } else {
      GroupUpToFacts(samples, k - 1, h);
      var groups, s := GroupUpTo(samples, k - 1, h), samples[k - 1];
      AddToGood(groups, s, h);
      AddToKeepsAll(groups, KeyOf(s, h), s);
      assert samples[..k] == samples[..k - 1] + [s];
    }
  }

  lemma NoGroupsYet(h: Hashing)
    ensures GoodGroups([], h) && Records([]) == []
  {
  }

  lemma {:induction false} RecordsJoin(a: seq<Group<Sample>>, b: seq<Group<Sample>>)
    ensures Records(a + b) == Records(a) + Records(b)
  {
    hide Records;
    if b == [] {
      assert a + b == a;
      NoRecords();
    } else {
      var init, last := b[..|b| - 1], b[|b| - 1];
      RecordsJoin(a, init);
      assert a + b == (a + init) + [last] && b == init + [last];
      RecordsAppend(a + init, last);
      RecordsAppend(init, last);
    }
  }

  lemma NoRecords()
    ensures Records([]) == []
  {
  }

  lemma {:induction false} RecordsInsert(x: Group<Sample>, xs: seq<Group<Sample>>, key: Group<Sample> -> int)
    ensures multiset(Records(Insert(x, xs, key))) == multiset(Records(xs)) + multiset(x.members)
  {
    if xs == [] || key(x) >= key(xs[|xs| - 1]) {
      RecordsAppend(xs, x);
    } else {
      RecordsInsert(x, xs[..|xs| - 1], key);
      RecordsAppend(Insert(x, xs[..|xs| - 1], key), xs[|xs| - 1]);
    }
  }

  lemma {:induction false} RecordsSort(xs: seq<Group<Sample>>, key: Group<Sample> -> int)
    ensures multiset(Records(SortBy(xs, key))) == multiset(Records(xs))
  {
    hide Insert;
    if xs != [] {
      RecordsSort(xs[..|xs| - 1], key);
      RecordsInsert(xs[|xs| - 1], SortBy(xs[..|xs| - 1], key), key);
    }
  }

  lemma PrefixGood(xs: seq<Group<Sample>>, h: Hashing)
    requires GoodGroups(xs, h) && xs != []
    ensures GoodGroups(xs[..|xs| - 1], h) && GoodGroup(xs[|xs| - 1], h) && NewKey(xs[..|xs| - 1], xs[|xs| - 1].key)
  {
    hide GoodGroup;
  }

  lemma AppendGood(xs: seq<Group<Sample>>, x: Group<Sample>, h: Hashing)
    requires GoodGroups(xs, h) && GoodGroup(x, h) && NewKey(xs, x.key)
    ensures GoodGroups(xs + [x], h)
  {
    hide GoodGroup;
  }

  lemma MembersNewKey(part: seq<Group<Sample>>, whole: seq<Group<Sample>>, key: string)
    requires NewKey(whole, key) && forall i :: 0 <= i < |part| ==> part[i] in whole
    ensures NewKey(part, key)
  {
    forall i | 0 <= i < |part| ensures part[i].key != key {
      var j :| 0 <= j < |whole| && whole[j] == part[i];
    }
  }

  lemma {:induction false} InsertGood(x: Group<Sample>, xs: seq<Group<Sample>>, key: Group<Sample> -> int, h: Hashing)
    requires GoodGroups(xs, h) && GoodGroup(x, h) && NewKey(xs, x.key)
    ensures GoodGroups(Insert(x, xs, key), h)
  {
    hide GoodGroups, GoodGroup;
    if xs == [] || key(x) >= key(xs[|xs| - 1]) {
      AppendGood(xs, x, h);
      assert xs == [] ==> xs + [x] == [x];
    } else {
      var init, last := xs[..|xs| - 1], xs[|xs| - 1];
      PrefixGood(xs, h);
      InsertGood(x, init, key, h);
      InsertMembers(x, init, key);
      var r := Insert(x, init, key);
      NewKeyAppend(init, x, last.key);
      forall i | 0 <= i < |r| ensures r[i] in init + [x] {
      }
      MembersNewKey(r, init + [x], last.key);
      AppendGood(r, last, h);
    }
  }

  lemma NewKeyAppend(xs: seq<Group<Sample>>, x: Group<Sample>, key: string)
    requires NewKey(xs, key) && x.key != key
    ensures NewKey(xs + [x], key)
  {
  }

  lemma {:induction false} SortGood(xs: seq<Group<Sample>>, key: Group<Sample> -> int, h: Hashing)
    requires GoodGroups(xs, h)
    ensures GoodGroups(SortBy(xs, key), h)
  {
    hide Insert, GoodGroups, GoodGroup, NewKey;
    if xs == [] {
      NoGroupsYet(h);
    } else {
      var init, x := xs[..|xs| - 1], xs[|xs| - 1];
      PrefixGood(xs, h);
      SortGood(init, key, h);
      SortMembers(init, key);
      MembersNewKey(SortBy(init, key), init, x.key);
      InsertGood(x, SortBy(init, key), key, h);
    }
  }

  // ----- allocation -----

  lemma OrderedFacts(samples: seq<Sample>, h: Hashing)
    ensures GoodGroups(Ordered(samples, h), h)
    ensures multiset(Records(Ordered(samples, h))) == multiset(samples)
  {
    hide GroupUpTo, SortBy, GoodGroups, Records, ByHash;
    var groups := GroupUpTo(samples, |samples|, h);
    GroupUpToFacts(samples, |samples|, h);
    assert samples[..|samples|] == samples;
    SortGood(groups, ByHash(h), h);
    RecordsSort(groups, ByHash(h));
  }

  /** Counts that slice without wrapping around. */
  predicate CountsFit(c: Counts, n: nat) {
    0 <= c.train && 0 <= c.validation && 0 <= c.test && c.train + c.validation + c.test == n
  }

  lemma SlicesOf(groups: seq<Group<Sample>>, c: Counts)
    requires CountsFit(c, |groups|)
    ensures Slice(groups, 0, c.train) == groups[0..c.train]
    ensures Slice(groups, c.train, c.train + c.validation) == groups[c.train..c.train + c.validation]
    ensures Slice(groups, c.train + c.validation, |groups|) == groups[c.train + c.validation..|groups|]
  {
  }

  lemma AllocationKeepsAll(groups: seq<Group<Sample>>, c: Counts)
    requires CountsFit(c, |groups|)
    ensures var s := Allocate(groups, c); s.train + s.validation + s.test == Records(groups)
  {
    hide Slice, Records;
    SlicesOf(groups, c);
    var a, b, d := groups[0..c.train], groups[c.train..c.train + c.validation],
        groups[c.train + c.validation..|groups|];
    RecordsJoin(a, b);
    RecordsJoin(a + b, d);
    assert a + b + d == groups;
  }

  /** A key occurs among the records of a run of groups exactly when one of the groups has it. */
  lemma {:induction false} KeysOfRun(groups: seq<Group<Sample>>, lo: nat, hi: nat, key: string, h: Hashing)
    requires GoodGroups(groups, h) && lo <= hi <= |groups|
    ensures HasKey(Records(groups[lo..hi]), key, h) <==> exists i :: lo <= i < hi && groups[i].key == key
    decreases hi - lo
  {
    hide KeyOf, HasKey, Records, GoodGroup;
    if lo == hi {
      NoRecords();
      NoKey(key, h);
      assert groups[lo..hi] == [];
    } else {
      var init, last := groups[lo..hi - 1], groups[hi - 1];
      KeysOfRun(groups, lo, hi - 1, key, h);
      assert groups[lo..hi] == init + [last];
      RecordsAppend(init, last);
      KeysOfGroup(Records(init), last, key, h);
    }
  }

  lemma NoKey(key: string, h: Hashing)
    ensures !HasKey([], key, h)
  {
  }

  lemma KeysOfGroup(before: seq<Sample>, g: Group<Sample>, key: string, h: Hashing)
    requires GoodGroup(g, h)
    ensures HasKey(before + g.members, key, h) <==> HasKey(before, key, h) || g.key == key
  {
    hide KeyOf;
    var all := before + g.members;
    if HasKey(before, key, h) {
      var i :| 0 <= i < |before| && KeyOf(before[i], h) == key;
      assert all[i] == before[i];
    }
    if g.key == key {
      assert g.members[0] in g.members;
      assert all[|before|] == g.members[0];
    }
    forall i | |before| <= i < |all| ensures KeyOf(all[i], h) == g.key {
      assert all[i] == g.members[i - |before|];
    }
    if HasKey(all, key, h) && g.key != key {
      var i :| 0 <= i < |all| && KeyOf(all[i], h) == key;
      assert all[i] == before[i];
    }
  }

  /** With fitting counts no key is in two splits. */
  lemma FittingCountsDoNotLeak(groups: seq<Group<Sample>>, c: Counts, h: Hashing)
    requires GoodGroups(groups, h) && CountsFit(c, |groups|)
    ensures NoLeak(Allocate(groups, c), h)
  {
    hide HasKey, Records, Slice, GoodGroup;
    SlicesOf(groups, c);
    forall key
      ensures var s := Allocate(groups, c);
        && !(HasKey(s.train, key, h) && HasKey(s.validation, key, h))
        && !(HasKey(s.train, key, h) && HasKey(s.test, key, h))
        && !(HasKey(s.validation, key, h) && HasKey(s.test, key, h))
    {
      KeysOfRun(groups, 0, c.train, key, h);
      KeysOfRun(groups, c.train, c.train + c.validation, key, h);
      KeysOfRun(groups, c.train + c.validation, |groups|, key, h);
    }
  }

  /** With validation at -1, the only group lands in train and in test. */
  lemma NegativeCountLeaks(groups: seq<Group<Sample>>, h: Hashing)
    requires GoodGroups(groups, h) && |groups| == 1
    ensures !NoLeak(Allocate(groups, Counts(1, -1, 1)), h)
  {
    hide HasKey, Records, GoodGroup;
    var s := Allocate(groups, Counts(1, -1, 1));
    KeysOfRun(groups, 0, 1, groups[0].key, h);
    assert s.train == Records(groups[0..1]) && s.test == Records(groups[0..1]);
    assert HasKey(s.train, groups[0].key, h) && HasKey(s.test, groups[0].key, h);
  }

  // ----- the split -----

  lemma {:induction false} AllKeyed(samples: seq<Sample>, k: nat, h: Hashing)
    requires k <= |samples|
    ensures FirstUnkeyed(samples, k, h).None? <==> forall i :: k <= i < |samples| ==>
      QuestionGroupKey(samples[i], h).Some?
    decreases |samples| - k
  {
    hide QuestionGroupKey;
    if k < |samples| { AllKeyed(samples, k + 1, h); }
  }

  lemma SplitOpened(samples: seq<Sample>, r: Ratios, h: Hashing)
    requires RatiosOk(r) && Keyed(samples, h)
    ensures var groups := Ordered(samples, h);
      var counts := CountsFor(|groups|, r);
      var splits := Allocate(groups, counts);
      Split(samples, r, h) == if NoLeak(splits, h) then Success(Outcome(counts, splits)) else Failure(Leakage)
  {
    hide Ordered, CountsFor, Allocate, NoLeak, FirstUnkeyed, QuestionGroupKey;
    AllKeyed(samples, 0, h);
  }

  lemma CountsFitIff(n: nat, r: Ratios)
    requires RatiosOk(r)
    ensures CountsFit(CountsFor(n, r), n) <==> !(n == 1 && r.validation == 0.5 && r.test == 0.5)
    ensures !CountsFit(CountsFor(n, r), n) ==> CountsFor(n, r) == Counts(1, -1, 1)
  {
    hide CountsFor;
    if n == 1 { CountsOfOneGroup(r); } else { CountsAreSound(n, r); }
  }

  /** For ratios in range that add up and samples that all have a key, the split succeeds exactly unless there is
      a single group and validation and test both ask for one half. */
  lemma SplitSucceedsIff(samples: seq<Sample>, r: Ratios, h: Hashing)
    requires RatiosOk(r) && Keyed(samples, h)
    ensures Split(samples, r, h).Success? <==> !(|Ordered(samples, h)| == 1 && r.validation == 0.5 && r.test == 0.5)
    ensures Split(samples, r, h).Failure? ==> Split(samples, r, h).error == Leakage
  {
    hide Ordered, CountsFor, Allocate, NoLeak, GoodGroups, Split, Keyed, RatiosOk, CountsFit;
    SplitOpened(samples, r, h);
    var groups := Ordered(samples, h);
    OrderedFacts(samples, h);
    CountsFitIff(|groups|, r);
    if CountsFit(CountsFor(|groups|, r), |groups|) {
      FittingCountsDoNotLeak(groups, CountsFor(|groups|, r), h);
    } else {
      NegativeCountLeaks(groups, h);
    }
  }

  /** A successful split: counts are not negative and add up, the three splits together are the samples,
      and no group key is in two of them. */
  lemma SplitIsSafe(samples: seq<Sample>, r: Ratios, h: Hashing)
    requires RatiosOk(r) && Keyed(samples, h) && Split(samples, r, h).Success?
    ensures var o := Split(samples, r, h).value;
      && CountsFit(o.counts, |Ordered(samples, h)|)
      && multiset(o.splits.train + o.splits.validation + o.splits.test) == multiset(samples)
      && NoLeak(o.splits, h)
      && (|Ordered(samples, h)| >= 2 ==> o.counts.train >= 1)
  {
    hide Ordered, CountsFor, Allocate, NoLeak, GoodGroups, Split, Keyed, RatiosOk, CountsFit, Records;
    SplitOpened(samples, r, h);
    var groups := Ordered(samples, h);
    OrderedFacts(samples, h);
    SplitSucceedsIff(samples, r, h);
    CountsFitIff(|groups|, r);
    if |groups| >= 2 { CountsAreSound(|groups|, r); }
    AllocationKeepsAll(groups, CountsFor(|groups|, r));
  }

  lemma RunNotEmpty(groups: seq<Group<Sample>>, lo: nat, hi: nat, h: Hashing)
    requires GoodGroups(groups, h) && lo < hi <= |groups|
    ensures Records(groups[lo..hi]) != []
  {
    assert groups[lo..hi] == groups[lo..hi - 1] + [groups[hi - 1]];
    RecordsAppend(groups[lo..hi - 1], groups[hi - 1]);
  }

  /** From three groups on, all three splits hold samples, except with three groups and two ratios of one half. */
  lemma AllSplitsFilledIff(samples: seq<Sample>, r: Ratios, h: Hashing)
    requires RatiosOk(r) && Keyed(samples, h) && |Ordered(samples, h)| >= 3
    ensures Split(samples, r, h).Success?
    ensures var s := Split(samples, r, h).value.splits;
      s.train != [] && s.validation != [] && s.test != [] <==>
        !(|Ordered(samples, h)| == 3 && r.validation == 0.5 && r.test == 0.5)
  {
    hide Ordered, CountsFor, NoLeak, GoodGroups, Split, Keyed, Records, Slice, RatiosOk, CountsFit;
    SplitOpened(samples, r, h);
    SplitSucceedsIff(samples, r, h);
    CountsFitIff(|Ordered(samples, h)|, r);
    AllSplitsGetGroupsIff(|Ordered(samples, h)|, r);
    OrderedFacts(samples, h);
    AllocationFilledIff(Ordered(samples, h), CountsFor(|Ordered(samples, h)|, r), h);
  }

  lemma AllocationFilledIff(groups: seq<Group<Sample>>, c: Counts, h: Hashing)
    requires GoodGroups(groups, h) && CountsFit(c, |groups|)
    ensures var s := Allocate(groups, c);
      s.train != [] && s.validation != [] && s.test != [] <==> c.train >= 1 && c.validation >= 1 && c.test >= 1
  {
    hide GoodGroups, Records, Slice;
    SlicesOf(groups, c);
    FilledExactly(groups, 0, c.train, h);
    FilledExactly(groups, c.train, c.train + c.validation, h);
    FilledExactly(groups, c.train + c.validation, |groups|, h);
  }

  lemma FilledExactly(groups: seq<Group<Sample>>, lo: nat, hi: nat, h: Hashing)
    requires GoodGroups(groups, h) && lo <= hi <= |groups|
    ensures Records(groups[lo..hi]) != [] <==> lo < hi
  {
    hide GoodGroups;
    if lo < hi {
      RunNotEmpty(groups, lo, hi, h);
    } else {
      assert groups[lo..hi] == [];
    }
  }

  /** The default ratios always split, and fill all three splits from three groups on. */
  lemma DefaultRatiosWork(samples: seq<Sample>, h: Hashing)
    requires Keyed(samples, h)
    ensures Split(samples, DEFAULT_RATIOS, h).Success?
    ensures |Ordered(samples, h)| >= 3 ==>
      var s := Split(samples, DEFAULT_RATIOS, h).value.splits; s.train != [] && s.validation != [] && s.test != []
  {
    hide Split, Ordered, Keyed;
    SplitSucceedsIff(samples, DEFAULT_RATIOS, h);
    if |Ordered(samples, h)| >= 3 {
      AllSplitsFilledIff(samples, DEFAULT_RATIOS, h);
    }
  }
}
