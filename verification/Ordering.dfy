/** Stable sorting, by an integer key and by any comparison, as the program's sort
    calls do. */
module Ordering {
  function Insert<T>(x: T, xs: seq<T>, key: T -> int): seq<T> {
    if xs == [] then [x]
    else if key(x) < key(xs[|xs| - 1]) then Insert(x, xs[..|xs| - 1], key) + [xs[|xs| - 1]]
    else xs + [x]
  }

  /** Stable: equal keys keep their order. */
  function SortBy<T>(xs: seq<T>, key: T -> int): seq<T> {
    if xs == [] then [] else Insert(xs[|xs| - 1], SortBy(xs[..|xs| - 1], key), key)
  }

  ghost predicate Ascending<T>(xs: seq<T>, key: T -> int) {
    forall i, j :: 0 <= i < j < |xs| ==> key(xs[i]) < key(xs[j])
  }

  ghost predicate DistinctKeys<T>(xs: seq<T>, key: T -> int) {
    forall i, j :: 0 <= i < j < |xs| ==> key(xs[i]) != key(xs[j])
  }

  lemma InitAndLast<T>(xs: seq<T>)
    requires xs != []
    ensures multiset(xs) == multiset(xs[..|xs| - 1]) + multiset{xs[|xs| - 1]}
  {
    assert xs == xs[..|xs| - 1] + [xs[|xs| - 1]];
  }

  lemma {:induction false} InsertKeepsAll<T>(x: T, xs: seq<T>, key: T -> int)
    ensures multiset(Insert(x, xs, key)) == multiset(xs) + multiset{x}
  {
    if xs != [] && key(x) < key(xs[|xs| - 1]) {
      InsertKeepsAll(x, xs[..|xs| - 1], key);
      InitAndLast(xs);
    }
  }

  lemma {:induction false} SortKeepsAll<T>(xs: seq<T>, key: T -> int)
    ensures multiset(SortBy(xs, key)) == multiset(xs)
  {
    hide Insert;
    if xs != [] {
      SortKeepsAll(xs[..|xs| - 1], key);
      InsertKeepsAll(xs[|xs| - 1], SortBy(xs[..|xs| - 1], key), key);
      InitAndLast(xs);
    }
  }

  lemma SameMembers<T>(a: seq<T>, b: seq<T>)
    requires multiset(a) == multiset(b)
    ensures |a| == |b| && forall x :: x in a <==> x in b
  {
    assert |multiset(a)| == |multiset(b)|;
    forall x ensures x in a <==> x in b {
      assert x in a <==> x in multiset(a);
    }
  }

  lemma {:induction false} InsertMembers<T>(x: T, xs: seq<T>, key: T -> int)
    ensures |Insert(x, xs, key)| == |xs| + 1
    ensures forall i :: 0 <= i <= |xs| ==> Insert(x, xs, key)[i] == x || Insert(x, xs, key)[i] in xs
  {
    if xs != [] && key(x) < key(xs[|xs| - 1]) {
      InsertMembers(x, xs[..|xs| - 1], key);
    }
  }

  lemma {:induction false} InsertAscends<T>(x: T, xs: seq<T>, key: T -> int)
    requires Ascending(xs, key) && forall i :: 0 <= i < |xs| ==> key(xs[i]) != key(x)
    ensures Ascending(Insert(x, xs, key), key)
  {
    if xs != [] && key(x) < key(xs[|xs| - 1]) {
      InsertAscends(x, xs[..|xs| - 1], key);
      InsertMembers(x, xs[..|xs| - 1], key);
    }
  }

  lemma {:induction false} SortMembers<T>(xs: seq<T>, key: T -> int)
    ensures |SortBy(xs, key)| == |xs|
    ensures forall i :: 0 <= i < |xs| ==> SortBy(xs, key)[i] in xs
  {
    hide Insert;
    if xs != [] {
      var init := xs[..|xs| - 1];
      SortMembers(init, key);
      InsertMembers(xs[|xs| - 1], SortBy(init, key), key);
      var r := SortBy(xs, key);
      forall i | 0 <= i < |xs| ensures r[i] in xs {
        if r[i] in SortBy(init, key) {
          var j :| 0 <= j < |init| && SortBy(init, key)[j] == r[i];
          assert r[i] in init;
        }
      }
    }
  }

  lemma {:induction false} SortAscends<T>(xs: seq<T>, key: T -> int)
    requires DistinctKeys(xs, key)
    ensures Ascending(SortBy(xs, key), key)
  {
    hide Insert, Ascending;
    if xs == [] {
      NothingAscends(key);
    } else {
      var init, x := xs[..|xs| - 1], xs[|xs| - 1];
      SortAscends(init, key);
      SortMembers(init, key);
      var rest := SortBy(init, key);
      forall i | 0 <= i < |rest| ensures key(rest[i]) != key(x) {
        var j :| 0 <= j < |init| && init[j] == rest[i];
      }
      InsertAscends(x, rest, key);
    }
  }

  lemma NothingAscends<T>(key: T -> int)
    ensures Ascending([], key)
  {
  }

  // ----- sorting by a comparison -----

  function InsertWith<T>(x: T, xs: seq<T>, less: (T, T) -> bool): seq<T> {
    if xs == [] then [x]
    else if less(x, xs[|xs| - 1]) then InsertWith(x, xs[..|xs| - 1], less) + [xs[|xs| - 1]]
    else xs + [x]
  }

  /** Stable: elements neither of which is less keep their order. */
  function SortWith<T>(xs: seq<T>, less: (T, T) -> bool): seq<T> {
    if xs == [] then [] else InsertWith(xs[|xs| - 1], SortWith(xs[..|xs| - 1], less), less)
  }

  lemma {:induction false} InsertWithKeepsAll<T>(x: T, xs: seq<T>, less: (T, T) -> bool)
    ensures multiset(InsertWith(x, xs, less)) == multiset(xs) + multiset{x}
  {
    if xs != [] && less(x, xs[|xs| - 1]) {
      InsertWithKeepsAll(x, xs[..|xs| - 1], less);
      InitAndLast(xs);
    }
  }

  lemma {:induction false} SortWithKeepsAll<T>(xs: seq<T>, less: (T, T) -> bool)
    ensures multiset(SortWith(xs, less)) == multiset(xs)
    ensures |SortWith(xs, less)| == |xs|
  {
    hide InsertWith;
    if xs != [] {
      SortWithKeepsAll(xs[..|xs| - 1], less);
      InsertWithKeepsAll(xs[|xs| - 1], SortWith(xs[..|xs| - 1], less), less);
      InitAndLast(xs);
    }
    SameSize(SortWith(xs, less), xs);
  }

  lemma SameSize<T>(a: seq<T>, b: seq<T>)
    requires multiset(a) == multiset(b)
    ensures |a| == |b|
  {
    assert |multiset(a)| == |a|;
    assert |multiset(b)| == |b|;
  }

  /** less orders the elements up to ties. */
  ghost predicate StrictWeak<T(!new)>(less: (T, T) -> bool) {
    && (forall a, b :: less(a, b) ==> !less(b, a))
    && (forall a, b, c :: less(a, c) ==> less(a, b) || less(b, c))
  }

  /** No element is less than an earlier one. */
  ghost predicate SortedBy<T>(xs: seq<T>, less: (T, T) -> bool) {
    forall i, j :: 0 <= i < j < |xs| ==> !less(xs[j], xs[i])
  }

  lemma {:induction false} InsertWithMembers<T>(x: T, xs: seq<T>, less: (T, T) -> bool)
    ensures |InsertWith(x, xs, less)| == |xs| + 1
    ensures forall i :: 0 <= i <= |xs| ==> InsertWith(x, xs, less)[i] == x || InsertWith(x, xs, less)[i] in xs
  {
    if xs != [] && less(x, xs[|xs| - 1]) {
      InsertWithMembers(x, xs[..|xs| - 1], less);
    }
  }

  lemma {:induction false} InsertWithSorts<T(!new)>(x: T, xs: seq<T>, less: (T, T) -> bool)
    requires StrictWeak(less) && SortedBy(xs, less)
    ensures SortedBy(InsertWith(x, xs, less), less)
  {
    if xs != [] {
      var init, last := xs[..|xs| - 1], xs[|xs| - 1];
      if less(x, last) {
        InsertWithSorts(x, init, less);
        InsertWithMembers(x, init, less);
        var r := InsertWith(x, init, less);
        forall i | 0 <= i < |r| ensures !less(last, r[i]) {
          if r[i] != x { var j :| 0 <= j < |init| && init[j] == r[i]; }
        }
      } else {
        forall i | 0 <= i < |xs| ensures !less(x, xs[i]) {
          if i < |init| { assert !less(last, xs[i]); }
        }
      }
    }
  }

  /** For every strict weak order the result is sorted. */
  lemma {:induction false} SortWithSorts<T(!new)>(xs: seq<T>, less: (T, T) -> bool)
    requires StrictWeak(less)
    ensures SortedBy(SortWith(xs, less), less)
  {
    hide StrictWeak, InsertWith;
    if xs != [] {
      SortWithSorts(xs[..|xs| - 1], less);
      InsertWithSorts(xs[|xs| - 1], SortWith(xs[..|xs| - 1], less), less);
    }
  }

  /** The elements that are neither less than y nor greater. */
  function Ties<T>(xs: seq<T>, y: T, less: (T, T) -> bool): seq<T> {
    if xs == [] then []
    else
      var rest, last := Ties(xs[..|xs| - 1], y, less), xs[|xs| - 1];
      if less(last, y) || less(y, last) then rest else rest + [last]
  }

  lemma TiesAppend<T>(xs: seq<T>, x: T, y: T, less: (T, T) -> bool)
    ensures Ties(xs + [x], y, less) == Ties(xs, y, less) + if less(x, y) || less(y, x) then [] else [x]
  {
    assert (xs + [x])[..|xs|] == xs;
  }

  lemma {:induction false} InsertWithKeepsTies<T(!new)>(x: T, xs: seq<T>, y: T, less: (T, T) -> bool)
    requires StrictWeak(less)
    ensures Ties(InsertWith(x, xs, less), y, less) == Ties(xs + [x], y, less)
  {
    TiesAppend(xs, x, y, less);
    if xs != [] && less(x, xs[|xs| - 1]) {
      var init, last := xs[..|xs| - 1], xs[|xs| - 1];
      InsertWithKeepsTies(x, init, y, less);
      TiesAppend(init, x, y, less);
      TiesAppend(InsertWith(x, init, less), last, y, less);
      assert less(x, y) || less(y, last);
    }
  }

  /** Tied elements keep their order. */
  lemma {:induction false} SortWithIsStable<T(!new)>(xs: seq<T>, y: T, less: (T, T) -> bool)
    requires StrictWeak(less)
    ensures Ties(SortWith(xs, less), y, less) == Ties(xs, y, less)
  {
    hide StrictWeak, InsertWith;
    if xs != [] {
      var init, last := xs[..|xs| - 1], xs[|xs| - 1];
      SortWithIsStable(init, y, less);
      InsertWithKeepsTies(last, SortWith(init, less), y, less);
      TiesAppend(SortWith(init, less), last, y, less);
    }
  }
}
