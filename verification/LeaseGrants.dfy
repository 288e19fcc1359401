/** When the heartbeat keeps its promise for a lease that runs from the moment it
    was granted, which lies inside the last successful send. */
module LeaseGrants {
  import opened Wrappers
  import opened RealArithmetic
  import opened Lease

  /** Entering succeeded within the timeout and every later send is on time. */
  ghost predicate Punctual(t: Timing, entry: Attempt, attempts: seq<Attempt>) {
    && entry.failure.None? && entry.began <= entry.ended <= entry.began + t.timeout
    && Timely(t, entry.ended, attempts)
  }

  /** Send 0 is the entry, send i the attempt before position i. */
  function SendAt(entry: Attempt, attempts: seq<Attempt>, i: nat): Attempt
    requires i <= |attempts|
  {
    if i == 0 then entry else attempts[i - 1]
  }

  /** The last of the first k sends after the entry that succeeded, or the entry. */
  function LastRenewal(attempts: seq<Attempt>, k: nat): (i: nat)
    requires k <= |attempts|
    ensures i <= k
  {
    if k == 0 then 0 else if attempts[k - 1].failure.None? then k else LastRenewal(attempts, k - 1)
  }

  /** The lease in force before attempt k may have been granted at this moment. */
  ghost predicate GrantedAt(entry: Attempt, attempts: seq<Attempt>, k: nat, granted: real)
    requires k <= |attempts|
  {
    var send := SendAt(entry, attempts, LastRenewal(attempts, k));
    send.began <= granted <= send.ended
  }

  /** Attempt k is made, and ends only when the lease granted then has lapsed. */
  ghost predicate Lapses(t: Timing, entry: Attempt, attempts: seq<Attempt>, k: nat, granted: real) {
    && Punctual(t, entry, attempts) && k < |attempts|
    && After(t, Beat(entry.ended, None), attempts, k).error.None?
    && GrantedAt(entry, attempts, k, granted)
    && attempts[k].ended >= granted + t.lease as real
  }

  /** Every attempt of every punctual run ends while the lease in force still runs. */
  ghost predicate RetriesInTime(t: Timing) {
    forall entry, attempts, k, granted :: !Lapses(t, entry, attempts, k, granted)
  }

  /** m waits and one send fit into the lease, but not when all sends and the granting one are slow. */
  predicate TightAt(t: Timing, m: nat) {
    Elapsed(t, m) + t.timeout < t.lease as real <= Elapsed(t, m) + Times((m + 1) as real, t.timeout)
  }

  ghost predicate Tight(t: Timing) { exists m :: m >= 1 && TightAt(t, m) }

  // ----- a loose timing keeps every lease -----

  lemma {:induction false} RenewalFacts(t: Timing, entry: Attempt, attempts: seq<Attempt>, k: nat)
    requires k <= |attempts| && After(t, Beat(entry.ended, None), attempts, k).error.None?
    ensures var i := LastRenewal(attempts, k);
      && Tolerated(t, entry.ended, attempts, i, k)
      && After(t, Beat(entry.ended, None), attempts, k).lastSuccess == EndOf(entry.ended, attempts, i)
    decreases k
  {
    if k > 0 {
      NoErrorBefore(t, Beat(entry.ended, None), attempts, k - 1, k);
      RenewalFacts(t, entry, attempts, k - 1);
    }
  }

  lemma MoreTime(t: Timing, n: nat)
    ensures Times((n + 1) as real, t.timeout) == Times(n as real, t.timeout) + t.timeout
    ensures Times(0.0, t.timeout) == 0.0
  {
    TimesOneMore(t.timeout, n);
  }

  lemma {:induction false} AttemptsTakeAtMost(t: Timing, from: real, attempts: seq<Attempt>, i: nat, j: nat)
    requires Timely(t, from, attempts) && i <= j <= |attempts|
    ensures EndOf(from, attempts, j) <= EndOf(from, attempts, i) + Elapsed(t, j - i) + Times((j - i) as real, t.timeout)
    decreases j
  {
    hide Elapsed, Times;
    if i == j {
      NoTime(t);
      MoreTime(t, 0);
    } else {
      AttemptsTakeAtMost(t, from, attempts, i, j - 1);
      OneMoreInterval(t, j - 1 - i);
      MoreTime(t, j - 1 - i);
      assert attempts[j - 1].began == EndOf(from, attempts, j - 1) + t.interval;
    }
  }

  lemma SendTakesTimeout(t: Timing, entry: Attempt, attempts: seq<Attempt>, i: nat)
    requires Punctual(t, entry, attempts) && i <= |attempts|
    ensures var s := SendAt(entry, attempts, i);
      s.ended == EndOf(entry.ended, attempts, i) && s.ended <= s.began + t.timeout
  {
    if i > 0 { assert attempts[i - 1].began <= attempts[i - 1].ended; }
  }

  /** A lease that lapses shows that the timing is tight, one wait further than the tolerated failures. */
  lemma LapseIsTight(t: Timing, entry: Attempt, attempts: seq<Attempt>, k: nat, granted: real)
    requires TimingValid(t) && Lapses(t, entry, attempts, k, granted)
    ensures TightAt(t, k - LastRenewal(attempts, k) + 1)
  {
    hide Elapsed, Times, After;
    var i := LastRenewal(attempts, k);
    var n := k - i;
    RenewalFacts(t, entry, attempts, k);
    AttemptsTakeTime(t, entry.ended, attempts, i, k);
    AttemptsTakeAtMost(t, entry.ended, attempts, i, k);
    RoomToRenew(t, entry.ended, attempts, k);
    SendTakesTimeout(t, entry, attempts, i);
    OneMoreInterval(t, n);
    MoreTime(t, n);
    MoreTime(t, n + 1);
    assert attempts[k].began == EndOf(entry.ended, attempts, k) + t.interval;
  }

  // ----- a tight timing loses a lease -----

  /** n failed sends of length d each, and one more that takes the whole timeout. */
  function SlowRun(t: Timing, d: real, n: nat): seq<Attempt> {
    var lost := Some(SendFailure(None));
    seq(n, i requires 0 <= i < n =>
        Attempt(Elapsed(t, i + 1) + Times(i as real, d), Elapsed(t, i + 1) + Times((i + 1) as real, d), lost))
      + [Attempt(Elapsed(t, n + 1) + Times(n as real, d), Elapsed(t, n + 1) + Times(n as real, d) + t.timeout, lost)]
  }

  function SlowEntry(t: Timing): Attempt { Attempt(-t.timeout, 0.0, None) }

  lemma SlowRunIsPunctual(t: Timing, d: real, n: nat)
    requires TimingValid(t) && 0.0 <= d <= t.timeout
    ensures Punctual(t, SlowEntry(t), SlowRun(t, d, n))
  {
    hide Elapsed, Times;
    var attempts := SlowRun(t, d, n);
    forall k | 0 <= k < |attempts|
      ensures attempts[k].began == EndOf(0.0, attempts, k) + t.interval
      ensures attempts[k].began <= attempts[k].ended <= attempts[k].began + t.timeout
    {
      OneMoreInterval(t, k);
      TimesOneMore(d, k);
      NoTime(t);
      TimesAdds(d, 0.0, 0.0);
    }
  }

  lemma {:induction false} SlowRunIsTolerated(t: Timing, d: real, n: nat, k: nat)
    requires TimingValid(t) && 0.0 <= d && k <= n
    requires Elapsed(t, n + 1) + Times(n as real, d) + t.timeout < t.lease as real
    ensures After(t, Beat(0.0, None), SlowRun(t, d, n), k) == Beat(0.0, None)
    ensures LastRenewal(SlowRun(t, d, n), k) == 0
  {
    hide Elapsed, Times;
    if k > 0 {
      SlowRunIsTolerated(t, d, n, k - 1);
      TimeGrows(t, d, k, n);
      OneMoreInterval(t, k);
    }
  }

  lemma {:induction false} TimeGrows(t: Timing, d: real, k: nat, n: nat)
    requires t.interval >= 0.0 && d >= 0.0 && k <= n
    ensures Elapsed(t, k + 1) + Times(k as real, d) <= Elapsed(t, n + 1) + Times(n as real, d)
    decreases n
  {
    hide Elapsed, Times;
    if k < n {
      TimeGrows(t, d, k, n - 1);
      OneMoreInterval(t, n);
      TimesOneMore(d, n - 1);
    }
  }

  /** Failed sends whose lengths add up to what keeps the last retry allowed but late. */
  lemma SlowLength(t: Timing, m: nat) returns (d: real)
    requires TimingValid(t) && m >= 1 && TightAt(t, m)
    ensures 0.0 <= d <= t.timeout
    ensures var spent := Elapsed(t, m) + Times((m - 1) as real, d) + t.timeout;
      spent < t.lease as real <= spent + t.timeout
  {
    hide Elapsed, Times;
    var short := t.lease as real - t.timeout - (Elapsed(t, m) + t.timeout);
    MoreTime(t, m - 1);
    MoreTime(t, m);
    if m == 1 || short <= 0.0 {
      d := 0.0;
      MoreTime(t, 0);
      TimesAdds((m - 1) as real, 0.0, 0.0);
    } else {
      var n := (m - 1) as real;
      d := short / n;
      QuotientBack(short, n);
      QuotientSign(short, n);
      TimesCommutes(n, d);
      if d > t.timeout {
        TimesGrows(n, t.timeout, d);
      }
    }
  }

  lemma TimesCommutes(a: real, b: real)
    ensures Times(a, b) == b * a
  {
  }

  lemma TimesGrows(a: real, u: real, v: real)
    requires a > 0.0 && u < v
    ensures Times(a, u) < Times(a, v)
  {
    SignOfProduct(a, v - u);
    assert a * (v - u) == a * v - a * u;
  }

  lemma TightLapses(t: Timing, m: nat)
    requires TimingValid(t) && m >= 1 && TightAt(t, m)
    ensures exists entry, attempts, k, granted :: Lapses(t, entry, attempts, k, granted)
  {
    hide Elapsed, Times, After, Punctual, TightAt;
    var d := SlowLength(t, m);
    SlowRunIsPunctual(t, d, m - 1);
    SlowRunIsTolerated(t, d, m - 1, m - 1);
    assert Lapses(t, SlowEntry(t), SlowRun(t, d, m - 1), m - 1, -t.timeout);
  }

  // ----- the exact condition -----

  /** A timing keeps every attempt inside a lease that runs from its grant exactly when no number of
      waits is tight. */
  lemma RetriesInTimeIffNotTight(t: Timing)
    requires TimingValid(t)
    ensures RetriesInTime(t) <==> !Tight(t)
  {
    hide Lapses, TightAt;
    if m :| m >= 1 && TightAt(t, m) {
      TightLapses(t, m);
    }
    forall entry, attempts, k, granted | Lapses(t, entry, attempts, k, granted) ensures Tight(t) {
      LapseIsTight(t, entry, attempts, k, granted);
    }
  }

  lemma {:induction false} TightGrows(t: Timing, m: nat, n: nat)
    requires TimingValid(t) && m <= n && TightAt(t, m) && Elapsed(t, n) + t.timeout < t.lease as real
    ensures TightAt(t, n)
    decreases n
  {
    hide Elapsed, Times;
    if m < n {
      OneMoreInterval(t, n - 1);
      TightGrows(t, m, n - 1);
      MoreTime(t, n);
    }
  }

  lemma {:induction false} ElapsedGrows(t: Timing, m: nat, n: nat)
    requires t.interval > 0.0 && m <= n
    ensures Elapsed(t, m) <= Elapsed(t, n)
    decreases n
  {
    hide Elapsed;
    if m < n {
      ElapsedGrows(t, m, n - 1);
      OneMoreInterval(t, n - 1);
    }
  }

  /** Only the largest number of waits that leaves room for a send needs checking. */
  lemma TightAtLargest(t: Timing, m: nat)
    requires TimingValid(t) && m >= 1
    requires Elapsed(t, m) + t.timeout < t.lease as real <= Elapsed(t, m + 1) + t.timeout
    ensures Tight(t) <==> t.lease as real <= Elapsed(t, m) + Times((m + 1) as real, t.timeout)
  {
    hide Elapsed, Times;
    assert TightAt(t, m) <==> t.lease as real <= Elapsed(t, m) + Times((m + 1) as real, t.timeout);
    if n :| n >= 1 && TightAt(t, n) {
      if n > m {
        ElapsedGrows(t, m + 1, n);
      }
      TightGrows(t, n, m);
    }
  }

  /** Tight or not, the lease has lapsed for less than one timeout when an attempt ends. */
  lemma LapseIsShort(t: Timing, entry: Attempt, attempts: seq<Attempt>, k: nat, granted: real)
    requires TimingValid(t) && Punctual(t, entry, attempts) && k < |attempts|
    requires After(t, Beat(entry.ended, None), attempts, k).error.None? && GrantedAt(entry, attempts, k, granted)
    ensures attempts[k].ended < granted + t.lease as real + t.timeout
  {
    hide After;
    RenewalFacts(t, entry, attempts, k);
    SendTakesTimeout(t, entry, attempts, LastRenewal(attempts, k));
    AttemptsEndWithinLease(t, entry.ended, attempts, k);
  }

  const IMAGE_QUALITY := Timing(300, 10.0, 3.0)
  const PAGE_PROCESSING := Timing(600, 30.0, 10.0)

  /** Both workers ship with tight timings. */
  lemma ShippedTimingsAreTight()
    ensures TimingValid(IMAGE_QUALITY) && TightAt(IMAGE_QUALITY, 23) && !RetriesInTime(IMAGE_QUALITY)
    ensures TimingValid(PAGE_PROCESSING) && TightAt(PAGE_PROCESSING, 15) && !RetriesInTime(PAGE_PROCESSING)
  {
    RetriesInTimeIffNotTight(IMAGE_QUALITY);
    RetriesInTimeIffNotTight(PAGE_PROCESSING);
    assert TightAt(IMAGE_QUALITY, 23);
    assert TightAt(PAGE_PROCESSING, 15);
  }
}
