/** The lease heartbeat: which failures are tolerated, and that every attempt
    ends while the last renewed lease still runs. */
module Lease {
  import opened Wrappers

  datatype Timing = Timing(lease: int, interval: real, timeout: real)

  datatype TimingError = LeaseOutOfRange | NotPositive | IntervalTooLong | NoRoomToRenew

  predicate TimingValid(t: Timing) {
    && 30 <= t.lease <= 3600
    && t.interval > 0.0 && t.timeout > 0.0
    && t.interval + t.timeout < t.lease as real
  }

  method ValidateLeaseTiming(t: Timing) returns (error: Option<TimingError>)
    ensures error.None? <==> TimingValid(t)
  {
    if t.lease < 30 || t.lease > 3600 { return Some(LeaseOutOfRange); }
    if t.interval <= 0.0 || t.timeout <= 0.0 { return Some(NotPositive); }
    if t.interval >= t.lease as real { return Some(IntervalTooLong); }
    if t.interval + t.timeout >= t.lease as real { return Some(NoRoomToRenew); }
    error := None;
  }

  /** A failed send, with the HTTP status when there was one. */
  datatype SendFailure = SendFailure(status: Option<int>)

  predicate LeaseIsLost(f: SendFailure) {
    f.status.Some? && f.status.value in {403, 404, 409}
  }

  /** One send: when it began and ended, and how it failed if it did. */
  datatype Attempt = Attempt(began: real, ended: real, failure: Option<SendFailure>)

  datatype Beat = Beat(lastSuccess: real, error: Option<SendFailure>)

  predicate WindowExhausted(t: Timing, lastSuccess: real, now: real) {
    now - lastSuccess + t.interval + t.timeout >= t.lease as real
  }

  function Step(t: Timing, b: Beat, a: Attempt): Beat {
    if a.failure.None? then Beat(a.ended, b.error)
    else if LeaseIsLost(a.failure.value) || WindowExhausted(t, b.lastSuccess, a.ended) then b.(error := a.failure)
    else b
  }

  /** The heartbeat after the first k attempts; an error ends the loop. */
  function After(t: Timing, start: Beat, attempts: seq<Attempt>, k: nat): Beat
    requires k <= |attempts|
  {
    if k == 0 then start
    else
      var b := After(t, start, attempts, k - 1);
      if b.error.Some? then b else Step(t, b, attempts[k - 1])
  }

  class LeaseHeartbeat {
    const timing: Timing
    var lastSuccess: real
    var error: Option<SendFailure>

    ghost function View(): Beat
      reads this
    {
      Beat(lastSuccess, error)
    }

    constructor (timing: Timing, now: real)
      requires TimingValid(timing)
      ensures this.timing == timing && View() == Beat(now, None)
    {
      this.timing := timing;
      lastSuccess, error := now, None;
    }

    /** Entering sends once; a failure propagates and leaves the clock alone. */
    method Enter(first: Attempt) returns (entered: bool)
      modifies this
      ensures entered <==> first.failure.None?
      ensures View() == if entered then Beat(first.ended, old(error)) else old(View())
    {
      entered := first.failure.None?;
      if entered {
        lastSuccess := first.ended;
      }
    }

    method RenewalWindowExhausted(now: real) returns (exhausted: bool)
      ensures exhausted <==> WindowExhausted(timing, lastSuccess, now)
    {
      var elapsed := now - lastSuccess;
      exhausted := elapsed + timing.interval + timing.timeout >= timing.lease as real;
    }

    /** The loop of the heartbeat thread over the attempts made before it is stopped. */
    method Run(attempts: seq<Attempt>)
      requires error.None?
      modifies this
      ensures View() == After(timing, old(View()), attempts, |attempts|)
    {
      for k := 0 to |attempts|
        invariant View() == After(timing, old(View()), attempts, k)
        invariant error.None?
      {
        var a := attempts[k];
        if a.failure.None? {
          lastSuccess := a.ended;
        } else {
          var exhausted := RenewalWindowExhausted(a.ended);
          if LeaseIsLost(a.failure.value) || exhausted {
            error := a.failure;
            ErrorStays(timing, old(View()), attempts, k + 1, |attempts|);
            return;
          }
        }
      }
    }
  }

  lemma {:induction false} ErrorStays(t: Timing, start: Beat, attempts: seq<Attempt>, k: nat, n: nat)
    requires k <= n <= |attempts| && After(t, start, attempts, k).error.Some?
    ensures After(t, start, attempts, n) == After(t, start, attempts, k)
    decreases n
  {
    if k < n { ErrorStays(t, start, attempts, k, n - 1); }
  }

  // ----- timed runs -----

  /** When attempt k ended; entering ended at from. */
  function EndOf(from: real, attempts: seq<Attempt>, k: nat): real
    requires k <= |attempts|
  {
    if k == 0 then from else attempts[k - 1].ended
  }

  /** Each send begins one interval after the previous one ended and takes at most the timeout. */
  ghost predicate Timely(t: Timing, from: real, attempts: seq<Attempt>) {
    forall k :: 0 <= k < |attempts| ==>
      && attempts[k].began == EndOf(from, attempts, k) + t.interval
      && attempts[k].began <= attempts[k].ended <= attempts[k].began + t.timeout
  }

  /** While no error is recorded, there is room for another wait and send. */
  lemma {:induction false} RoomToRenew(t: Timing, from: real, attempts: seq<Attempt>, k: nat)
    requires TimingValid(t) && Timely(t, from, attempts) && k <= |attempts|
    requires After(t, Beat(from, None), attempts, k).error.None?
    ensures var b := After(t, Beat(from, None), attempts, k);
      && b.lastSuccess <= EndOf(from, attempts, k)
      && EndOf(from, attempts, k) - b.lastSuccess + t.interval + t.timeout < t.lease as real
    decreases k
  {
    hide LeaseIsLost;
    if k > 0 {
      RoomToRenew(t, from, attempts, k - 1);
      assert attempts[k - 1].began == EndOf(from, attempts, k - 1) + t.interval;
    }
  }

  /** Every attempt that is made ends strictly before a lease counted from the last success lapses,
      so the error it may record is recorded in time. */
  lemma AttemptsEndWithinLease(t: Timing, from: real, attempts: seq<Attempt>, k: nat)
    requires TimingValid(t) && Timely(t, from, attempts) && k < |attempts|
    requires After(t, Beat(from, None), attempts, k).error.None?
    ensures attempts[k].ended - After(t, Beat(from, None), attempts, k).lastSuccess < t.lease as real
  {
    RoomToRenew(t, from, attempts, k);
    assert attempts[k].began == EndOf(from, attempts, k) + t.interval;
  }

  // ----- how many failures are tolerated -----

  /** Attempts i to j all failed and none of them recorded an error. */
  ghost predicate Tolerated(t: Timing, from: real, attempts: seq<Attempt>, i: nat, j: nat) {
    && i <= j <= |attempts|
    && (forall m :: i <= m < j ==> attempts[m].failure.Some?)
    && After(t, Beat(from, None), attempts, j).error.None?
  }

  lemma {:induction false} NoErrorBefore(t: Timing, start: Beat, attempts: seq<Attempt>, k: nat, n: nat)
    requires k <= n <= |attempts| && After(t, start, attempts, n).error.None?
    ensures After(t, start, attempts, k).error.None?
    decreases n
  {
    if k < n { NoErrorBefore(t, start, attempts, k, n - 1); }
  }

  function Elapsed(t: Timing, n: nat): real { n as real * t.interval }

  lemma OneMoreInterval(t: Timing, n: nat)
    ensures Elapsed(t, n + 1) == Elapsed(t, n) + t.interval
  {
    assert (n + 1) as real == n as real + 1.0;
  }

  lemma {:induction false} AttemptsTakeTime(t: Timing, from: real, attempts: seq<Attempt>, i: nat, j: nat)
    requires Timely(t, from, attempts) && i <= j <= |attempts|
    ensures EndOf(from, attempts, j) >= EndOf(from, attempts, i) + Elapsed(t, j - i)
    decreases j
  {
    hide Elapsed;
    if i == j {
      NoTime(t);
    } else {
      AttemptsTakeTime(t, from, attempts, i, j - 1);
      OneMoreInterval(t, j - 1 - i);
      assert attempts[j - 1].began == EndOf(from, attempts, j - 1) + t.interval;
    }
  }

  lemma {:induction false} FailuresKeepSuccess(t: Timing, from: real, attempts: seq<Attempt>, i: nat, j: nat)
    requires Tolerated(t, from, attempts, i, j)
    ensures After(t, Beat(from, None), attempts, i).lastSuccess == After(t, Beat(from, None), attempts, j).lastSuccess
    decreases j
  {
    if i < j {
      NoErrorBefore(t, Beat(from, None), attempts, j - 1, j);
      FailuresKeepSuccess(t, from, attempts, i, j - 1);
    }
  }

  lemma NoTime(t: Timing)
    ensures Elapsed(t, 0) == 0.0
  {
  }

  /** Consecutive tolerated failures, with one more wait and send, still fit into the lease. */
  lemma ToleratedFailuresAreBounded(t: Timing, from: real, attempts: seq<Attempt>, i: nat, j: nat)
    requires TimingValid(t) && Timely(t, from, attempts) && Tolerated(t, from, attempts, i, j)
    ensures Elapsed(t, j - i) + t.interval + t.timeout < t.lease as real
  {
    hide Elapsed, Timely;
    AttemptsTakeTime(t, from, attempts, i, j);
    FailuresKeepSuccess(t, from, attempts, i, j);
    NoErrorBefore(t, Beat(from, None), attempts, i, j);
    RoomToRenew(t, from, attempts, i);
    RoomToRenew(t, from, attempts, j);
  }
}
