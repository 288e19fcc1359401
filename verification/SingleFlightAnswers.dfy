/** What the invariant means to callers: how a request is admitted, which model
    runs can happen, where answers come from, and what eviction drops. */
module SingleFlightAnswers {
  import opened SingleFlight
  import opened SingleFlightRuns
  import opened SingleFlightSafety

  // ----- how a request is admitted -----

  /** A cached entry that the purge at this clock reading would keep. */
  ghost predicate Fresh(cfg: Settings, cache: Cache, e: Entry, now: int) {
    e in cache && now - e.created <= cfg.ttl
  }

  /** The decision in terms of fresh entries and running requests only. */
  lemma AdmissionDecision(cfg: Settings, s: Service, key: Key, digest: Digest, now: int)
    requires DistinctKeys(s.cache)
    requires key in s.inflight ==> s.inflight[key] < |s.flights|
    ensures var r := Enter(cfg, s, key, digest, now).0;
      && (r.Own? <==> key !in s.inflight && !exists e :: Fresh(cfg, s.cache, e, now) && e.key == key)
      && (r.Wait? ==> key in s.inflight && r.flight == s.inflight[key] && s.flights[r.flight].digest == digest)
      && (forall e :: Fresh(cfg, s.cache, e, now) && e.key == key ==>
        r == if e.digest == digest then Replay(e.answer) else Conflict)
      && (r.Replay? ==>
        exists e :: Fresh(cfg, s.cache, e, now) && e.key == key && e.digest == digest && e.answer == r.answer)
      && (r.Conflict? ==>
        || (exists e :: Fresh(cfg, s.cache, e, now) && e.key == key && e.digest != digest)
        || (key in s.inflight && s.flights[s.inflight[key]].digest != digest))
  {
    hide Purge, HasKey, MoveToEnd;
    var cache := Purge(s.cache, now - cfg.ttl);
    PurgeKeeps(s.cache, now - cfg.ttl);
    KeyOfEntry(cache, key);
    var i := Find(cache, key);
    forall e ensures Fresh(cfg, s.cache, e, now) <==> e in cache {
    }
    if i < |cache| {
      assert cache[i] in cache;
      forall e | e in cache && e.key == key ensures e == cache[i] {
        SameKeySameEntry(cache, e, cache[i]);
      }
    }
  }

  // ----- the states that can be reached -----

  /** The table of promises, for every interleaving. */
  lemma ReachableStatesAreSafe(cfg: Settings, actions: seq<Action>, s: System)
    requires Reaches(cfg, actions, s)
    ensures forall k :: !(HasKey(s.service.cache, k) && k in s.service.inflight)
    ensures |s.service.cache| <= cfg.maxEntries
    ensures forall f :: 0 <= f < |s.service.flights| && s.service.flights[f].done ==>
      s.service.flights[f].result.Some? != s.service.flights[f].error.Some? && !Look(s.service, f).StillWaiting?
    ensures forall c :: c in s.clients && s.clients[c].Replied? && s.clients[c].reply.Answered? ==>
      WasComputed(s.log, s.clients[c].key, s.clients[c].digest, s.clients[c].reply.answer)
  {
    hide LogMatches, Parties, TouchOrdered, CacheGrounded, HasKey;
    RunsAreSafe(cfg, actions, s);
    forall k ensures !(HasKey(s.service.cache, k) && k in s.service.inflight) {
      NeverBoth(s.service.cache, s.service.inflight, s.log, k);
    }
    forall c | c in s.clients ensures ReplyGrounded(s.clients[c], s.log) {
    }
  }

  lemma NeverBoth(cache: Cache, inflight: map<Key, nat>, log: seq<Event>, k: Key)
    requires LogMatches(cache, inflight, log)
    ensures !(HasKey(cache, k) && k in inflight)
  {
    hide Lawful, StateOf, HasKey, DistinctKeys;
  }

  /** Each in-flight key has exactly one owner. */
  lemma InflightKeyHasOneOwner(cfg: Settings, actions: seq<Action>, s: System, k: Key)
    requires Reaches(cfg, actions, s) && k in s.service.inflight
    ensures exists c ::
      && OwnsFlight(s.clients, c, s.service.inflight[k]) && s.clients[c].key == k
      && (forall d :: OwnsFlight(s.clients, d, s.service.inflight[k]) ==> d == c)
  {
    RunsAreSafe(cfg, actions, s);
    hide LogMatches, TouchOrdered, Grounded, Registry, Parties, Reaches, HandlesInRange;
    var c := OwnerOf(s, k);
  }

  lemma OwnerOf(s: System, k: Key) returns (c: Client)
    requires Registry(s.service.inflight, s.service.flights) && Parties(s.clients, s.service.flights)
    requires k in s.service.inflight
    ensures OwnsFlight(s.clients, c, s.service.inflight[k]) && s.clients[c].key == k
    ensures forall d :: OwnsFlight(s.clients, d, s.service.inflight[k]) ==> d == c
  {
    var f := s.service.inflight[k];
    c :| OwnsFlight(s.clients, c, f);
    assert HoldsFlight(s.clients[c], s.service.flights);
  }

  /** No waiter is stranded: its record is finished, or its owner can finish it. */
  lemma WaitersAreServed(cfg: Settings, actions: seq<Action>, s: System, w: Client)
    requires Reaches(cfg, actions, s) && PhaseOf(s, w).Waiting?
    ensures HandlesInRange(s)
    ensures Enabled(s, Wake(w)) || exists c :: OwnsFlight(s.clients, c, s.clients[w].flight)
  {
    RunsAreSafe(cfg, actions, s);
    hide LogMatches, TouchOrdered, Grounded, Reaches, Registry;
    assert HoldsFlight(s.clients[w], s.service.flights);
  }

  // ----- records -----

  /** A finished record never changes again, and no record disappears. */
  lemma FinishedRecordsAreFinal(cfg: Settings, s: System, a: Action, f: nat)
    requires Inv(cfg, s) && HandlesInRange(s) && Enabled(s, a) && f < |s.service.flights|
    ensures var t := Next(cfg, s, a);
      && f < |t.service.flights|
      && (s.service.flights[f].done ==> t.service.flights[f] == s.service.flights[f])
      && (!s.service.flights[f].done && t.service.flights[f] != s.service.flights[f] ==>
        && OwnsFlight(s.clients, a.c, f) && (a.ModelAnswers? || a.ModelFails?)
        && t.service.flights[f].done && s.service.flights[f].key !in t.service.inflight)
  {
    hide LogMatches, TouchOrdered, Grounded, Registry, Parties, Purge, Find, MoveToEnd, Put, Trim, Drops, HasKey;
    if a.ModelAnswers? || a.ModelFails? {
      OwnerFacts(s, a.c);
    }
  }

  // ----- model runs -----

  lemma {:induction false} LawfulAt(log: seq<Event>, i: nat)
    requires Lawful(log) && i < |log|
    ensures StateOf(log[..i], log[i].key) == StateBefore(log[i])
  {
    var init := log[..|log| - 1];
    if i < |init| {
      LawfulAt(init, i);
      assert init[..i] == log[..i];
    }
  }

  /** A key that is not absent has a last event that put it where it is. */
  lemma {:induction false} LastEvent(log: seq<Event>, key: Key, from: nat) returns (m: nat)
    requires from < |log| && log[from].key == key
    ensures from <= m < |log| && log[m].key == key && AfterEvent(log[m]) == StateOf(log, key)
  {
    if log[|log| - 1].key == key {
      m := |log| - 1;
    } else {
      m := LastEvent(log[..|log| - 1], key, from);
    }
  }

  /** A stored key was computed since the given start. */
  lemma {:induction false} ComputedSince(log: seq<Event>, i: nat, key: Key) returns (m: nat)
    requires Lawful(log) && i < |log| && log[i].Started? && log[i].key == key && StateOf(log, key) == Stored
    ensures i < m < |log| && log[m].Computed? && log[m].key == key
    decreases |log|
  {
    var n := LastEvent(log, key, i);
    if log[n].Computed? {
      m := n;
    } else {
      LawfulAt(log, n);
      LawfulPrefix(log, n);
      m := ComputedSince(log[..n], i, key);
    }
  }

  lemma {:induction false} LawfulPrefix(log: seq<Event>, n: nat)
    requires Lawful(log) && n <= |log|
    ensures Lawful(log[..n])
  {
    if n < |log| {
      LawfulPrefix(log[..|log| - 1], n);
      assert log[..|log| - 1][..n] == log[..n];
    } else {
      assert log[..n] == log;
    }
  }

  predicate IsRemoval(e: Event, key: Key) { e.key == key && (e.Expired? || e.Evicted?) }

  /** Between two runs for a key, the first failed, or it succeeded and then
      its answer expired or was evicted. */
  ghost predicate RunEnded(log: seq<Event>, i: nat, j: nat, key: Key)
    requires j <= |log|
  {
    || (exists m :: i < m < j && log[m] == Broke(key))
    || (exists m, n ::
          i < m < n < j && log[m].Computed? && log[m].key == key && IsRemoval(log[n], key))
  }

  lemma NoRunWhileAnswerKept(cfg: Settings, actions: seq<Action>, s: System, i: nat, j: nat)
    requires Reaches(cfg, actions, s) && i < j < |s.log|
    requires s.log[i].Started? && s.log[j].Started? && s.log[i].key == s.log[j].key
    ensures RunEnded(s.log, i, j, s.log[i].key)
  {
    RunsAreSafe(cfg, actions, s);
    hide Inv, Registry, Parties, Grounded, TouchOrdered, HandlesInRange, StateOf, Lawful;
    LawfulRuns(s.log, i, j);
  }

  lemma LawfulRuns(log: seq<Event>, i: nat, j: nat)
    requires Lawful(log) && i < j < |log|
    requires log[i].Started? && log[j].Started? && log[i].key == log[j].key
    ensures RunEnded(log, i, j, log[i].key)
  {
    hide Lawful, StateOf;
    var key := log[i].key;
    LawfulAt(log, j);
    LawfulPrefix(log, j);
    var n := LastEvent(log[..j], key, i);
    if log[n] != Broke(key) {
      LawfulAt(log, n);
      LawfulPrefix(log, n);
      var m := ComputedSince(log[..n], i, key);
      assert log[m].Computed? && log[m].key == key;
    }
  }

  /** How often a kind of event happened to a key. */
  function Count(log: seq<Event>, key: Key, what: KeyState): nat {
    if log == [] then 0
    else Count(log[..|log| - 1], key, what) + if Leads(log[|log| - 1], key, what) then 1 else 0
  }

  /** The event brings the key into the state from another one. */
  predicate Leads(e: Event, key: Key, to: KeyState) {
    e.key == key && AfterEvent(e) == to && StateBefore(e) != to
  }

  /** Model runs started for a key: each one failed or stored its answer, apart from the one
      still running; each stored answer was dropped once, apart from the one still cached. */
  lemma RunsAreAccountedFor(cfg: Settings, actions: seq<Action>, s: System, key: Key)
    requires Reaches(cfg, actions, s)
    ensures Count(s.log, key, Running)
      == Count(s.log, key, Absent) + if key in s.service.inflight || HasKey(s.service.cache, key) then 1 else 0
    ensures Count(s.log, key, Stored) <= Count(s.log, key, Running)
  {
    RunsAreSafe(cfg, actions, s);
    LawfulCounts(s.log, key);
    hide Registry, Parties, Grounded, TouchOrdered, HandlesInRange, Lawful, Count, HasKey, DistinctKeys;
    assert StateOf(s.log, key) == Stored <==> HasKey(s.service.cache, key);
  }

  lemma {:induction false} LawfulCounts(log: seq<Event>, key: Key)
    requires Lawful(log)
    ensures Count(log, key, Running) == Count(log, key, Absent) + if StateOf(log, key) == Absent then 0 else 1
    ensures Count(log, key, Stored) + (if StateOf(log, key) == Running then 1 else 0) <= Count(log, key, Running)
  {
    if log != [] {
      LawfulCounts(log[..|log| - 1], key);
    }
  }

  // ----- eviction -----

  /** Storing an answer drops entries only when there are too many, exactly the surplus,
      and every dropped key was touched before every kept one. */
  lemma EvictsLeastRecentlyTouched(cfg: Settings, s: System, a: Action)
    requires Inv(cfg, s) && HandlesInRange(s) && a.ModelAnswers? && Enabled(s, a)
    ensures var p, t := PhaseOf(s, a.c), Next(cfg, s, a);
      var entry := Entry(p.key, a.now, p.digest, a.answer);
      var full, log := s.service.cache + [entry], s.log + [Computed(p.key, p.digest, a.answer, a.now)];
      && |t.service.cache| == (if |full| <= cfg.maxEntries then |full| else cfg.maxEntries)
      && (forall e :: e in t.service.cache ==> e in full)
      && (forall gone, kept :: gone in full && gone !in t.service.cache && kept in t.service.cache ==>
        LastTouch(log, gone.key) < LastTouch(log, kept.key))
      && (cfg.maxEntries > 0 ==> entry in t.service.cache)
  {
    var p := PhaseOf(s, a.c);
    var entry := Entry(p.key, a.now, p.digest, a.answer);
    var log := s.log + [Computed(p.key, p.digest, a.answer, a.now)];
    hide Registry, Parties, Grounded, LogMatches, TouchOrdered, Enabled, HandlesInRange;
    AnswerPossible(s, a);
    StoreMatches(cfg, s.service.cache, s.service.inflight, s.log, entry);
    NeverBoth(s.service.cache, s.service.inflight, s.log, p.key);
    StoredCacheFacts(s.service.cache, s.service.inflight, s.log);
    StoreOrdered(cfg, s.service.cache, s.log, entry);
    DropsOldest(s.service.cache + [entry], log, Overflow(s.service.cache + [entry], cfg.maxEntries));
  }

  lemma StoredCacheFacts(cache: Cache, inflight: map<Key, nat>, log: seq<Event>)
    requires LogMatches(cache, inflight, log)
    ensures DistinctKeys(cache)
  {
  }

  lemma DropsOldest(full: Cache, log: seq<Event>, n: nat)
    requires TouchOrdered(full, log) && n <= |full|
    ensures forall e :: e in full[n..] ==> e in full
    ensures forall gone, kept :: gone in full && gone !in full[n..] && kept in full[n..] ==>
      LastTouch(log, gone.key) < LastTouch(log, kept.key)
    ensures n < |full| ==> full[|full| - 1] in full[n..]
  {
    forall x | n <= x < |full| ensures full[x] in full[n..] {
      assert full[n..][x - n] == full[x];
    }
    forall gone, kept | gone in full && gone !in full[n..] && kept in full[n..]
      ensures LastTouch(log, gone.key) < LastTouch(log, kept.key)
    {
      var i :| 0 <= i < |full| && full[i] == gone;
      var j :| 0 <= j < |full[n..]| && full[n..][j] == kept;
      assert full[n + j] == kept;
    }
  }
}
