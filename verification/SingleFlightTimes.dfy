/** The time to live over whole runs: how old a replayed answer can be and when an
    answer expires, by the clock readings of the run itself. */
module SingleFlightTimes {
  import opened Wrappers
  import opened SingleFlight
  import opened SingleFlightRuns
  import opened SingleFlightSafety
  import opened SingleFlightAnswers

  /** When the key's answer was last stored, -1 for never. */
  function LastStore(log: seq<Event>, key: Key): (m: int)
    ensures -1 <= m < |log| && (m >= 0 ==> log[m].Computed? && log[m].key == key)
  {
    if log == [] then -1
    else if log[|log| - 1].Computed? && log[|log| - 1].key == key then |log| - 1
    else LastStore(log[..|log| - 1], key)
  }

  /** The entry is what was last stored for its key, with that moment. */
  ghost predicate DatedEntry(e: Entry, log: seq<Event>) {
    var m := LastStore(log, e.key);
    m >= 0 && log[m] == Computed(e.key, e.digest, e.answer, e.created)
  }

  ghost predicate Dated(cache: Cache, log: seq<Event>) {
    forall e :: e in cache ==> DatedEntry(e, log)
  }

  /** A replay hands out the stored answer within its time to live; only an older one expires. */
  ghost predicate EventOnTime(ttl: int, log: seq<Event>, e: Event) {
    var m := LastStore(log, e.key);
    && (e.Replayed? ==>
          m >= 0 && log[m] == Computed(e.key, e.digest, e.answer, log[m].at) && e.at - log[m].at <= ttl)
    && (e.Expired? ==> m >= 0 && e.at - log[m].at > ttl)
  }

  ghost predicate OnTime(ttl: int, log: seq<Event>) {
    log == [] || (OnTime(ttl, log[..|log| - 1]) && EventOnTime(ttl, log[..|log| - 1], log[|log| - 1]))
  }

  // ----- appending events -----

  lemma StoreOne(log: seq<Event>, e: Event, key: Key, ttl: int)
    ensures LastStore(log + [e], key) == if e.Computed? && e.key == key then |log| else LastStore(log, key)
    ensures OnTime(ttl, log + [e]) <==> OnTime(ttl, log) && EventOnTime(ttl, log, e)
  {
    assert (log + [e])[..|log|] == log;
  }

  lemma OneMoreDated(cache: Cache, log: seq<Event>, e: Event)
    requires Dated(cache, log) && !e.Computed?
    ensures Dated(cache, log + [e])
  {
    hide LastStore;
    forall x | x in cache ensures DatedEntry(x, log + [e]) {
      assert DatedEntry(x, log);
      StoreOne(log, e, x.key, 0);
    }
  }

  /** Removing entries that are old enough, or for lack of room, is on time. */
  lemma {:induction false} DropsOnTime(ttl: int, cache: Cache, log: seq<Event>, gone: Cache, purge: Option<int>)
    requires OnTime(ttl, log) && Dated(cache, log) && Dated(gone, log)
    requires purge.Some? ==> forall e :: e in gone ==> e.created < purge.value - ttl
    ensures OnTime(ttl, log + Drops(gone, purge)) && Dated(cache, log + Drops(gone, purge))
    ensures Dated(gone, log + Drops(gone, purge))
    decreases |gone|
  {
    hide LastStore, OnTime, Dated;
    if gone == [] {
      assert log + Drops(gone, purge) == log;
    } else {
      var init, last := gone[..|gone| - 1], gone[|gone| - 1];
      var before, e := log + Drops(init, purge), Removal(last.key, purge);
      InitDated(gone, log);
      DropsOnTime(ttl, cache, log, init, purge);
      DropsOnTime(ttl, gone, log, init, purge);
      DropsLast(gone, purge);
      assert log + Drops(gone, purge) == before + [e];
      LastOnTime(ttl, before, gone, purge);
      StoreOne(before, e, e.key, ttl);
      OneMoreDated(cache, before, e);
      OneMoreDated(gone, before, e);
    }
  }

  lemma InitDated(gone: Cache, log: seq<Event>)
    requires gone != [] && Dated(gone, log)
    ensures Dated(gone[..|gone| - 1], log)
    ensures forall e :: e in gone[..|gone| - 1] ==> e in gone
  {
    hide DatedEntry;
  }

  lemma LastOnTime(ttl: int, log: seq<Event>, gone: Cache, purge: Option<int>)
    requires gone != [] && Dated(gone, log)
    requires purge.Some? ==> forall e :: e in gone ==> e.created < purge.value - ttl
    ensures EventOnTime(ttl, log, Removal(gone[|gone| - 1].key, purge))
  {
    hide LastStore;
    assert gone[|gone| - 1] in gone;
    assert DatedEntry(gone[|gone| - 1], log);
  }

  // ----- each step keeps the dates -----

  ghost predicate TimesInv(cfg: Settings, s: System) {
    Dated(s.service.cache, s.log) && OnTime(cfg.ttl, s.log)
  }

  lemma PartDated(cache: Cache, part: Cache, log: seq<Event>)
    requires Dated(cache, log) && forall e :: e in part ==> e in cache
    ensures Dated(part, log)
  {
    hide DatedEntry;
  }

  lemma AdmitOnTime(ttl: int, cache: Cache, after: Cache, log: seq<Event>, events: seq<Event>)
    requires OnTime(ttl, log) && Dated(cache, log) && forall e :: e in after ==> e in cache
    requires |events| <= 1
    requires forall e :: e in events ==> e.Started? || (e.Replayed? && exists x :: ReplayOf(e, x, cache, ttl))
    ensures OnTime(ttl, log + events) && Dated(after, log + events)
  {
    hide LastStore, OnTime, Dated;
    PartDated(cache, after, log);
    if events == [] {
      assert log + events == log;
    } else {
      var e := events[0];
      assert events == [e] && e in events;
      StoreOne(log, e, e.key, ttl);
      OneMoreDated(after, log, e);
      if e.Replayed? {
        var x :| ReplayOf(e, x, cache, ttl);
        ReplayOnTime(ttl, cache, log, e, x);
      }
    }
  }

  /** e hands out entry x within its time to live. */
  ghost predicate ReplayOf(e: Event, x: Entry, cache: Cache, ttl: int)
    requires e.Replayed?
  {
    x in cache && x.key == e.key && x.digest == e.digest && x.answer == e.answer && e.at - x.created <= ttl
  }

  lemma ReplayOnTime(ttl: int, cache: Cache, log: seq<Event>, e: Event, x: Entry)
    requires e.Replayed? && Dated(cache, log) && ReplayOf(e, x, cache, ttl)
    ensures EventOnTime(ttl, log, e)
  {
    hide LastStore;
    assert DatedEntry(x, log);
  }

  lemma RequestKeepsTimes(cfg: Settings, s: System, a: Action)
    requires a.Request? && TimesInv(cfg, s) && DistinctKeys(s.service.cache) && HandlesInRange(s) && Enabled(s, a)
    ensures TimesInv(cfg, Next(cfg, s, a))
  {
    hide LastStore, OnTime, Dated, Purge, ExpiredOf, Drops, Enter, DistinctKeys;
    var cutoff, cache := a.now - cfg.ttl, s.service.cache;
    var (admission, service) := Enter(cfg, s.service, a.key, a.digest, a.now);
    var kept, gone := Purge(cache, cutoff), ExpiredOf(cache, cutoff);
    var events := AdmissionEvents(a.key, a.digest, admission, a.now);
    ExpiredAndKept(cache, cutoff);
    PartDated(cache, gone, s.log);
    PartDated(cache, kept, s.log);
    DropsOnTime(cfg.ttl, kept, s.log, gone, Some(a.now));
    AdmittedFromKept(cfg, s.service, a.key, a.digest, a.now);
    AdmitOnTime(cfg.ttl, kept, service.cache, s.log + Drops(gone, Some(a.now)), events);
  }

  /** What admission leaves in the cache and replays is among the entries the purge keeps. */
  lemma AdmittedFromKept(cfg: Settings, s: Service, key: Key, digest: Digest, now: int)
    requires DistinctKeys(s.cache)
    requires key in s.inflight ==> s.inflight[key] < |s.flights|
    ensures var (admission, t) := Enter(cfg, s, key, digest, now);
      var kept, events := Purge(s.cache, now - cfg.ttl), AdmissionEvents(key, digest, admission, now);
      && |events| <= 1 && (forall e :: e in t.cache ==> e in kept)
      && (forall e :: e in events ==> e.Started? || (e.Replayed? && exists x :: ReplayOf(e, x, kept, cfg.ttl)))
  {
    hide Purge, HasKey, MoveToEnd, Find, DistinctKeys;
    var kept := Purge(s.cache, now - cfg.ttl);
    PurgeKeeps(s.cache, now - cfg.ttl);
    var i := Find(kept, key);
    if i < |kept| {
      assert kept[i] in kept;
      forall e ensures e in MoveToEnd(kept, i) <==> e in kept {
        MoveToEndEntries(kept, i, e);
      }
      assert kept[i].digest == digest ==>
        ReplayOf(Replayed(key, digest, kept[i].answer, now), kept[i], kept, cfg.ttl);
    }
  }

  lemma StoreKeepsDates(cache: Cache, log: seq<Event>, entry: Entry, ttl: int)
    requires Dated(cache, log) && !HasKey(cache, entry.key) && OnTime(ttl, log)
    ensures var done := Computed(entry.key, entry.digest, entry.answer, entry.created);
      Dated(cache + [entry], log + [done]) && OnTime(ttl, log + [done])
  {
    hide LastStore, OnTime;
    var done := Computed(entry.key, entry.digest, entry.answer, entry.created);
    forall e | e in cache + [entry] ensures DatedEntry(e, log + [done]) {
      StoreOne(log, done, e.key, ttl);
      if e in cache {
        assert DatedEntry(e, log);
        var i :| 0 <= i < |cache| && cache[i] == e;
        assert HasKey(cache, e.key);
      }
    }
    StoreOne(log, done, entry.key, ttl);
  }

  lemma AnswerKeepsTimes(cfg: Settings, s: System, a: Action)
    requires a.ModelAnswers? && TimesInv(cfg, s) && HandlesInRange(s) && Enabled(s, a)
    requires LogMatches(s.service.cache, s.service.inflight, s.log) && PhaseOf(s, a.c).key in s.service.inflight
    requires var p := PhaseOf(s, a.c);
      s.service.flights[p.flight].key == p.key && s.service.flights[p.flight].digest == p.digest
    ensures TimesInv(cfg, Next(cfg, s, a))
  {
    var p, cache := PhaseOf(s, a.c), s.service.cache;
    var entry := Entry(p.key, a.now, p.digest, a.answer);
    var full, log := cache + [entry], s.log + [Computed(p.key, p.digest, a.answer, a.now)];
    NeverBoth(cache, s.service.inflight, s.log, p.key);
    hide LastStore, OnTime, Dated, LogMatches, Drops, HasKey;
    StoreMatches(cfg, cache, s.service.inflight, s.log, entry);
    StoreKeepsDates(cache, s.log, entry, cfg.ttl);
    var n := Overflow(full, cfg.maxEntries);
    PartDated(full, full[..n], log);
    PartDated(full, full[n..], log);
    DropsOnTime(cfg.ttl, full[n..], log, full[..n], None);
  }

  lemma FailureKeepsTimes(cfg: Settings, s: System, a: Action)
    requires a.ModelFails? && TimesInv(cfg, s) && HandlesInRange(s) && Enabled(s, a)
    ensures TimesInv(cfg, Next(cfg, s, a))
  {
    hide LastStore, OnTime, Dated;
    var e := Broke(PhaseOf(s, a.c).key);
    OneMoreDated(s.service.cache, s.log, e);
    StoreOne(s.log, e, e.key, cfg.ttl);
  }

  lemma StepKeepsTimes(cfg: Settings, s: System, a: Action)
    requires Inv(cfg, s) && TimesInv(cfg, s) && HandlesInRange(s) && Enabled(s, a)
    ensures TimesInv(cfg, Next(cfg, s, a))
  {
    hide Registry, Parties, Grounded, LogMatches, TouchOrdered, HandlesInRange, Enabled, TimesInv, Enter, Succeed,
      Fail, Drops;
    match a
    case Request(_, _, _, _) =>
      StoredCacheFacts(s.service.cache, s.service.inflight, s.log);
      RequestKeepsTimes(cfg, s, a);
    case ModelAnswers(_, _, _) =>
      AnswerPossible(s, a);
      AnswerKeepsTimes(cfg, s, a);
    case ModelFails(_, _) => FailureKeepsTimes(cfg, s, a);
    case Wake(_) => SameStore(cfg, s, Next(cfg, s, a));
    case GiveUp(_) => SameStore(cfg, s, Next(cfg, s, a));
  }

  lemma SameStore(cfg: Settings, s: System, t: System)
    requires TimesInv(cfg, s) && t.service == s.service && t.log == s.log
    ensures TimesInv(cfg, t)
  {
  }

  lemma {:induction false} RunsKeepTimes(cfg: Settings, actions: seq<Action>, s: System)
    requires Reaches(cfg, actions, s)
    ensures TimesInv(cfg, s)
  {
    hide Inv, Next, Enabled, HandlesInRange;
    if actions != [] {
      var init, last := actions[..|actions| - 1], actions[|actions| - 1];
      var before: System :| Reaches(cfg, init, before)
        && HandlesInRange(before) && Enabled(before, last) && s == Next(cfg, before, last);
      RunsAreSafe(cfg, init, before);
      RunsKeepTimes(cfg, init, before);
      StepKeepsTimes(cfg, before, last);
    }
  }

  // ----- what that means for a run -----

  /** Event m stored the answer of a key, which nothing but replays happened to up to event i. */
  ghost predicate KeptSince(log: seq<Event>, m: int, i: nat, key: Key) {
    && 0 <= m < i <= |log| && log[m].Computed? && log[m].key == key
    && forall j :: m < j < i && log[j].key == key ==> log[j].Replayed?
  }

  /** Event i replays what event m stored, at most the time to live later. */
  ghost predicate ReplayedInTime(log: seq<Event>, m: int, i: nat, ttl: int)
    requires i < |log| && log[i].Replayed?
  {
    && KeptSince(log, m, i, log[i].key)
    && log[m].digest == log[i].digest && log[m].answer == log[i].answer && log[i].at - log[m].at <= ttl
  }

  /** Event i drops what event m stored, more than the time to live later. */
  ghost predicate ExpiredLate(log: seq<Event>, m: int, i: nat, ttl: int)
    requires i < |log| && log[i].Expired?
  {
    KeptSince(log, m, i, log[i].key) && log[i].at - log[m].at > ttl
  }

  lemma {:induction false} StoredIsKept(log: seq<Event>, key: Key)
    requires Lawful(log) && StateOf(log, key) == Stored
    ensures KeptSince(log, LastStore(log, key), |log|, key)
  {
    var init, last := log[..|log| - 1], log[|log| - 1];
    if last.key != key || last.Replayed? {
      StoredIsKept(init, key);
    }
  }

  lemma {:induction false} OnTimeAt(ttl: int, log: seq<Event>, i: nat)
    requires OnTime(ttl, log) && i < |log|
    ensures EventOnTime(ttl, log[..i], log[i])
  {
    var init := log[..|log| - 1];
    if i < |init| {
      OnTimeAt(ttl, init, i);
      assert init[..i] == log[..i];
    }
  }

  lemma LogIsOnTime(ttl: int, log: seq<Event>, i: nat) returns (m: int)
    requires Lawful(log) && OnTime(ttl, log) && i < |log| && (log[i].Replayed? || log[i].Expired?)
    ensures log[i].Replayed? ==> ReplayedInTime(log, m, i, ttl)
    ensures log[i].Expired? ==> ExpiredLate(log, m, i, ttl)
  {
    hide StateOf, Lawful, LastStore, OnTime, KeptSince;
    var e := log[i];
    LawfulAt(log, i);
    LawfulPrefix(log, i);
    OnTimeAt(ttl, log, i);
    m := LastStore(log[..i], e.key);
    StoredIsKept(log[..i], e.key);
    PrefixKept(log, m, i, e.key);
  }

  lemma ReachableLog(cfg: Settings, actions: seq<Action>, s: System)
    requires Reaches(cfg, actions, s)
    ensures Lawful(s.log) && OnTime(cfg.ttl, s.log)
  {
    hide Reaches, Registry, Parties, Grounded, TouchOrdered, HandlesInRange, StateOf, Lawful, OnTime, Dated;
    RunsAreSafe(cfg, actions, s);
    RunsKeepTimes(cfg, actions, s);
  }

  /** In every run, a replayed answer was stored at most the time to live before that clock reading and has been kept
      since; and an answer expires only at a reading more than the time to live after it was stored. */
  lemma AnswersAreOnTime(cfg: Settings, actions: seq<Action>, s: System, i: nat)
    requires Reaches(cfg, actions, s) && i < |s.log|
    ensures s.log[i].Replayed? ==> exists m :: ReplayedInTime(s.log, m, i, cfg.ttl)
    ensures s.log[i].Expired? ==> exists m :: ExpiredLate(s.log, m, i, cfg.ttl)
  {
    hide Reaches, Lawful, OnTime, ReplayedInTime, ExpiredLate;
    ReachableLog(cfg, actions, s);
    if s.log[i].Replayed? || s.log[i].Expired? {
      var m := LogIsOnTime(cfg.ttl, s.log, i);
    }
  }

  lemma PrefixKept(log: seq<Event>, m: int, i: nat, key: Key)
    requires i <= |log| && KeptSince(log[..i], m, i, key)
    ensures KeptSince(log, m, i, key) && 0 <= m < i && log[m] == log[..i][m]
  {
    forall j | m < j < i && log[j].key == key ensures log[j].Replayed? {
      assert log[..i][j] == log[j];
    }
  }
}
