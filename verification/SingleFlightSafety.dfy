/** Every step keeps the invariant, so every reachable state has it; and what
    the invariant says about runs, answers, freshness and eviction. */
module SingleFlightSafety {
  import opened Wrappers
  import opened SingleFlight
  import opened SingleFlightRuns

  // ----- appending to the log -----

  lemma AppendOne(log: seq<Event>, e: Event, key: Key)
    ensures StateOf(log + [e], key) == if e.key == key then AfterEvent(e) else StateOf(log, key)
    ensures LastTouch(log + [e], key) == if Touches(e, key) then |log| else LastTouch(log, key)
    ensures Lawful(log + [e]) <==> Lawful(log) && StateOf(log, e.key) == StateBefore(e)
  {
    assert (log + [e])[..|log|] == log;
  }

  lemma {:induction false} LastTouchBound(log: seq<Event>, key: Key)
    ensures -1 <= LastTouch(log, key) < |log|
  {
    if log != [] {
      LastTouchBound(log[..|log| - 1], key);
    }
  }

  lemma DropsLast(entries: Cache, purge: Option<int>)
    requires entries != []
    ensures var last := entries[|entries| - 1].key;
      Drops(entries, purge)
        == Drops(entries[..|entries| - 1], purge) + [Removal(last, purge)]
  {
  }

  lemma HasKeyLast(entries: Cache, key: Key)
    requires entries != []
    ensures HasKey(entries, key) <==> entries[|entries| - 1].key == key || HasKey(entries[..|entries| - 1], key)
  {
    var init := entries[..|entries| - 1];
    if HasKey(entries, key) && entries[|entries| - 1].key != key {
      var i :| 0 <= i < |entries| && entries[i].key == key;
      assert init[i].key == key;
    }
  }

  /** Removing stored keys is lawful and leaves exactly them absent. */
  lemma {:induction false} AppendDrops(log: seq<Event>, entries: Cache, purge: Option<int>)
    requires Lawful(log) && DistinctKeys(entries)
    requires forall i :: 0 <= i < |entries| ==> StateOf(log, entries[i].key) == Stored
    ensures Lawful(log + Drops(entries, purge))
    ensures forall k ::
      StateOf(log + Drops(entries, purge), k) == if HasKey(entries, k) then Absent else StateOf(log, k)
    ensures forall k :: LastTouch(log + Drops(entries, purge), k) == LastTouch(log, k)
  {
    hide Lawful, StateOf, LastTouch, HasKey;
    if entries == [] {
      assert log + Drops(entries, purge) == log;
      forall k ensures !HasKey(entries, k) { NoKeyInEmpty(k); }
    } else {
      var init := entries[..|entries| - 1];
      var last := entries[|entries| - 1].key;
      var before := log + Drops(init, purge);
      var e := Removal(last, purge);
      AppendDrops(log, init, purge);
      DropsLast(entries, purge);
      assert log + Drops(entries, purge) == before + [e];
      NotInInit(entries);
      AppendOne(before, e, last);
      forall k
        ensures StateOf(before + [e], k) == if HasKey(entries, k) then Absent else StateOf(log, k)
        ensures LastTouch(before + [e], k) == LastTouch(log, k)
      {
        AppendOne(before, e, k);
        HasKeyLast(entries, k);
      }
    }
  }

  lemma NoKeyInEmpty(key: Key)
    ensures !HasKey([], key)
  {
  }

  lemma NotInInit(entries: Cache)
    requires entries != [] && DistinctKeys(entries)
    ensures !HasKey(entries[..|entries| - 1], entries[|entries| - 1].key)
  {
  }

  // ----- the purge, seen from the log -----

  lemma {:induction false} ExpiredHolds(cache: Cache, cutoff: int)
    ensures forall e :: e in ExpiredOf(cache, cutoff) <==> e in cache && e.created < cutoff
  {
    if cache != [] {
      ExpiredHolds(cache[1..], cutoff);
      assert cache == [cache[0]] + cache[1..];
    }
  }

  lemma {:induction false} ExpiredIsDistinct(cache: Cache, cutoff: int)
    requires DistinctKeys(cache)
    ensures DistinctKeys(ExpiredOf(cache, cutoff))
  {
    if cache != [] {
      ExpiredIsDistinct(cache[1..], cutoff);
      ExpiredHolds(cache[1..], cutoff);
      var rest := ExpiredOf(cache[1..], cutoff);
      forall j | 0 <= j < |rest| ensures rest[j].key != cache[0].key {
        assert rest[j] in cache[1..];
      }
    }
  }

  lemma ExpiredAndKept(cache: Cache, cutoff: int)
    requires DistinctKeys(cache)
    ensures DistinctKeys(ExpiredOf(cache, cutoff)) && DistinctKeys(Purge(cache, cutoff))
    ensures forall e :: e in ExpiredOf(cache, cutoff) <==> e in cache && e.created < cutoff
    ensures forall e :: e in Purge(cache, cutoff) <==> e in cache && e.created >= cutoff
    ensures |Purge(cache, cutoff)| <= |cache|
  {
    hide ExpiredOf, Purge;
    PurgeKeeps(cache, cutoff);
    ExpiredIsDistinct(cache, cutoff);
    ExpiredHolds(cache, cutoff);
  }

  lemma SameKeySameEntry(cache: Cache, a: Entry, b: Entry)
    requires DistinctKeys(cache) && a in cache && b in cache && a.key == b.key
    ensures a == b
  {
  }

  lemma KeyOfEntry(cache: Cache, key: Key)
    ensures HasKey(cache, key) <==> exists e :: e in cache && e.key == key
  {
    if HasKey(cache, key) {
      var i :| 0 <= i < |cache| && cache[i].key == key;
      assert cache[i] in cache;
    }
  }

  lemma ExpiredKeysApart(cache: Cache, cutoff: int, key: Key)
    requires DistinctKeys(cache)
    ensures HasKey(Purge(cache, cutoff), key) <==> HasKey(cache, key) && !HasKey(ExpiredOf(cache, cutoff), key)
    ensures HasKey(ExpiredOf(cache, cutoff), key) ==> HasKey(cache, key)
  {
    hide HasKey, DistinctKeys;
    var kept, gone := Purge(cache, cutoff), ExpiredOf(cache, cutoff);
    ExpiredAndKept(cache, cutoff);
    KeyOfEntry(cache, key);
    KeyOfEntry(kept, key);
    KeyOfEntry(gone, key);
    if HasKey(kept, key) && HasKey(gone, key) {
      var a :| a in kept && a.key == key;
      var b :| b in gone && b.key == key;
      SameKeySameEntry(cache, a, b);
    }
  }

  lemma PurgeMatches(cache: Cache, inflight: map<Key, nat>, log: seq<Event>, cutoff: int, now: int)
    requires LogMatches(cache, inflight, log)
    ensures LogMatches(Purge(cache, cutoff), inflight, log + Drops(ExpiredOf(cache, cutoff), Some(now)))
  {
    hide Lawful, StateOf, HasKey, DistinctKeys;
    var gone := ExpiredOf(cache, cutoff);
    ExpiredAndKept(cache, cutoff);
    forall i | 0 <= i < |gone| ensures StateOf(log, gone[i].key) == Stored {
      KeyOfEntry(gone, gone[i].key);
      assert gone[i] in gone;
      ExpiredKeysApart(cache, cutoff, gone[i].key);
    }
    AppendDrops(log, gone, Some(now));
    forall k
      ensures HasKey(Purge(cache, cutoff), k) <==> HasKey(cache, k) && !HasKey(gone, k)
      ensures HasKey(gone, k) ==> HasKey(cache, k)
    {
      ExpiredKeysApart(cache, cutoff, k);
    }
  }

  lemma {:induction false} PurgeOrdered(cache: Cache, log: seq<Event>, cutoff: int)
    requires TouchOrdered(cache, log) && DistinctKeys(cache)
    ensures TouchOrdered(Purge(cache, cutoff), log)
  {
    hide LastTouch;
    if cache != [] {
      var rest := Purge(cache[1..], cutoff);
      PurgeOrdered(cache[1..], log, cutoff);
      ExpiredAndKept(cache[1..], cutoff);
      forall j | 0 <= j < |rest| ensures LastTouch(log, cache[0].key) < LastTouch(log, rest[j].key) {
        assert rest[j] in rest;
        assert rest[j] in cache[1..];
      }
    }
  }

  // ----- replaying and storing -----

  lemma MoveToEndKeys(cache: Cache, i: nat, key: Key)
    requires i < |cache|
    ensures HasKey(MoveToEnd(cache, i), key) <==> HasKey(cache, key)
    ensures DistinctKeys(cache) ==> DistinctKeys(MoveToEnd(cache, i))
  {
    var moved := MoveToEnd(cache, i);
    if HasKey(cache, key) {
      var j :| 0 <= j < |cache| && cache[j].key == key;
      assert moved[if j < i then j else if j == i then |cache| - 1 else j - 1].key == key;
    }
  }

  lemma ReplayMatches(cache: Cache, inflight: map<Key, nat>, log: seq<Event>, i: nat, e: Event)
    requires LogMatches(cache, inflight, log) && i < |cache| && e.Replayed? && e.key == cache[i].key
    ensures LogMatches(MoveToEnd(cache, i), inflight, log + [e])
  {
    hide Lawful, StateOf, LastTouch, MoveToEnd;
    assert HasKey(cache, cache[i].key);
    AppendOne(log, e, e.key);
    hide HasKey;
    MoveToEndKeys(cache, i, e.key);
    forall k
      ensures HasKey(MoveToEnd(cache, i), k) <==> HasKey(cache, k)
      ensures StateOf(log + [e], k) == StateOf(log, k)
    {
      MoveToEndKeys(cache, i, k);
      AppendOne(log, e, k);
    }
  }

  lemma ReplayOrdered(cache: Cache, log: seq<Event>, i: nat, e: Event)
    requires TouchOrdered(cache, log) && DistinctKeys(cache) && i < |cache| && e.Replayed? && e.key == cache[i].key
    ensures TouchOrdered(MoveToEnd(cache, i), log + [e])
  {
    hide LastTouch, StateOf, Lawful;
    var moved := MoveToEnd(cache, i);
    forall a, b | 0 <= a < b < |moved|
      ensures LastTouch(log + [e], moved[a].key) < LastTouch(log + [e], moved[b].key)
    {
      AppendOne(log, e, moved[a].key);
      AppendOne(log, e, moved[b].key);
      LastTouchBound(log, moved[a].key);
    }
  }

  lemma OwnMatches(cache: Cache, inflight: map<Key, nat>, log: seq<Event>, key: Key, digest: Digest, f: nat)
    requires LogMatches(cache, inflight, log) && !HasKey(cache, key) && key !in inflight
    ensures LogMatches(cache, inflight[key := f], log + [Started(key, digest)])
  {
    hide Lawful, StateOf, LastTouch, HasKey, DistinctKeys;
    var e := Started(key, digest);
    AppendOne(log, e, key);
    forall k ensures StateOf(log + [e], k) == if k == key then Running else StateOf(log, k) {
      AppendOne(log, e, k);
    }
  }

  lemma NeutralOrdered(cache: Cache, log: seq<Event>, e: Event)
    requires TouchOrdered(cache, log) && !e.Computed? && !e.Replayed?
    ensures TouchOrdered(cache, log + [e])
  {
    hide LastTouch, StateOf, Lawful;
    forall i | 0 <= i < |cache| ensures LastTouch(log + [e], cache[i].key) == LastTouch(log, cache[i].key) {
      AppendOne(log, e, cache[i].key);
    }
  }

  /** Storing the answer of a running key appends it and drops a prefix. */
  lemma StoreMatches(cfg: Settings, cache: Cache, inflight: map<Key, nat>, log: seq<Event>, entry: Entry)
    requires LogMatches(cache, inflight, log) && entry.key in inflight
    ensures var full, gone := cache + [entry], PushedOut(cfg, cache, entry);
      && Put(cache, entry) == full
      && LogMatches(Trim(full, cfg.maxEntries), inflight - {entry.key},
                    log + [Computed(entry.key, entry.digest, entry.answer, entry.created)] + Drops(gone, None))
  {
    var e := Computed(entry.key, entry.digest, entry.answer, entry.created);
    var full := cache + [entry];
    assert !HasKey(cache, entry.key);
    assert Put(cache, entry) == full;
    NewKeyDistinct(cache, entry);
    hide Lawful, StateOf, LastTouch, HasKey, DistinctKeys;
    AppendOne(log, e, entry.key);
    forall k
      ensures StateOf(log + [e], k) == if k == entry.key then Stored else StateOf(log, k)
      ensures HasKey(full, k) <==> k == entry.key || HasKey(cache, k)
    {
      AppendOne(log, e, k);
      assert full[..|full| - 1] == cache;
      HasKeyLast(full, k);
    }
    assert LogMatches(full, inflight - {entry.key}, log + [e]);
    TrimMatches(cfg, full, inflight - {entry.key}, log + [e]);
  }

  lemma NewKeyDistinct(cache: Cache, entry: Entry)
    requires DistinctKeys(cache) && !HasKey(cache, entry.key)
    ensures DistinctKeys(cache + [entry])
  {
  }

  lemma SplitKeys(cache: Cache, n: nat, key: Key)
    requires n <= |cache| && DistinctKeys(cache)
    ensures DistinctKeys(cache[..n]) && DistinctKeys(cache[n..])
    ensures HasKey(cache[n..], key) <==> HasKey(cache, key) && !HasKey(cache[..n], key)
    ensures HasKey(cache[..n], key) ==> HasKey(cache, key)
  {
    if HasKey(cache, key) && !HasKey(cache[..n], key) {
      var i :| 0 <= i < |cache| && cache[i].key == key;
      forall j | 0 <= j < n ensures cache[j].key != key {
        assert cache[..n][j] == cache[j];
      }
      assert cache[n..][i - n].key == key;
    }
  }

  lemma TrimMatches(cfg: Settings, cache: Cache, inflight: map<Key, nat>, log: seq<Event>)
    requires LogMatches(cache, inflight, log)
    ensures LogMatches(Trim(cache, cfg.maxEntries), inflight,
                       log + Drops(cache[..Overflow(cache, cfg.maxEntries)], None))
  {
    hide Lawful, StateOf, HasKey, DistinctKeys;
    var n := Overflow(cache, cfg.maxEntries);
    var gone := cache[..n];
    forall k
      ensures HasKey(cache[n..], k) <==> HasKey(cache, k) && !HasKey(gone, k)
      ensures HasKey(gone, k) ==> HasKey(cache, k)
      ensures DistinctKeys(gone) && DistinctKeys(cache[n..])
    {
      SplitKeys(cache, n, k);
    }
    forall i | 0 <= i < |gone| ensures StateOf(log, gone[i].key) == Stored {
      assert gone[i] in gone;
      KeyOfEntry(gone, gone[i].key);
    }
    SplitKeys(cache, n, "");
    AppendDrops(log, gone, None);
  }

  lemma StoreOrdered(cfg: Settings, cache: Cache, log: seq<Event>, entry: Entry)
    requires TouchOrdered(cache, log) && DistinctKeys(cache) && !HasKey(cache, entry.key)
    ensures TouchOrdered(cache + [entry], log + [Computed(entry.key, entry.digest, entry.answer, entry.created)])
  {
    hide LastTouch, StateOf, Lawful;
    var full, e := cache + [entry], Computed(entry.key, entry.digest, entry.answer, entry.created);
    forall a, b | 0 <= a < b < |full|
      ensures LastTouch(log + [e], full[a].key) < LastTouch(log + [e], full[b].key)
    {
      assert HasKey(cache, cache[a].key);
      AppendOne(log, e, full[a].key);
      AppendOne(log, e, full[b].key);
      LastTouchBound(log, full[a].key);
    }
  }

  lemma DropsOrdered(cache: Cache, log: seq<Event>, entries: Cache, purge: Option<int>)
    requires TouchOrdered(cache, log) && Lawful(log) && DistinctKeys(entries)
    requires forall i :: 0 <= i < |entries| ==> StateOf(log, entries[i].key) == Stored
    ensures TouchOrdered(cache, log + Drops(entries, purge))
  {
    hide LastTouch, StateOf, Lawful;
    AppendDrops(log, entries, purge);
  }

  // ----- each step keeps the invariant -----

  /** The cache, its order and the log after one step. */
  ghost predicate StoreInv(cfg: Settings, s: System) {
    && LogMatches(s.service.cache, s.service.inflight, s.log)
    && |s.service.cache| <= cfg.maxEntries
    && TouchOrdered(s.service.cache, s.log)
  }

  lemma PurgeStep(cfg: Settings, s: System, cutoff: int, now: int)
    requires StoreInv(cfg, s)
    ensures var cache, log := Purge(s.service.cache, cutoff),
        s.log + Drops(ExpiredOf(s.service.cache, cutoff), Some(now));
      LogMatches(cache, s.service.inflight, log) && |cache| <= cfg.maxEntries && TouchOrdered(cache, log)
  {
    hide Lawful, StateOf, HasKey, DistinctKeys, TouchOrdered;
    var cache, gone := s.service.cache, ExpiredOf(s.service.cache, cutoff);
    PurgeMatches(cache, s.service.inflight, s.log, cutoff, now);
    PurgeOrdered(cache, s.log, cutoff);
    ExpiredAndKept(cache, cutoff);
    forall i | 0 <= i < |gone| ensures StateOf(s.log, gone[i].key) == Stored {
      assert gone[i] in gone;
      KeyOfEntry(cache, gone[i].key);
    }
    DropsOrdered(Purge(cache, cutoff), s.log, gone, Some(now));
  }

  lemma RequestKeepsStore(cfg: Settings, s: System, a: Action)
    requires a.Request? && StoreInv(cfg, s) && HandlesInRange(s) && Enabled(s, a)
    ensures StoreInv(cfg, Next(cfg, s, a))
  {
    hide Lawful, StateOf, HasKey, LastTouch, ExpiredOf, Purge, LogMatches, TouchOrdered, Drops;
    var cutoff := a.now - cfg.ttl;
    var cache, log := Purge(s.service.cache, cutoff), s.log + Drops(ExpiredOf(s.service.cache, cutoff), Some(a.now));
    PurgeStep(cfg, s, cutoff, a.now);
    AdmitKeepsStore(cache, s.service.inflight, log, a.key, a.digest, |s.service.flights|, a.now);
    assert log + [] == log;
  }

  lemma AdmitKeepsStore(cache: Cache, inflight: map<Key, nat>, log: seq<Event>, key: Key, digest: Digest, f: nat,
      now: int)
    requires LogMatches(cache, inflight, log) && TouchOrdered(cache, log)
    ensures var i := Find(cache, key);
      if i < |cache| then
        var e := Replayed(key, digest, cache[i].answer, now);
        LogMatches(MoveToEnd(cache, i), inflight, log + [e]) && TouchOrdered(MoveToEnd(cache, i), log + [e])
      else
        key in inflight || (LogMatches(cache, inflight[key := f], log + [Started(key, digest)])
                            && TouchOrdered(cache, log + [Started(key, digest)]))
  {
    hide Lawful, StateOf, HasKey, LastTouch, TouchOrdered;
    var i := Find(cache, key);
    if i < |cache| {
      var e := Replayed(key, digest, cache[i].answer, now);
      ReplayMatches(cache, inflight, log, i, e);
      ReplayOrdered(cache, log, i, e);
    } else if key !in inflight {
      OwnMatches(cache, inflight, log, key, digest, f);
      NeutralOrdered(cache, log, Started(key, digest));
    }
  }

  lemma AnswerKeepsStore(cfg: Settings, s: System, a: Action)
    requires a.ModelAnswers? && StoreInv(cfg, s) && HandlesInRange(s) && Enabled(s, a)
    requires PhaseOf(s, a.c).key in s.service.inflight
    requires var p := PhaseOf(s, a.c);
      s.service.flights[p.flight].key == p.key && s.service.flights[p.flight].digest == p.digest
    ensures StoreInv(cfg, Next(cfg, s, a))
  {
    var p := PhaseOf(s, a.c);
    var entry := Entry(p.key, a.now, p.digest, a.answer);
    var cache, log := s.service.cache, s.log + [Computed(p.key, p.digest, a.answer, a.now)];
    var gone := PushedOut(cfg, cache, entry);
    assert !HasKey(cache, p.key);
    hide Lawful, StateOf, HasKey, LastTouch;
    StoreMatches(cfg, cache, s.service.inflight, s.log, entry);
    StoreOrdered(cfg, cache, s.log, entry);
    SuffixOrdered(cache + [entry], log, Overflow(cache + [entry], cfg.maxEntries));
    PushedOutStored(cfg, cache, s.service.inflight, s.log, entry);
    DropsOrdered(Trim(cache + [entry], cfg.maxEntries), log, gone, None);
  }

  lemma SuffixOrdered(cache: Cache, log: seq<Event>, n: nat)
    requires TouchOrdered(cache, log) && n <= |cache|
    ensures TouchOrdered(cache[n..], log)
  {
  }

  /** Whatever is pushed out was stored, so its removal is lawful. */
  lemma PushedOutStored(cfg: Settings, cache: Cache, inflight: map<Key, nat>, log: seq<Event>, entry: Entry)
    requires LogMatches(cache, inflight, log) && entry.key in inflight
    ensures var gone, after := PushedOut(cfg, cache, entry),
        log + [Computed(entry.key, entry.digest, entry.answer, entry.created)];
      && Lawful(after) && DistinctKeys(gone)
      && forall i :: 0 <= i < |gone| ==> StateOf(after, gone[i].key) == Stored
  {
    var e := Computed(entry.key, entry.digest, entry.answer, entry.created);
    var gone := PushedOut(cfg, cache, entry);
    assert !HasKey(cache, entry.key);
    NewKeyDistinct(cache, entry);
    hide Lawful, StateOf, LastTouch;
    AppendOne(log, e, entry.key);
    forall i | 0 <= i < |gone| ensures StateOf(log + [e], gone[i].key) == Stored {
      AppendOne(log, e, gone[i].key);
      assert i < |cache| ==> HasKey(cache, cache[i].key);
    }
  }

  lemma FailureKeepsStore(cfg: Settings, s: System, a: Action)
    requires a.ModelFails? && StoreInv(cfg, s) && HandlesInRange(s) && Enabled(s, a)
    requires PhaseOf(s, a.c).key in s.service.inflight
    requires var p := PhaseOf(s, a.c); s.service.flights[p.flight].key == p.key
    ensures StoreInv(cfg, Next(cfg, s, a))
  {
    hide Lawful, StateOf, HasKey, LastTouch;
    var e := Broke(PhaseOf(s, a.c).key);
    NeutralOrdered(s.service.cache, s.log, e);
    AppendOne(s.log, e, e.key);
    forall k ensures StateOf(s.log + [e], k) == if k == e.key then Absent else StateOf(s.log, k) {
      AppendOne(s.log, e, k);
    }
  }

  lemma OwnKeepsRegistry(inflight: map<Key, nat>, flights: seq<Flight>, key: Key, digest: Digest)
    requires Registry(inflight, flights) && key !in inflight
    ensures Registry(inflight[key := |flights|], flights + [Flight(key, digest, false, None, None)])
  {
  }

  lemma SettleKeepsRegistry(inflight: map<Key, nat>, flights: seq<Flight>, f: nat, settled: Flight)
    requires Registry(inflight, flights) && f < |flights| && !flights[f].done
    requires settled.done && settled.key == flights[f].key && settled.result.Some? != settled.error.Some?
    ensures Registry(inflight - {settled.key}, flights[f := settled])
  {
  }

  /** A step that leaves the records alone and gives a client who owned none a phase that owns none. */
  lemma JoinKeepsParties(clients: map<Client, Phase>, flights: seq<Flight>, c: Client, phase: Phase)
    requires Parties(clients, flights)
    requires c in clients ==> !clients[c].Owning?
    requires !phase.Owning? && HoldsFlight(phase, flights)
    ensures Parties(clients[c := phase], flights)
  {
    hide HoldsFlight;
    var after := clients[c := phase];
    assert forall d, f :: OwnsFlight(after, d, f) <==> OwnsFlight(clients, d, f);
    forall f | 0 <= f < |flights| && !flights[f].done ensures exists d :: OwnsFlight(after, d, f) {
      var d :| OwnsFlight(clients, d, f);
      assert OwnsFlight(after, d, f);
    }
  }

  lemma OwnKeepsParties(clients: map<Client, Phase>, flights: seq<Flight>, c: Client, key: Key, digest: Digest)
    requires Parties(clients, flights)
    requires c in clients ==> !clients[c].Owning?
    ensures Parties(clients[c := Owning(key, digest, |flights|)], flights + [Flight(key, digest, false, None, None)])
  {
    var after, more := clients[c := Owning(key, digest, |flights|)], flights + [Flight(key, digest, false, None, None)];
    forall d | d in clients && d != c ensures HoldsFlight(after[d], more) {
      assert HoldsFlight(clients[d], flights);
    }
    assert forall d, f :: d != c ==> (OwnsFlight(after, d, f) <==> OwnsFlight(clients, d, f));
    forall d, f: nat | d in clients && OwnsFlight(clients, d, f) ensures f < |flights| {
      assert HoldsFlight(clients[d], flights);
    }
    forall f | 0 <= f < |more| && !more[f].done ensures exists d :: OwnsFlight(after, d, f) {
      if f < |flights| {
        var d :| OwnsFlight(clients, d, f);
        assert OwnsFlight(after, d, f);
      } else {
        assert OwnsFlight(after, c, f);
      }
    }
  }

  lemma SettleKeepsParties(clients: map<Client, Phase>, flights: seq<Flight>, c: Client, settled: Flight, phase: Phase)
    requires Parties(clients, flights) && c in clients && clients[c].Owning? && phase.Replied?
    requires clients[c].flight < |flights| && settled.done
    requires settled.key == flights[clients[c].flight].key && settled.digest == flights[clients[c].flight].digest
    ensures Parties(clients[c := phase], flights[clients[c].flight := settled])
  {
    var g := clients[c].flight;
    var after, done := clients[c := phase], flights[g := settled];
    assert OwnsFlight(clients, c, g);
    assert forall d, f :: d != c ==> (OwnsFlight(after, d, f) <==> OwnsFlight(clients, d, f));
    assert forall f :: !OwnsFlight(after, c, f);
    forall d | d in after ensures HoldsFlight(after[d], done) {
      assert d != c ==> HoldsFlight(clients[d], flights);
      if d != c && clients[d].Owning? {
        assert OwnsFlight(clients, d, clients[d].flight);
      }
    }
    forall f | 0 <= f < |done| && !done[f].done ensures exists d :: OwnsFlight(after, d, f) {
      var d :| OwnsFlight(clients, d, f);
      assert OwnsFlight(after, d, f);
    }
  }

  ghost predicate Shared(s: System) {
    Registry(s.service.inflight, s.service.flights) && Parties(s.clients, s.service.flights)
  }

  lemma RequestKeepsShared(cfg: Settings, s: System, a: Action)
    requires a.Request? && Shared(s) && HandlesInRange(s) && Enabled(s, a)
    ensures Shared(Next(cfg, s, a))
  {
    hide Purge, Find, MoveToEnd, HasKey, Drops, ExpiredOf, Registry, Parties;
    var inflight, flights := s.service.inflight, s.service.flights;
    var (admission, service) := Enter(cfg, s.service, a.key, a.digest, a.now);
    if admission.Own? {
      OwnKeepsRegistry(inflight, flights, a.key, a.digest);
      OwnKeepsParties(s.clients, flights, a.c, a.key, a.digest);
    } else {
      assert admission.Wait? ==> flights[admission.flight].key == a.key by {
        KeyOfFlight(inflight, flights, a.key);
      }
      JoinKeepsParties(s.clients, flights, a.c, AdmissionPhase(a.key, a.digest, admission));
    }
  }

  lemma KeyOfFlight(inflight: map<Key, nat>, flights: seq<Flight>, key: Key)
    requires Registry(inflight, flights)
    ensures key in inflight ==>
      inflight[key] < |flights| && flights[inflight[key]].key == key && !flights[inflight[key]].done
  {
  }

  lemma OwnerFacts(s: System, c: Client)
    requires Shared(s) && c in s.clients && s.clients[c].Owning?
    ensures var p, flights := s.clients[c], s.service.flights;
      && p.flight < |flights| && !flights[p.flight].done
      && flights[p.flight].key == p.key && flights[p.flight].digest == p.digest
      && flights[p.flight].result.None? && flights[p.flight].error.None?
      && p.key in s.service.inflight && s.service.inflight[p.key] == p.flight
  {
    assert HoldsFlight(s.clients[c], s.service.flights);
  }

  lemma OutcomeKeepsShared(cfg: Settings, s: System, a: Action)
    requires (a.ModelAnswers? || a.ModelFails?) && Shared(s) && HandlesInRange(s) && Enabled(s, a)
    ensures Shared(Next(cfg, s, a))
  {
    hide Put, Trim, Drops, PushedOut, Registry, Parties;
    var p, flights := s.clients[a.c], s.service.flights;
    OwnerFacts(s, a.c);
    var settled := if a.ModelAnswers? then flights[p.flight].(result := Some(a.answer), done := true)
                   else flights[p.flight].(error := Some(a.error), done := true);
    var reply := if a.ModelAnswers? then Answered(a.answer, false) else Failed(a.error);
    SettleKeepsRegistry(s.service.inflight, flights, p.flight, settled);
    SettleKeepsParties(s.clients, flights, a.c, settled, Replied(p.key, p.digest, reply));
  }

  lemma WaiterKeepsShared(cfg: Settings, s: System, a: Action)
    requires (a.Wake? || a.GiveUp?) && Shared(s) && HandlesInRange(s) && Enabled(s, a)
    ensures Shared(Next(cfg, s, a))
  {
    hide Registry, Parties;
    JoinKeepsParties(s.clients, s.service.flights, a.c, Next(cfg, s, a).clients[a.c]);
  }

  // ----- answers come from the model -----

  lemma LongerLogGrounds(s: System, more: seq<Event>)
    requires Grounded(s)
    ensures Grounded(s.(log := s.log + more))
  {
  }

  /** What a request leaves in the cache and hands out was in the cache before. */
  lemma RequestSource(cfg: Settings, s: Service, key: Key, digest: Digest, now: int)
    requires key in s.inflight ==> s.inflight[key] < |s.flights|
    ensures var (admission, t) := Enter(cfg, s, key, digest, now);
      && (forall e :: e in t.cache ==> e in s.cache)
      && (admission.Replay? ==>
        exists e :: e in s.cache && e.key == key && e.digest == digest && e.answer == admission.answer)
  {
    hide Purge, HasKey, MoveToEnd;
    var cache := Purge(s.cache, now - cfg.ttl);
    PurgeKeeps(s.cache, now - cfg.ttl);
    var i := Find(cache, key);
    if i < |cache| {
      assert cache[i] in cache;
      forall e ensures e in MoveToEnd(cache, i) <==> e in cache {
        MoveToEndEntries(cache, i, e);
      }
    }
  }

  lemma JoinKeepsGrounded(s: System, t: System, c: Client, phase: Phase, more: seq<Event>, added: Flight)
    requires Grounded(s) && t.clients == s.clients[c := phase] && t.log == s.log + more
    requires forall e :: e in t.service.cache ==> e in s.service.cache
    requires t.service.flights == s.service.flights || t.service.flights == s.service.flights + [added]
    requires added.result.None? && ReplyGrounded(phase, s.log)
    ensures Grounded(t)
  {
  }

  lemma ReplayGrounded(s: System, key: Key, digest: Digest, admission: Admission)
    requires CacheGrounded(s.service.cache, s.log)
    requires admission.Replay? ==>
      exists e :: e in s.service.cache && e.key == key && e.digest == digest && e.answer == admission.answer
    ensures ReplyGrounded(AdmissionPhase(key, digest, admission), s.log)
  {
  }

  lemma RequestKeepsGrounded(cfg: Settings, s: System, a: Action)
    requires a.Request? && Grounded(s) && HandlesInRange(s) && Enabled(s, a)
    ensures Grounded(Next(cfg, s, a))
  {
    hide Enter, Drops, ExpiredOf, AdmissionEvents, Next, Enabled, ReplyGrounded, CacheGrounded,
      FlightGrounded, AdmissionPhase;
    var (admission, service) := Enter(cfg, s.service, a.key, a.digest, a.now);
    RequestSource(cfg, s.service, a.key, a.digest, a.now);
    var more := Drops(ExpiredOf(s.service.cache, a.now - cfg.ttl), Some(a.now))
      + AdmissionEvents(a.key, a.digest, admission, a.now);
    RequestTable(cfg, s, a, more);
    ReplayGrounded(s, a.key, a.digest, admission);
    JoinKeepsGrounded(s, Next(cfg, s, a), a.c, AdmissionPhase(a.key, a.digest, admission), more,
                      Flight(a.key, a.digest, false, None, None));
  }

  lemma RequestTable(cfg: Settings, s: System, a: Action, more: seq<Event>)
    requires a.Request? && HandlesInRange(s) && Enabled(s, a)
    requires more == Drops(ExpiredOf(s.service.cache, a.now - cfg.ttl), Some(a.now))
      + AdmissionEvents(a.key, a.digest, Enter(cfg, s.service, a.key, a.digest, a.now).0, a.now)
    ensures var (admission, t) := Enter(cfg, s.service, a.key, a.digest, a.now);
      && Next(cfg, s, a) == System(t, s.clients[a.c := AdmissionPhase(a.key, a.digest, admission)], s.log + more)
      && (t.flights == s.service.flights
          || t.flights == s.service.flights + [Flight(a.key, a.digest, false, None, None)])
  {
    hide Purge, Find, HasKey, MoveToEnd, Drops, ExpiredOf;
    var (admission, t) := Enter(cfg, s.service, a.key, a.digest, a.now);
    var first, second := Drops(ExpiredOf(s.service.cache, a.now - cfg.ttl), Some(a.now)),
        AdmissionEvents(a.key, a.digest, admission, a.now);
    assert s.log + first + second == s.log + (first + second);
  }

  lemma MoveToEndEntries(cache: Cache, i: nat, e: Entry)
    requires i < |cache|
    ensures e in MoveToEnd(cache, i) <==> e in cache
  {
    assert cache == cache[..i] + [cache[i]] + cache[i + 1..];
  }

  lemma StoredOrKept(cfg: Settings, cache: Cache, entry: Entry)
    ensures forall e :: e in Trim(Put(cache, entry), cfg.maxEntries) ==> e == entry || e in cache
  {
    hide Find, HasKey;
  }

  lemma AnswerKeepsGrounded(cfg: Settings, s: System, a: Action)
    requires a.ModelAnswers? && Grounded(s) && HandlesInRange(s) && Enabled(s, a)
    requires var p := PhaseOf(s, a.c);
      && p.flight < |s.service.flights| && s.service.flights[p.flight].key == p.key
      && s.service.flights[p.flight].digest == p.digest
    ensures Grounded(Next(cfg, s, a))
  {
    hide Put, Trim, Drops, PushedOut;
    var p := PhaseOf(s, a.c);
    var entry := Entry(p.key, a.now, p.digest, a.answer);
    var t, done := Next(cfg, s, a), Computed(p.key, p.digest, a.answer, a.now);
    StoredOrKept(cfg, s.service.cache, entry);
    assert t.log[|s.log|] == done;
    assert done in t.log && forall e :: e in s.log ==> e in t.log;
  }

  lemma OutcomeKeepsGrounded(cfg: Settings, s: System, a: Action)
    requires (a.ModelAnswers? || a.ModelFails?) && Shared(s) && Grounded(s) && HandlesInRange(s) && Enabled(s, a)
    ensures Grounded(Next(cfg, s, a))
  {
    hide Put, Trim, Drops, ExpiredOf, Registry, Parties;
    OwnerFacts(s, a.c);
    if a.ModelAnswers? {
      AnswerKeepsGrounded(cfg, s, a);
    } else {
      LongerLogGrounds(s, Next(cfg, s, a).log[|s.log|..]);
    }
  }

  lemma WaiterKeepsGrounded(cfg: Settings, s: System, a: Action)
    requires (a.Wake? || a.GiveUp?) && Shared(s) && Grounded(s) && HandlesInRange(s) && Enabled(s, a)
    ensures Grounded(Next(cfg, s, a))
  {
    hide Registry, Parties, CacheGrounded;
    assert HoldsFlight(s.clients[a.c], s.service.flights) by { WaiterHolds(s, a.c); }
    var p := s.clients[a.c];
    assert FlightGrounded(s.service.flights[p.flight], s.log);
  }

  lemma WaiterHolds(s: System, c: Client)
    requires Shared(s) && c in s.clients
    ensures HoldsFlight(s.clients[c], s.service.flights)
  {
  }

  // ----- every reachable state -----

  lemma StepKeepsInv(cfg: Settings, s: System, a: Action)
    requires Inv(cfg, s) && HandlesInRange(s) && Enabled(s, a)
    ensures Inv(cfg, Next(cfg, s, a))
  {
    hide Registry, Parties, Grounded, LogMatches, TouchOrdered, HandlesInRange, Next, Enabled;
    match a
    case Request(_, _, _, _) =>
      RequestKeepsStore(cfg, s, a);
      RequestKeepsShared(cfg, s, a);
      RequestKeepsGrounded(cfg, s, a);
    case ModelAnswers(_, _, _) =>
      AnswerPossible(s, a);
      AnswerKeepsStore(cfg, s, a);
      OutcomeKeepsShared(cfg, s, a);
      OutcomeKeepsGrounded(cfg, s, a);
    case ModelFails(_, _) =>
      AnswerPossible(s, a);
      FailureKeepsStore(cfg, s, a);
      OutcomeKeepsShared(cfg, s, a);
      OutcomeKeepsGrounded(cfg, s, a);
    case Wake(_) =>
      WaiterKeepsShared(cfg, s, a);
      WaiterKeepsGrounded(cfg, s, a);
      WaiterKeepsStore(cfg, s, a);
    case GiveUp(_) =>
      WaiterKeepsShared(cfg, s, a);
      WaiterKeepsGrounded(cfg, s, a);
      WaiterKeepsStore(cfg, s, a);
  }

  lemma AnswerPossible(s: System, a: Action)
    requires (a.ModelAnswers? || a.ModelFails?) && Shared(s) && HandlesInRange(s) && Enabled(s, a)
    ensures PhaseOf(s, a.c).Owning? && PhaseOf(s, a.c).flight < |s.service.flights|
    ensures PhaseOf(s, a.c).key in s.service.inflight
    ensures var p := PhaseOf(s, a.c);
      s.service.flights[p.flight].key == p.key && s.service.flights[p.flight].digest == p.digest
  {
    hide Registry, Parties;
    OwnerFacts(s, a.c);
  }

  lemma WaiterKeepsStore(cfg: Settings, s: System, a: Action)
    requires (a.Wake? || a.GiveUp?) && StoreInv(cfg, s) && HandlesInRange(s) && Enabled(s, a)
    ensures StoreInv(cfg, Next(cfg, s, a))
  {
  }

  lemma StartHasInv(cfg: Settings)
    ensures Inv(cfg, START)
  {
  }

  /** Any interleaving of any number of clients keeps the whole invariant. */
  lemma {:induction false} RunsAreSafe(cfg: Settings, actions: seq<Action>, s: System)
    requires Reaches(cfg, actions, s)
    ensures Inv(cfg, s) && HandlesInRange(s)
  {
    hide Inv, Next, Enabled, HandlesInRange;
    if actions == [] {
      StartHasInv(cfg);
    } else {
      var init, last := actions[..|actions| - 1], actions[|actions| - 1];
      var before: System :| Reaches(cfg, init, before)
        && HandlesInRange(before) && Enabled(before, last) && s == Next(cfg, before, last);
      RunsAreSafe(cfg, init, before);
      StepKeepsInv(cfg, before, last);
    }
    InvGivesHandles(cfg, s);
  }
}
