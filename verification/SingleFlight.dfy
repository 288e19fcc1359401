/** The idempotent single-flight cache: the pieces of state the lock protects,
    what each critical section does to them, and the class that does it. */
module SingleFlight {
  import opened Wrappers

  type Key = string
  type Digest = string
  type Answer = string
  type Error = string

  /** Cache entries, least recently touched first, as the ordered dictionary keeps them. */
  datatype Entry = Entry(key: Key, created: int, digest: Digest, answer: Answer)
  type Cache = seq<Entry>

  /** A record shared by an owner and its waiters; done once its event is set. */
  datatype Flight = Flight(key: Key, digest: Digest, done: bool, result: Option<Answer>, error: Option<Error>)

  datatype Settings = Settings(ttl: int, maxEntries: nat)

  /** Flights are kept in a table; the in-flight dictionary holds their handles. */
  datatype Service = Service(cache: Cache, inflight: map<Key, nat>, flights: seq<Flight>)

  datatype Admission = Conflict | Replay(answer: Answer) | Wait(flight: nat) | Own(flight: nat)

  datatype Wakeup = StillWaiting | GotError(error: Error) | GotResult(answer: Answer)

  // ----- the ordered dictionary -----

  ghost predicate DistinctKeys(cache: Cache) {
    forall i, j :: 0 <= i < j < |cache| ==> cache[i].key != cache[j].key
  }

  predicate HasKey(cache: Cache, key: Key) {
    exists i :: 0 <= i < |cache| && cache[i].key == key
  }

  /** The position of a key, or the length when it is absent. */
  function Find(cache: Cache, key: Key): (i: nat)
    ensures i <= |cache|
    ensures i < |cache| ==> cache[i].key == key
    ensures i == |cache| <==> !HasKey(cache, key)
  {
    if cache == [] then 0
    else if cache[0].key == key then 0
    else
      var rest := Find(cache[1..], key);
      assert forall j :: 1 <= j < |cache| ==> cache[j] == cache[1..][j - 1];
      1 + rest
  }

  /** Entries created at or after the cutoff, in order. */
  function Purge(cache: Cache, cutoff: int): Cache {
    if cache == [] then []
    else if cache[0].created < cutoff then Purge(cache[1..], cutoff)
    else [cache[0]] + Purge(cache[1..], cutoff)
  }

  function Without(cache: Cache, i: nat): Cache
    requires i < |cache|
  {
    cache[..i] + cache[i + 1..]
  }

  function MoveToEnd(cache: Cache, i: nat): Cache
    requires i < |cache|
  {
    Without(cache, i) + [cache[i]]
  }

  /** Assignment keeps the place of an existing key and appends a new one. */
  function Put(cache: Cache, entry: Entry): Cache {
    var i := Find(cache, entry.key);
    if i < |cache| then cache[i := entry] else cache + [entry]
  }

  function Overflow(cache: Cache, max: nat): nat {
    if |cache| > max then |cache| - max else 0
  }

  /** Drops the oldest entries until at most max are left. */
  function Trim(cache: Cache, max: nat): Cache {
    cache[Overflow(cache, max)..]
  }

  // ----- the critical sections -----

  function Enter(cfg: Settings, s: Service, key: Key, digest: Digest, now: int): (Admission, Service)
    requires key in s.inflight ==> s.inflight[key] < |s.flights|
  {
    var cache := Purge(s.cache, now - cfg.ttl);
    var i := Find(cache, key);
    if i < |cache| then
      if cache[i].digest != digest then (Conflict, s.(cache := cache))
      else (Replay(cache[i].answer), s.(cache := MoveToEnd(cache, i)))
    else if key in s.inflight then
      if s.flights[s.inflight[key]].digest != digest then (Conflict, s.(cache := cache))
      else (Wait(s.inflight[key]), s.(cache := cache))
    else
      var f := |s.flights|;
      (Own(f), Service(cache, s.inflight[key := f], s.flights + [Flight(key, digest, false, None, None)]))
  }

  function Succeed(cfg: Settings, s: Service, f: nat, answer: Answer, now: int): Service
    requires f < |s.flights|
  {
    var flight := s.flights[f];
    Service(Trim(Put(s.cache, Entry(flight.key, now, flight.digest, answer)), cfg.maxEntries),
            s.inflight - {flight.key},
            s.flights[f := flight.(result := Some(answer), done := true)])
  }

  function Fail(s: Service, f: nat, error: Error): Service
    requires f < |s.flights|
  {
    var flight := s.flights[f];
    Service(s.cache, s.inflight - {flight.key}, s.flights[f := flight.(error := Some(error), done := true)])
  }

  function Look(s: Service, f: nat): Wakeup
    requires f < |s.flights|
  {
    var flight := s.flights[f];
    if !flight.done then StillWaiting
    else if flight.error.Some? then GotError(flight.error.value)
    else if flight.result.Some? then GotResult(flight.result.value)
    else StillWaiting
  }

  // ----- facts about the dictionary operations -----

  lemma {:induction false} PurgeKeeps(cache: Cache, cutoff: int)
    ensures forall e :: e in Purge(cache, cutoff) <==> e in cache && e.created >= cutoff
    ensures |Purge(cache, cutoff)| <= |cache|
    ensures DistinctKeys(cache) ==> DistinctKeys(Purge(cache, cutoff))
  {
    if cache != [] {
      PurgeKeeps(cache[1..], cutoff);
      assert cache == [cache[0]] + cache[1..];
      if DistinctKeys(cache) && cache[0].created >= cutoff {
        var rest := Purge(cache[1..], cutoff);
        forall j | 0 <= j < |rest| ensures rest[j].key != cache[0].key {
          assert rest[j] in cache[1..];
        }
      }
    }
  }

  lemma PutKeepsDistinct(cache: Cache, entry: Entry)
    requires DistinctKeys(cache)
    ensures DistinctKeys(Put(cache, entry))
  {
  }

  /** Entries whose key is not among the given ones. */
  function Drop(cache: Cache, keys: set<Key>): Cache {
    if cache == [] then []
    else if cache[0].key in keys then Drop(cache[1..], keys)
    else [cache[0]] + Drop(cache[1..], keys)
  }

  lemma {:induction false} DropNothing(cache: Cache, keys: set<Key>)
    requires forall i :: 0 <= i < |cache| ==> cache[i].key !in keys
    ensures Drop(cache, keys) == cache
  {
    if cache != [] {
      DropNothing(cache[1..], keys);
    }
  }

  lemma FindSecond(first: Entry, rest: Cache, key: Key)
    requires first.key != key
    ensures Find([first] + rest, key) == 1 + Find(rest, key)
  {
    assert ([first] + rest)[1..] == rest;
  }

  lemma DeleteBehind(first: Entry, left: Cache, key: Key)
    requires first.key != key && Find(left, key) < |left|
    ensures Find([first] + left, key) < |left| + 1
    ensures Without([first] + left, Find([first] + left, key)) == [first] + Without(left, Find(left, key))
  {
    hide HasKey;
    FindSecond(first, left, key);
  }

  lemma DeleteFirst(first: Entry, left: Cache)
    ensures Find([first] + left, first.key) == 0
    ensures Without([first] + left, 0) == left
  {
  }

  /** Deleting one more key from what is left. */
  lemma {:induction false} DropOneMore(cache: Cache, keys: set<Key>, i: nat)
    requires DistinctKeys(cache) && i < |cache| && cache[i].key !in keys
    ensures var left, key := Drop(cache, keys), cache[i].key;
      Find(left, key) < |left| && Without(left, Find(left, key)) == Drop(cache, keys + {key})
  {
    hide HasKey, Find, Without;
    var rest, key := cache[1..], cache[i].key;
    if i == 0 {
      DropSame(rest, keys, key);
      DeleteFirst(cache[0], Drop(rest, keys));
    } else {
      DropOneMore(rest, keys, i - 1);
      if cache[0].key !in keys {
        DeleteBehind(cache[0], Drop(rest, keys), key);
      }
    }
  }

  lemma {:induction false} DropSame(cache: Cache, keys: set<Key>, key: Key)
    requires forall i :: 0 <= i < |cache| ==> cache[i].key != key
    ensures Drop(cache, keys) == Drop(cache, keys + {key})
  {
    if cache != [] {
      DropSame(cache[1..], keys, key);
    }
  }

  lemma {:induction false} DropExpired(cache: Cache, keys: set<Key>, cutoff: int)
    requires forall i :: 0 <= i < |cache| ==> (cache[i].key in keys <==> cache[i].created < cutoff)
    ensures Drop(cache, keys) == Purge(cache, cutoff)
  {
    if cache != [] {
      DropExpired(cache[1..], keys, cutoff);
    }
  }

  // ----- the service object -----

  class GradingService {
    const settings: Settings
    var cache: Cache
    var inflight: map<Key, nat>
    var flights: seq<Flight>

    ghost function View(): Service
      reads this
    {
      Service(cache, inflight, flights)
    }

    /** Dictionary keys are unique and every in-flight handle names a record. */
    ghost predicate Valid()
      reads this
    {
      DistinctKeys(cache) && forall k :: k in inflight ==> inflight[k] < |flights|
    }

    constructor (settings: Settings)
      ensures Valid() && this.settings == settings && View() == Service([], map[], [])
    {
      this.settings := settings;
      cache, inflight, flights := [], map[], [];
    }

    /** The keys of the entries created before the cutoff, each once. */
    method ExpiredKeys(cutoff: int) returns (expired: seq<Key>)
      requires Valid()
      ensures forall j :: 0 <= j < |cache| ==> (cache[j].key in expired <==> cache[j].created < cutoff)
      ensures forall k :: k in expired ==> HasKey(cache, k)
      ensures forall a, b :: 0 <= a < b < |expired| ==> expired[a] != expired[b]
    {
      expired := [];
      for i := 0 to |cache|
        invariant forall j :: 0 <= j < |cache| ==> (cache[j].key in expired <==> j < i && cache[j].created < cutoff)
        invariant forall k :: k in expired ==> HasKey(cache, k)
        invariant forall a, b :: 0 <= a < b < |expired| ==> expired[a] != expired[b]
      {
        if cache[i].created < cutoff {
          assert HasKey(cache, cache[i].key);
          expired := expired + [cache[i].key];
        }
      }
    }

    /** Collects the expired keys, then deletes them one by one. */
    method PurgeCache(now: int)
      requires Valid()
      modifies this`cache
      ensures Valid() && cache == Purge(old(cache), now - settings.ttl)
    {
      hide HasKey, Find, Without, Drop, Purge;
      var cutoff := now - settings.ttl;
      var expired := ExpiredKeys(cutoff);
      ghost var before := cache;
      ghost var gone: set<Key> := {};
      DropNothing(before, gone);
      PurgeKeeps(before, cutoff);
      for i := 0 to |expired|
        invariant gone == set j | 0 <= j < i :: expired[j]
        invariant cache == Drop(before, gone)
      {
        assert expired[i] in expired;
        ghost var at := Find(before, expired[i]);
        DropOneMore(before, gone, at);
        cache := Without(cache, Find(cache, expired[i]));
        gone := gone + {expired[i]};
      }
      DropExpired(before, gone, cutoff);
    }

    /** The section that admits a request: replay, wait, own or refuse. */
    method Admit(key: Key, digest: Digest, now: int) returns (r: Admission)
      requires Valid()
      modifies this
      ensures Valid()
      ensures (r, View()) == Enter(settings, old(View()), key, digest, now)
    {
      PurgeCache(now);
      var i := Find(cache, key);
      if i < |cache| {
        if cache[i].digest != digest {
          return Conflict;
        }
        r := Replay(cache[i].answer);
        cache := MoveToEnd(cache, i);
      } else if key in inflight {
        var f := inflight[key];
        if flights[f].digest != digest {
          return Conflict;
        }
        return Wait(f);
      } else {
        r := Own(|flights|);
        inflight := inflight[key := |flights|];
        flights := flights + [Flight(key, digest, false, None, None)];
      }
    }

    /** Pops the oldest entries while there are too many. */
    method EvictOldest()
      modifies this`cache
      ensures cache == Trim(old(cache), settings.maxEntries)
    {
      ghost var full, popped: nat := cache, 0;
      while |cache| > settings.maxEntries
        invariant popped <= |full| && cache == full[popped..]
        invariant popped <= Overflow(full, settings.maxEntries)
        decreases |cache|
      {
        cache := cache[1..];
        popped := popped + 1;
      }
    }

    /** The section that publishes an answer. */
    method Publish(f: nat, answer: Answer, now: int)
      requires Valid() && f < |flights|
      modifies this
      ensures Valid() && View() == Succeed(settings, old(View()), f, answer, now)
    {
      var flight := flights[f];
      PutKeepsDistinct(cache, Entry(flight.key, now, flight.digest, answer));
      cache := Put(cache, Entry(flight.key, now, flight.digest, answer));
      EvictOldest();
      flights := flights[f := flight.(result := Some(answer), done := true)];
      inflight := inflight - {flight.key};
    }

    /** The section that publishes an error. */
    method Abandon(f: nat, error: Error)
      requires Valid() && f < |flights|
      modifies this
      ensures Valid() && View() == Fail(old(View()), f, error)
    {
      var flight := flights[f];
      flights := flights[f := flight.(error := Some(error), done := true)];
      inflight := inflight - {flight.key};
    }
  }
}
