/** Any number of clients calling the service in any interleaving: each
    critical section, each model outcome and each wake-up is one step. */
module SingleFlightRuns {
  import opened Wrappers
  import opened SingleFlight

  type Client = nat

  datatype Reply = Answered(answer: Answer, replayed: bool) | Refused | Failed(error: Error) | TimedOut

  datatype Phase =
    | Idle
    | Owning(key: Key, digest: Digest, flight: nat)
    | Waiting(key: Key, digest: Digest, flight: nat)
    | Replied(key: Key, digest: Digest, reply: Reply)

  /** What happened to a key, in order. Started marks the start of a model run; at is a clock reading. */
  datatype Event =
    | Started(key: Key, digest: Digest)
    | Computed(key: Key, digest: Digest, answer: Answer, at: int)
    | Broke(key: Key)
    | Replayed(key: Key, digest: Digest, answer: Answer, at: int)
    | Expired(key: Key, at: int)
    | Evicted(key: Key)

  datatype System = System(service: Service, clients: map<Client, Phase>, log: seq<Event>)

  datatype Action =
    | Request(c: Client, key: Key, digest: Digest, now: int)
    | ModelAnswers(c: Client, answer: Answer, now: int)
    | ModelFails(c: Client, error: Error)
    | Wake(c: Client)
    | GiveUp(c: Client)

  function PhaseOf(s: System, c: Client): Phase {
    if c in s.clients then s.clients[c] else Idle
  }

  /** Handles held by clients and by the in-flight dictionary name records. */
  ghost predicate HandlesInRange(s: System) {
    && (forall k :: k in s.service.inflight ==> s.service.inflight[k] < |s.service.flights|)
    && (forall c :: c in s.clients && (s.clients[c].Owning? || s.clients[c].Waiting?) ==>
      s.clients[c].flight < |s.service.flights|)
  }

  /** When a step can happen. */
  ghost predicate Enabled(s: System, a: Action)
    requires HandlesInRange(s)
  {
    var phase := PhaseOf(s, a.c);
    match a
    case Request(_, _, _, _) => phase.Idle? || phase.Replied?
    case ModelAnswers(_, _, _) => phase.Owning?
    case ModelFails(_, _) => phase.Owning?
    case Wake(_) => phase.Waiting? && !Look(s.service, phase.flight).StillWaiting?
    case GiveUp(_) => phase.Waiting? && !s.service.flights[phase.flight].done
  }

  /** How a key leaves the cache: purged at a clock reading, or pushed out. */
  function Removal(key: Key, purge: Option<int>): Event {
    match purge
    case Some(at) => Expired(key, at)
    case None => Evicted(key)
  }

  /** One removal event per entry. */
  function Drops(entries: Cache, purge: Option<int>): (events: seq<Event>)
    ensures |events| == |entries|
    ensures forall i :: 0 <= i < |events| ==> events[i] == Removal(entries[i].key, purge)
  {
    seq(|entries|, i requires 0 <= i < |entries| => Removal(entries[i].key, purge))
  }

  function ExpiredOf(cache: Cache, cutoff: int): Cache {
    if cache == [] then []
    else if cache[0].created < cutoff then [cache[0]] + ExpiredOf(cache[1..], cutoff)
    else ExpiredOf(cache[1..], cutoff)
  }

  function AdmissionPhase(key: Key, digest: Digest, admission: Admission): Phase {
    match admission
    case Conflict => Replied(key, digest, Refused)
    case Replay(answer) => Replied(key, digest, Answered(answer, true))
    case Wait(f) => Waiting(key, digest, f)
    case Own(f) => Owning(key, digest, f)
  }

  function AdmissionEvents(key: Key, digest: Digest, admission: Admission, now: int): seq<Event> {
    match admission
    case Replay(answer) => [Replayed(key, digest, answer, now)]
    case Own(_) => [Started(key, digest)]
    case _ => []
  }

  /** The entries pushed out when this answer is stored. */
  function PushedOut(cfg: Settings, cache: Cache, entry: Entry): Cache {
    Put(cache, entry)[..Overflow(Put(cache, entry), cfg.maxEntries)]
  }

  ghost function Next(cfg: Settings, s: System, a: Action): System
    requires HandlesInRange(s) && Enabled(s, a)
  {
    var phase := PhaseOf(s, a.c);
    match a
    case Request(c, key, digest, now) =>
      var (admission, service) := Enter(cfg, s.service, key, digest, now);
      System(service, s.clients[c := AdmissionPhase(key, digest, admission)],
             s.log + Drops(ExpiredOf(s.service.cache, now - cfg.ttl), Some(now))
               + AdmissionEvents(key, digest, admission, now))
    case ModelAnswers(c, answer, now) =>
      System(Succeed(cfg, s.service, phase.flight, answer, now),
             s.clients[c := Replied(phase.key, phase.digest, Answered(answer, false))],
             s.log + [Computed(phase.key, phase.digest, answer, now)]
               + Drops(PushedOut(cfg, s.service.cache, Entry(phase.key, now, phase.digest, answer)), None))
    case ModelFails(c, error) =>
      System(Fail(s.service, phase.flight, error),
             s.clients[c := Replied(phase.key, phase.digest, Failed(error))],
             s.log + [Broke(phase.key)])
    case Wake(c) =>
      var found := Look(s.service, phase.flight);
      s.(clients := s.clients[c := Replied(phase.key, phase.digest,
        if found.GotError? then Failed(found.error)
        else if found.GotResult? then Answered(found.answer, true)
        else TimedOut)])
    case GiveUp(c) =>
      s.(clients := s.clients[c := Replied(phase.key, phase.digest, TimedOut)])
  }

  const START := System(Service([], map[], []), map[], [])

  /** s is reached from the empty service by these steps. */
  ghost predicate Reaches(cfg: Settings, actions: seq<Action>, s: System) {
    if actions == [] then s == START
    else exists before: System ::
      && Reaches(cfg, actions[..|actions| - 1], before)
      && HandlesInRange(before) && Enabled(before, actions[|actions| - 1])
      && s == Next(cfg, before, actions[|actions| - 1])
  }

  // ----- the protocol each key must follow -----

  datatype KeyState = Absent | Running | Stored

  function AfterEvent(e: Event): KeyState {
    match e
    case Started(_, _) => Running
    case Computed(_, _, _, _) => Stored
    case Replayed(_, _, _, _) => Stored
    case _ => Absent
  }

  function StateBefore(e: Event): KeyState {
    match e
    case Started(_, _) => Absent
    case Computed(_, _, _, _) => Running
    case Broke(_) => Running
    case _ => Stored
  }

  /** The state the log leaves a key in. */
  function StateOf(log: seq<Event>, key: Key): KeyState {
    if log == [] then Absent
    else if log[|log| - 1].key == key then AfterEvent(log[|log| - 1])
    else StateOf(log[..|log| - 1], key)
  }

  /** Every event finds its key in the state the protocol asks for. */
  ghost predicate Lawful(log: seq<Event>) {
    log == [] ||
      (Lawful(log[..|log| - 1]) && StateOf(log[..|log| - 1], log[|log| - 1].key) == StateBefore(log[|log| - 1]))
  }

  predicate Touches(e: Event, key: Key) { e.key == key && (e.Computed? || e.Replayed?) }

  /** When the key was last stored or replayed, -1 for never. */
  function LastTouch(log: seq<Event>, key: Key): int {
    if log == [] then -1
    else if Touches(log[|log| - 1], key) then |log| - 1
    else LastTouch(log[..|log| - 1], key)
  }

  // ----- the invariant, in four parts -----

  /** In-flight handles and unfinished records match one to one; a finished
      record holds exactly one of result and error. */
  ghost predicate Registry(inflight: map<Key, nat>, flights: seq<Flight>) {
    && (forall k :: k in inflight ==>
      inflight[k] < |flights| && flights[inflight[k]].key == k && !flights[inflight[k]].done)
    && (forall f :: 0 <= f < |flights| ==>
      if flights[f].done then flights[f].result.Some? != flights[f].error.Some?
      else flights[f].result.None? && flights[f].error.None?
           && flights[f].key in inflight && inflight[flights[f].key] == f)
  }

  ghost predicate OwnsFlight(clients: map<Client, Phase>, c: Client, f: nat) {
    c in clients && clients[c].Owning? && clients[c].flight == f
  }

  ghost predicate HoldsFlight(phase: Phase, flights: seq<Flight>) {
    (phase.Owning? || phase.Waiting?) ==>
      && phase.flight < |flights|
      && flights[phase.flight].key == phase.key && flights[phase.flight].digest == phase.digest
      && (phase.Owning? ==> !flights[phase.flight].done)
  }

  /** Every unfinished record has exactly one owner, and clients hold records for their own request. */
  ghost predicate Parties(clients: map<Client, Phase>, flights: seq<Flight>) {
    && (forall c :: c in clients ==> HoldsFlight(clients[c], flights))
    && (forall c, d, f :: OwnsFlight(clients, c, f) && OwnsFlight(clients, d, f) ==> c == d)
    && (forall f :: 0 <= f < |flights| && !flights[f].done ==> exists c :: OwnsFlight(clients, c, f))
  }

  /** The cache and the in-flight dictionary are what the log says. */
  ghost predicate LogMatches(cache: Cache, inflight: map<Key, nat>, log: seq<Event>) {
    && DistinctKeys(cache)
    && Lawful(log)
    && (forall k :: StateOf(log, k) == Stored <==> HasKey(cache, k))
    && (forall k :: StateOf(log, k) == Running <==> k in inflight)
  }

  ghost predicate TouchOrdered(cache: Cache, log: seq<Event>) {
    forall i, j :: 0 <= i < j < |cache| ==> LastTouch(log, cache[i].key) < LastTouch(log, cache[j].key)
  }

  /** A model run for this key and digest gave this answer. */
  ghost predicate WasComputed(log: seq<Event>, key: Key, digest: Digest, answer: Answer) {
    exists at :: Computed(key, digest, answer, at) in log
  }

  ghost predicate CacheGrounded(cache: Cache, log: seq<Event>) {
    forall e :: e in cache ==> Computed(e.key, e.digest, e.answer, e.created) in log
  }

  ghost predicate FlightGrounded(f: Flight, log: seq<Event>) {
    f.result.Some? ==> WasComputed(log, f.key, f.digest, f.result.value)
  }

  ghost predicate ReplyGrounded(p: Phase, log: seq<Event>) {
    p.Replied? && p.reply.Answered? ==> WasComputed(log, p.key, p.digest, p.reply.answer)
  }

  /** Every answer kept or given was computed by a model run for its own key and digest. */
  ghost predicate Grounded(s: System) {
    && CacheGrounded(s.service.cache, s.log)
    && (forall f :: 0 <= f < |s.service.flights| ==> FlightGrounded(s.service.flights[f], s.log))
    && (forall c :: c in s.clients ==> ReplyGrounded(s.clients[c], s.log))
  }

  ghost predicate Inv(cfg: Settings, s: System) {
    && Registry(s.service.inflight, s.service.flights)
    && Parties(s.clients, s.service.flights)
    && LogMatches(s.service.cache, s.service.inflight, s.log)
    && |s.service.cache| <= cfg.maxEntries
    && TouchOrdered(s.service.cache, s.log)
    && Grounded(s)
  }

  lemma InvGivesHandles(cfg: Settings, s: System)
    requires Inv(cfg, s)
    ensures HandlesInRange(s)
  {
    forall c | c in s.clients ensures HoldsFlight(s.clients[c], s.service.flights) {
    }
  }
}
