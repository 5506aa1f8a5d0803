/**
 * The fan-out queue of the collaboration sidecar: durable room states wait here to be published to the peer replicas,
 * with coalescing, one publish in flight per room, exponential back-off and a bounded backlog.
 */
module Fanout {
  import opened Options
  import opened FanoutLedger

  // What `markPersisted` remembers until the store lock is released.
  datatype Stored = Stored(generation: int, bytes: nat)

  // A suspended drain: awaiting the publish, or settled but with its `finally` not yet run.
  datatype Drain = Publishing(entry: Pending) | Settling

  const RETRY_MIN_MS: nat := 250
  const RETRY_MAX_MS: nat := 5000

  function Doubled(times: nat): nat {
    if times == 0 then 1 else 2 * Doubled(times - 1)
  }

  function RetryDelay(attempt: nat): nat
    requires attempt >= 1
  {
    var delay := RETRY_MIN_MS * Doubled(if attempt - 1 < 8 then attempt - 1 else 8);
    if delay < RETRY_MAX_MS then delay else RETRY_MAX_MS
  }

  // The back-off doubles from a quarter second and stays at five seconds from the sixth failure on.
  lemma RetryDelayDoubles(attempt: nat)
    requires attempt >= 1
    ensures RetryDelay(1) == 250 <= RetryDelay(attempt) <= 5000
    ensures RetryDelay(attempt) < 5000 ==>
              RetryDelay(attempt + 1) == if 2 * RetryDelay(attempt) < 5000 then 2 * RetryDelay(attempt) else 5000
    ensures RetryDelay(attempt) == 5000 <==> attempt >= 6
  {
    assert Doubled(1) == 2 && Doubled(2) == 4 && Doubled(3) == 8 && Doubled(4) == 16;
    assert Doubled(5) == 32 && Doubled(6) == 64 && Doubled(7) == 128 && Doubled(8) == 256;
  }

  // Every waiting room is being drained or has a retry timer, except perhaps one room.
  ghost predicate Awake(pending: seq<Pending>, drains: map<string, Drain>, timers: set<string>, except: Option<string>) {
    forall p | p in pending :: p.name in drains || p.name in timers || except == Some(p.name)
  }

  // A drain that awaits its publish excludes a timer, and it publishes a recorded state of its room.
  ghost predicate DrainsOk(drains: map<string, Drain>, timers: set<string>, ledger: seq<Record>) {
    forall n | n in drains && drains[n].Publishing? ::
      n !in timers && drains[n].entry.name == n && Recorded(ledger, drains[n].entry)
  }

  // A room has one publish in flight while its drain awaits it, and none otherwise.
  ghost predicate FlightsOk(drains: map<string, Drain>, inFlight: multiset<string>) {
    forall n: string :: inFlight[n] == if n in drains && drains[n].Publishing? then 1 else 0
  }

  lemma FlightSettles(drains: map<string, Drain>, inFlight: multiset<string>, name: string)
    requires FlightsOk(drains, inFlight) && name in drains && drains[name].Publishing?
    ensures FlightsOk(drains[name := Settling], inFlight - multiset{name})
  {
  }

  lemma SettlingLeaves(drains: map<string, Drain>, inFlight: multiset<string>, name: string)
    requires FlightsOk(drains, inFlight) && name in drains && drains[name].Settling?
    ensures FlightsOk(drains - {name}, inFlight)
  {
  }

  lemma Reentered(drains: map<string, Drain>, name: string, drain: Drain)
    ensures (drains - {name})[name := drain] == drains[name := drain]
  {
    assert (drains - {name})[name := drain].Keys == drains[name := drain].Keys;
  }

  lemma FlightStarts(drains: map<string, Drain>, inFlight: multiset<string>, name: string, entry: Pending)
    requires FlightsOk(drains, inFlight) && name !in drains
    ensures FlightsOk(drains[name := Publishing(entry)], inFlight + multiset{name})
  {
  }

  ghost predicate NoneInvalidated(pending: seq<Pending>, invalidated: set<nat>, roomOf: nat -> string) {
    forall p | p in pending :: p.document !in invalidated && roomOf(p.document) == p.name
  }

  ghost predicate PublishedWereSent(ledger: seq<Record>, sent: set<Pending>) {
    forall i | 0 <= i < |ledger| && ledger[i].fate == Published :: ledger[i].entry in sent
  }

  // Eviction leaves the timers and the back-off of the surviving rooms alone.
  ghost predicate Untouched(pending: seq<Pending>, timers: set<string>, timers': set<string>,
                            attempts: map<string, nat>, attempts': map<string, nat>) {
    && timers' <= timers
    && (forall p | p in pending :: p.name in timers' <==> p.name in timers)
    && (forall p | p in pending :: p.name in attempts' <==> p.name in attempts)
    && (forall p | p in pending && p.name in attempts' :: p.name in attempts && attempts'[p.name] == attempts[p.name])
  }

  lemma UntouchedStep(pending: seq<Pending>, timers: set<string>, timers': set<string>,
                      attempts: map<string, nat>, attempts': map<string, nat>)
    requires pending != [] && Untouched(pending, timers, timers', attempts, attempts')
    ensures (forall p | p in pending[1..] :: p.name != pending[0].name) ==>
              Untouched(pending[1..], timers, timers' - {pending[0].name}, attempts, attempts' - {pending[0].name})
  {
    assert forall p | p in pending[1..] :: p in pending;
  }

  // Queueing leaves the new state of its room and perhaps some of the other rooms.
  ghost predicate Renews(before: seq<Pending>, after: seq<Pending>, entry: Pending) {
    && Find(after, entry.name) == Some(entry)
    && forall q | q in after :: q == entry || (q in before && q.name != entry.name)
  }

  lemma AwakeAfterEviction(entry: Pending, before: seq<Pending>, pending: seq<Pending>, drains: map<string, Drain>,
                           timers: set<string>, timers': set<string>,
                           attempts: map<string, nat>, attempts': map<string, nat>)
    requires Awake(before, drains, timers, None) && Untouched(pending, timers, timers', attempts, attempts')
    requires Renews(before, pending, entry)
    ensures Find(pending, entry.name) == Some(entry)
    ensures Awake(pending, drains, timers', Some(entry.name))
    ensures entry.name in timers' <==> entry.name in timers
    ensures entry.name in attempts' <==> entry.name in attempts
    ensures entry.name in attempts' ==> attempts'[entry.name] == attempts[entry.name]
  {
    assert entry in pending;
  }

  lemma SettledWereSent(ledger: seq<Record>, entry: Pending, sent: set<Pending>)
    requires LedgerOk(ledger) && PublishedWereSent(ledger, sent) && entry in WaitingIn(ledger) && entry in sent
    ensures PublishedWereSent(Settle(ledger, entry.name, Published), sent)
  {
    WaitingMembers(ledger, entry);
  }

  datatype Snapshot = Snapshot(
    pending: seq<Pending>, pendingBytes: int, nextRevision: nat, invalidated: set<nat>, roomOf: nat -> string,
    drains: map<string, Drain>, timers: set<string>, destroyed: bool, ledger: seq<Record>, sent: set<Pending>)

  ghost predicate Sound(s: Snapshot) {
    && LedgerOk(s.ledger) && s.pending == WaitingIn(s.ledger) && |s.ledger| == s.nextRevision
    && s.pendingBytes == Bytes(s.pending)
    && NoneInvalidated(s.pending, s.invalidated, s.roomOf)
    && DrainsOk(s.drains, s.timers, s.ledger)
    && PublishedWereSent(s.ledger, s.sent)
    && (s.destroyed ==> s.timers == {})
  }

  // A room leaves the queue with its timer.
  lemma SoundForget(s: Snapshot, name: string, fate: Fate)
    requires Sound(s) && (fate == Evicted || fate == Discarded)
    ensures Sound(s.(pending := Drop(s.pending, name), pendingBytes := Bytes(Drop(s.pending, name)),
                     ledger := Settle(s.ledger, name, fate), timers := s.timers - {name}))
    ensures Extends(Settle(s.ledger, name, fate), s.ledger) && OnePerRoom(s.pending)
  {
    WaitingOnePerRoom(s.ledger);
    DropMembers(s.pending, name);
    WaitingSettle(s.ledger, name, fate);
    SettleOk(s.ledger, name, fate);
    hide LedgerOk, Drop, Bytes, WaitingIn, Extends, OnePerRoom;
  }

  // The newest state of a room comes in.
  lemma SoundEnqueue(s: Snapshot, entry: Pending)
    requires Sound(s) && entry.document !in s.invalidated && s.roomOf(entry.document) == entry.name
    requires entry.revision == s.nextRevision + 1
    ensures Sound(s.(pending := Drop(s.pending, entry.name) + [entry],
                     pendingBytes := Bytes(Drop(s.pending, entry.name)) + entry.bytes,
                     ledger := Supersede(s.ledger, entry), nextRevision := s.nextRevision + 1))
    ensures Extends(Supersede(s.ledger, entry), s.ledger) && OnePerRoom(s.pending)
  {
    hide LedgerOk, Drop, Bytes, WaitingIn, OnePerRoom, Supersede, PublishedWereSent, Numbered, NewestWaits, SupersededByNewer;
    NewestOf(s.ledger);
    WaitingOnePerRoom(s.ledger);
    DropMembers(s.pending, entry.name);
    SupersedeOk(s.ledger, entry);
    BytesAppend(Drop(s.pending, entry.name), entry);
    SupersedeSent(s.ledger, entry, s.sent);
  }

  lemma NewestOf(ledger: seq<Record>)
    requires LedgerOk(ledger)
    ensures NewestWaits(ledger)
  {
  }

  lemma SupersedeSent(ledger: seq<Record>, entry: Pending, sent: set<Pending>)
    requires PublishedWereSent(ledger, sent)
    ensures PublishedWereSent(Supersede(ledger, entry), sent) && |Supersede(ledger, entry)| == |ledger| + 1
  {
  }

  // A published state retires.
  lemma SoundPublished(s: Snapshot, entry: Pending)
    requires Sound(s) && entry in s.pending && entry in s.sent
    ensures Sound(s.(pending := Drop(s.pending, entry.name), pendingBytes := Bytes(Drop(s.pending, entry.name)),
                     ledger := Settle(s.ledger, entry.name, Published)))
    ensures Extends(Settle(s.ledger, entry.name, Published), s.ledger) && OnePerRoom(s.pending)
  {
    WaitingOnePerRoom(s.ledger);
    SettledWereSent(s.ledger, entry, s.sent);
    DropMembers(s.pending, entry.name);
    WaitingSettle(s.ledger, entry.name, Published);
    SettleOk(s.ledger, entry.name, Published);
    hide LedgerOk, Bytes, Drop, WaitingIn, OnePerRoom, PublishedWereSent, Extends;
  }

  lemma BytesExact(s: Snapshot)
    requires Sound(s)
    ensures s.pendingBytes == Bytes(s.pending)
  {
    hide Bytes, WaitingIn, LedgerOk;
  }

  lemma StillAwake(pending: seq<Pending>, drains: map<string, Drain>, timers: set<string>, name: string)
    ensures Awake(pending, drains, timers, None) ==> Awake(Drop(pending, name), drains, timers, None)
    ensures Awake(pending, drains, timers, None) ==> Awake(Drop(pending, name), drains, timers - {name}, None)
  {
    DropMembers(pending, name);
    hide Drop;
  }

  datatype Event =
    | MarkPersisted(document: nat, state: Stored)
    | AfterStore(document: nat)
    | Queue(name: string, document: nat, stored: Option<Stored>, sourceStore: bool)
    | Discard(name: string, room: Option<nat>)
    | SettlePublish(name: string, ok: bool)
    | FinishDrain(name: string)
    | TimerFires(name: string)
    | BeginDestroy
    | SettleFlush(entry: Pending, ok: bool)
    | FinishDestroy

  class FanoutQueue {
    // A Yjs document object lives under one room name.
    ghost const roomOf: nat -> string
    var pending: seq<Pending>
    var pendingBytes: int
    var drains: map<string, Drain>
    var timers: set<string>
    var attempts: map<string, nat>
    var invalidated: set<nat>
    var persisted: map<nat, Stored>
    var nextRevision: nat
    var destroyed: bool
    // The publishes of the shutdown that have not settled.
    var flushes: multiset<Pending>
    // The rooms of the publishes that were started for a drain and have not settled.
    ghost var inFlight: multiset<string>
    ghost var ledger: seq<Record>
    ghost var sent: set<Pending>

    // Everything but the promise that nothing waits unattended.
    ghost predicate Consistent()
      reads this
    {
      Sound(Now()) && FlightsOk(drains, inFlight) && (!destroyed ==> flushes == multiset{})
    }

    ghost function Now(): Snapshot
      reads this
    {
      Snapshot(pending, pendingBytes, nextRevision, invalidated, roomOf, drains, timers, destroyed, ledger, sent)
    }

    ghost predicate Valid()
      reads this
    {
      Consistent() && Backlog(pending) && (!destroyed ==> Awake(pending, drains, timers, None))
    }

    constructor (ghost roomOf: nat -> string)
      ensures Valid() && this.roomOf == roomOf && pending == [] && ledger == [] && !destroyed && invalidated == {}
      ensures inFlight == multiset{}
    {
      this.roomOf := roomOf;
      pending, pendingBytes, nextRevision, destroyed := [], 0, 0, false;
      drains, timers, attempts, invalidated, persisted := map[], {}, map[], {}, map[];
      ledger, sent, inFlight, flushes := [], {}, multiset{}, multiset{};
    }

    method MarkPersisted(document: nat, stored: Stored)
      requires Valid()
      modifies `persisted
      ensures Valid()
      ensures persisted == if document in invalidated then old(persisted) else old(persisted)[document := stored]
    {
      if document in invalidated { return; }
      persisted := persisted[document := stored];
    }

    // The first, synchronous half of the after-store hook takes the remembered state; the lock release follows.
    method TakePersisted(document: nat) returns (stored: Option<Stored>)
      requires Valid()
      modifies `persisted
      ensures Valid() && persisted == old(persisted) - {document}
      ensures stored == if document in old(persisted) then Some(old(persisted)[document]) else None
    {
      stored := if document in persisted then Some(persisted[document]) else None;
      persisted := persisted - {document};
    }

    // The second half runs once the lock is released; the room may have been invalidated meanwhile.
    method QueueAfterRelease(name: string, document: nat, stored: Option<Stored>, sourceStore: bool)
      requires Valid() && roomOf(document) == name
      modifies `pending, `pendingBytes, `ledger, `attempts, `timers, `drains, `nextRevision, `inFlight
      ensures Valid() && Extends(ledger, old(ledger))
      ensures stored.None? || !sourceStore || document in invalidated || destroyed ==>
                && pending == old(pending) && ledger == old(ledger) && drains == old(drains)
                && attempts == old(attempts) && timers == old(timers)
      ensures stored.Some? && sourceStore && document !in invalidated && !destroyed ==>
                var entry := Pending(name, document, stored.value.generation, old(nextRevision) + 1, stored.value.bytes);
                && pending == Bounded(Drop(old(pending), name) + [entry])
                && (name in old(drains) || name in old(timers) ==> drains == old(drains))
                && (name !in old(drains) && name !in old(timers) ==> drains == old(drains)[name := Publishing(entry)])
                && (name in attempts <==> name in old(attempts))
                && (name in attempts ==> attempts[name] == old(attempts)[name])
    {
      ExtendsSelf(ledger);
      hide *;
      if stored.Some? && sourceStore && document !in invalidated {
        QueuePersisted(name, document, stored.value.bytes, stored.value.generation);
      }
    }

    method RemoveEntry(name: string)
      requires OnePerRoom(pending) && pendingBytes == Bytes(pending)
      modifies `pending, `pendingBytes
      ensures pending == Drop(old(pending), name) && pendingBytes == Bytes(pending)
    {
      DropBytes(pending, name);
      var found := Find(pending, name);
      if found.None? { return; }
      pendingBytes := pendingBytes - found.value.bytes;
      pending := Drop(pending, name);
    }

    method Forget(name: string, ghost fate: Fate)
      requires Consistent() && (fate == Evicted || fate == Discarded)
      modifies `pending, `pendingBytes, `ledger, `attempts, `timers
      ensures Consistent() && pending == Drop(old(pending), name) && Extends(ledger, old(ledger))
      ensures attempts == old(attempts) - {name} && timers == old(timers) - {name}
    {
      hide Sound, Drop, Bytes, Extends, OnePerRoom, Settle, Supersede, LedgerOk, WaitingIn, Recorded;
      SoundForget(Now(), name, fate);
      BytesExact(Now());
      RemoveEntry(name);
      ledger := Settle(ledger, name, fate);
      attempts := attempts - {name};
      timers := timers - {name};
    }

    // One round of the eviction below: the least recently refreshed room goes.
    method EvictOldest(name: string)
      requires Consistent() && pending != [] && pending[0].name == name
      modifies `pending, `pendingBytes, `ledger, `attempts, `timers
      ensures Consistent() && pending == old(pending)[1..] && Extends(ledger, old(ledger))
      ensures attempts == old(attempts) - {name} && timers == old(timers) - {name}
      ensures forall p | p in pending :: p.name != name
    {
      WaitingOnePerRoom(ledger);
      DropFirst(pending);
      DropMembers(pending, name);
      Forget(name, Evicted);
    }

    method EvictOverflowing(retained: string)
      requires Consistent() && pending != [] && pending[|pending| - 1].name == retained
      modifies `pending, `pendingBytes, `ledger, `attempts, `timers
      ensures Consistent() && pending == Bounded(old(pending)) && Extends(ledger, old(ledger))
      ensures Untouched(pending, old(timers), timers, old(attempts), attempts)
    {
      hide *;
      QueueIsApart();
      var queued := pending;
      ghost var start := ledger;
      EvictStart(queued);
      var i := 0;
      while i < |queued|
        invariant 0 <= i <= |queued| && Consistent() && Extends(ledger, start) && EvictAt(queued, i, pending)
        invariant Untouched(pending, old(timers), timers, old(attempts), attempts)
      {
        EvictRound(queued, i, pending);
        LimitsSpelled();
        if |pending| <= MAX_PENDING_ROOMS && pendingBytes <= MAX_PENDING_BYTES { return; }
        var name := queued[i].name;
        if name != retained {
          UntouchedStep(pending, old(timers), timers, old(attempts), attempts);
          ghost var was := ledger;
          EvictOldest(name);
          ExtendsTransitive(start, was, ledger);
        }
        i := i + 1;
      }
      EvictEnd(queued, pending);
    }

    lemma QueueIsApart()
      requires Consistent()
      ensures OnePerRoom(pending) && Extends(ledger, ledger) && Untouched(pending, timers, timers, attempts, attempts)
    {
      WaitingOnePerRoom(ledger);
    }

    lemma LimitsSpelled()
      requires Consistent()
      ensures WithinLimits(pending) <==> |pending| <= MAX_PENDING_ROOMS && pendingBytes <= MAX_PENDING_BYTES
    {
      hide LedgerOk, Bytes, WaitingIn;
    }

    method QueuePersisted(name: string, document: nat, bytes: nat, generation: int)
      requires Valid() && document !in invalidated && roomOf(document) == name
      modifies `pending, `pendingBytes, `ledger, `attempts, `timers, `drains, `nextRevision, `inFlight
      ensures Valid() && Extends(ledger, old(ledger))
      ensures destroyed ==>
                && pending == old(pending) && ledger == old(ledger) && drains == old(drains)
                && attempts == old(attempts) && timers == old(timers)
      ensures !destroyed ==>
                var entry := Pending(name, document, generation, old(nextRevision) + 1, bytes);
                && pending == Bounded(Drop(old(pending), name) + [entry])
                && (name in old(drains) || name in old(timers) ==> drains == old(drains))
                && (name !in old(drains) && name !in old(timers) ==> drains == old(drains)[name := Publishing(entry)])
                && (name in attempts <==> name in old(attempts))
                && (name in attempts ==> attempts[name] == old(attempts)[name])
    {
      hide *;
      ExtendsSelf(ledger);
      if destroyed { return; }
      var entry := Pending(name, document, generation, nextRevision + 1, bytes);
      QueueStart(entry);
      ghost var start := ledger;
      Enqueue(entry);
      ghost var queued := ledger;
      EvictOverflowing(name);
      ExtendsTransitive(start, queued, ledger);
      AwakeAfterEviction(entry, old(pending), pending, drains, old(timers), timers, old(attempts), attempts);
      StartDrain(name);
    }

    lemma QueueStart(entry: Pending)
      requires Valid() && entry.revision == nextRevision + 1
      ensures Consistent() && (!destroyed ==> Awake(pending, drains, timers, None))
      ensures Renews(pending, Bounded(Drop(pending, entry.name) + [entry]), entry)
      ensures Backlog(Bounded(Drop(pending, entry.name) + [entry]))
    {
      WaitingOnePerRoom(ledger);
      QueuedSurvives(pending, entry);
    }

    // The newest state of a room replaces the waiting one, at the fresh end of the queue.
    method Enqueue(entry: Pending)
      requires Consistent() && entry.document !in invalidated && roomOf(entry.document) == entry.name
      requires entry.revision == nextRevision + 1
      modifies `pending, `pendingBytes, `ledger, `nextRevision
      ensures Consistent() && Extends(ledger, old(ledger)) && pending == Drop(old(pending), entry.name) + [entry]
      ensures pending != [] && pending[|pending| - 1] == entry
    {
      hide Sound, Drop, Bytes, Extends, OnePerRoom, Settle, Supersede, LedgerOk, WaitingIn, Recorded;
      SoundEnqueue(Now(), entry);
      BytesExact(Now());
      RemoveEntry(entry.name);
      pending := pending + [entry];
      pendingBytes := pendingBytes + entry.bytes;
      nextRevision := nextRevision + 1;
      ledger := Supersede(ledger, entry);
    }

    method StartDrain(name: string)
      requires Consistent() && Backlog(pending) && (!destroyed ==> Awake(pending, drains, timers, Some(name)))
      modifies `drains, `inFlight
      ensures Valid()
      ensures inFlight == if drains == old(drains) then old(inFlight) else old(inFlight) + multiset{name}
      ensures drains == if destroyed || name in old(drains) || name in timers || Find(pending, name).None? then old(drains)
                        else old(drains)[name := Publishing(Find(pending, name).value)]
    {
      DrainOrValid(name);
      hide *;
      var found := Find(pending, name);
      if destroyed || name in drains || name in timers || found.None? { return; }
      OpenDrain(name, found.value);
    }

    lemma DrainOrValid(name: string)
      requires Consistent() && Backlog(pending) && (!destroyed ==> Awake(pending, drains, timers, Some(name)))
      ensures destroyed || name in drains || name in timers || Find(pending, name).None? ==> Valid()
      ensures Find(pending, name).Some? ==>
                var entry := Find(pending, name).value;
                Recorded(ledger, entry) && entry.name == name
                && (!destroyed ==> Awake(pending, drains[name := Publishing(entry)], timers, None))
    {
      hide Sound, FlightsOk, Backlog;
      var found := Find(pending, name);
      if found.Some? { FoundIsRecorded(found.value); }
    }

    lemma FoundIsRecorded(entry: Pending)
      requires Consistent() && entry in pending
      ensures Recorded(ledger, entry)
    {
      hide FlightsOk, Bytes, DrainsOk;
      WaitingMembers(ledger, entry);
    }

    method OpenDrain(name: string, entry: Pending)
      requires Consistent() && Backlog(pending) && Recorded(ledger, entry) && entry.name == name
      requires !destroyed && Awake(pending, drains[name := Publishing(entry)], timers, None)
      requires name !in drains && name !in timers
      modifies `drains, `inFlight
      ensures Valid() && drains == old(drains)[name := Publishing(entry)] && inFlight == old(inFlight) + multiset{name}
    {
      FlightStarts(drains, inFlight, name, entry);
      hide FlightsOk, LedgerOk, WaitingIn, Bytes, PublishedWereSent, NoneInvalidated, Backlog, Awake;
      drains := drains[name := Publishing(entry)];
      inFlight := inFlight + multiset{name};
    }

    method Discard(name: string, room: Option<nat>)
      requires Valid() && (room.Some? ==> roomOf(room.value) == name)
      modifies `pending, `pendingBytes, `ledger, `attempts, `timers, `invalidated
      ensures Valid() && Extends(ledger, old(ledger))
      ensures invalidated == old(invalidated) + (if room.Some? then {room.value} else {})
      ensures var found := Find(old(pending), name);
              if room.Some? && found.Some? && found.value.document != room.value then
                pending == old(pending) && attempts == old(attempts) && timers == old(timers)
              else
                pending == Drop(old(pending), name) && attempts == old(attempts) - {name} && timers == old(timers) - {name}
    {
      DiscardStart(name);
      DropMembers(pending, name);
      DropShrinks(pending, name);
      StillAwake(pending, drains, timers, name);
      hide Sound, Drop, Find, Backlog, Extends, LedgerOk, FlightsOk, Awake;
      var found := Find(pending, name);
      if room.Some? && found.Some? && found.value.document != room.value {
        Tombstone(name, room.value);
        return;
      }
      Forget(name, Discarded);
      if room.Some? { Tombstone(name, room.value); }
    }

    // No later state of a tombstoned document enters the queue.
    method Tombstone(name: string, document: nat)
      requires Consistent() && roomOf(document) == name
      requires forall p | p in pending && p.name == name :: p.document != document
      modifies `invalidated
      ensures Consistent() && invalidated == old(invalidated) + {document}
    {
      hide LedgerOk, WaitingIn, Bytes, DrainsOk, PublishedWereSent, FlightsOk;
      invalidated := invalidated + {document};
    }

    lemma DiscardStart(name: string)
      requires Consistent()
      ensures forall p | p in pending && p.name == name :: Find(pending, name) == Some(p)
      ensures Extends(ledger, ledger)
    {
      WaitingOnePerRoom(ledger);
      forall p | p in pending && p.name == name ensures Find(pending, name) == Some(p) { FindUnique(pending, p); }
    }

    // The publish of a room settles. A success retires the entry unless a newer state has taken its place; a failure
    // backs off, unless nothing waits any more.
    method SettlePublish(name: string, ok: bool) returns (retryAfter: Option<nat>)
      requires Valid() && name in drains && drains[name].Publishing?
      modifies `pending, `pendingBytes, `ledger, `attempts, `timers, `drains, `inFlight, `sent
      ensures Valid() && Extends(ledger, old(ledger))
      ensures drains == old(drains)[name := Settling] && inFlight == old(inFlight) - multiset{name}
      ensures ok ==> sent == old(sent) + {old(drains)[name].entry} && timers == old(timers)
      ensures ok ==> attempts == old(attempts) - {name} && retryAfter == None
      ensures ok ==> pending == if old(drains)[name].entry in old(pending) then Drop(old(pending), name) else old(pending)
      ensures !ok ==> pending == old(pending) && ledger == old(ledger) && sent == old(sent)
      ensures !ok && !destroyed && Find(pending, name).Some? ==>
                var attempt := (if name in old(attempts) then old(attempts)[name] else 0) + 1;
                timers == old(timers) + {name} && attempts == old(attempts)[name := attempt]
                && retryAfter == Some(RetryDelay(attempt))
      ensures !ok && (destroyed || Find(pending, name).None?) ==>
                timers == old(timers) && attempts == old(attempts) && retryAfter == None
    {
      ExtendsSelf(ledger);
      hide *;
      retryAfter := None;
      var found := Find(pending, name);
      var entry := MarkSettling(name);
      if ok {
        RetirePublished(entry);
      } else if !destroyed && found.Some? {
        var delay := BackOff(name);
        retryAfter := Some(delay);
      }
    }

    method MarkSettling(name: string) returns (entry: Pending)
      requires Valid() && name in drains && drains[name].Publishing?
      modifies `drains, `inFlight
      ensures Valid() && entry == old(drains)[name].entry && entry.name == name && Recorded(ledger, entry)
      ensures drains == old(drains)[name := Settling] && inFlight == old(inFlight) - multiset{name}
    {
      FlightSettles(drains, inFlight, name);
      hide FlightsOk, LedgerOk, WaitingIn, Bytes, PublishedWereSent, NoneInvalidated, Backlog;
      entry := drains[name].entry;
      drains := drains[name := Settling];
      inFlight := inFlight - multiset{name};
    }

    method BackOff(name: string) returns (delay: nat)
      requires Valid() && !destroyed && name in drains && drains[name].Settling?
      modifies `attempts, `timers
      ensures Valid() && timers == old(timers) + {name}
      ensures var attempt := (if name in old(attempts) then old(attempts)[name] else 0) + 1;
              attempts == old(attempts)[name := attempt] && delay == RetryDelay(attempt)
    {
      hide FlightsOk, LedgerOk, WaitingIn, Bytes, PublishedWereSent, NoneInvalidated, Backlog;
      var attempt := (if name in attempts then attempts[name] else 0) + 1;
      attempts := attempts[name := attempt];
      delay := RetryDelay(attempt);
      timers := timers + {name};
    }

    method RetirePublished(entry: Pending)
      requires Valid() && Recorded(ledger, entry)
      modifies `pending, `pendingBytes, `ledger, `attempts, `sent
      ensures Valid() && Extends(ledger, old(ledger))
      ensures sent == old(sent) + {entry} && attempts == old(attempts) - {entry.name}
      ensures pending == if entry in old(pending) then Drop(old(pending), entry.name) else old(pending)
    {
      RevisionsAgree(entry);
      hide *;
      var found := Find(pending, entry.name);
      NoteSent(entry);
      if found.Some? && found.value.revision == entry.revision { RemovePublished(entry); }
    }

    // A revision names one entry, so the waiting entry of that revision is the published one.
    lemma RevisionsAgree(entry: Pending)
      requires Consistent() && Recorded(ledger, entry)
      ensures entry in pending <==> Find(pending, entry.name).Some? && Find(pending, entry.name).value.revision == entry.revision
      ensures Extends(ledger, ledger)
    {
      WaitingOnePerRoom(ledger);
      if entry in pending { FindUnique(pending, entry); }
      var found := Find(pending, entry.name);
      if found.Some? { WaitingMembers(ledger, found.value); }
    }

    method NoteSent(entry: Pending)
      requires Valid()
      modifies `attempts, `sent
      ensures Valid() && sent == old(sent) + {entry} && attempts == old(attempts) - {entry.name}
    {
      sent := sent + {entry};
      attempts := attempts - {entry.name};
    }

    method RemovePublished(entry: Pending)
      requires Valid() && entry in pending && entry in sent
      modifies `pending, `pendingBytes, `ledger
      ensures Valid() && Extends(ledger, old(ledger)) && pending == Drop(old(pending), entry.name)
    {
      hide Sound, Drop, Bytes, Extends, OnePerRoom, Settle, Supersede, LedgerOk, WaitingIn, Awake, Backlog;
      SoundPublished(Now(), entry);
      StillAwake(pending, drains, timers, entry.name);
      DropShrinks(pending, entry.name);
      BytesExact(Now());
      RemoveEntry(entry.name);
      ledger := Settle(ledger, entry.name, Published);
    }

    // The `finally` of a drain, a step later: look for work that arrived meanwhile.
    method FinishDrain(name: string)
      requires Valid() && name in drains && drains[name].Settling?
      modifies `drains, `inFlight
      ensures Valid()
      ensures drains == if destroyed || name in timers || Find(pending, name).None? then old(drains) - {name}
                        else old(drains)[name := Publishing(Find(pending, name).value)]
    {
      AwakeWithout(name);
      hide *;
      var found := Find(pending, name);
      if found.Some? { Reentered(drains, name, Publishing(found.value)); }
      LeaveDrain(name);
      StartDrain(name);
    }

    lemma AwakeWithout(name: string)
      requires Valid()
      ensures Consistent() && Backlog(pending) && (!destroyed ==> Awake(pending, drains - {name}, timers, Some(name)))
    {
      hide Sound, FlightsOk, Backlog;
    }

    method LeaveDrain(name: string)
      requires Consistent() && name in drains && drains[name].Settling?
      modifies `drains
      ensures Consistent() && drains == old(drains) - {name}
    {
      SettlingLeaves(drains, inFlight, name);
      hide FlightsOk, LedgerOk, WaitingIn, Bytes, PublishedWereSent, NoneInvalidated;
      drains := drains - {name};
    }

    method TimerFires(name: string)
      requires Valid() && name in timers
      modifies `drains, `timers, `inFlight
      ensures Valid() && timers == old(timers) - {name}
      ensures drains == if name in old(drains) || Find(pending, name).None? then old(drains)
                        else old(drains)[name := Publishing(Find(pending, name).value)]
    {
      timers := timers - {name};
      StartDrain(name);
    }

    // Shutdown silences the queue and starts one last publish of every waiting state.
    method BeginDestroy()
      requires Valid()
      modifies `destroyed, `timers, `flushes
      ensures Valid() && destroyed && timers == {} && flushes == old(flushes) + multiset(pending)
    {
      destroyed := true;
      timers := {};
      flushes := flushes + multiset(pending);
    }

    // One of those publishes settles, before or after the deadline of the shutdown.
    method SettleFlush(entry: Pending, ok: bool)
      requires Valid() && entry in flushes
      modifies `flushes, `sent
      ensures Valid() && flushes == old(flushes) - multiset{entry}
      ensures sent == old(sent) + (if ok then {entry} else {})
    {
      flushes := flushes - multiset{entry};
      if ok { sent := sent + {entry}; }
    }

    method FinishDestroy()
      requires Valid() && destroyed
      modifies `pending, `pendingBytes, `attempts, `ledger
      ensures Valid() && pending == [] && pendingBytes == 0 && attempts == map[] && Extends(ledger, old(ledger))
    {
      CloseAllOk(ledger);
      ledger := CloseAll(ledger);
      pending, pendingBytes, attempts := [], 0, map[];
    }

    // What a reachable queue promises, room by room.
    lemma Promises()
      requires Valid()
      ensures pendingBytes == Bytes(pending) && OnePerRoom(pending) && |pending| <= 256
      ensures pendingBytes <= 67_633_152 || |pending| == 1
      ensures forall p | p in pending :: p.document !in invalidated
      ensures !destroyed ==> forall p | p in pending :: p.name in drains || p.name in timers
      ensures forall n | n in drains && drains[n].Publishing? :: n !in timers && drains[n].entry.name == n
      ensures forall n: string :: inFlight[n] <= 1 && (inFlight[n] == 1 <==> n in drains && drains[n].Publishing?)
      ensures !destroyed ==> flushes == multiset{}
      ensures forall i | 0 <= i < |ledger| && ledger[i].fate == Published :: ledger[i].entry in sent
      ensures forall i | 0 <= i < |ledger| && (forall j | i < j < |ledger| :: ledger[j].entry.name != ledger[i].entry.name) ::
                ledger[i].fate != Superseded && (ledger[i].fate == Waiting <==> ledger[i].entry in pending)
    {
      WaitingOnePerRoom(ledger);
      forall i | 0 <= i < |ledger| && (forall j | i < j < |ledger| :: ledger[j].entry.name != ledger[i].entry.name)
        ensures ledger[i].fate != Superseded && (ledger[i].fate == Waiting <==> ledger[i].entry in pending)
      {
        NewestIsAccountedFor(ledger, i);
      }
    }

    // Any sequence of events, in any order; an event that cannot happen now is skipped.
    method Replay(events: seq<Event>)
      requires Valid()
      requires forall e | e in events && e.Queue? :: roomOf(e.document) == e.name
      requires forall e | e in events && e.Discard? && e.room.Some? :: roomOf(e.room.value) == e.name
      modifies this
      ensures Valid() && Extends(ledger, old(ledger)) && old(invalidated) <= invalidated
    {
      ExtendsSelf(ledger);
      hide *;
      var i := 0;
      while i < |events|
        invariant 0 <= i <= |events|
        invariant Valid() && Extends(ledger, old(ledger)) && old(invalidated) <= invalidated
      {
        ghost var before := ledger;
        assert events[i] in events;
        Dispatch(events[i]);
        ExtendsTransitive(old(ledger), before, ledger);
        i := i + 1;
      }
    }

    method Dispatch(event: Event)
      requires Valid()
      requires event.Queue? ==> roomOf(event.document) == event.name
      requires event.Discard? && event.room.Some? ==> roomOf(event.room.value) == event.name
      modifies this
      ensures Valid() && Extends(ledger, old(ledger)) && old(invalidated) <= invalidated
    {
      ExtendsSelf(ledger);
      hide *;
      match event
      case MarkPersisted(document, state) => MarkPersisted(document, state);
      case AfterStore(document) => var _ := TakePersisted(document);
      case Queue(name, document, stored, sourceStore) => QueueAfterRelease(name, document, stored, sourceStore);
      case Discard(name, room) => Discard(name, room);
      case SettlePublish(name, ok) => if name in drains && drains[name].Publishing? { var _ := SettlePublish(name, ok); }
      case FinishDrain(name) => if name in drains && drains[name].Settling? { FinishDrain(name); }
      case TimerFires(name) => if name in timers { TimerFires(name); }
      case BeginDestroy => BeginDestroy();
      case SettleFlush(entry, ok) => if entry in flushes { SettleFlush(entry, ok); }
      case FinishDestroy => if destroyed { FinishDestroy(); }
    }
  }
}
