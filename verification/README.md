# Verification models

Dafny models of the protocols and algorithms of the repository whose correctness is hardest to see from the code, with
machine-checked proofs of what they promise. `dafny verify dfyconfig.toml` checks everything.

**Collaborative documents** (`ai-company/packages/documents/server/documents-collab-server.ts`).

- `CollabModel` is the protocol as a step system: one content row, any number of sidecar replicas and rooms, loads,
  edits, store invocations cut at their awaits, content resets, the compare-and-swap, the final-drain registry and the
  Redis fan-out. A Y.Doc is the set of updates it has merged; merging is union. Every action is total, so a run is any
  sequence of actions: messages and invalidation events may be late, repeated or lost, and a room that stops taking
  steps is an unloaded room.
- `CollabDurability` proves generation fencing and that no durable update is lost, `CollabGating` proves who may persist
  and what becomes of the one-shot drain grant, `CollabLoading` proves how rooms come to be loaded and that a replaced
  body is final, `CollabOutcomes` accounts for every way a store can end, `CollabRevocation` proves which stores lose
  their room and why a room is invalidated,
  `CollabCompletion` proves that a store under competition is over after a bounded number of its own steps and what it
  has achieved then, and `CollabProgress` proves that fan-out frames are not lost and that runs exist in which the
  promises are met, among them a whole story from two loads to the edits of a refused writer in his peer's room.
- `FanoutLedger` and `Fanout` are the fan-out queue with its retries, coalescing, eviction and shutdown, `AuthTickets`
  the authorization epochs, `Ingress` the per-socket ingress budget, `Awareness` the presence ownership binder.

**Tenant-aware cache** (`ai-company/packages/cache/src`). `CachePatterns` is the glob matcher, `CacheKeys` the naming of
physical entries, `CacheService` the wrapper over a base strategy, proved to be one plain map per normalized tenant.

**Event bus** (`ai-company/packages/events/src/bus.ts`). `EventBus` is inline delivery, the stamped job and the worker.

**Four algorithms.** `ErrorWalk` (nested errors of the CLI), `TemplateSync` (template drift check and fix), `Anchors` with
`AnchorText` (comment anchors of the prototype engine), `WorkerPool` (bounded concurrency of the search service).

`Options`, `Sequences` and `Text` are small shared vocabulary.

Where the code promises less than its surroundings suggest, the model keeps the code and states the exact condition:

- A connection can come to claim two client ids when the server reports own ids that the connection never claimed. The
  bound of one holds for every update exactly when three numbers together are at most one: its claims and the own ids
  in range that the room has bound to this user, and as many of its unbound own ids in range as the room still takes
  (`Awareness.ClaimBoundIsExact`, for every room and every call). Own ids bound to another actor are harmless.
- A state key of the authorization registry joins document name, tenant and organization with NUL characters, so two
  documents can share a key, and the access-change events of one then make the tickets of the other stale. A key
  identifies its document and scope exactly when none of the three parts contains a NUL (`AuthTickets.KeyIdentifiesIff`).
- An anchor is lost when the element or an element above it has a colon in its tag or an earlier sibling that agrees
  with it in lower case only; `Anchors.PrintAndResolve` proves both directions. The screen itself prints as the empty
  path, which resolves to nothing.
- The worker pool with a limit below one starts no runner and resolves with nothing done; `WorkerPool.Pool.AtTheEnd`
  gives the condition.
- The drift check can succeed where a sync would fail, because it does not read the source of a missing template file;
  `TemplateSync.Mirror.ComputeDrift` and `TemplateSync.Mirror.ApplyFullSync` state exactly when each fails.
- A persistent emit whose inline run failed in some persistent subscriber runs every persistent subscriber a second time,
  also those that had succeeded; `EventBus.DeliverPersistent` counts it.
- The cache stores the empty key but never lists or purges it; `CacheService.TenantAwareCache.Keys` says so.

## Model

| member | source | states |
|---|---|---|
| CollabDurability.GenerationFencing | ai-company/packages/documents/server/documents-collab-server.ts:2687-2954 | over every run, each update in a state that was durable in generation g was brought into g itself: by an edit in a room loaded at g, by the reset that opened g, or by the one HTML conversion of g |
| CollabDurability.Provenance | ai-company/packages/documents/server/documents-collab-server.ts:2628-2745 | an update can enter a generation only in those three ways, at an identified step of the run |
| CollabDurability.RunOk | ai-company/packages/documents/server/documents-collab-server.ts:2646-2694 | every run keeps the invariant: a room's content belongs to its generation and holds the version it remembers, or the database has moved past that generation; this includes the two row reads of a load and the bootstrap in between |
| CollabDurability.NoDurableUpdateLost | ai-company/packages/documents/server/documents-collab-server.ts:2776-2954 | between any two moments of a run in one generation the later durable state is a superset of the earlier one and its version is not older |
| CollabDurability.CommitWritesSuperset | ai-company/packages/documents/src/modules/documents/lib/contentService.ts:195-286 | in every reachable state a compare-and-swap that matches writes, in the same generation and at a newer version, a superset of the row and of every state durable in that generation; one that does not match changes nothing |
| CollabDurability.RoomHoldsItsVersion | ai-company/packages/documents/server/documents-collab-server.ts:2914-2944 | a loaded room contains everything durable up to the version it remembers, or its generation is over and none of its stores can change the database |
| CollabDurability.AcceptedUpdatesWereDurable | ai-company/packages/documents/server/documents-collab-server.ts:840-909 | whatever Redis adds to a room, at once or out of the load buffer, was durable in the room's own generation, and only frames of other replicas arrive |
| CollabDurability.ConflictNeverMints | ai-company/packages/documents/server/documents-collab-server.ts:2893-2912 | after a lost compare-and-swap a row of the same generation already has a Yjs state, so the HTML is never converted a second time by a retry |
| CollabDurability.ConvertedOnce | ai-company/packages/documents/server/documents-collab-server.ts:2016-2107 | within a generation a legacy HTML body gets its Yjs identity at most once, whatever runs afterwards |
| CollabLoading.LoadTakesTheRow | ai-company/packages/documents/server/documents-collab-server.ts:2646-2694 | over every run, a room that has read a live row with a Yjs state or no body is loaded by its next load segment, at the row's version and generation and with exactly that state, whatever came in between |
| CollabLoading.LoadTakesTheBootstrap | ai-company/packages/documents/server/documents-collab-server.ts:2671-2694 | over every run, a room that has read an HTML-only row is loaded at its version and generation with the Yjs identity the bootstrap found in the row or minted and stored there; it is empty if the document or the body is gone by then |
| CollabLoading.BootstrapStays | ai-company/packages/documents/server/documents-collab-server.ts:2083-2107 | that identity is in every later row of the generation |
| CollabLoading.MissingRowIsRepaired | ai-company/packages/documents/server/documents-collab-server.ts:2646-2653 | a room that finds no row repairs it and goes on to a second read; with a live document the repair brings a live, blank row of a new generation |
| CollabLoading.LoadFailsOnlyAfterTwoMisses | ai-company/packages/documents/server/documents-collab-server.ts:2646-2657 | over every run, a failed load has missed the row twice with a repair in between |
| CollabLoading.ResetIsFinal | ai-company/packages/documents/src/modules/documents/lib/contentService.ts:56-63 | a replacement brings exactly its content in a new generation, and no room loaded before it ever stores anything again, whether or not it learns of the replacement |
| CollabOutcomes.EveryEndIsAccountedFor | ai-company/packages/documents/server/documents-collab-server.ts:2746-2976 | over every run and at every later moment: of an invocation that is over, either its persist call was acknowledged and the edits that were in its room when it began are in that durable state and in every later row of the generation, or its room is invalidated, or it gave way to the store that had taken the room's mark, which is itself acknowledged or leaves an invalidated room, or it met a technical failure and rethrew it and the room still holds the edits |
| CollabOutcomes.HandsOverEverything | ai-company/packages/documents/server/documents-collab-server.ts:2823-2862 | over every run, what a store hands to persist contains everything that was in its room at any moment before the snapshot |
| CollabOutcomes.RethrowLeavesRoomOpen | ai-company/packages/documents/server/documents-collab-server.ts:2956-2975 | an invocation rethrows only out of a loaded, live and unmarked room, where the next store can start |
| CollabOutcomes.AcknowledgementIsRemembered | ai-company/packages/documents/server/documents-collab-server.ts:2936-2954 | an acknowledged store leaves the room expecting exactly the written version and generation, so that the next store does, and owing its peers exactly the written state |
| CollabOutcomes.LostSwapIsMerged | ai-company/packages/documents/server/documents-collab-server.ts:2875-2929 | over every run, an invocation that lost a compare-and-swap and ends acknowledged lost to a row of its own generation, and what it made durable holds both the winner's updates and its own room's |
| CollabOutcomes.RethrowNeedsFailure | ai-company/packages/documents/server/documents-collab-server.ts:2956-2975 | over every run, an invocation rethrows only after content that cannot be materialized, an unavailable database or reload, or the fourth lost compare-and-swap, and only out of a live, unmarked room |
| CollabOutcomes.EditsBecomeDurable | ai-company/packages/documents/server/documents-collab-server.ts:2823-2862 | over every run, an edit a loaded room accepts stays in the room, and every store of it that has not yet taken its snapshot and ends acknowledged has made the edit durable for good |
| CollabRevocation.RefusedWriterLosesTheRoom | ai-company/packages/documents/server/documents-collab-server.ts:2364-2407 | over every run, an invocation whose live authorization is refused or cannot be asked, and that holds no drain grant, ends with its room invalidated, or behind the store that took the room's mark |
| CollabRevocation.RevocationIsFinal | ai-company/packages/documents/server/documents-collab-server.ts:2345-2399 | over every run, a failed queue or a live connection when a drain is claimed, oversized content, an authorization that cannot be asked and a row that is gone or of another generation end the invocation with its room invalidated, grant or not |
| CollabRevocation.MarkedStoresWait | ai-company/packages/documents/server/documents-collab-server.ts:2384-2399 | over every run, a store whose room is marked by the time its authorization is answered never hands its content to persist again unless it holds the grant of the drain |
| CollabRevocation.FailedCallIsNoSuccess | ai-company/packages/documents/server/documents-collab-server.ts:2863-2874 | over every run, an invocation whose persist call failed or was not acknowledged rethrows or loses its room |
| CollabRevocation.InvalidationNeedsCause | ai-company/packages/documents/server/documents-collab-server.ts:2281-2343 | over every run, a room is invalidated only by a content event, a failed set-up of a marked room, a refused or revoked store, or a technical failure of a store whose room is marked or drained |
| CollabRevocation.InvalidationTakesEffect | ai-company/packages/documents/server/documents-collab-server.ts:2281-2343 | over every run, a content event and a failed set-up of a marked room leave the room invalidated at every later moment |
| CollabRevocation.InvalidationEndsStores | ai-company/packages/documents/server/documents-collab-server.ts:2804-2828 | over every run, an invocation under way when its room is invalidated is never acknowledged and never rethrows |
| CollabCompletion.CompetingStoreEnds | ai-company/packages/documents/server/documents-collab-server.ts:2804-2955 | under any interleaving with other stores, loads, edits and replicas, a store with favourable answers in a room that is not invalidated, newly marked or overtaken by another generation is over after at most forty of its own segments; then the room's content is durable and a registered drain is completed exactly if it lost the compare-and-swap less than four times |
| CollabProgress.FramesAreNotLost | ai-company/packages/documents/server/documents-collab-server.ts:840-909 | over every run, a frame another replica's room receives is merged or stays buffered while the room may still be loaded at its generation, through row reads, repair, bootstrap, edits and stores, unless a later frame of the same sender that does not contain it takes its place during the load; emptying the buffer merges it |
| CollabProgress.OwedIsSent | ai-company/packages/documents/server/documents-collab-server.ts:535-554 | what a live room owes its peers is sent when its turn comes and can be received at any later moment |
| CollabProgress.ConflictIsMerged | ai-company/packages/documents/server/documents-collab-server.ts:2893-2928 | resuming with a reloaded row of the same generation, however old by then, adds the row's updates to the room and makes the next attempt expect its version |
| CollabProgress.UndisturbedStoreSucceeds | ai-company/packages/documents/server/documents-collab-server.ts:2804-2955 | there is a run that takes an authorized store whose expectation holds to an acknowledged write of exactly the room's content, with the new version remembered and the state handed to the fan-out |
| CollabProgress.RetryStoresTheUnion | ai-company/packages/documents/server/documents-collab-server.ts:2863-2955 | from a lost compare-and-swap in the same generation there is a run that makes exactly the union of both replicas' updates durable |
| CollabProgress.FinalDrainCompletes | ai-company/packages/documents/server/documents-collab-server.ts:2345-2408 | from a marked, drained and disconnected room there is a run that makes its content durable and completes the drain, whether live authorization says yes or no |
| CollabProgress.FreshStoreSucceeds | ai-company/packages/documents/server/documents-collab-server.ts:2776-2955 | a store started in an up-to-date room can succeed and leave the room up to date again |
| CollabProgress.WithdrawnEditsArrive | ai-company/packages/documents/server/documents-collab-server.ts:2345-2408 | for every initial row with a Yjs state, any two replicas and any edits there is a run in which both rooms load, a writer's share is withdrawn before his edits are stored, the drain makes them durable although he is refused, and the other room receives them |
| CollabGating.RunOk | ai-company/packages/documents/server/documents-collab-server.ts:1219-1278 | every run keeps registry, rooms and store invocations linked: a taken mark is answered for by one store, a withdrawn mark has an invalidated room |
| CollabGating.PersistenceIsGated | ai-company/packages/documents/server/documents-collab-server.ts:2804-2862 | a persist call carries the room's current content, leaves from a room that is not invalidated at that moment, and is covered by an authorization of the same attempt or by the one-shot grant of the mark still registered |
| CollabGating.PersistenceWasEarned | ai-company/packages/documents/server/documents-collab-server.ts:2345-2408 | over every run, behind each persist call stands an earlier step at which live authorization said yes to this attempt of this invocation, or at which this invocation earned the grant of the mark that is still registered, after the queues captured by that mark had reported being drained and with no live connection |
| CollabGating.ReadinessIsReported | ai-company/packages/documents/server/documents-collab-server.ts:1219-1248 | over every run, what a mark knows of its captured queues is what they reported, once |
| CollabGating.AuthorizationIsRecorded | ai-company/packages/documents/server/documents-collab-server.ts:2364-2375 | the authorization on record changes only by a positive live answer, and then to the attempt it was given in |
| CollabGating.InvalidationIsPermanent | ai-company/packages/documents/server/documents-collab-server.ts:2281-2312 | once invalidated a room stays invalidated through every later run |
| CollabGating.FanoutsComeFromLiveRooms | ai-company/packages/documents/server/documents-collab-server.ts:535-554 | a fan-out is the state of a room's last store, handed over once, by a room that is not invalidated at that moment |
| CollabGating.NoPersistAfterInvalidation | ai-company/packages/documents/server/documents-collab-server.ts:2757-2828 | no later store, attempt or retry persists a room that was invalidated at any earlier moment |
| CollabGating.GrantsAreEarned | ai-company/packages/documents/server/documents-collab-server.ts:1249-1271 | a grant is given only to the store that took the mark, with the mark still registered, every captured queue drained and no live connection |
| CollabGating.OneGrantPerMark | ai-company/packages/documents/server/documents-collab-server.ts:1252-1270 | no two store invocations ever hold the grant of one mark |
| CollabGating.GrantsAreNeverStranded | ai-company/packages/documents/server/documents-collab-server.ts:2803-2975 | when the store that took a mark is over, the drain is completed or the mark is withdrawn and the room invalidated; a drain is completed only by an acknowledged store |
| CollabGating.CompletionIsOwned | ai-company/packages/documents/server/documents-collab-server.ts:2931-2954 | only the owner of the grant completes a drain, and only after its persist call was acknowledged |
| CollabGating.AtMostFourCalls | ai-company/packages/documents/server/documents-collab-server.ts:2804-2929 | one store invocation calls persist at most four times over any run |
| FanoutLedger.SupersedeOk | ai-company/packages/documents/server/documents-collab-server.ts:691-701 | queueing a newer state of a room replaces its waiting one at the fresh end, and the replaced state is recorded as superseded by a newer one |
| FanoutLedger.NewestIsAccountedFor | ai-company/packages/documents/server/documents-collab-server.ts:632-764 | the newest state ever queued for a room waits in the queue or was published, evicted, discarded or dropped at shutdown, never silently replaced |
| FanoutLedger.WaitingIsNewest | ai-company/packages/documents/server/documents-collab-server.ts:691-700 | the waiting entry of a room is the newest state ever queued for it |
| FanoutLedger.BoundedIsLongest | ai-company/packages/documents/server/documents-collab-server.ts:654-677 | eviction leaves the longest run of most recently refreshed rooms that fits both limits, at most 256 rooms, and never less than the room just queued |
| FanoutLedger.DropBytes | ai-company/packages/documents/server/documents-collab-server.ts:639-644 | removing the entry found for a room takes exactly its bytes off the total |
| Fanout.RetryDelayDoubles | ai-company/packages/documents/server/documents-collab-server.ts:740-745 | the back-off starts at 250 ms, doubles, and is five seconds exactly from the sixth failure on |
| Fanout.FanoutQueue.MarkPersisted | ai-company/packages/documents/server/documents-collab-server.ts:437-447 | an invalidated document is never remembered for fan-out |
| Fanout.FanoutQueue.TakePersisted | ai-company/packages/documents/server/documents-collab-server.ts:535-537 | the remembered state is handed over once |
| Fanout.FanoutQueue.QueueAfterRelease | ai-company/packages/documents/server/documents-collab-server.ts:535-554 | after the lock is released a state is queued exactly if it exists, the store was a source store, the document is not invalidated and the queue is alive; the back-off of the room survives |
| Fanout.FanoutQueue.EvictOverflowing | ai-company/packages/documents/server/documents-collab-server.ts:663-677 | the loop leaves exactly the bounded queue and the timers and back-off of the surviving rooms |
| Fanout.FanoutQueue.QueuePersisted | ai-company/packages/documents/server/documents-collab-server.ts:679-704 | queueing keeps every promise of the queue, starts a publish unless one is under way or scheduled, and never drops the new state |
| Fanout.FanoutQueue.StartDrain | ai-company/packages/documents/server/documents-collab-server.ts:706-713 | a publish is started and counted only if none of the room is in flight and no retry is scheduled; after the call no waiting room is left unattended |
| Fanout.FanoutQueue.Discard | ai-company/packages/documents/server/documents-collab-server.ts:632-652 | discarding tombstones the document, drops its entry with timer and back-off, leaves an entry of a newer document of the same room alone, and forgets no remembered state |
| Fanout.FanoutQueue.SettlePublish | ai-company/packages/documents/server/documents-collab-server.ts:727-764 | a success retires the entry only if it is still the waiting one, so an older publish never removes a newer state; a failure schedules a retry after the delay of the next attempt unless nothing waits, and no other room's back-off changes |
| Fanout.FanoutQueue.FinishDrain | ai-company/packages/documents/server/documents-collab-server.ts:716-724 | the end of a drain publishes what arrived meanwhile: no wake-up is lost |
| Fanout.FanoutQueue.TimerFires | ai-company/packages/documents/server/documents-collab-server.ts:751-756 | a fired timer leads to a publish of whatever waits |
| Fanout.FanoutQueue.BeginDestroy | ai-company/packages/documents/server/documents-collab-server.ts:1018-1030 | shutdown cancels all timers and starts exactly one last publish of every waiting state |
| Fanout.FanoutQueue.SettleFlush | ai-company/packages/documents/server/documents-collab-server.ts:983-1016 | each of those publishes settles on its own, before or after the deadline, and a successful one counts as sent |
| Fanout.FanoutQueue.FinishDestroy | ai-company/packages/documents/server/documents-collab-server.ts:1030-1033 | after shutdown nothing waits and the byte count is zero |
| Fanout.FanoutQueue.Promises | ai-company/packages/documents/server/documents-collab-server.ts:632-764 | what every reachable queue promises: exact byte count, room and byte limits, no invalidated document, every waiting room in a drain or on a timer, no timer beside a publish, at most one publish of a drain in flight per room and shutdown publishes only at shutdown, published means sent, newest states accounted for |
| Fanout.FanoutQueue.Replay | ai-company/packages/documents/server/documents-collab-server.ts:437-764 | any sequence of events in any order keeps those promises, never rewrites the history of a state and never forgets an invalidation |
| AuthTickets.KeyIdentifiesIff | ai-company/packages/documents/server/documents-collab-server.ts:1147-1154 | a scoped state key, the only kind the server builds, identifies its document and scope exactly when neither the name nor the tenant nor the organization contains a NUL |
| AuthTickets.KeyIdentifiesAmongAllIff | ai-company/packages/documents/server/documents-collab-server.ts:1147-1154 | among scoped and unscoped keys together exactly the unscoped names with fewer than two NULs identify themselves |
| AuthTickets.ScopedKeysCollide | ai-company/packages/documents/server/documents-collab-server.ts:1147-1154 | two concrete documents of different tenants share a key |
| AuthTickets.AuthorizationRegistry.BeginAuthorization | ai-company/packages/documents/server/documents-collab-server.ts:1279-1299 | a new ticket for its document and scope begins at the present end of the event log and is unreleased |
| AuthTickets.AuthorizationRegistry.BumpAuthorization | ai-company/packages/documents/server/documents-collab-server.ts:1300-1303 | an event is logged with its document and scope and disturbs no ticket or state entry |
| AuthTickets.AuthorizationRegistry.IsAuthorizationCurrent | ai-company/packages/documents/server/documents-collab-server.ts:1304-1310 | a ticket is current if and only if it is unreleased and no event of its key happened since it began; for names without NUL this means no event of its own document and scope |
| AuthTickets.AuthorizationRegistry.EndAuthorization | ai-company/packages/documents/server/documents-collab-server.ts:1224-1232 | releasing is idempotent, affects this ticket only and forgets the state entry of the last one |
| AuthTickets.AuthorizationRegistry.ActiveCountsUnreleased | ai-company/packages/documents/server/documents-collab-server.ts:1224-1232 | a state entry exists exactly while its key has unreleased tickets, and its active count is their number |
| Ingress.IngressGuard.HandleFrame | ai-company/packages/documents/server/documents-collab-server.ts:1370-1411 | exactly when a frame is ignored, refused, accepted or given back after an error, and the whole new budget of its socket; no other socket changes |
| Ingress.IngressGuard.CloseIngress | ai-company/packages/documents/server/documents-collab-server.ts:1351-1368 | a socket is closed once, when it becomes blocked |
| Ingress.IngressGuard.ReleaseFrame | ai-company/packages/documents/server/documents-collab-server.ts:1397-1403 | a release works once and takes off exactly what was charged, so the clamps at zero never act |
| Ingress.IngressGuard.Replay | ai-company/packages/documents/server/documents-collab-server.ts:1370-1411 | over any interleaving of sockets and connections, pending bytes and messages equal those of accepted unreleased frames, stay within the limits, and blocking is absorbing |
| Ingress.ReleaseDischarges | ai-company/packages/documents/server/documents-collab-server.ts:1397-1403 | releasing one frame lowers the open amounts of its socket by that frame and of no other socket |
| Awareness.CursorRoundTrip | ai-company/packages/documents/server/documents-collab-server.ts:1836-1877 | sanitizing a broadcast cursor gives it back exactly if it is valid, so sanitizing is idempotent |
| Awareness.PositionIsRead | ai-company/packages/documents/server/documents-collab-server.ts:1836-1866 | a position is read out of a record exactly if the record says it: association between -1 and 1 and 0 when missing, a valid item before a type name of at most 120 characters before a type |
| Awareness.OwnersAreWriteOnce | ai-company/packages/documents/server/documents-collab-server.ts:1774-1816 | no update rebinds a client id, and every new binding is of an admitted id to the sender |
| Awareness.RoomStaysBounded | ai-company/packages/documents/server/documents-collab-server.ts:1796-1803 | a room never holds more than 256 owners |
| Awareness.SurvivorsAreCanonical | ai-company/packages/documents/server/documents-collab-server.ts:1740-1816 | every surviving state carries the sender's canonical user and only a sanitized cursor, comes from a usable entry, and never stands for another socket's or actor's id |
| Awareness.AdmittedIds | ai-company/packages/documents/server/documents-collab-server.ts:1780-1795 | an unknown connection gets at most one id per update, a known one only ids it is known by |
| Awareness.OwnStatesSurvive | ai-company/packages/documents/server/documents-collab-server.ts:1760-1816 | every acceptable state of an own id that the room has bound to its sender gets through |
| Awareness.NewcomerGetsFirst | ai-company/packages/documents/server/documents-collab-server.ts:1780-1816 | a connection known by no id gets the first acceptable state through for which the room has a place |
| Awareness.ClaimsStayBounded | ai-company/packages/documents/server/documents-collab-server.ts:1780-1813 | a connection known by at most one id claims at most one id, whatever the update |
| Awareness.ClaimsStayInReach | ai-company/packages/documents/server/documents-collab-server.ts:1780-1813 | the claims of a known connection never exceed what it has claimed, its own ids bound to the user and the unbound own ids the room still takes |
| Awareness.ReachIsAttained | ai-company/packages/documents/server/documents-collab-server.ts:1780-1813 | some update brings a known connection to that number of claims |
| Awareness.ClaimBoundIsExact | ai-company/packages/documents/server/documents-collab-server.ts:1780-1813 | in any room and for any call, no update makes a connection claim a second id exactly when that number is at most one |
| Awareness.ForeignOwnIdsAreHarmless | ai-company/packages/documents/server/documents-collab-server.ts:1780-1795 | a concrete connection with two own ids bound to another actor can claim nothing |
| Awareness.BindAwarenessStates | ai-company/packages/documents/server/documents-collab-server.ts:1730-1817 | the in-place loop computes the meaning of an update for every combination of present and missing ownership records; an unauthenticated sender changes nothing |
| Awareness.ReplayRoom | ai-company/packages/documents/server/documents-collab-server.ts:1730-1817 | over any sequence of updates of any connections of a room, owners are write-once and bounded and no connection claims a second id, own ids being among its claims |
| CachePatterns.MatchCacheKeyPattern | ai-company/packages/cache/src/patterns.ts:1-39 | the loop returns true exactly when the pattern matches with `*` as any run and `?` as any one character |
| CachePatterns.LastStarSuffices | ai-company/packages/cache/src/patterns.ts:12-31 | backtracking to the last star alone loses no match |
| CachePatterns.NoStarPattern | ai-company/packages/cache/src/patterns.ts:22-26 | a pattern without `*` matches exactly the keys of its length that agree with it wherever it has no `?` |
| CachePatterns.FirstStarPattern | ai-company/packages/cache/src/patterns.ts:12-31 | what precedes the first `*` agrees with the front of the key in that way, and the rest of the pattern matches some rest of the key |
| CachePatterns.PrefixPattern | ai-company/packages/cache/src/patterns.ts:1-39 | a literal prefix followed by `*` matches exactly the keys with that prefix |
| CacheKeys.NormalizedIsClean | ai-company/packages/cache/src/service.ts:11-15 | a normalized tenant name is non-empty and harmless, and normalizing is idempotent |
| CacheKeys.TenantNames | ai-company/packages/cache/src/service.ts:11-15 | the name of every raw tenant, however padded: "global" for none or a blank one, otherwise the trimmed text with each other character replaced |
| CacheKeys.PlainTenantsKeepTheirNames | ai-company/packages/cache/src/service.ts:11-15 | a name of letters, digits, dots, underscores and hyphens is its own, so such tenants are kept apart |
| CacheKeys.KeysDistinct | ai-company/packages/cache/src/service.ts:63-83 | no two physical keys collide, within a tenant, across tenants, or between primary and metadata |
| CacheKeys.TagHit | ai-company/packages/cache/src/service.ts:85-98 | a tag deletion hits an entry exactly if the tenants agree and a non-empty tag is shared |
| CacheKeys.TenantPattern | ai-company/packages/cache/src/service.ts:153-156 | the listing pattern of a tenant finds the metadata keys of that tenant and nothing else |
| CacheKeys.AllTenantsPattern | ai-company/packages/cache/src/service.ts:42-43 | the cross-tenant pattern finds every metadata key and no primary key |
| CacheKeys.RebuildsPrimary | ai-company/packages/cache/src/service.ts:187-189 | from its metadata key every entry gets its own primary key back |
| CacheService.TwoPerId | ai-company/packages/cache/src/service.ts:101-105 | n logical entries have exactly 2n physical ones, so halving a deletion count counts logical entries |
| CacheService.TenantAwareCache.Get | ai-company/packages/cache/src/service.ts:107-110 | reads the logical map of the normalized tenant |
| CacheService.TenantAwareCache.Has | ai-company/packages/cache/src/service.ts:127-130 | membership in that map |
| CacheService.TenantAwareCache.Set | ai-company/packages/cache/src/service.ts:112-125 | updates exactly one logical entry and keeps the pairing of physical ones |
| CacheService.TenantAwareCache.Delete | ai-company/packages/cache/src/service.ts:132-137 | removes exactly that entry and says whether it existed |
| CacheService.TenantAwareCache.DeleteByTags | ai-company/packages/cache/src/service.ts:139-145 | removes exactly the tenant's entries that share a non-empty tag and returns their number |
| CacheService.TenantAwareCache.Clear | ai-company/packages/cache/src/service.ts:147-151 | removes exactly the tenant's entries and returns their number |
| CacheService.TenantAwareCache.Keys | ai-company/packages/cache/src/service.ts:153-168 | lists exactly the tenant's non-empty keys that match, each once |
| CacheService.TenantAwareCache.Perform | ai-company/packages/cache/src/service.ts:107-168 | no sequence of operations under one tenant changes an entry of another |
| CacheService.TenantsAreApart | ai-company/packages/cache/src/service.ts:11-168 | for two different plain tenant names, whatever is done under one, the other reads, lists and clears exactly what it did before |
| CacheService.TenantAwareCache.DeleteByPatternsAcrossScopes | ai-company/packages/cache/src/service.ts:170-194 | removes exactly the entries of all tenants whose non-empty key matches one of the given patterns, trimmed and not blank, and returns their number |
| EventBus.SelectedRuns | ai-company/packages/events/src/bus.ts:325-338 | a subscriber is selected exactly once if its pattern matches and it belongs to the audience, never otherwise, however patterns overlap |
| EventBus.Bus.On | ai-company/packages/events/src/bus.ts:402-421 | registration lists a new subscriber once, under its own pattern |
| EventBus.Bus.Deliver | ai-company/packages/events/src/bus.ts:259-301 | inline delivery reaches its whole audience and returns the number of persistent subscribers that failed, or, exactly if errors are rethrown and somebody in the audience fails, it stops at the first failing one |
| EventBus.Bus.Emit | ai-company/packages/events/src/bus.ts:437-504 | it raises exactly if it is not enqueue-only, errors are rethrown and somebody in the inline audience fails, and then enqueues nothing; otherwise a persistent emit enqueues one job, stamped exactly if persistent subscribers ran inline and all succeeded |
| EventBus.Bus.DispatchQueued | ai-company/packages/events/src/bus.ts:356-394 | every persistent match runs and reports its own outcome, in selection order |
| EventBus.Bus.HandleJob | ai-company/packages/events/src/modules/events/workers/events.worker.ts:113-160 | a stamped job runs nobody, and a job fails exactly if a subscriber failed |
| EventBus.DeliverPersistent | ai-company/packages/events/src/bus.ts:437-504 | it raises exactly when the emit does; otherwise, with the same registry on both sides and whichever way the single-delivery flag is set: each matching persistent subscriber runs exactly once in total when no inline persistent handler failed and twice when one did, ephemeral ones once unless enqueue-only, others never |
| ErrorWalk.CollectNestedErrors | ai-company/packages/cli/src/mercato.ts:136-161 | terminates on cyclic graphs; with any set of already seen values it lists what it newly sees, each once, reachable, closed under children and in the order of a depth-first walk, errors before cause |
| ErrorWalk.OrderInTurn | ai-company/packages/cli/src/mercato.ts:149-159 | in that order, what waits in front is worked off completely before what waits behind |
| ErrorWalk.ClosedHoldsPaths | ai-company/packages/cli/src/mercato.ts:136-161 | nothing is reachable beyond a set closed under errors and cause |
| ErrorWalk.Collect | ai-company/packages/cli/src/mercato.ts:163-182 | every object reachable through errors and cause is listed exactly once, the text of every reachable primitive is there, nothing else is, and they come in the order of the walk |
| TemplateSync.Mirror.ComputeDrift | ai-company/scripts/template-sync.ts:406-475 | names every file that is not as it should be once and truthfully, and fails exactly when an existing template file has nothing to compare with |
| TemplateSync.Mirror.ApplyFullSync | ai-company/scripts/template-sync.ts:577-616 | succeeds exactly if every source can be read and transformed; then the template is as it should be and the count is the number of files that differed |
| TemplateSync.Mirror.ApplySync | ai-company/scripts/template-sync.ts:618-633 | working off a complete list of drifts succeeds exactly if every source can be read and transformed; it then counts the drifts and leaves the template as it should be |
| TemplateSync.MirrorHasNoDrift | ai-company/scripts/template-sync.ts:406-475 | a synced tree has no drift, its sources are untouched and so is everything outside the mirror |
| TemplateSync.MirrorSpelled | ai-company/scripts/template-sync.ts:577-616 | a synced tree file by file: app files in scope and mapped files are there in their transformed form, template files without a source are gone unless template-only or out of scope, and nothing else has changed |
| TemplateSync.DifferingIsChanged | ai-company/scripts/template-sync.ts:577-616 | the files a sync counts are exactly those it changes |
| TemplateSync.SoundMeansReadable | ai-company/scripts/template-sync.ts:577-616 | a sync can succeed exactly if every app file in scope can be transformed and every mapped file is there and can be |
| TemplateSync.MirrorIsUnique | ai-company/scripts/template-sync.ts:577-633 | there is only one tree that is as it should be, so both ways of fixing agree |
| TemplateSync.CheckAndFixAgree | ai-company/scripts/template-sync.ts:406-633 | a full sync updates as many files as the check reports, the check is silent afterwards, sources are untouched, and the drift-driven fix gives the same tree |
| AnchorText.SplitJoin | ai-company/.ai/mockups/time-tracking/prototype.js:164-171 | splitting a joined path gives its parts back when no part contains the separator |
| AnchorText.ParseDecimal | ai-company/.ai/mockups/time-tracking/prototype.js:161-173 | parsing a printed index gives it back |
| AnchorText.DecimalIsCanonical | ai-company/.ai/mockups/time-tracking/prototype.js:161 | a printed index is made of digits and has no leading zero |
| AnchorText.ParseIntReads | ai-company/.ai/mockups/time-tracking/prototype.js:173 | an index is read past white space and a sign up to the first other character |
| AnchorText.ParseIntNone | ai-company/.ai/mockups/time-tracking/prototype.js:173 | without a digit there is no index |
| Anchors.AnchorFor | ai-company/.ai/mockups/time-tracking/prototype.js:152-165 | the upward loop prints the path from the screen down, and answers null exactly when the screen is not above the element |
| Anchors.ResolveAnchor | ai-company/.ai/mockups/time-tracking/prototype.js:167-182 | the downward loop follows the parts of any path, and the empty path leads nowhere |
| Anchors.PartSpelled | ai-company/.ai/mockups/time-tracking/prototype.js:157-162 | a part is the lower-cased tag, with the place among siblings of the same tag, counted from one, only if there are several |
| Anchors.ChildSpelled | ai-company/.ai/mockups/time-tracking/prototype.js:169-178 | a part leads to the child whose lower-cased tag stands before the first colon and which has as many such siblings before it as the index says, the first without an index |
| Anchors.PartRoundTrip | ai-company/.ai/mockups/time-tracking/prototype.js:157-179 | a printed part leads back to its child exactly if its tag has no colon and no earlier sibling agrees with it in lower case only |
| Anchors.PartsRoundTrip | ai-company/.ai/mockups/time-tracking/prototype.js:152-182 | the same for whole paths in a tree: one wrong turn is never made good further down |
| Anchors.PrintAndResolve | ai-company/.ai/mockups/time-tracking/prototype.js:152-182 | for every element under a screen, printing and resolving leads back to it exactly under that condition on every element of the way |
| Anchors.PlainNamesArePrintable | ai-company/.ai/mockups/time-tracking/prototype.js:152-182 | with colon-free tags of consistent case every element can be found again |
| Anchors.ColonAnchorIsLost | ai-company/.ai/mockups/time-tracking/prototype.js:169-173 | a concrete element with a namespaced tag is lost |
| Anchors.CaseAnchorIsLost | ai-company/.ai/mockups/time-tracking/prototype.js:158-176 | a concrete element behind a sibling of the same tag in other case is lost |
| WorkerPool.Pool.Take | ai-company/packages/search/src/service.ts:49-54 | the shared cursor hands out the next item to one runner, or ends the runner |
| WorkerPool.Pool.Settle | ai-company/packages/search/src/service.ts:52-55 | an error stops its runner and no other |
| WorkerPool.Pool.Start | ai-company/packages/search/src/service.ts:49-54 | the smaller of limit and item count is the number of calls that are open when every runner has started |
| WorkerPool.Pool.Exclusive | ai-company/packages/search/src/service.ts:41-58 | no item is with two runners, and never more calls are open than the limit and the items allow |
| WorkerPool.Pool.AtTheEnd | ai-company/packages/search/src/service.ts:46-58 | when all runners are over: without an error every item was processed once exactly if the limit is at least one or there are no items; with fewer errors than runners every item was still tried |
| WorkerPool.MapWithConcurrency | ai-company/packages/search/src/service.ts:41-58 | under any schedule as many calls open at once as limit and items allow, the run ends, calls the worker in item order once per item, resolves exactly if no call failed, and tries every item if fewer fail than runners were started |

## Left out

- CollabModel: sockets, HTTP, Redis and Postgres clients, tokens, RBAC and Yjs encoding are not modelled; a Y.Doc is a set of updates, Redis a lossy bag of messages, Postgres one row with serialized transactions, and every live answer an arbitrary choice of the run.
- CollabModel: the hooks' closures, weak maps and counters are one immutable state with a step function; a Y.Doc identity is a room number, so aliasing and update in place are not captured here (the queue, tickets, ingress and awareness classes do have fields updated in place).
- CollabModel: an unloaded room is a room that takes no more steps; the hook order inside Hocuspocus is whatever order the actions come in.
- CollabModel: read-only contexts, the remembered writable context and the set-up of a store enter only through the live authorization answer and the set-up failure event.
- CollabModel: overflow of the load buffer appears as an invalidation event, and the byte budget checks of edits and snapshots as arbitrary outcomes, because their meaning depends on Yjs encoding sizes.
- CollabModel: versions and generations are unbounded numbers, so the error when a generation would pass the largest safe integer is left out.
- CollabModel: lost wake-ups of the hook framework, timers of the store debounce and process shutdown of rooms.
- CollabProgress.UndisturbedStoreSucceeds: is the existence of one run of six segments; what holds in all runs is `CollabOutcomes.EveryEndIsAccountedFor` and `CollabCompletion.CompetingStoreEnds`.
- CollabProgress.RetryStoresTheUnion: is the existence of one run; what holds in all runs is `CollabOutcomes.LostSwapIsMerged`.
- CollabProgress.FinalDrainCompletes: is the existence of one run; what holds in all runs is `CollabCompletion.CompetingStoreEnds` with a registered mark.
- CollabProgress.FreshStoreSucceeds: is the existence of one run; what every acknowledged store leaves behind is `CollabOutcomes.AcknowledgementIsRemembered`.
- CollabCompletion.CompetingStoreEnds: counts the store's own segments, because nothing in the protocol bounds how long an await takes; a mark that is registered while the invocation is under way is outside its two cases.
- Fanout: message encoding is abstracted to its length, lock release to the gap between the two halves of the after-store hook, and the shutdown deadline to the freedom of the last publishes to settle late or never; the warnings it logs are left out.
- AuthTickets: the expiry timer is a release that may come at any time.
- Ingress: the two guards that decide which wrapper charges a frame, and different limits for different connections of one socket.
- Awareness: the maps that look up the records of a connection and of a room, and the serialized size of a state, which is a flag of the entry; ids that are not integers.
- CacheService: the base strategies are one plain map that drops nothing by itself; time-to-live, eviction, statistics, cleanup, concurrent calls and backend fallback are not modelled.
- CacheKeys: a string is a sequence of characters, so unpaired surrogates are not modelled, and `?` in a pattern stands for a whole character where JavaScript has it stand for half of one beyond the basic plane; different raw tenants can normalize to one name and then share it.
- CacheKeys: the digest is taken to be injective and to consist of hexadecimal digits.
- EventBus: global taps, cross-process publishing, payload scope, resource telemetry, queue retries of a failed job and registration during a delivery; pattern matching is an arbitrary relation.
- ErrorWalk: getters, proxies and functions as errors; an object is its errors and cause.
- TemplateSync: directories, file modes, package dependency sync and printing; the folder globs are an arbitrary set of names, the transforms one deterministic function that may fail, and the order of the listings is not fixed.
- Anchors: `parseInt` beyond safe integers, and the Unicode tables of lower-casing, which is an arbitrary function except in the two counterexamples.
- WorkerPool: the order in which rejected promises are reported, and limits that are not integers.
- The health endpoint, environment parsing, signal handling, search strategy registration, the remaining command line, scaffolding, telemetry, lint rules and user interface code: wiring or single-branch logic without a property worth a proof.
