/**
 * The collaborative-document protocol as a step system.
 *
 * One document, one database row, any number of sidecar replicas. Every room is one in-memory Y.Doc of one
 * replica; a Y.Doc is abstracted to the set of Yjs updates it has merged, and merging is union. An asynchronous
 * hook runs in atomic segments between its awaits, so a load or a store invocation carries a program counter and
 * each `Action` runs one segment. `Apply` is total: an action whose guard does not hold changes nothing, so a run
 * is any sequence of actions.
 *
 * `authored`, `durable` and `openedAt` in `Db`, `authorizedAt` and `grant` in `Store` and the outcome of a finished
 * store are history variables: they are written but never steer a branch.
 */
module CollabModel {
  import opened Options

  type Update = nat
  type RoomId = nat
  type ReplicaId = nat
  type StoreId = nat
  type MarkId = nat

  const MAX_STORE_ATTEMPTS := 4

  // The content row. `html` says that a legacy HTML body is present; `yjs` is the stored Yjs state.
  datatype Row = Row(version: nat, generation: nat, yjs: Option<set<Update>>, html: bool, live: bool)

  // `update` entered the system under collaboration generation `generation`.
  datatype Tagged = Tagged(generation: nat, update: Update)

  // `state` was the committed Yjs state of the row at this version and generation.
  datatype Durable = Durable(version: nat, generation: nat, state: set<Update>)

  datatype Db = Db(row: Row, documentLive: bool, openedAt: nat, authored: set<Tagged>, durable: set<Durable>)

  // A complete state published over Redis after it became durable.
  datatype Fanout = Fanout(sender: ReplicaId, generation: nat, state: set<Update>)

  datatype Phase =
    | Opening(retried: bool)
    | Repairing
    | RowRead(row: Row)
    | Bootstrapping(row: Row)
    | Bootstrapped(row: Row, state: Option<set<Update>>)
    | Loaded(version: nat, generation: nat)
    | LoadFailed

  datatype Room = Room(
    replica: ReplicaId,
    content: set<Update>,
    phase: Phase,
    buffered: map<ReplicaId, Fanout>,
    invalidated: bool,
    connections: nat,
    mark: Option<MarkId>,
    persisted: Option<Fanout>)

  // One entry of the final-drain registry. `ready` is the captured queue readiness once it settles, and
  // `consuming` names the store invocation whose promise is installed.
  datatype Mark = Mark(room: RoomId, ready: Option<bool>, consuming: Option<StoreId>, granted: bool, completed: bool)

  // `Busy` names the mark another store has taken.
  datatype ConsumeResult = Unmarked | Busy(mark: MarkId) | Connected | Failed | Consumed

  datatype AuthorizeOutcome = Granted | Refused | Threw

  datatype SnapshotOutcome = Fits | TooLarge | Malformed

  datatype PersistError = Conflict | Oversize | Unavailable

  // How an invocation ended: its persist call was acknowledged with this version, it returned because the room is
  // retired, it returned because another store has taken the mark, or it rethrew an error to the framework.
  datatype StoreOutcome =
    | Acknowledged(version: nat, generation: nat, snapshot: set<Update>)
    | Abandoned
    | Behind(mark: MarkId)
    | Rethrown

  datatype Pc =
    | Attempting
    | AwaitingQueues(recheck: bool, authorized: bool, mark: MarkId)
    | ConsumeReplied(recheck: bool, authorized: bool, result: ConsumeResult)
    | AwaitingAuthorization(drain: ConsumeResult)
    | Authorized(owned: bool)
    | Persisting(snapshot: set<Update>)
    | PersistReturned(version: nat, generation: nat, snapshot: set<Update>)
    | PersistThrew(error: PersistError)
    | Reloading
    | Reloaded(row: Row)
    | Finished(outcome: StoreOutcome)

  // One `onStoreDocument` invocation; `version` and `generation` are its CAS expectation.
  datatype Store = Store(
    room: RoomId,
    pc: Pc,
    version: nat,
    generation: nat,
    attempt: nat,
    finalDrain: bool,
    authorizedAt: Option<nat>,
    grant: Option<MarkId>)

  datatype State = State(
    db: Db,
    rooms: map<RoomId, Room>,
    stores: map<StoreId, Store>,
    marks: map<MarkId, Mark>,
    fanouts: set<Fanout>)

  // One atomic segment in the life of one room.
  datatype RoomEvent =
    | ReadRow
    | Repair(bump: nat, minted: set<Update>)
    | ResumeLoad
    | Bootstrap(bump: nat, minted: set<Update>)
    | FinishBootstrap
    | ApplyBuffered
    | Edit(updates: set<Update>)
    | Connect
    | Disconnect
    | Invalidate
    | QueueFanout
    | Receive(fanout: Fanout)
    | MarkDrain(mark: MarkId)
    | StoreSetupFails

  // One atomic segment of one store invocation.
  datatype StoreEvent =
    | BeginAttempt(outcome: SnapshotOutcome)
    | QueuesSettled
    | ResumeConsume
    | ResumeAuthorize(answer: AuthorizeOutcome)
    | ResumeAuthorized(outcome: SnapshotOutcome)
    | Commit(bump: nat, html: bool, acknowledged: bool)
    | PersistFails(oversize: bool)
    | ResumePersist
    | Reload
    | ReloadFails(oversize: bool)
    | ResumeReload(minted: set<Update>)

  datatype Action =
    // an authoritative writer replaces, restores, deletes or undeletes the content
    | Reset(version: nat, yjs: Option<set<Update>>, html: bool, live: bool, documentLive: bool)
    | OpenRoom(room: RoomId, replica: ReplicaId)
    | StartStore(store: StoreId, room: RoomId)
    | SettleQueues(mark: MarkId, drained: bool)
    | InRoom(room: RoomId, event: RoomEvent)
    | InStore(store: StoreId, step: StoreEvent)

  function Tag(generation: nat, updates: set<Update>): set<Tagged> {
    set u | u in updates :: Tagged(generation, u)
  }

  // ---------------------------------------------------------------------------------------------------------
  // Database transactions
  // ---------------------------------------------------------------------------------------------------------

  function Committed(row: Row): set<Durable> {
    if row.yjs.Some? then {Durable(row.version, row.generation, row.yjs.value)} else {}
  }

  // Every authoritative replacement advances the generation; its version is whatever the command pinned.
  function OpenGeneration(db: Db, version: nat, yjs: Option<set<Update>>, html: bool, live: bool, documentLive: bool): Db {
    var row := Row(version, db.row.generation + 1, yjs, html, live);
    Db(row, documentLive, version,
       db.authored + (if yjs.Some? then Tag(row.generation, yjs.value) else {}),
       db.durable + Committed(row))
  }

  // `initializeDocumentYjsState`: repair a tombstoned row, then mint a Yjs identity for an HTML-only body without
  // touching the version.
  function Initialize(db: Db, bump: nat, minted: set<Update>): Db {
    if !db.documentLive then db
    else if !db.row.live then OpenGeneration(db, db.row.version + 1 + bump, None, false, true, true)
    else if db.row.yjs.None? && db.row.html then
      var row := db.row.(yjs := Some(minted));
      db.(row := row, authored := db.authored + Tag(row.generation, minted), durable := db.durable + Committed(row))
    else db
  }

  function InitializeResult(db: Db, minted: set<Update>): Option<set<Update>> {
    if !db.documentLive || !db.row.live then None
    else if db.row.yjs.Some? then db.row.yjs
    else if db.row.html then Some(minted)
    else None
  }

  predicate CasHolds(db: Db, version: nat, generation: nat) {
    db.row.generation == generation && db.row.version == version
  }

  // `persistDocumentContent` after both CAS axes matched: same generation, strictly newer version.
  function Persist(db: Db, snapshot: set<Update>, bump: nat, html: bool): Db {
    var row := Row(db.row.version + 1 + bump, db.row.generation, Some(snapshot), html, true);
    db.(row := row, durable := db.durable + Committed(row))
  }

  // ---------------------------------------------------------------------------------------------------------
  // Rooms
  // ---------------------------------------------------------------------------------------------------------

  function SetRoom(s: State, r: RoomId, room: Room): State {
    s.(rooms := s.rooms[r := room])
  }

  function Finish(room: Room, row: Row, state: Option<set<Update>>): Room {
    room.(content := room.content + (if state.Some? then state.value else {}),
          phase := Loaded(row.version, row.generation))
  }

  // `applyDurableFanout`: a room without a generation buffers the latest frame of each sender, a loaded room takes
  // a frame of its own generation only.
  function Accept(room: Room, fanout: Fanout): Room {
    if room.phase.Loaded? then
      if fanout.generation == room.phase.generation then room.(content := room.content + fanout.state) else room
    else room.(buffered := room.buffered[fanout.sender := fanout])
  }

  function BufferedUpdates(room: Room): set<Update>
    requires room.phase.Loaded?
  {
    set q, u | q in room.buffered && room.buffered[q].generation == room.phase.generation
      && u in room.buffered[q].state :: u
  }

  function RoomAction(s: State, e: RoomEvent, r: RoomId): State
    requires r in s.rooms
  {
    var room := s.rooms[r];
    match e
    case ReadRow =>
      if !room.phase.Opening? then s
      else if s.db.row.live then SetRoom(s, r, room.(phase := RowRead(s.db.row)))
      else SetRoom(s, r, room.(phase := if room.phase.retried then LoadFailed else Repairing))
    case Repair(bump, minted) =>
      if !room.phase.Repairing? then s
      else SetRoom(s.(db := Initialize(s.db, bump, minted)), r, room.(phase := Opening(true)))
    case ResumeLoad =>
      if !room.phase.RowRead? then s
      else if room.phase.row.yjs.None? && room.phase.row.html then
        SetRoom(s, r, room.(phase := Bootstrapping(room.phase.row)))
      else SetRoom(s, r, Finish(room, room.phase.row, room.phase.row.yjs))
    case Bootstrap(bump, minted) =>
      if !room.phase.Bootstrapping? then s
      else SetRoom(s.(db := Initialize(s.db, bump, minted)), r,
                   room.(phase := Bootstrapped(room.phase.row, InitializeResult(s.db, minted))))
    case FinishBootstrap =>
      if !room.phase.Bootstrapped? then s
      else SetRoom(s, r, Finish(room, room.phase.row, room.phase.state))
    case ApplyBuffered =>
      if !room.phase.Loaded? then s
      else SetRoom(s, r, room.(content := room.content + BufferedUpdates(room), buffered := map[]))
    case Edit(updates) =>
      if !room.phase.Loaded? then s
      else SetRoom(s.(db := s.db.(authored := s.db.authored + Tag(room.phase.generation, updates))), r,
                   room.(content := room.content + updates))
    case Connect => SetRoom(s, r, room.(connections := room.connections + 1))
    case Disconnect => SetRoom(s, r, room.(connections := if room.connections == 0 then 0 else room.connections - 1))
    case Invalidate => InvalidateRoom(s, r)
    case QueueFanout =>
      if room.persisted.None? then s
      else
        SetRoom(if room.invalidated then s else s.(fanouts := s.fanouts + {room.persisted.value}), r,
                room.(persisted := None))
    case Receive(fanout) =>
      if fanout !in s.fanouts || fanout.sender == room.replica then s
      else SetRoom(s, r, Accept(room, fanout))
    case MarkDrain(m) =>
      if m in s.marks || room.connections == 0 || room.mark.Some? then s
      else SetRoom(s.(marks := s.marks[m := Mark(r, None, None, false, false)]), r, room.(mark := Some(m)))
    case StoreSetupFails => RetireFailedStore(s, r, false)
  }

  // ---------------------------------------------------------------------------------------------------------
  // The store hook
  // ---------------------------------------------------------------------------------------------------------

  function Discard(s: State, r: RoomId): State
    requires r in s.rooms
  {
    SetRoom(s, r, s.rooms[r].(mark := None))
  }

  function InvalidateRoom(s: State, r: RoomId): State
    requires r in s.rooms
  {
    SetRoom(s, r, s.rooms[r].(mark := None, invalidated := true))
  }

  // A failed store retires its room, and its error is swallowed, when the room is invalidated, marked or drained by it.
  predicate Retires(room: Room, ownsGrant: bool) {
    room.invalidated || ownsGrant || room.mark.Some?
  }

  function RetireFailedStore(s: State, r: RoomId, ownsGrant: bool): State
    requires r in s.rooms
  {
    if s.rooms[r].invalidated then Discard(s, r)
    else if ownsGrant || s.rooms[r].mark.Some? then InvalidateRoom(s, r)
    else s
  }

  function Goto(s: State, i: StoreId, pc: Pc): State
    requires i in s.stores
  {
    s.(stores := s.stores[i := s.stores[i].(pc := pc)])
  }

  // Leave the hook because the room is invalidated: an owned grant is withdrawn first.
  function LeaveInvalidated(s: State, i: StoreId): State
    requires i in s.stores && s.stores[i].room in s.rooms
  {
    Goto(if s.stores[i].finalDrain then Discard(s, s.stores[i].room) else s, i, Finished(Abandoned))
  }

  function LeaveDenied(s: State, i: StoreId): State
    requires i in s.stores && s.stores[i].room in s.rooms
  {
    Goto(InvalidateRoom(s, s.stores[i].room), i, Finished(Abandoned))
  }

  function LeaveFailed(s: State, i: StoreId): State
    requires i in s.stores && s.stores[i].room in s.rooms
  {
    var room := s.rooms[s.stores[i].room];
    Goto(RetireFailedStore(s, s.stores[i].room, s.stores[i].finalDrain), i,
         Finished(if Retires(room, s.stores[i].finalDrain) then Abandoned else Rethrown))
  }

  // `registry.consume` up to its first await.
  function Consume(s: State, i: StoreId, recheck: bool, authorized: bool): State
    requires i in s.stores && s.stores[i].room in s.rooms
  {
    var mark := s.rooms[s.stores[i].room].mark;
    if mark.None? || mark.value !in s.marks then Goto(s, i, ConsumeReplied(recheck, authorized, Unmarked))
    else if s.marks[mark.value].consuming.Some? || s.marks[mark.value].granted then
      Goto(s, i, ConsumeReplied(recheck, authorized, Busy(mark.value)))
    else
      Goto(s.(marks := s.marks[mark.value := s.marks[mark.value].(consuming := Some(i))]),
           i, AwaitingQueues(recheck, authorized, mark.value))
  }

  // The rest of `consume` once the captured queues settled.
  function SettleConsume(s: State, i: StoreId): State
    requires i in s.stores && s.stores[i].room in s.rooms && s.stores[i].pc.AwaitingQueues?
  {
    var st := s.stores[i];
    var room := s.rooms[st.room];
    var m := st.pc.mark;
    if m !in s.marks || s.marks[m].ready.None? then s
    else if room.mark != Some(m) then Goto(s, i, ConsumeReplied(st.pc.recheck, st.pc.authorized, Unmarked))
    else if !s.marks[m].ready.value then Goto(s, i, ConsumeReplied(st.pc.recheck, st.pc.authorized, Failed))
    else if room.connections != 0 then Goto(s, i, ConsumeReplied(st.pc.recheck, st.pc.authorized, Connected))
    else
      s.(marks := s.marks[m := s.marks[m].(granted := true)],
         stores := s.stores[i := st.(pc := ConsumeReplied(st.pc.recheck, st.pc.authorized, Consumed), grant := Some(m))])
  }

  // Snapshot the room and call `persistContent`; runs without an await in between.
  function SnapshotAndPersist(s: State, i: StoreId, outcome: SnapshotOutcome): State
    requires i in s.stores && s.stores[i].room in s.rooms
  {
    if s.rooms[s.stores[i].room].invalidated then LeaveInvalidated(s, i)
    else
      match outcome
      case Fits => Goto(s, i, Persisting(s.rooms[s.stores[i].room].content))
      case TooLarge => LeaveDenied(s, i)
      case Malformed => LeaveFailed(s, i)
  }

  function BeginStoreAttempt(s: State, i: StoreId, outcome: SnapshotOutcome): State
    requires i in s.stores && s.stores[i].room in s.rooms
  {
    var st := s.stores[i];
    if s.rooms[st.room].invalidated then LeaveInvalidated(s, i)
    else if st.finalDrain then SnapshotAndPersist(s, i, outcome)
    else if s.rooms[st.room].mark.Some? then Consume(s, i, false, false)
    else Goto(s, i, AwaitingAuthorization(Unmarked))
  }

  function ResumeStoreConsume(s: State, i: StoreId): State
    requires i in s.stores && s.stores[i].room in s.rooms && s.stores[i].pc.ConsumeReplied?
  {
    var pc := s.stores[i].pc;
    if pc.result.Busy? then Goto(s, i, Finished(Behind(pc.result.mark)))
    else if pc.result.Connected? || pc.result.Failed? then LeaveDenied(s, i)
    else if !pc.recheck then Goto(s, i, AwaitingAuthorization(pc.result))
    else if pc.result.Consumed? then Goto(s, i, Authorized(true))
    else if pc.authorized then Goto(s, i, Authorized(false))
    else LeaveDenied(s, i)
  }

  function ResumeStoreAuthorize(s: State, i: StoreId, outcome: AuthorizeOutcome): State
    requires i in s.stores && s.stores[i].room in s.rooms && s.stores[i].pc.AwaitingAuthorization?
  {
    var st := s.stores[i].(authorizedAt := if outcome.Granted? then Some(s.stores[i].attempt) else s.stores[i].authorizedAt);
    var s1 := s.(stores := s.stores[i := st]);
    if outcome.Threw? then LeaveDenied(s1, i)
    else if s.rooms[st.room].invalidated then Goto(Discard(s1, st.room), i, Finished(Abandoned))
    else if st.pc.drain.Unmarked? then Consume(s1, i, true, outcome.Granted?)
    else Goto(s1, i, ConsumeReplied(true, outcome.Granted?, st.pc.drain))
  }

  function ResumeStoreAuthorized(s: State, i: StoreId, outcome: SnapshotOutcome): State
    requires i in s.stores && s.stores[i].room in s.rooms && s.stores[i].pc.Authorized?
  {
    SnapshotAndPersist(s.(stores := s.stores[i := s.stores[i].(finalDrain := s.stores[i].pc.owned)]), i, outcome)
  }

  function CommitStore(s: State, i: StoreId, bump: nat, html: bool, acknowledged: bool): State
    requires i in s.stores && s.stores[i].pc.Persisting?
  {
    var st := s.stores[i];
    if !CasHolds(s.db, st.version, st.generation) then Goto(s, i, PersistThrew(Conflict))
    else
      var db := Persist(s.db, st.pc.snapshot, bump, html);
      Goto(s.(db := db), i,
           if acknowledged then PersistReturned(db.row.version, db.row.generation, st.pc.snapshot) else PersistThrew(Unavailable))
  }

  function ResumeStorePersist(s: State, i: StoreId): State
    requires i in s.stores && s.stores[i].room in s.rooms
    requires s.stores[i].pc.PersistReturned? || s.stores[i].pc.PersistThrew?
  {
    var st := s.stores[i];
    var room := s.rooms[st.room];
    if room.invalidated then LeaveInvalidated(s, i)
    else if st.pc.PersistThrew? then
      match st.pc.error
      case Conflict => Goto(s, i, Reloading)
      case Oversize => LeaveDenied(s, i)
      case Unavailable => LeaveFailed(s, i)
    else if st.pc.generation != st.generation then LeaveDenied(s, i)
    else
      var s1 := SetRoom(s, st.room, room.(
        phase := Loaded(st.pc.version, st.generation),
        persisted := Some(Fanout(room.replica, st.generation, st.pc.snapshot))));
      Goto(if st.finalDrain then CompleteDrain(s1, st.room) else s1, i,
           Finished(Acknowledged(st.pc.version, st.pc.generation, st.pc.snapshot)))
  }

  function CompleteDrain(s: State, r: RoomId): State
    requires r in s.rooms
  {
    var mark := s.rooms[r].mark;
    if mark.Some? && mark.value in s.marks && s.marks[mark.value].granted then
      s.(marks := s.marks[mark.value := s.marks[mark.value].(completed := true)])
    else s
  }

  // Merge the authoritative row into the room and expect its version next. A row without a Yjs state would be
  // converted afresh, minting new updates.
  function MergeAuthoritative(s: State, i: StoreId, minted: set<Update>): State
    requires i in s.stores && s.stores[i].room in s.rooms && s.stores[i].pc.Reloaded?
  {
    var st := s.stores[i];
    var room := s.rooms[st.room];
    var row := st.pc.row;
    var s1 := SetRoom(s, st.room, room.(
      content := room.content + (if row.yjs.Some? then row.yjs.value else minted),
      phase := Loaded(row.version, row.generation)));
    s1.(stores := s1.stores[i := st.(
      version := row.version, generation := row.generation, pc := Attempting, attempt := st.attempt + 1)])
  }

  // After losing the CAS: only a row of the same generation may be merged and retried.
  function ResumeStoreReload(s: State, i: StoreId, minted: set<Update>): State
    requires i in s.stores && s.stores[i].room in s.rooms && s.stores[i].pc.Reloaded?
  {
    var st := s.stores[i];
    if !st.pc.row.live || st.pc.row.generation != st.generation || s.rooms[st.room].invalidated then LeaveDenied(s, i)
    else if st.attempt + 1 >= MAX_STORE_ATTEMPTS then LeaveFailed(MergeAuthoritative(s, i, minted), i)
    else MergeAuthoritative(s, i, minted)
  }

  function StoreAction(s: State, e: StoreEvent, i: StoreId): State
    requires i in s.stores && s.stores[i].room in s.rooms
  {
    var pc := s.stores[i].pc;
    match e
    case BeginAttempt(outcome) => if pc.Attempting? then BeginStoreAttempt(s, i, outcome) else s
    case QueuesSettled => if pc.AwaitingQueues? then SettleConsume(s, i) else s
    case ResumeConsume => if pc.ConsumeReplied? then ResumeStoreConsume(s, i) else s
    case ResumeAuthorize(outcome) => if pc.AwaitingAuthorization? then ResumeStoreAuthorize(s, i, outcome) else s
    case ResumeAuthorized(outcome) => if pc.Authorized? then ResumeStoreAuthorized(s, i, outcome) else s
    case Commit(bump, html, acknowledged) =>
      if pc.Persisting? then CommitStore(s, i, bump, html, acknowledged) else s
    case PersistFails(oversize) =>
      if pc.Persisting? then Goto(s, i, PersistThrew(if oversize then Oversize else Unavailable)) else s
    case ResumePersist => if pc.PersistReturned? || pc.PersistThrew? then ResumeStorePersist(s, i) else s
    case Reload => if pc.Reloading? then Goto(s, i, Reloaded(s.db.row)) else s
    case ReloadFails(oversize) =>
      if !pc.Reloading? then s else if oversize then LeaveDenied(s, i) else LeaveFailed(s, i)
    case ResumeReload(minted) => if pc.Reloaded? then ResumeStoreReload(s, i, minted) else s
  }

  // ---------------------------------------------------------------------------------------------------------
  // Steps and runs
  // ---------------------------------------------------------------------------------------------------------

  function Apply(s: State, a: Action): State {
    match a
    case Reset(version, yjs, html, live, documentLive) =>
      s.(db := OpenGeneration(s.db, version, yjs, html, live, documentLive))
    case OpenRoom(r, replica) =>
      if r in s.rooms then s
      else SetRoom(s, r, Room(replica, {}, Opening(false), map[], false, 0, None, None))
    case SettleQueues(m, drained) =>
      if m !in s.marks || s.marks[m].ready.Some? then s
      else s.(marks := s.marks[m := s.marks[m].(ready := Some(drained))])
    case StartStore(i, r) =>
      if i in s.stores || r !in s.rooms || !s.rooms[r].phase.Loaded? || s.rooms[r].invalidated then s
      else
        s.(stores := s.stores[i := Store(r, Attempting, s.rooms[r].phase.version, s.rooms[r].phase.generation, 0, false, None, None)])
    case InRoom(r, e) => if r in s.rooms then RoomAction(s, e, r) else s
    case InStore(i, e) => if i in s.stores && s.stores[i].room in s.rooms then StoreAction(s, e, i) else s
  }

  function Run(s: State, actions: seq<Action>): State
    decreases |actions|
  {
    if actions == [] then s else Apply(Run(s, actions[..|actions| - 1]), actions[|actions| - 1])
  }

  // A row of the first generation, possibly HTML-only or blank, and no room, store or message.
  ghost predicate Initial(s: State) {
    && s.rooms == map[] && s.stores == map[] && s.marks == map[] && s.fanouts == {}
    && s.db.row.generation >= 1
    && s.db.openedAt == s.db.row.version
    && s.db.durable == Committed(s.db.row)
    && s.db.authored == (if s.db.row.yjs.Some? then Tag(s.db.row.generation, s.db.row.yjs.value) else {})
  }

  ghost predicate Reachable(s: State) {
    exists s0, actions :: Initial(s0) && s == Run(s0, actions)
  }
}
