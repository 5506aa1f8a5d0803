/**
 * What every run of the collaboration protocol keeps about durable content: generations are fenced off from each
 * other, no durable update is lost inside a generation, and Redis only ever delivers states that were durable.
 */
module CollabDurability {
  import opened Options
  import opened CollabModel

  // ---------------------------------------------------------------------------------------------------------
  // The invariant
  // ---------------------------------------------------------------------------------------------------------

  ghost predicate AllAuthored(db: Db, updates: set<Update>, generation: nat) {
    forall u | u in updates :: Tagged(generation, u) in db.authored
  }

  // `content` holds everything that was durable at or before this version of the generation.
  ghost predicate Contains(db: Db, content: set<Update>, version: nat, generation: nat) {
    forall d | d in db.durable && d.generation == generation && d.version <= version :: d.state <= content
  }

  // The next bootstrap would still mint a Yjs identity for the current row.
  predicate Convertible(db: Db) {
    db.documentLive && db.row.live && db.row.yjs.None? && db.row.html
  }

  ghost predicate WasDurable(db: Db, f: Fanout) {
    exists d :: d in db.durable && d.generation == f.generation && d.state == f.state
  }

  ghost predicate DbOk(db: Db) {
    && (db.row.yjs.Some? ==> Durable(db.row.version, db.row.generation, db.row.yjs.value) in db.durable)
    && db.openedAt <= db.row.version
    && (db.openedAt < db.row.version ==> db.row.yjs.Some?)
    && (forall d | d in db.durable :: d.generation <= db.row.generation && AllAuthored(db, d.state, d.generation))
    && (forall d | d in db.durable && d.generation == db.row.generation ::
          d.version <= db.row.version && db.row.yjs.Some? && d.state <= db.row.yjs.value)
    && (forall d, e | d in db.durable && e in db.durable && d.generation == e.generation && d.version <= e.version ::
          d.state <= e.state)
  }

  ghost predicate StampOk(db: Db, version: nat, generation: nat) {
    && generation <= db.row.generation
    && (generation == db.row.generation ==> db.openedAt <= version <= db.row.version && !Convertible(db))
  }

  // A room's content belongs to its generation, or the database generation has already moved past it.
  ghost predicate ContentOk(db: Db, content: set<Update>, version: nat, generation: nat) {
    && StampOk(db, version, generation)
    && (generation == db.row.generation ==>
          AllAuthored(db, content, generation) && Contains(db, content, version, generation))
  }

  // A row read from the database some time ago.
  ghost predicate RowSeen(db: Db, row: Row) {
    && row.generation <= db.row.generation
    && (row.generation == db.row.generation ==>
          && db.openedAt <= row.version <= db.row.version
          && (row.live ==> db.row.live)
          && (row.yjs.Some? ==> ContentOk(db, row.yjs.value, row.version, row.generation))
          && (row.yjs.None? ==>
                && row.version == db.openedAt
                && (db.row.yjs.None? ==> db.row == row)
                && (!row.html ==> !Convertible(db) && Contains(db, {}, row.version, row.generation))
                && (forall d | d in db.durable && d.generation == row.generation && d.version <= row.version ::
                      db.documentLive)))
  }

  ghost predicate PhaseOk(db: Db, room: Room) {
    match room.phase
    case Loaded(version, generation) => ContentOk(db, room.content, version, generation)
    case RowRead(row) => room.content == {} && RowSeen(db, row) && row.live
    case Bootstrapping(row) => room.content == {} && RowSeen(db, row) && row.live && row.yjs.None? && row.html
    case Bootstrapped(row, state) =>
      room.content == {} && ContentOk(db, if state.Some? then state.value else {}, row.version, row.generation)
    case _ => room.content == {}
  }

  ghost predicate RoomOk(db: Db, room: Room) {
    && PhaseOk(db, room)
    && (forall q | q in room.buffered :: WasDurable(db, room.buffered[q]))
    && (room.persisted.Some? ==> WasDurable(db, room.persisted.value))
  }

  ghost predicate Moved(row: Row, version: nat, generation: nat) {
    row.generation > generation || (row.generation == generation && row.version > version)
  }

  ghost predicate StoreOk(db: Db, room: Room, st: Store) {
    && room.phase.Loaded?
    && st.generation == room.phase.generation
    && ContentOk(db, room.content, st.version, st.generation)
    && match st.pc
       case Persisting(snapshot) => snapshot <= room.content && ContentOk(db, snapshot, st.version, st.generation)
       case PersistReturned(version, generation, snapshot) =>
         && generation == st.generation
         && Durable(version, generation, snapshot) in db.durable
         && ContentOk(db, room.content, version, generation)
       case Finished(Acknowledged(version, generation, snapshot)) =>
         generation == st.generation && Durable(version, generation, snapshot) in db.durable
       case PersistThrew(Conflict) => Moved(db.row, st.version, st.generation)
       case Reloading => Moved(db.row, st.version, st.generation)
       case Reloaded(row) =>
         && RowSeen(db, row) && Moved(row, st.version, st.generation)
         && (row.generation == st.generation ==> row.yjs.Some?)
       case _ => true
  }

  ghost predicate Sound(db: Db, rooms: map<RoomId, Room>, stores: map<StoreId, Store>, fanouts: set<Fanout>) {
    && DbOk(db)
    && (forall r | r in rooms :: RoomOk(db, rooms[r]))
    && (forall i | i in stores :: stores[i].room in rooms && StoreOk(db, rooms[stores[i].room], stores[i]))
    && (forall f | f in fanouts :: WasDurable(db, f))
  }

  ghost predicate Inv(s: State) {
    Sound(s.db, s.rooms, s.stores, s.fanouts)
  }

  // ---------------------------------------------------------------------------------------------------------
  // Database transitions
  // ---------------------------------------------------------------------------------------------------------

  // What one transaction may do to the row, as seen by everybody who read it earlier.
  ghost predicate Grows(before: Db, db: Db) {
    && before.authored <= db.authored && before.durable <= db.durable
    && before.row.generation <= db.row.generation
    && (forall d | d in db.durable && d !in before.durable :: d.generation == db.row.generation)
    && (before.row.generation == db.row.generation ==>
          && before.row.version <= db.row.version
          && before.openedAt == db.openedAt
          && before.documentLive == db.documentLive
          && (before.row.live ==> db.row.live)
          && (db.row.yjs.None? ==> db.row == before.row)
          && (forall d | d in db.durable && d !in before.durable ::
                d.version > before.row.version || (Convertible(before) && d.version == before.row.version)))
  }

  lemma OpenGenerationOk(db: Db, version: nat, yjs: Option<set<Update>>, html: bool, live: bool, documentLive: bool)
    requires DbOk(db)
    ensures var db' := OpenGeneration(db, version, yjs, html, live, documentLive); DbOk(db') && Grows(db, db')
  {
  }

  lemma InitializeOk(db: Db, bump: nat, minted: set<Update>)
    requires DbOk(db)
    ensures var db' := Initialize(db, bump, minted); DbOk(db') && Grows(db, db')
  {
    if db.documentLive && !db.row.live {
      OpenGenerationOk(db, db.row.version + 1 + bump, None, false, true, true);
    }
  }

  lemma PersistOk(db: Db, snapshot: set<Update>, bump: nat, html: bool)
    requires DbOk(db) && ContentOk(db, snapshot, db.row.version, db.row.generation)
    ensures var db' := Persist(db, snapshot, bump, html); DbOk(db') && Grows(db, db')
  {
  }

  lemma ContentStable(before: Db, db: Db, content: set<Update>, version: nat, generation: nat)
    requires Grows(before, db) && ContentOk(before, content, version, generation)
    ensures ContentOk(db, content, version, generation)
  {
  }

  lemma RowSeenStable(before: Db, db: Db, row: Row)
    requires DbOk(before) && Grows(before, db) && RowSeen(before, row)
    ensures RowSeen(db, row)
  {
    if row.generation == db.row.generation && row.yjs.Some? {
      ContentStable(before, db, row.yjs.value, row.version, row.generation);
    }
  }

  lemma RoomStable(before: Db, db: Db, room: Room)
    requires DbOk(before) && Grows(before, db) && RoomOk(before, room)
    ensures RoomOk(db, room)
  {
    match room.phase
    case Loaded(version, generation) => ContentStable(before, db, room.content, version, generation);
    case RowRead(row) => RowSeenStable(before, db, row);
    case Bootstrapping(row) => RowSeenStable(before, db, row);
    case Bootstrapped(row, state) =>
      ContentStable(before, db, if state.Some? then state.value else {}, row.version, row.generation);
    case _ =>
  }

  lemma StoreStable(before: Db, db: Db, room: Room, st: Store)
    requires DbOk(before) && Grows(before, db) && StoreOk(before, room, st)
    ensures StoreOk(db, room, st)
  {
    ContentStable(before, db, room.content, st.version, st.generation);
    match st.pc
    case Persisting(snapshot) => ContentStable(before, db, snapshot, st.version, st.generation);
    case PersistReturned(version, generation, snapshot) => ContentStable(before, db, room.content, version, generation);
    case Reloaded(row) => RowSeenStable(before, db, row);
    case _ =>
  }

  // A database transaction cannot hurt a room, a store invocation or a message that does not take part in it.
  lemma DbStep(s: State, db: Db)
    requires Inv(s) && DbOk(db) && Grows(s.db, db)
    ensures Sound(db, s.rooms, s.stores, s.fanouts)
  {
    forall r | r in s.rooms ensures RoomOk(db, s.rooms[r]) { RoomStable(s.db, db, s.rooms[r]); }
    forall i | i in s.stores ensures StoreOk(db, s.rooms[s.stores[i].room], s.stores[i]) {
      StoreStable(s.db, db, s.rooms[s.stores[i].room], s.stores[i]);
    }
  }

  // A room that only gained updates it may hold keeps every store invocation running on it sound.
  lemma RoomStep(s: State, r: RoomId, room: Room)
    requires Inv(s) && r in s.rooms && RoomOk(s.db, room)
    requires s.rooms[r].content <= room.content
    requires s.rooms[r].phase.Loaded? ==> room.phase.Loaded? && room.phase.generation == s.rooms[r].phase.generation
    ensures Sound(s.db, s.rooms[r := room], s.stores, s.fanouts)
  {
    forall i | i in s.stores && s.stores[i].room == r ensures StoreOk(s.db, room, s.stores[i]) {
      assert StoreOk(s.db, s.rooms[r], s.stores[i]);
    }
  }

  lemma StoreStep(s: State, i: StoreId, st: Store)
    requires Inv(s) && st.room in s.rooms && StoreOk(s.db, s.rooms[st.room], st)
    ensures Sound(s.db, s.rooms, s.stores[i := st], s.fanouts)
  {
  }

  // ---------------------------------------------------------------------------------------------------------
  // Every action keeps the invariant
  // ---------------------------------------------------------------------------------------------------------

  lemma DurableAuthored(db: Db, f: Fanout)
    requires DbOk(db) && WasDurable(db, f)
    ensures AllAuthored(db, f.state, f.generation)
  {
  }

  lemma MergeOk(db: Db, content: set<Update>, more: set<Update>, version: nat, generation: nat)
    requires ContentOk(db, content, version, generation) && AllAuthored(db, more, generation)
    ensures ContentOk(db, content + more, version, generation)
  {
  }

  lemma BufferedAuthored(db: Db, room: Room)
    requires DbOk(db) && RoomOk(db, room) && room.phase.Loaded?
    ensures AllAuthored(db, BufferedUpdates(room), room.phase.generation)
  {
    forall u | u in BufferedUpdates(room) ensures Tagged(room.phase.generation, u) in db.authored {
      var q :| q in room.buffered && room.buffered[q].generation == room.phase.generation && u in room.buffered[q].state;
      DurableAuthored(db, room.buffered[q]);
    }
  }

  lemma ReadStep(s: State, e: RoomEvent, r: RoomId)
    requires Inv(s) && r in s.rooms && (e.ReadRow? || e.ResumeLoad? || e.FinishBootstrap?)
    ensures Inv(RoomAction(s, e, r))
  {
    var room := s.rooms[r];
    if e.ReadRow? && room.phase.Opening? {
      RoomStep(s, r, RoomAction(s, e, r).rooms[r]);
    } else if e.ResumeLoad? && room.phase.RowRead? {
      var row := room.phase.row;
      if row.yjs.None? && row.html { RoomStep(s, r, room.(phase := Bootstrapping(row))); }
      else { FinishOk(s, r, row, row.yjs); }
    } else if e.FinishBootstrap? && room.phase.Bootstrapped? {
      FinishOk(s, r, room.phase.row, room.phase.state);
    }
  }

  lemma FinishOk(s: State, r: RoomId, row: Row, state: Option<set<Update>>)
    requires Inv(s) && r in s.rooms && s.rooms[r].content == {} && !s.rooms[r].phase.Loaded?
    requires ContentOk(s.db, if state.Some? then state.value else {}, row.version, row.generation)
    ensures Inv(SetRoom(s, r, Finish(s.rooms[r], row, state)))
  {
    assert Finish(s.rooms[r], row, state).content == if state.Some? then state.value else {};
    RoomStep(s, r, Finish(s.rooms[r], row, state));
  }

  lemma InitializeStep(s: State, e: RoomEvent, r: RoomId)
    requires Inv(s) && r in s.rooms && (e.Repair? || e.Bootstrap?)
    ensures Inv(RoomAction(s, e, r))
  {
    var room := s.rooms[r];
    var db := Initialize(s.db, e.bump, e.minted);
    InitializeOk(s.db, e.bump, e.minted);
    DbStep(s, db);
    if RoomAction(s, e, r) != s { RoomStep(s.(db := db), r, RoomAction(s, e, r).rooms[r]); }
  }

  lemma UpdateStep(s: State, e: RoomEvent, r: RoomId)
    requires Inv(s) && r in s.rooms && (e.ApplyBuffered? || e.Edit? || e.Receive?)
    ensures Inv(RoomAction(s, e, r))
  {
    var room := s.rooms[r];
    match e
    case ApplyBuffered =>
      if room.phase.Loaded? {
        BufferedAuthored(s.db, room);
        MergeOk(s.db, room.content, BufferedUpdates(room), room.phase.version, room.phase.generation);
        RoomStep(s, r, RoomAction(s, e, r).rooms[r]);
      }
    case Edit(updates) =>
      if room.phase.Loaded? {
        var db := s.db.(authored := s.db.authored + Tag(room.phase.generation, updates));
        DbStep(s, db);
        MergeOk(db, room.content, updates, room.phase.version, room.phase.generation);
        RoomStep(s.(db := db), r, room.(content := room.content + updates));
      }
    case Receive(f) =>
      if f in s.fanouts && f.sender != room.replica {
        DurableAuthored(s.db, f);
        if room.phase.Loaded? && f.generation == room.phase.generation {
          MergeOk(s.db, room.content, f.state, room.phase.version, room.phase.generation);
        }
        RoomStep(s, r, Accept(room, f));
      }
  }

  // Connections, marks and invalidation never touch the content of a room.
  lemma ContentUntouched(s: State, r: RoomId, room: Room)
    requires Inv(s) && r in s.rooms
    requires room.content == s.rooms[r].content && room.phase == s.rooms[r].phase
    requires room.buffered == s.rooms[r].buffered
    requires room.persisted.None? || room.persisted == s.rooms[r].persisted
    ensures Sound(s.db, s.rooms[r := room], s.stores, s.fanouts)
  {
    assert RoomOk(s.db, s.rooms[r]);
    assert PhaseOk(s.db, room);
    RoomStep(s, r, room);
  }

  lemma QueueFanoutOk(s: State, r: RoomId)
    requires Inv(s) && r in s.rooms
    ensures Inv(RoomAction(s, QueueFanout, r))
  {
    var room := s.rooms[r];
    ContentUntouched(s, r, room.(persisted := None));
    assert RoomOk(s.db, room);
  }

  lemma BookkeepingStep(s: State, e: RoomEvent, r: RoomId)
    requires Inv(s) && r in s.rooms && (e.MarkDrain? || e.Connect? || e.Disconnect?)
    ensures Inv(RoomAction(s, e, r))
  {
    ContentUntouched(s, r, RoomAction(s, e, r).rooms[r]);
    hide Sound;
  }

  lemma RetireOk(s: State, r: RoomId, ownsGrant: bool)
    requires Inv(s) && r in s.rooms
    ensures Inv(RetireFailedStore(s, r, ownsGrant)) && Inv(Discard(s, r)) && Inv(InvalidateRoom(s, r))
  {
    ContentUntouched(s, r, s.rooms[r].(mark := None));
    ContentUntouched(s, r, s.rooms[r].(mark := None, invalidated := true));
  }

  // Program counters that promise nothing about durable content.
  predicate Plain(pc: Pc) {
    && !(pc.Persisting? || pc.PersistReturned? || pc.PersistThrew? || pc.Reloading? || pc.Reloaded?)
    && !(pc.Finished? && pc.outcome.Acknowledged?)
  }

  lemma GotoOk(s: State, i: StoreId, pc: Pc)
    requires Inv(s) && i in s.stores && Plain(pc)
    ensures Inv(Goto(s, i, pc))
  {
    StoreStep(s, i, s.stores[i].(pc := pc));
  }

  lemma LeaveOk(s: State, i: StoreId)
    requires Inv(s) && i in s.stores
    ensures Inv(LeaveInvalidated(s, i)) && Inv(LeaveDenied(s, i)) && Inv(LeaveFailed(s, i))
    ensures Inv(Goto(Discard(s, s.stores[i].room), i, Finished(Abandoned)))
  {
    var r := s.stores[i].room;
    RetireOk(s, r, s.stores[i].finalDrain);
    GotoOk(s, i, Finished(Abandoned));
    GotoOk(Discard(s, r), i, Finished(Abandoned));
    GotoOk(InvalidateRoom(s, r), i, Finished(Abandoned));
    GotoOk(RetireFailedStore(s, r, s.stores[i].finalDrain), i,
           Finished(if Retires(s.rooms[r], s.stores[i].finalDrain) then Abandoned else Rethrown));
  }

  lemma ConsumeOk(s: State, i: StoreId, recheck: bool, authorized: bool)
    requires Inv(s) && i in s.stores
    ensures Inv(Consume(s, i, recheck, authorized))
  {
    var mark := s.rooms[s.stores[i].room].mark;
    var s' := Consume(s, i, recheck, authorized);
    StoreStep(s, i, s'.stores[i]);
    assert s'.stores == s.stores[i := s'.stores[i]];
  }

  lemma SnapshotOk(s: State, i: StoreId, outcome: SnapshotOutcome)
    requires Inv(s) && i in s.stores
    ensures Inv(SnapshotAndPersist(s, i, outcome))
  {
    LeaveOk(s, i);
    var st := s.stores[i];
    StoreStep(s, i, st.(pc := Persisting(s.rooms[st.room].content)));
  }

  lemma BeginAttemptOk(s: State, i: StoreId, outcome: SnapshotOutcome)
    requires Inv(s) && i in s.stores
    ensures Inv(BeginStoreAttempt(s, i, outcome))
  {
    LeaveOk(s, i);
    SnapshotOk(s, i, outcome);
    ConsumeOk(s, i, false, false);
    GotoOk(s, i, AwaitingAuthorization(Unmarked));
  }

  lemma SettleConsumeOk(s: State, i: StoreId)
    requires Inv(s) && i in s.stores && s.stores[i].pc.AwaitingQueues?
    ensures Inv(SettleConsume(s, i))
  {
    var st := s.stores[i];
    StoreStep(s, i, st.(pc := ConsumeReplied(st.pc.recheck, st.pc.authorized, Consumed), grant := Some(st.pc.mark)));
    forall result ensures Inv(Goto(s, i, ConsumeReplied(st.pc.recheck, st.pc.authorized, result))) {
      GotoOk(s, i, ConsumeReplied(st.pc.recheck, st.pc.authorized, result));
    }
  }

  lemma ResumeConsumeOk(s: State, i: StoreId)
    requires Inv(s) && i in s.stores && s.stores[i].pc.ConsumeReplied?
    ensures Inv(ResumeStoreConsume(s, i))
  {
    var pc := s.stores[i].pc;
    if pc.result.Busy? { GotoOk(s, i, Finished(Behind(pc.result.mark))); }
    else if pc.result.Connected? || pc.result.Failed? { LeaveOk(s, i); }
    else if !pc.recheck { GotoOk(s, i, AwaitingAuthorization(pc.result)); }
    else if pc.result.Consumed? { GotoOk(s, i, Authorized(true)); }
    else if pc.authorized { GotoOk(s, i, Authorized(false)); }
    else { LeaveOk(s, i); }
  }

  lemma ResumeAuthorizeOk(s: State, i: StoreId, answer: AuthorizeOutcome)
    requires Inv(s) && i in s.stores && s.stores[i].pc.AwaitingAuthorization?
    ensures Inv(ResumeStoreAuthorize(s, i, answer))
  {
    var st := s.stores[i];
    var st1 := st.(authorizedAt := if answer.Granted? then Some(st.attempt) else st.authorizedAt);
    var s1 := s.(stores := s.stores[i := st1]);
    StoreStep(s, i, st1);
    if answer.Threw? || s.rooms[st.room].invalidated { LeaveOk(s1, i); }
    else if st.pc.drain.Unmarked? { ConsumeOk(s1, i, true, answer.Granted?); }
    else { GotoOk(s1, i, ConsumeReplied(true, answer.Granted?, st.pc.drain)); }
  }

  lemma ResumeAuthorizedOk(s: State, i: StoreId, outcome: SnapshotOutcome)
    requires Inv(s) && i in s.stores && s.stores[i].pc.Authorized?
    ensures Inv(ResumeStoreAuthorized(s, i, outcome))
  {
    var st := s.stores[i].(finalDrain := s.stores[i].pc.owned);
    StoreStep(s, i, st);
    SnapshotOk(s.(stores := s.stores[i := st]), i, outcome);
  }

  lemma CommitOk(s: State, i: StoreId, bump: nat, html: bool, acknowledged: bool)
    requires Inv(s) && i in s.stores && s.stores[i].pc.Persisting?
    ensures Inv(CommitStore(s, i, bump, html, acknowledged))
  {
    var st := s.stores[i];
    if CasHolds(s.db, st.version, st.generation) {
      var db := Persist(s.db, st.pc.snapshot, bump, html);
      PersistOk(s.db, st.pc.snapshot, bump, html);
      DbStep(s, db);
      StoreStep(s.(db := db), i, CommitStore(s, i, bump, html, acknowledged).stores[i]);
    } else {
      StoreStep(s, i, st.(pc := PersistThrew(Conflict)));
    }
  }

  // The persist call reported success: the room remembers the new version and owes its peers a fan-out.
  lemma PersistReturnedOk(s: State, i: StoreId)
    requires Inv(s) && i in s.stores && s.stores[i].pc.PersistReturned?
    ensures var st := s.stores[i]; var room := s.rooms[st.room];
            && st.pc.generation == st.generation
            && Inv(SetRoom(s, st.room, room.(phase := Loaded(st.pc.version, st.generation),
                                          persisted := Some(Fanout(room.replica, st.generation, st.pc.snapshot)))))
  {
    var st := s.stores[i];
    var room := s.rooms[st.room];
    var f := Fanout(room.replica, st.generation, st.pc.snapshot);
    assert WasDurable(s.db, f) by {
      assert Durable(st.pc.version, st.pc.generation, st.pc.snapshot) in s.db.durable;
    }
    RoomStep(s, st.room, room.(phase := Loaded(st.pc.version, st.generation), persisted := Some(f)));
  }

  lemma ConflictOk(s: State, i: StoreId)
    requires Inv(s) && i in s.stores && s.stores[i].pc == PersistThrew(Conflict)
    ensures Inv(Goto(s, i, Reloading))
  {
    StoreStep(s, i, s.stores[i].(pc := Reloading));
  }

  lemma CompleteKeeps(s: State, r: RoomId, i: StoreId)
    requires Inv(s) && r in s.rooms && i in s.stores
    ensures Inv(CompleteDrain(s, r)) && CompleteDrain(s, r).stores == s.stores
  {
  }

  lemma FinishAcknowledged(s: State, i: StoreId)
    requires Inv(s) && i in s.stores && s.stores[i].pc.PersistReturned?
    ensures var pc := s.stores[i].pc; Inv(Goto(s, i, Finished(Acknowledged(pc.version, pc.generation, pc.snapshot))))
  {
    var st := s.stores[i];
    assert StoreOk(s.db, s.rooms[st.room], st);
    StoreStep(s, i, st.(pc := Finished(Acknowledged(st.pc.version, st.pc.generation, st.pc.snapshot))));
  }

  lemma FinishStoreOk(s: State, i: StoreId)
    requires Inv(s) && i in s.stores && s.stores[i].pc.PersistReturned? && !s.rooms[s.stores[i].room].invalidated
    ensures Inv(ResumeStorePersist(s, i))
  {
    var st := s.stores[i];
    var room := s.rooms[st.room];
    PersistReturnedOk(s, i);
    hide Sound, Goto, LeaveInvalidated, LeaveDenied, LeaveFailed, CompleteDrain;
    var f := Fanout(room.replica, st.generation, st.pc.snapshot);
    var s1 := SetRoom(s, st.room, room.(phase := Loaded(st.pc.version, st.generation), persisted := Some(f)));
    CompleteKeeps(s1, st.room, i);
    FinishAcknowledged(if st.finalDrain then CompleteDrain(s1, st.room) else s1, i);
  }

  lemma ResumePersistOk(s: State, i: StoreId)
    requires Inv(s) && i in s.stores && (s.stores[i].pc.PersistReturned? || s.stores[i].pc.PersistThrew?)
    ensures Inv(ResumeStorePersist(s, i))
  {
    var st := s.stores[i];
    var room := s.rooms[st.room];
    LeaveOk(s, i);
    if !room.invalidated && st.pc.PersistReturned? {
      FinishStoreOk(s, i);
    } else if !room.invalidated && st.pc.error.Conflict? {
      ConflictOk(s, i);
    }
    hide Sound, Goto, LeaveInvalidated, LeaveDenied, LeaveFailed;
  }

  // Merging a row of the same generation lets the room remember that row's version.
  lemma MergeRowOk(db: Db, room: Room, st: Store, row: Row)
    requires DbOk(db) && RoomOk(db, room) && StoreOk(db, room, st)
    requires st.pc == Reloaded(row) && row.generation == st.generation
    ensures row.yjs.Some?
    ensures ContentOk(db, room.content + row.yjs.value, row.version, row.generation)
  {
  }

  lemma MergeAuthoritativeOk(s: State, i: StoreId, minted: set<Update>)
    requires Inv(s) && i in s.stores && s.stores[i].pc.Reloaded?
    requires s.stores[i].pc.row.generation == s.stores[i].generation
    ensures Inv(MergeAuthoritative(s, i, minted))
  {
    var st := s.stores[i];
    var room := s.rooms[st.room];
    var row := st.pc.row;
    MergeRowOk(s.db, room, st, row);
    var merged := room.(content := room.content + row.yjs.value, phase := Loaded(row.version, row.generation));
    RoomStep(s, st.room, merged);
    StoreStep(SetRoom(s, st.room, merged), i,
              st.(version := row.version, generation := row.generation, pc := Attempting, attempt := st.attempt + 1));
  }

  lemma ResumeReloadOk(s: State, i: StoreId, minted: set<Update>)
    requires Inv(s) && i in s.stores && s.stores[i].pc.Reloaded?
    ensures Inv(ResumeStoreReload(s, i, minted))
  {
    var st := s.stores[i];
    if !st.pc.row.live || st.pc.row.generation != st.generation || s.rooms[st.room].invalidated {
      LeaveOk(s, i);
    } else {
      MergeAuthoritativeOk(s, i, minted);
      var merged := MergeAuthoritative(s, i, minted);
      if st.attempt + 1 >= MAX_STORE_ATTEMPTS {
        LeaveOk(merged, i);
        assert ResumeStoreReload(s, i, minted) == LeaveFailed(merged, i);
      }
    }
  }

  lemma PersistFailsOk(s: State, i: StoreId, error: PersistError)
    requires Inv(s) && i in s.stores && s.stores[i].pc.Persisting? && !error.Conflict?
    ensures Inv(Goto(s, i, PersistThrew(error)))
  {
    StoreStep(s, i, s.stores[i].(pc := PersistThrew(error)));
  }

  lemma ReloadOk(s: State, i: StoreId)
    requires Inv(s) && i in s.stores && s.stores[i].pc.Reloading?
    ensures Inv(Goto(s, i, Reloaded(s.db.row)))
  {
    StoreStep(s, i, s.stores[i].(pc := Reloaded(s.db.row)));
  }

  lemma StoreActionOk(s: State, e: StoreEvent, i: StoreId)
    requires Inv(s) && i in s.stores
    ensures Inv(StoreAction(s, e, i))
  {
    hide Inv, BeginStoreAttempt, SettleConsume, ResumeStoreConsume, ResumeStoreAuthorize, ResumeStoreAuthorized,
      CommitStore, Goto, ResumeStorePersist, LeaveDenied, LeaveFailed, ResumeStoreReload;
    var pc := s.stores[i].pc;
    match e
    case BeginAttempt(outcome) => if pc.Attempting? { BeginAttemptOk(s, i, outcome); }
    case QueuesSettled => if pc.AwaitingQueues? { SettleConsumeOk(s, i); }
    case ResumeConsume => if pc.ConsumeReplied? { ResumeConsumeOk(s, i); }
    case ResumeAuthorize(answer) => if pc.AwaitingAuthorization? { ResumeAuthorizeOk(s, i, answer); }
    case ResumeAuthorized(outcome) => if pc.Authorized? { ResumeAuthorizedOk(s, i, outcome); }
    case Commit(bump, html, acknowledged) => if pc.Persisting? { CommitOk(s, i, bump, html, acknowledged); }
    case PersistFails(oversize) => if pc.Persisting? { PersistFailsOk(s, i, if oversize then Oversize else Unavailable); }
    case ResumePersist => if pc.PersistReturned? || pc.PersistThrew? { ResumePersistOk(s, i); }
    case Reload => if pc.Reloading? { ReloadOk(s, i); }
    case ReloadFails(oversize) => LeaveOk(s, i);
    case ResumeReload(minted) => if pc.Reloaded? { ResumeReloadOk(s, i, minted); }
  }

  lemma ApplyOk(s: State, a: Action)
    requires Inv(s)
    ensures Inv(Apply(s, a))
  {
    match a
    case Reset(version, yjs, html, live, documentLive) =>
      OpenGenerationOk(s.db, version, yjs, html, live, documentLive);
      DbStep(s, OpenGeneration(s.db, version, yjs, html, live, documentLive));
    case OpenRoom(r, replica) =>
    case StartStore(i, r) =>
    case SettleQueues(m, drained) =>
    case InRoom(r, e) =>
      if r in s.rooms {
        if e.ReadRow? || e.ResumeLoad? || e.FinishBootstrap? { ReadStep(s, e, r); }
        else if e.Repair? || e.Bootstrap? { InitializeStep(s, e, r); }
        else if e.ApplyBuffered? || e.Edit? || e.Receive? { UpdateStep(s, e, r); }
        else if e.QueueFanout? { QueueFanoutOk(s, r); }
        else if e.Invalidate? || e.StoreSetupFails? { RetireOk(s, r, false); }
        else { BookkeepingStep(s, e, r); }
      }
    case InStore(i, e) =>
      if i in s.stores && s.stores[i].room in s.rooms { StoreActionOk(s, e, i); }
  }

  lemma InitialOk(s: State)
    requires Initial(s)
    ensures Inv(s)
  {
  }

  lemma ReachableOk(s: State)
    requires Reachable(s)
    ensures Inv(s)
  {
    var s0, actions :| Initial(s0) && s == Run(s0, actions);
    RunOk(s0, actions);
  }

  lemma {:induction false} RunOk(s: State, actions: seq<Action>)
    requires Initial(s)
    ensures Inv(Run(s, actions))
    decreases |actions|
  {
    if actions == [] { InitialOk(s); }
    else {
      RunOk(s, actions[..|actions| - 1]);
      ApplyOk(Run(s, actions[..|actions| - 1]), actions[|actions| - 1]);
    }
  }

  // ---------------------------------------------------------------------------------------------------------
  // Where updates come from
  // ---------------------------------------------------------------------------------------------------------

  // `a`, taken in `s`, brings `t.update` into generation `t.generation`: a client edit accepted by a room loaded at
  // that generation, the replacement that opens it, or the one conversion of the HTML body it was opened with.
  ghost predicate Authors(s: State, a: Action, t: Tagged) {
    || (a.Reset? && a.yjs.Some? && t.update in a.yjs.value && t.generation == s.db.row.generation + 1)
    || (a.InRoom? && a.room in s.rooms && a.event.Edit? && s.rooms[a.room].phase.Loaded?
        && t.generation == s.rooms[a.room].phase.generation && t.update in a.event.updates)
    || (a.InRoom? && (a.event.Bootstrap? || a.event.Repair?) && Convertible(s.db)
        && t.generation == s.db.row.generation && t.update in a.event.minted)
  }

  lemma StoresAuthorNothing(s: State, e: StoreEvent, i: StoreId)
    requires i in s.stores && s.stores[i].room in s.rooms
    ensures StoreAction(s, e, i).db.authored == s.db.authored && s.db.durable <= StoreAction(s, e, i).db.durable
    ensures !e.Commit? ==> StoreAction(s, e, i).db == s.db
  {
  }

  lemma StepProvenance(s: State, a: Action, t: Tagged)
    requires t in Apply(s, a).db.authored && t !in s.db.authored
    ensures Authors(s, a, t)
  {
    if a.InStore? && a.store in s.stores && s.stores[a.store].room in s.rooms {
      StoresAuthorNothing(s, a.step, a.store);
    }
  }

  lemma {:induction false} Provenance(s0: State, actions: seq<Action>, t: Tagged)
    requires t in Run(s0, actions).db.authored
    ensures t in s0.db.authored || exists k :: 0 <= k < |actions| && Authors(Run(s0, actions[..k]), actions[k], t)
    decreases |actions|
  {
    if actions != [] {
      var n := |actions| - 1;
      if t in Run(s0, actions[..n]).db.authored {
        Provenance(s0, actions[..n], t);
        if t !in s0.db.authored {
          var k :| 0 <= k < n && Authors(Run(s0, actions[..n][..k]), actions[..n][k], t);
          assert actions[..n][..k] == actions[..k];
        }
      } else {
        StepProvenance(Run(s0, actions[..n]), actions[n], t);
      }
    }
  }

  // ---------------------------------------------------------------------------------------------------------
  // Results over whole runs
  // ---------------------------------------------------------------------------------------------------------

  // Generation fencing: whatever the interleaving, and however many invalidation events are lost, each update of a
  // state that was durable in generation g was brought into g itself.
  lemma GenerationFencing(s0: State, actions: seq<Action>, d: Durable, u: Update)
    requires Initial(s0) && d in Run(s0, actions).db.durable && u in d.state
    ensures Tagged(d.generation, u) in s0.db.authored
            || exists k :: 0 <= k < |actions| && Authors(Run(s0, actions[..k]), actions[k], Tagged(d.generation, u))
  {
    RunOk(s0, actions);
    Provenance(s0, actions, Tagged(d.generation, u));
  }

  // Every update that Redis adds to a room, at once or out of the load buffer, was durable in the room's generation,
  // and a frame adds something only to the rooms of other replicas.
  lemma AcceptedUpdatesWereDurable(s: State, r: RoomId, e: RoomEvent, u: Update)
    requires Reachable(s) && r in s.rooms && (e.Receive? || e.ApplyBuffered?)
    requires u in RoomAction(s, e, r).rooms[r].content && u !in s.rooms[r].content
    ensures s.rooms[r].phase.Loaded?
            && exists d :: d in s.db.durable && d.generation == s.rooms[r].phase.generation && u in d.state
    ensures e.Receive? ==> e.fanout in s.fanouts && e.fanout.sender != s.rooms[r].replica
  {
    ReachableOk(s);
    var room := s.rooms[r];
    if e.Receive? {
      assert WasDurable(s.db, e.fanout);
    } else {
      var q :| q in room.buffered && room.buffered[q].generation == room.phase.generation && u in room.buffered[q].state;
      assert WasDurable(s.db, room.buffered[q]);
    }
  }

  lemma DurableGrows(s: State, a: Action)
    ensures s.db.durable <= Apply(s, a).db.durable
  {
    if a.InStore? && a.store in s.stores && s.stores[a.store].room in s.rooms {
      StoresAuthorNothing(s, a.step, a.store);
    }
  }

  lemma {:induction false} DurableGrowsAlong(s0: State, actions: seq<Action>, k: nat)
    requires k <= |actions|
    ensures Run(s0, actions[..k]).db.durable <= Run(s0, actions).db.durable
    decreases |actions|
  {
    if k < |actions| {
      var n := |actions| - 1;
      DurableGrowsAlong(s0, actions[..n], k);
      assert actions[..n][..k] == actions[..k];
      DurableGrows(Run(s0, actions[..n]), actions[n]);
    } else {
      assert actions[..k] == actions;
    }
  }

  // No durable update is lost within a generation: between any two moments of a run at which the row is in the same
  // generation, the later state holds the earlier one.
  lemma NoDurableUpdateLost(s0: State, actions: seq<Action>, k: nat)
    requires Initial(s0) && k <= |actions|
    requires Run(s0, actions[..k]).db.row.generation == Run(s0, actions).db.row.generation
    requires Run(s0, actions[..k]).db.row.yjs.Some?
    ensures var early, late := Run(s0, actions[..k]).db.row, Run(s0, actions).db.row;
            late.yjs.Some? && early.yjs.value <= late.yjs.value && early.version <= late.version
  {
    RunOk(s0, actions[..k]);
    RunOk(s0, actions);
    DurableGrowsAlong(s0, actions, k);
    var early := Run(s0, actions[..k]).db.row;
    assert Durable(early.version, early.generation, early.yjs.value) in Run(s0, actions).db.durable;
  }

  // A loaded room holds every state that was durable up to the version it remembers, unless the database has moved
  // past the room's generation; then none of its stores reaches the database again.
  lemma RoomHoldsItsVersion(s: State, r: RoomId)
    requires Reachable(s) && r in s.rooms && s.rooms[r].phase.Loaded?
    ensures var Loaded(version, generation) := s.rooms[r].phase;
            generation < s.db.row.generation || Contains(s.db, s.rooms[r].content, version, generation)
    ensures s.rooms[r].phase.generation < s.db.row.generation ==>
              forall i, e | i in s.stores && s.stores[i].room == r :: StoreAction(s, e, i).db == s.db
  {
    ReachableOk(s);
    if s.rooms[r].phase.generation < s.db.row.generation {
      forall i, e | i in s.stores && s.stores[i].room == r ensures StoreAction(s, e, i).db == s.db {
        StoresAuthorNothing(s, e, i);
      }
    }
  }

  // Every compare-and-swap that reaches the row stays in its generation, takes a newer version and writes a superset
  // of what it replaces.
  lemma CommitWritesSuperset(s: State, i: StoreId, bump: nat, html: bool, acknowledged: bool)
    requires Reachable(s)
    requires i in s.stores && s.stores[i].pc.Persisting?
    ensures var st, db, db' := s.stores[i], s.db, CommitStore(s, i, bump, html, acknowledged).db;
            if CasHolds(db, st.version, st.generation) then
              && db'.row.generation == db.row.generation && db'.row.version > db.row.version
              && db'.row.live && db'.row.html == html && db'.documentLive == db.documentLive
              && db'.row.yjs == Some(st.pc.snapshot) && AllAuthored(db, st.pc.snapshot, db.row.generation)
              && (db.row.yjs.Some? ==> db.row.yjs.value <= st.pc.snapshot)
              && (forall d | d in db.durable && d.generation == db.row.generation :: d.state <= st.pc.snapshot)
            else db' == db
  {
    ReachableOk(s);
    assert StoreOk(s.db, s.rooms[s.stores[i].room], s.stores[i]);
  }

  // After a lost CAS a row of the room's own generation always carries a Yjs state, so a retry never converts the
  // HTML body a second time.
  lemma ConflictNeverMints(s: State, i: StoreId)
    requires Reachable(s)
    requires i in s.stores && s.stores[i].pc.Reloaded?
    ensures var st := s.stores[i]; st.pc.row.generation == st.generation ==> st.pc.row.yjs.Some?
  {
    ReachableOk(s);
  }

  // A legacy HTML body receives its Yjs identity at most once per generation.
  lemma ConvertedOnce(s0: State, actions: seq<Action>, k: nat)
    requires Initial(s0) && k < |actions|
    requires var s := Run(s0, actions[..k]);
             actions[k].InRoom? && actions[k].event.Bootstrap? && actions[k].room in s.rooms
             && s.rooms[actions[k].room].phase.Bootstrapping? && Convertible(s.db)
    ensures Run(s0, actions).db.row.generation == Run(s0, actions[..k]).db.row.generation ==>
              !Convertible(Run(s0, actions).db)
  {
    var s := Run(s0, actions[..k]);
    RunOk(s0, actions);
    DurableGrowsAlong(s0, actions, k + 1);
    assert actions[..k + 1][..k] == actions[..k];
    assert Durable(s.db.row.version, s.db.row.generation, actions[k].event.minted) in Run(s0, actions).db.durable;
  }
}
