/**
 * Frames are not lost, and the promises about stores can be met: runs that make the room's content durable, that merge
 * a lost compare-and-swap and store the union of both replicas, and that store a drained room under its one-shot grant.
 */
module CollabProgress {
  import opened Options
  import opened CollabModel
  import D = CollabDurability
  import G = CollabGating

  // ---------------------------------------------------------------------------------------------------------
  // Fan-out
  // ---------------------------------------------------------------------------------------------------------

  // Frame `g` brings everything that `f` brings.
  predicate Covers(g: Fanout, f: Fanout) {
    g.generation == f.generation && f.state <= g.state
  }

  // The room has merged frame `f`, still has it to merge, or belongs to another generation.
  predicate Keeps(room: Room, f: Fanout) {
    || (room.phase.Loaded? && (room.phase.generation != f.generation || f.state <= room.content))
    || (f.sender in room.buffered && Covers(room.buffered[f.sender], f))
  }

  // While room `r` is loading, a frame of the same sender that does not cover `f` takes its place in the buffer.
  predicate Displaces(s: State, a: Action, r: RoomId, f: Fanout) {
    && a.InRoom? && a.room == r && a.event.Receive? && r in s.rooms && !s.rooms[r].phase.Loaded?
    && a.event.fanout.sender == f.sender && !Covers(a.event.fanout, f)
  }

  lemma BufferedFramesArrive(room: Room, f: Fanout)
    requires room.phase.Loaded? && room.phase.generation == f.generation && Keeps(room, f)
    ensures f.state <= room.content + BufferedUpdates(room)
  {
    forall u | u in f.state ensures u in room.content + BufferedUpdates(room) {
      if f.sender in room.buffered && u in room.buffered[f.sender].state { }
    }
  }

  lemma EventKeepsFrame(s: State, e: RoomEvent, r: RoomId, f: Fanout)
    requires r in s.rooms && Keeps(s.rooms[r], f) && !Displaces(s, InRoom(r, e), r, f)
    ensures r in RoomAction(s, e, r).rooms && Keeps(RoomAction(s, e, r).rooms[r], f)
  {
    var room := s.rooms[r];
    if e.ApplyBuffered? && room.phase.Loaded? && room.phase.generation == f.generation { BufferedFramesArrive(room, f); }
  }

  // A store neither changes the generation of its room nor touches the buffer.
  lemma StoreKeepsBuffer(s: State, e: StoreEvent, i: StoreId)
    requires i in s.stores && s.stores[i].room in s.rooms && s.rooms[s.stores[i].room].phase.Loaded?
    requires s.stores[i].generation == s.rooms[s.stores[i].room].phase.generation && !e.ResumeReload?
    ensures var r := s.stores[i].room; var room, rooms := s.rooms[r], StoreAction(s, e, i).rooms;
            r in rooms && rooms[r].buffered == room.buffered && rooms[r].phase.Loaded?
            && rooms[r].phase.generation == room.phase.generation
  {
  }

  lemma StoreKeepsFrame(s: State, e: StoreEvent, i: StoreId, f: Fanout)
    requires i in s.stores && s.stores[i].room in s.rooms && s.rooms[s.stores[i].room].phase.Loaded?
    requires s.stores[i].generation == s.rooms[s.stores[i].room].phase.generation && Keeps(s.rooms[s.stores[i].room], f)
    ensures var r := s.stores[i].room; r in StoreAction(s, e, i).rooms && Keeps(StoreAction(s, e, i).rooms[r], f)
  {
    if !e.ResumeReload? {
      StoreKeepsBuffer(s, e, i);
      G.StoreSummary(s, e, i);
      hide StoreAction;
    }
  }

  lemma StepKeepsFrame(s: State, a: Action, r: RoomId, f: Fanout)
    requires D.Inv(s) && r in s.rooms && Keeps(s.rooms[r], f) && !Displaces(s, a, r, f)
    ensures r in Apply(s, a).rooms && Keeps(Apply(s, a).rooms[r], f)
  {
    hide StoreAction, RoomAction, Keeps;
    if a.InStore? && a.store in s.stores && s.stores[a.store].room in s.rooms {
      assert D.StoreOk(s.db, s.rooms[s.stores[a.store].room], s.stores[a.store]);
      G.StoreSummary(s, a.step, a.store);
      if s.stores[a.store].room == r { StoreKeepsFrame(s, a.step, a.store, f); }
    }
    if a.InRoom? && a.room in s.rooms {
      G.RoomKeepsInvalidation(s, a.event, a.room);
      if a.room == r { EventKeepsFrame(s, a.event, r, f); }
    }
  }

  // At step `k` room `r` receives frame `f` of another replica.
  predicate Receives(s: State, a: Action, r: RoomId, f: Fanout) {
    a == InRoom(r, Receive(f)) && r in s.rooms && f in s.fanouts && f.sender != s.rooms[r].replica
  }

  lemma FrameComesIn(s: State, r: RoomId, f: Fanout)
    requires Receives(s, InRoom(r, Receive(f)), r, f)
    ensures var s' := Apply(s, InRoom(r, Receive(f))); r in s'.rooms && Keeps(s'.rooms[r], f)
  {
  }

  lemma EmptyBuffer(s: State, r: RoomId, f: Fanout)
    requires r in s.rooms && s.rooms[r].phase.Loaded? && s.rooms[r].phase.generation == f.generation && Keeps(s.rooms[r], f)
    ensures var s' := Apply(s, InRoom(r, ApplyBuffered));
            r in s'.rooms && s'.rooms[r].buffered == map[] && f.state <= s'.rooms[r].content
  {
    BufferedFramesArrive(s.rooms[r], f);
  }

  lemma {:induction false} FrameStays(s0: State, actions: seq<Action>, k: nat, r: RoomId, f: Fanout)
    requires Initial(s0) && k < |actions| && Receives(Run(s0, actions[..k]), actions[k], r, f)
    requires forall j | k < j < |actions| :: !Displaces(Run(s0, actions[..j]), actions[j], r, f)
    ensures r in Run(s0, actions).rooms && Keeps(Run(s0, actions).rooms[r], f)
    decreases |actions|
  {
    hide Apply, Keeps, Displaces, Initial;
    var n := |actions| - 1;
    var t := Run(s0, actions[..n]);
    if k < n {
      assert actions[..n][..k] == actions[..k];
      forall j | k < j < n ensures !Displaces(Run(s0, actions[..n][..j]), actions[..n][j], r, f) {
        assert actions[..n][..j] == actions[..j];
      }
      FrameStays(s0, actions[..n], k, r, f);
      D.RunOk(s0, actions[..n]);
      StepKeepsFrame(t, actions[n], r, f);
    } else {
      FrameComesIn(t, r, f);
    }
  }

  // Whatever is interleaved with the load, the bootstrap, edits and stores: a frame that a room has received is merged
  // or waits in the buffer for as long as the room may come to be loaded at its generation, unless a later frame of the
  // same sender displaces it during the load; emptying the buffer merges it.
  lemma FramesAreNotLost(s0: State, actions: seq<Action>, k: nat, r: RoomId, f: Fanout)
    requires Initial(s0) && k < |actions| && Receives(Run(s0, actions[..k]), actions[k], r, f)
    requires forall j | k < j < |actions| :: !Displaces(Run(s0, actions[..j]), actions[j], r, f)
    ensures r in Run(s0, actions).rooms && Keeps(Run(s0, actions).rooms[r], f)
    ensures var room := Run(s0, actions).rooms[r];
            room.phase.Loaded? && room.phase.generation == f.generation ==>
              var emptied := Apply(Run(s0, actions), InRoom(r, ApplyBuffered));
              r in emptied.rooms && emptied.rooms[r].buffered == map[] && f.state <= emptied.rooms[r].content
  {
    FrameStays(s0, actions, k, r, f);
    var end := Run(s0, actions);
    hide Run, Apply, Keeps, Displaces, Receives, Initial;
    if end.rooms[r].phase.Loaded? && end.rooms[r].phase.generation == f.generation { EmptyBuffer(end, r, f); }
  }

  lemma FanoutsStay(s: State, a: Action)
    ensures s.fanouts <= Apply(s, a).fanouts
  {
    hide StoreAction, RoomAction;
    if a.InStore? && a.store in s.stores && s.stores[a.store].room in s.rooms { G.StoresKeepFanouts(s, a.step, a.store); }
    if a.InRoom? && a.room in s.rooms { G.RoomFanouts(s, a.event, a.room); }
  }

  // What a live room owes its peers is sent when its turn comes, and can be received at any later moment.
  lemma {:induction false} OwedIsSent(s0: State, actions: seq<Action>, k: nat, r: RoomId)
    requires k < |actions| && actions[k] == InRoom(r, QueueFanout)
    requires var s := Run(s0, actions[..k]); r in s.rooms && !s.rooms[r].invalidated && s.rooms[r].persisted.Some?
    ensures Run(s0, actions[..k]).rooms[r].persisted.value in Run(s0, actions).fanouts
    decreases |actions|
  {
    var n := |actions| - 1;
    if k < n {
      assert actions[..n][..k] == actions[..k];
      OwedIsSent(s0, actions[..n], k, r);
      hide Apply;
      FanoutsStay(Run(s0, actions[..n]), actions[n]);
    }
  }

  // ---------------------------------------------------------------------------------------------------------
  // Segments in a row
  // ---------------------------------------------------------------------------------------------------------

  // Consecutive segments of one store invocation.
  function Segments(s: State, i: StoreId, steps: seq<StoreEvent>): State
    decreases |steps|
  {
    if steps == [] then s else Segments(Apply(s, InStore(i, steps[0])), i, steps[1..])
  }

  function ActionsOf(i: StoreId, steps: seq<StoreEvent>): seq<Action> {
    if steps == [] then [] else [InStore(i, steps[0])] + ActionsOf(i, steps[1..])
  }

  // Segments in a row are a run of the protocol.
  lemma {:induction false} SegmentsAreRuns(s: State, i: StoreId, steps: seq<StoreEvent>)
    ensures Segments(s, i, steps) == Run(s, ActionsOf(i, steps))
    decreases |steps|
  {
    hide Apply;
    if steps != [] {
      SegmentsAreRuns(Apply(s, InStore(i, steps[0])), i, steps[1..]);
      RunFirst(s, InStore(i, steps[0]), ActionsOf(i, steps[1..]));
    }
  }

  lemma {:induction false} SegmentsInTurn(s: State, i: StoreId, first: seq<StoreEvent>, rest: seq<StoreEvent>)
    ensures Segments(s, i, first + rest) == Segments(Segments(s, i, first), i, rest)
    decreases |first|
  {
    hide Apply;
    if first == [] {
      assert first + rest == rest;
    } else {
      assert (first + rest)[1..] == first[1..] + rest;
      SegmentsInTurn(Apply(s, InStore(i, first[0])), i, first[1..], rest);
    }
  }

  lemma {:induction false} RunFirst(s: State, a: Action, rest: seq<Action>)
    ensures Run(s, [a] + rest) == Run(Apply(s, a), rest)
    decreases |rest|
  {
    hide Apply;
    var all := [a] + rest;
    if rest == [] {
      assert all[..0] == [] && all[0] == a;
    } else {
      var n := |rest| - 1;
      RunFirst(s, a, rest[..n]);
      assert all[..|all| - 1] == [a] + rest[..n] && all[|all| - 1] == rest[n];
    }
  }

  function Put(s: State, i: StoreId, st: Store): State {
    s.(stores := s.stores[i := st])
  }

  predicate Stands(s: State, i: StoreId) {
    i in s.stores && s.stores[i].room in s.rooms && !s.rooms[s.stores[i].room].invalidated
  }

  // ---------------------------------------------------------------------------------------------------------
  // Single segments, when nothing interferes
  // ---------------------------------------------------------------------------------------------------------

  lemma BeginUnmarked(s: State, i: StoreId)
    requires Stands(s, i) && s.stores[i].pc.Attempting? && !s.stores[i].finalDrain && s.rooms[s.stores[i].room].mark.None?
    ensures Apply(s, InStore(i, BeginAttempt(Fits))) == Put(s, i, s.stores[i].(pc := AwaitingAuthorization(Unmarked)))
  {
  }

  lemma AuthorizeUnmarked(s: State, i: StoreId)
    requires Stands(s, i) && s.stores[i].pc == AwaitingAuthorization(Unmarked) && s.rooms[s.stores[i].room].mark.None?
    ensures Apply(s, InStore(i, ResumeAuthorize(Granted))) ==
            Put(s, i, s.stores[i].(pc := ConsumeReplied(true, true, Unmarked), authorizedAt := Some(s.stores[i].attempt)))
  {
  }

  lemma ConsumeUnmarked(s: State, i: StoreId)
    requires Stands(s, i) && s.stores[i].pc == ConsumeReplied(true, true, Unmarked)
    ensures Apply(s, InStore(i, ResumeConsume)) == Put(s, i, s.stores[i].(pc := Authorized(false)))
  {
  }

  lemma SnapshotFits(s: State, i: StoreId, owned: bool)
    requires Stands(s, i) && s.stores[i].pc == Authorized(owned)
    ensures Apply(s, InStore(i, ResumeAuthorized(Fits))) ==
            Put(s, i, s.stores[i].(pc := Persisting(s.rooms[s.stores[i].room].content), finalDrain := owned))
  {
  }

  // The commit, its acknowledgement and the bookkeeping after it.
  function Stored(s: State, i: StoreId, bump: nat, html: bool): State
    requires i in s.stores && s.stores[i].room in s.rooms
  {
    var st, room := s.stores[i], s.rooms[s.stores[i].room];
    var db := Persist(s.db, room.content, bump, html);
    var room' := room.(phase := Loaded(db.row.version, db.row.generation),
                       persisted := Some(Fanout(room.replica, db.row.generation, room.content)));
    Put(SetRoom(s.(db := db), st.room, room'), i,
        st.(pc := Finished(Acknowledged(db.row.version, db.row.generation, room.content))))
  }

  lemma CommitAndReturn(s: State, i: StoreId, bump: nat, html: bool)
    requires Stands(s, i) && s.stores[i].pc == Persisting(s.rooms[s.stores[i].room].content)
    requires CasHolds(s.db, s.stores[i].version, s.stores[i].generation)
    ensures var s1 := Apply(s, InStore(i, Commit(bump, html, true)));
            Apply(s1, InStore(i, ResumePersist)) ==
            var done := Stored(s, i, bump, html);
            if s.stores[i].finalDrain then CompleteDrain(done, s.stores[i].room) else done
  {
    var st := s.stores[i];
    var db := Persist(s.db, st.pc.snapshot, bump, html);
    var s1 := Apply(s, InStore(i, Commit(bump, html, true)));
    assert s1 == Put(s.(db := db), i, st.(pc := PersistReturned(db.row.version, db.row.generation, st.pc.snapshot)));
    assert Apply(s1, InStore(i, ResumePersist)) == ResumeStorePersist(s1, i);
  }

  // ---------------------------------------------------------------------------------------------------------
  // An undisturbed store
  // ---------------------------------------------------------------------------------------------------------

  // From authorization to the bookkeeping after the commit.
  function StoreSteps(bump: nat, html: bool): seq<StoreEvent> {
    [BeginAttempt(Fits), ResumeAuthorize(Granted), ResumeConsume, ResumeAuthorized(Fits), Commit(bump, html, true), ResumePersist]
  }

  lemma FirstSegment(s: State, i: StoreId, first: StoreEvent, rest: seq<StoreEvent>)
    ensures Segments(s, i, [first] + rest) == Segments(Apply(s, InStore(i, first)), i, rest)
  {
    assert ([first] + rest)[1..] == rest;
  }

  lemma SixSegments(s: State, i: StoreId, a: StoreEvent, b: StoreEvent, c: StoreEvent, d: StoreEvent, e: StoreEvent, f: StoreEvent)
    ensures Segments(s, i, [a, b, c, d, e, f]) ==
            Apply(Apply(Apply(Apply(Apply(Apply(s,
              InStore(i, a)), InStore(i, b)), InStore(i, c)), InStore(i, d)), InStore(i, e)), InStore(i, f))
  {
    hide Apply;
    var s1 := Apply(s, InStore(i, a));
    var s2 := Apply(s1, InStore(i, b));
    var s3 := Apply(s2, InStore(i, c));
    var s4 := Apply(s3, InStore(i, d));
    var s5 := Apply(s4, InStore(i, e));
    assert [a, b, c, d, e, f] == [a] + ([b] + ([c] + ([d] + ([e] + ([f] + [])))));
    FirstSegment(s, i, a, [b] + ([c] + ([d] + ([e] + ([f] + [])))));
    FirstSegment(s1, i, b, [c] + ([d] + ([e] + ([f] + []))));
    FirstSegment(s2, i, c, [d] + ([e] + ([f] + [])));
    FirstSegment(s3, i, d, [e] + ([f] + []));
    FirstSegment(s4, i, e, [f] + []);
    FirstSegment(s5, i, f, []);
  }

  lemma TwoSegments(s: State, i: StoreId, a: StoreEvent, b: StoreEvent)
    ensures Segments(s, i, [a, b]) == Apply(Apply(s, InStore(i, a)), InStore(i, b))
  {
    hide Apply;
    assert [a, b] == [a] + ([b] + []);
    FirstSegment(s, i, a, [b] + []);
    FirstSegment(Apply(s, InStore(i, a)), i, b, []);
  }

  // A writable, authorized store that nobody overtakes makes exactly the room's content durable, in the room's own
  // generation; the room then remembers the new version, so its next store can succeed as well, and the state is ready
  // to be fanned out.
  lemma UndisturbedStoreSucceeds(s: State, i: StoreId, bump: nat, html: bool)
    requires Stands(s, i) && s.stores[i].pc.Attempting? && !s.stores[i].finalDrain && s.rooms[s.stores[i].room].mark.None?
    requires CasHolds(s.db, s.stores[i].version, s.stores[i].generation)
    ensures var s' := Run(s, ActionsOf(i, StoreSteps(bump, html))); var r := s.stores[i].room; var content := s.rooms[r].content;
            && r in s'.rooms && i in s'.stores
            && s'.db.row.yjs == Some(content) && s'.db.row.generation == s.db.row.generation
            && s'.db.row.version > s.db.row.version
            && s'.rooms[r].phase == Loaded(s'.db.row.version, s'.db.row.generation) && s'.rooms[r].content == content
            && s'.rooms[r].persisted == Some(Fanout(s.rooms[r].replica, s.db.row.generation, content))
            && G.IsAcknowledged(s'.stores[i].pc)
  {
    var st := s.stores[i];
    SegmentsAreRuns(s, i, StoreSteps(bump, html));
    SixSegments(s, i, BeginAttempt(Fits), ResumeAuthorize(Granted), ResumeConsume,
                ResumeAuthorized(Fits), Commit(bump, html, true), ResumePersist);
    BeginUnmarked(s, i);
    var s1 := Put(s, i, st.(pc := AwaitingAuthorization(Unmarked)));
    AuthorizeUnmarked(s1, i);
    var s2 := Put(s1, i, s1.stores[i].(pc := ConsumeReplied(true, true, Unmarked), authorizedAt := Some(st.attempt)));
    ConsumeUnmarked(s2, i);
    var s3 := Put(s2, i, s2.stores[i].(pc := Authorized(false)));
    SnapshotFits(s3, i, false);
    var s4 := Put(s3, i, s3.stores[i].(pc := Persisting(s3.rooms[st.room].content), finalDrain := false));
    CommitAndReturn(s4, i, bump, html);
    hide Apply, Segments;
  }

  // A store started in a room that is up to date expects the right row.
  lemma FreshStoreSucceeds(s: State, r: RoomId, i: StoreId, bump: nat, html: bool)
    requires r in s.rooms && i !in s.stores && !s.rooms[r].invalidated && s.rooms[r].mark.None?
    requires s.rooms[r].phase == Loaded(s.db.row.version, s.db.row.generation)
    ensures var s' := Run(s, [StartStore(i, r)] + ActionsOf(i, StoreSteps(bump, html)));
            && r in s'.rooms && s'.db.row.yjs == Some(s.rooms[r].content) && s'.db.row.version > s.db.row.version
            && s'.rooms[r].phase == Loaded(s'.db.row.version, s'.db.row.generation)
  {
    var s1 := Apply(s, StartStore(i, r));
    assert s1.db == s.db && s1.rooms == s.rooms && i in s1.stores;
    UndisturbedStoreSucceeds(s1, i, bump, html);
    RunFirst(s, StartStore(i, r), ActionsOf(i, StoreSteps(bump, html)));
    hide Apply, Segments, Run, ActionsOf, StoreSteps;
  }

  // ---------------------------------------------------------------------------------------------------------
  // A lost compare-and-swap
  // ---------------------------------------------------------------------------------------------------------

  // Merging the row of the same generation, however long ago it was read: the next attempt expects its version and
  // carries both replicas' updates.
  lemma ConflictIsMerged(s: State, i: StoreId, minted: set<Update>)
    requires Reachable(s) && Stands(s, i) && s.stores[i].pc.Reloaded? && s.stores[i].attempt + 1 < MAX_STORE_ATTEMPTS
    requires s.stores[i].pc.row.live && s.stores[i].pc.row.generation == s.stores[i].generation
    ensures var s' := Apply(s, InStore(i, ResumeReload(minted))); var st, row := s.stores[i], s.stores[i].pc.row;
            && row.yjs.Some?
            && s' == Put(s.(rooms := s'.rooms), i, st.(version := row.version, pc := Attempting, attempt := st.attempt + 1))
            && s'.rooms == s.rooms[st.room := s.rooms[st.room].(content := s.rooms[st.room].content + row.yjs.value,
                                                                phase := Loaded(row.version, row.generation))]
  {
    D.ReachableOk(s);
    assert D.StoreOk(s.db, s.rooms[s.stores[i].room], s.stores[i]);
    hide D.Inv;
  }

  // Reloading and merging at once.
  lemma ReloadAndMerge(s: State, i: StoreId, minted: set<Update>) returns (s': State)
    requires Reachable(s) && Stands(s, i) && s.stores[i].pc.Reloading? && s.stores[i].attempt + 1 < MAX_STORE_ATTEMPTS
    requires s.db.row.live && s.db.row.generation == s.stores[i].generation
    ensures var st := s.stores[i];
            && s' == Segments(s, i, [Reload, ResumeReload(minted)]) && s.db.row.yjs.Some? && Stands(s', i)
            && s'.db == s.db && st.room in s'.rooms && s'.rooms[st.room].content == s.rooms[st.room].content + s.db.row.yjs.value
            && s'.rooms[st.room].mark == s.rooms[st.room].mark
            && s'.stores[i] == st.(version := s.db.row.version, pc := Attempting, attempt := st.attempt + 1)
  {
    var s1 := Apply(s, InStore(i, Reload));
    s' := Apply(s1, InStore(i, ResumeReload(minted)));
    assert Segments(s', i, []) == s';
    assert [Reload, ResumeReload(minted)] == [Reload] + ([ResumeReload(minted)] + []);
    FirstSegment(s, i, Reload, [ResumeReload(minted)] + []);
    FirstSegment(s1, i, ResumeReload(minted), []);
    assert s1 == Put(s, i, s.stores[i].(pc := Reloaded(s.db.row)));
    ReachableStep(s, InStore(i, Reload));
    hide Segments;
    ConflictIsMerged(s1, i, minted);
  }

  lemma ReachableStep(s: State, a: Action)
    requires Reachable(s)
    ensures Reachable(Apply(s, a))
  {
    var s0, actions :| Initial(s0) && s == Run(s0, actions);
    assert (actions + [a])[..|actions|] == actions;
    hide Apply;
    assert Apply(s, a) == Run(s0, actions + [a]);
  }

  // A replica that lost the race can store the union of its own content and the winner's state: neither edit is lost
  // and no client has to reconnect.
  lemma RetryStoresTheUnion(s: State, i: StoreId, minted: set<Update>, bump: nat, html: bool)
    requires Reachable(s) && Stands(s, i) && s.stores[i].pc.Reloading? && s.stores[i].attempt + 1 < MAX_STORE_ATTEMPTS
    requires s.db.row.live && s.db.row.generation == s.stores[i].generation
    requires !s.stores[i].finalDrain && s.rooms[s.stores[i].room].mark.None?
    ensures var s' := Run(s, ActionsOf(i, [Reload, ResumeReload(minted)] + StoreSteps(bump, html)));
            var r := s.stores[i].room;
            && r in s'.rooms
            && s.db.row.yjs.Some? && s'.db.row.yjs == Some(s.rooms[r].content + s.db.row.yjs.value)
            && s'.db.row.generation == s.db.row.generation && s'.rooms[r].phase == Loaded(s'.db.row.version, s'.db.row.generation)
  {
    hide Apply, Segments, Reachable, StoreSteps;
    SegmentsAreRuns(s, i, [Reload, ResumeReload(minted)] + StoreSteps(bump, html));
    SegmentsInTurn(s, i, [Reload, ResumeReload(minted)], StoreSteps(bump, html));
    var merged := ReloadAndMerge(s, i, minted);
    SegmentsAreRuns(merged, i, StoreSteps(bump, html));
    UndisturbedStoreSucceeds(merged, i, bump, html);
    hide Run, ActionsOf;
  }

  // ---------------------------------------------------------------------------------------------------------
  // The final drain
  // ---------------------------------------------------------------------------------------------------------

  // Whatever the live authorization answers, short of an error.
  function DrainSteps(answer: AuthorizeOutcome): seq<StoreEvent> {
    [BeginAttempt(Fits), QueuesSettled, ResumeConsume, ResumeAuthorize(answer), ResumeConsume, ResumeAuthorized(Fits)]
  }

  predicate DrainReady(s: State, i: StoreId, m: MarkId) {
    && Stands(s, i) && s.stores[i].pc.Attempting? && !s.stores[i].finalDrain
    && s.rooms[s.stores[i].room].mark == Some(m) && s.rooms[s.stores[i].room].connections == 0
    && m in s.marks && s.marks[m].ready == Some(true) && s.marks[m].consuming.None? && !s.marks[m].granted
  }

  // The first store of a marked, drained and disconnected room takes the grant, whatever live authorization now says.
  lemma DrainTakesGrant(s: State, i: StoreId, m: MarkId, answer: AuthorizeOutcome)
    requires DrainReady(s, i, m) && !answer.Threw?
    ensures var s' := Segments(s, i, DrainSteps(answer)); var content := s.rooms[s.stores[i].room].content;
            && s'.db == s.db && s'.rooms == s.rooms && s'.fanouts == s.fanouts && i in s'.stores
            && s'.marks == s.marks[m := s.marks[m].(consuming := Some(i), granted := true)]
            && s'.stores[i].pc == Persisting(content) && s'.stores[i].finalDrain && s'.stores[i].grant == Some(m)
            && s'.stores[i].room == s.stores[i].room
            && s'.stores[i].version == s.stores[i].version && s'.stores[i].generation == s.stores[i].generation
  {
    SixSegments(s, i, BeginAttempt(Fits), QueuesSettled, ResumeConsume, ResumeAuthorize(answer), ResumeConsume, ResumeAuthorized(Fits));
    hide Segments;
    var st := s.stores[i];
    var s1 := DrainBegin(s, i, m);
    var s2 := DrainSettle(s1, i, m);
    var s3 := DrainReply(s2, i, answer);
    SnapshotFits(s3, i, true);
    hide Apply;
  }

  lemma DrainBegin(s: State, i: StoreId, m: MarkId) returns (s': State)
    requires DrainReady(s, i, m)
    ensures s' == Apply(s, InStore(i, BeginAttempt(Fits)))
    ensures s' == Put(s.(marks := s.marks[m := s.marks[m].(consuming := Some(i))]), i,
                      s.stores[i].(pc := AwaitingQueues(false, false, m)))
  {
    s' := Apply(s, InStore(i, BeginAttempt(Fits)));
  }

  lemma DrainSettle(s: State, i: StoreId, m: MarkId) returns (s': State)
    requires Stands(s, i) && s.stores[i].pc == AwaitingQueues(false, false, m)
    requires s.rooms[s.stores[i].room].mark == Some(m) && s.rooms[s.stores[i].room].connections == 0
    requires m in s.marks && s.marks[m].ready == Some(true)
    ensures s' == Apply(Apply(s, InStore(i, QueuesSettled)), InStore(i, ResumeConsume))
    ensures s' == Put(s.(marks := s.marks[m := s.marks[m].(granted := true)]), i,
                      s.stores[i].(pc := AwaitingAuthorization(Consumed), grant := Some(m)))
  {
    var s1 := Apply(s, InStore(i, QueuesSettled));
    assert s1 == Put(s.(marks := s.marks[m := s.marks[m].(granted := true)]), i,
                     s.stores[i].(pc := ConsumeReplied(false, false, Consumed), grant := Some(m)));
    s' := Apply(s1, InStore(i, ResumeConsume));
  }

  lemma DrainReply(s: State, i: StoreId, answer: AuthorizeOutcome) returns (s': State)
    requires Stands(s, i) && s.stores[i].pc == AwaitingAuthorization(Consumed) && !answer.Threw?
    ensures s' == Apply(Apply(s, InStore(i, ResumeAuthorize(answer))), InStore(i, ResumeConsume))
    ensures s' == Put(s, i, s.stores[i].(
                        pc := Authorized(true),
                        authorizedAt := if answer.Granted? then Some(s.stores[i].attempt) else s.stores[i].authorizedAt))
  {
    var st := s.stores[i].(authorizedAt := if answer.Granted? then Some(s.stores[i].attempt) else s.stores[i].authorizedAt);
    var s1 := Apply(s, InStore(i, ResumeAuthorize(answer)));
    assert s1 == Put(s, i, st.(pc := ConsumeReplied(true, answer.Granted?, Consumed)));
    s' := Apply(s1, InStore(i, ResumeConsume));
  }

  // The write of a granted drain and what it leaves behind.
  lemma DrainIsStored(s: State, i: StoreId, m: MarkId, bump: nat, html: bool)
    requires Stands(s, i) && s.stores[i].pc == Persisting(s.rooms[s.stores[i].room].content) && s.stores[i].finalDrain
    requires CasHolds(s.db, s.stores[i].version, s.stores[i].generation)
    requires m in s.marks && s.marks[m].granted && s.rooms[s.stores[i].room].mark == Some(m)
    ensures var s' := Apply(Apply(s, InStore(i, Commit(bump, html, true))), InStore(i, ResumePersist));
            var r := s.stores[i].room; var room := s.rooms[r];
            && s'.db.row.yjs == Some(room.content) && s'.db.row.generation == s.db.row.generation
            && m in s'.marks && s'.marks[m].completed && i in s'.stores && G.IsAcknowledged(s'.stores[i].pc)
            && s'.fanouts == s.fanouts
            && s'.rooms == s.rooms[r := room.(
                 phase := Loaded(s'.db.row.version, s'.db.row.generation),
                 persisted := Some(Fanout(room.replica, s'.db.row.generation, room.content)))]
  {
    CommitAndReturn(s, i, bump, html);
    hide Apply;
  }

  // The accepted edits of a share-change close can become durable, and the drain is completed.
  lemma FinalDrainCompletes(s: State, i: StoreId, m: MarkId, answer: AuthorizeOutcome, bump: nat, html: bool)
    requires DrainReady(s, i, m) && !answer.Threw?
    requires CasHolds(s.db, s.stores[i].version, s.stores[i].generation)
    ensures var s' := Run(s, ActionsOf(i, DrainSteps(answer) + [Commit(bump, html, true), ResumePersist]));
            && s'.db.row.yjs == Some(s.rooms[s.stores[i].room].content) && s'.db.row.generation == s.db.row.generation
            && m in s'.marks && s'.marks[m].completed && i in s'.stores && G.IsAcknowledged(s'.stores[i].pc)
            && s'.fanouts == s.fanouts
            && var r := s.stores[i].room; var room := s.rooms[r];
               s'.rooms == s.rooms[r := room.(
                 phase := Loaded(s'.db.row.version, s'.db.row.generation),
                 persisted := Some(Fanout(room.replica, s'.db.row.generation, room.content)))]
  {
    hide Apply, Run, ActionsOf, DrainSteps, Segments, Persist;
    SegmentsAreRuns(s, i, DrainSteps(answer) + [Commit(bump, html, true), ResumePersist]);
    SegmentsInTurn(s, i, DrainSteps(answer), [Commit(bump, html, true), ResumePersist]);
    DrainTakesGrant(s, i, m, answer);
    var held := Segments(s, i, DrainSteps(answer));
    TwoSegments(held, i, Commit(bump, html, true), ResumePersist);
    DrainIsStored(held, i, m, bump, html);
  }

  // ---------------------------------------------------------------------------------------------------------
  // A whole story
  // ---------------------------------------------------------------------------------------------------------

  lemma {:induction false} RunInTurn(s: State, first: seq<Action>, rest: seq<Action>)
    ensures Run(s, first + rest) == Run(Run(s, first), rest)
    decreases |rest|
  {
    hide Apply;
    if rest == [] {
      assert first + rest == first;
    } else {
      var n := |rest| - 1;
      assert (first + rest)[..|first + rest| - 1] == first + rest[..n] && (first + rest)[|first + rest| - 1] == rest[n];
      RunInTurn(s, first, rest[..n]);
    }
  }

  lemma SixActions(s: State, a: Action, b: Action, c: Action, d: Action, e: Action, f: Action)
    ensures Run(s, [a, b, c, d, e, f]) == Apply(Apply(Apply(Apply(Apply(Apply(s, a), b), c), d), e), f)
  {
    hide Apply;
    assert [a, b, c, d, e, f][..5] == [a, b, c, d, e] && [a, b, c, d, e][..4] == [a, b, c, d];
    assert [a, b, c, d][..3] == [a, b, c] && [a, b, c][..2] == [a, b] && [a, b][..1] == [a] && [a][..0] == [];
    assert Run(s, [a]) == Apply(s, a);
    assert Run(s, [a, b]) == Apply(Apply(s, a), b);
    assert Run(s, [a, b, c]) == Apply(Apply(Apply(s, a), b), c);
    assert Run(s, [a, b, c, d]) == Apply(Apply(Apply(Apply(s, a), b), c), d);
    assert Run(s, [a, b, c, d, e]) == Apply(Apply(Apply(Apply(Apply(s, a), b), c), d), e);
  }

  function FreshRoom(row: Row, replica: ReplicaId): Room
    requires row.yjs.Some?
  {
    Room(replica, row.yjs.value, Loaded(row.version, row.generation), map[], false, 0, None, None)
  }

  // Two replicas load the document into rooms 0 and 1.
  function Loading(replica: ReplicaId, peer: ReplicaId): seq<Action> {
    [OpenRoom(0, replica), InRoom(0, ReadRow), InRoom(0, ResumeLoad), OpenRoom(1, peer), InRoom(1, ReadRow), InRoom(1, ResumeLoad)]
  }

  lemma BothLoad(s: State, replica: ReplicaId, peer: ReplicaId)
    requires Initial(s) && s.db.row.live && s.db.row.yjs.Some?
    ensures Run(s, Loading(replica, peer)) ==
            s.(rooms := map[0 := FreshRoom(s.db.row, replica), 1 := FreshRoom(s.db.row, peer)])
  {
    SixActions(s, OpenRoom(0, replica), InRoom(0, ReadRow), InRoom(0, ResumeLoad),
               OpenRoom(1, peer), InRoom(1, ReadRow), InRoom(1, ResumeLoad));
    hide Run;
    var s3 := LoadOne(s, 0, replica);
    var s6 := LoadOne(s3, 1, peer);
  }

  lemma LoadOne(s: State, r: RoomId, replica: ReplicaId) returns (s': State)
    requires r !in s.rooms && s.db.row.live && s.db.row.yjs.Some?
    ensures s' == Apply(Apply(Apply(s, OpenRoom(r, replica)), InRoom(r, ReadRow)), InRoom(r, ResumeLoad))
    ensures s' == SetRoom(s, r, FreshRoom(s.db.row, replica))
  {
    var s1 := Apply(s, OpenRoom(r, replica));
    var s2 := Apply(s1, InRoom(r, ReadRow));
    s' := Apply(s2, InRoom(r, ResumeLoad));
    assert s2.rooms[r] == Room(replica, {}, RowRead(s.db.row), map[], false, 0, None, None);
    assert {} + s.db.row.yjs.value == s.db.row.yjs.value;
    assert s'.rooms[r] == FreshRoom(s.db.row, replica);
  }

  // A writer edits in room 0, his share is withdrawn, and the store of the closed room begins.
  function Revoking(updates: set<Update>): seq<Action> {
    [InRoom(0, Connect), InRoom(0, Edit(updates)), InRoom(0, MarkDrain(0)), InRoom(0, Disconnect), SettleQueues(0, true), StartStore(0, 0)]
  }

  lemma DrainBegins(s: State, updates: set<Update>)
    requires s.stores == map[] && s.marks == map[] && 0 in s.rooms && s.rooms[0].phase.Loaded? && !s.rooms[0].invalidated
    requires s.rooms[0].connections == 0 && s.rooms[0].mark.None?
    ensures var s' := Run(s, Revoking(updates)); var room := s.rooms[0];
            && s'.rooms == s.rooms[0 := room.(content := room.content + updates, mark := Some(0))]
            && s'.marks == map[0 := Mark(0, Some(true), None, false, false)]
            && s'.db.row == s.db.row && s'.fanouts == s.fanouts
            && s'.stores == map[0 := Store(0, Attempting, room.phase.version, room.phase.generation, 0, false, None, None)]
  {
    SixActions(s, InRoom(0, Connect), InRoom(0, Edit(updates)), InRoom(0, MarkDrain(0)), InRoom(0, Disconnect),
               SettleQueues(0, true), StartStore(0, 0));
    hide Run;
    var room := s.rooms[0];
    var s1 := Apply(s, InRoom(0, Connect));
    assert s1 == SetRoom(s, 0, room.(connections := 1));
    var s2 := Apply(s1, InRoom(0, Edit(updates)));
    assert s2.rooms == s.rooms[0 := room.(connections := 1, content := room.content + updates)];
    var s3 := Apply(s2, InRoom(0, MarkDrain(0)));
    assert s3.marks == map[0 := Mark(0, None, None, false, false)];
    var s4 := Apply(s3, InRoom(0, Disconnect));
    assert s4.rooms == s.rooms[0 := room.(content := room.content + updates, mark := Some(0))];
    var s5 := Apply(s4, SettleQueues(0, true));
    assert s5.marks == map[0 := Mark(0, Some(true), None, false, false)];
    var s6 := Apply(s5, StartStore(0, 0));
  }

  function Sharing(row: Row, replica: ReplicaId, content: set<Update>): seq<Action> {
    [InRoom(0, QueueFanout), InRoom(1, Receive(Fanout(replica, row.generation, content)))]
  }

  lemma PeerReceives(s: State, row: Row, replica: ReplicaId, content: set<Update>)
    requires 0 in s.rooms && 1 in s.rooms && !s.rooms[0].invalidated && s.rooms[1].replica != replica
    requires s.rooms[0].persisted == Some(Fanout(replica, row.generation, content))
    requires s.rooms[1].phase.Loaded? && s.rooms[1].phase.generation == row.generation
    ensures var s' := Run(s, Sharing(row, replica, content));
            s'.db == s.db && s'.marks == s.marks && 1 in s'.rooms && s'.rooms[1].content == s.rooms[1].content + content
  {
    var f := Fanout(replica, row.generation, content);
    var a, b := InRoom(0, QueueFanout), InRoom(1, Receive(f));
    assert [a, b][..1] == [a] && [a][..0] == [];
    assert Run(s, [a]) == Apply(s, a);
    var s1 := Apply(s, a);
    assert f in s1.fanouts && s1.rooms[1] == s.rooms[1];
  }

  // From every initial row with a Yjs state, for any two replicas and any edits: the edits of a writer whose share is
  // withdrawn before they are stored become durable with everything that was there, although live authorization now
  // refuses him, the drain is completed, and the other replica's room receives them.
  lemma WithdrawnEditsArrive(s0: State, replica: ReplicaId, peer: ReplicaId, updates: set<Update>, bump: nat, html: bool)
    requires Initial(s0) && s0.db.row.live && s0.db.row.yjs.Some? && replica != peer
    ensures var content := s0.db.row.yjs.value + updates;
            var drain := ActionsOf(0, DrainSteps(AuthorizeOutcome.Refused) + [Commit(bump, html, true), ResumePersist]);
            var end := Run(s0, Loading(replica, peer) + Revoking(updates) + drain + Sharing(s0.db.row, replica, content));
            && end.db.row.yjs == Some(content) && end.db.row.generation == s0.db.row.generation
            && 0 in end.marks && end.marks[0].completed
            && 1 in end.rooms && end.rooms[1].content == content
  {
    var row, content := s0.db.row, s0.db.row.yjs.value + updates;
    var drain := ActionsOf(0, DrainSteps(AuthorizeOutcome.Refused) + [Commit(bump, html, true), ResumePersist]);
    var s1 := Run(s0, Loading(replica, peer));
    var s2 := Run(s1, Revoking(updates));
    var s3 := Run(s2, drain);
    RunInTurn(s0, Loading(replica, peer), Revoking(updates));
    RunInTurn(s0, Loading(replica, peer) + Revoking(updates), drain);
    RunInTurn(s0, Loading(replica, peer) + Revoking(updates) + drain, Sharing(row, replica, content));
    BothLoad(s0, replica, peer);
    DrainBegins(s1, updates);
    hide Run, ActionsOf, Loading, Revoking, DrainSteps, Sharing;
    FinalDrainCompletes(s2, 0, 0, AuthorizeOutcome.Refused, bump, html);
    PeerReceives(s3, row, replica, content);
    assert row.yjs.value + content == content;
  }
}
