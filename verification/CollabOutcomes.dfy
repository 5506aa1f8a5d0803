/**
 * What an `onStoreDocument` invocation has achieved when it is over, in every run of the collaboration protocol: how
 * each way of ending is accounted for, and that an invocation whose room stays as it is ends with its content durable
 * unless it loses the compare-and-swap four times.
 */
module CollabOutcomes {
  import opened Options
  import opened CollabModel
  import D = CollabDurability
  import G = CollabGating

  // ---------------------------------------------------------------------------------------------------------
  // A room never forgets an update, and a store hands over all of them
  // ---------------------------------------------------------------------------------------------------------

  lemma EventsKeepContent(s: State, e: RoomEvent, r: RoomId, r': RoomId)
    requires r in s.rooms && r' in s.rooms
    ensures r' in RoomAction(s, e, r).rooms && s.rooms[r'].content <= RoomAction(s, e, r).rooms[r'].content
  {
  }

  lemma ContentStays(s: State, a: Action, r: RoomId)
    requires r in s.rooms
    ensures r in Apply(s, a).rooms && s.rooms[r].content <= Apply(s, a).rooms[r].content
  {
    hide StoreAction, RoomAction;
    if a.InStore? && a.store in s.stores && s.stores[a.store].room in s.rooms {
      G.StoreSummary(s, a.step, a.store);
    }
    if a.InRoom? && a.room in s.rooms { EventsKeepContent(s, a.event, a.room, r); }
  }

  lemma {:induction false} ContentStaysAlong(s: State, actions: seq<Action>, k: nat, r: RoomId)
    requires k <= |actions| && r in Run(s, actions[..k]).rooms
    ensures r in Run(s, actions).rooms
    ensures Run(s, actions[..k]).rooms[r].content <= Run(s, actions).rooms[r].content
    decreases |actions|
  {
    hide Apply;
    if k == |actions| {
      assert actions[..k] == actions;
    } else {
      var n := |actions| - 1;
      assert actions[..n][..k] == actions[..k];
      ContentStaysAlong(s, actions[..n], k, r);
      ContentStays(Run(s, actions[..n]), actions[n], r);
    }
  }

  lemma Whole(actions: seq<Action>)
    ensures actions[..|actions|] == actions
  {
  }

  lemma AfterStep(s: State, actions: seq<Action>, k: nat)
    requires k < |actions|
    ensures Run(s, actions[..k + 1]) == Apply(Run(s, actions[..k]), actions[k])
  {
    assert actions[..k + 1][..k] == actions[..k];
  }

  // At `s` store `i` has not called `persistContent` in its present attempt, or has not even begun.
  predicate NotHanded(s: State, i: StoreId) {
    i in s.stores ==> G.Handed(s.stores[i].pc).None?
  }

  // What a store hands to `persistContent` contains everything that was in its room at any earlier moment.
  lemma {:induction false} HandsOverEverything(s: State, actions: seq<Action>, k: nat, i: StoreId)
    requires k <= |actions| && NotHanded(Run(s, actions[..k]), i) && i in Run(s, actions).stores
    requires Run(s, actions).stores[i].room in Run(s, actions[..k]).rooms
    requires G.Handed(Run(s, actions).stores[i].pc).Some?
    ensures var end := Run(s, actions);
            Run(s, actions[..k]).rooms[end.stores[i].room].content <= G.Handed(end.stores[i].pc).value
    decreases |actions|
  {
    hide Apply;
    Whole(actions);
    if k < |actions| {
      var n := |actions| - 1;
      var t, t' := Run(s, actions[..n]), Run(s, actions);
      assert actions[..n][..k] == actions[..k];
      if i in t.stores {
        G.StepSummary(t, actions[n], t', i);
        ContentStaysAlong(s, actions[..n], k, t'.stores[i].room);
        if G.Handed(t.stores[i].pc).Some? { HandsOverEverything(s, actions[..n], k, i); }
      } else {
        G.NewStore(t, actions[n], t', i);
      }
    }
  }

  // ---------------------------------------------------------------------------------------------------------
  // What is rethrown
  // ---------------------------------------------------------------------------------------------------------

  predicate Unfinished(s: State, i: StoreId) {
    i in s.stores && s.stores[i].room in s.rooms && !s.stores[i].pc.Finished?
  }

  // A technical failure: the content cannot be materialized, the database or the reload fails, or the fourth
  // compare-and-swap is lost.
  predicate Fails(s: State, a: Action, i: StoreId) {
    && Unfinished(s, i) && a.InStore? && a.store == i
    && var st := s.stores[i];
       || (st.pc.Authorized? && a.step == ResumeAuthorized(Malformed))
       || (st.pc.Attempting? && st.finalDrain && a.step == BeginAttempt(Malformed))
       || (st.pc == PersistThrew(Unavailable) && a.step == ResumePersist)
       || (st.pc.Reloading? && a.step == ReloadFails(false))
       || (st.pc.Reloaded? && a.step.ResumeReload? && st.attempt >= 3)
  }

  // The segments up to the persist call.
  predicate BeforeTheCall(e: StoreEvent) {
    e.BeginAttempt? || e.QueuesSettled? || e.ResumeConsume? || e.ResumeAuthorize? || e.ResumeAuthorized?
  }

  lemma EarlyRethrow(s: State, e: StoreEvent, i: StoreId)
    requires Unfinished(s, i) && BeforeTheCall(e)
    requires i in StoreAction(s, e, i).stores && StoreAction(s, e, i).stores[i].pc == Finished(Rethrown)
    ensures Fails(s, InStore(i, e), i)
    ensures !s.rooms[s.stores[i].room].invalidated && s.rooms[s.stores[i].room].mark.None?
  {
  }

  lemma LateRethrow(s: State, e: StoreEvent, i: StoreId)
    requires Unfinished(s, i) && !BeforeTheCall(e)
    requires i in StoreAction(s, e, i).stores && StoreAction(s, e, i).stores[i].pc == Finished(Rethrown)
    ensures Fails(s, InStore(i, e), i)
    ensures !s.rooms[s.stores[i].room].invalidated && s.rooms[s.stores[i].room].mark.None?
  {
  }

  lemma RethrowStep(s: State, e: StoreEvent, i: StoreId)
    requires Unfinished(s, i) && i in StoreAction(s, e, i).stores && StoreAction(s, e, i).stores[i].pc == Finished(Rethrown)
    ensures Fails(s, InStore(i, e), i)
    ensures !s.rooms[s.stores[i].room].invalidated && s.rooms[s.stores[i].room].mark.None?
  {
    if BeforeTheCall(e) { EarlyRethrow(s, e, i); } else { LateRethrow(s, e, i); }
    hide StoreAction;
  }

  lemma RethrownNow(s: State, a: Action, s': State, i: StoreId)
    requires s' == Apply(s, a) && i in s.stores && i in s'.stores
    requires s.stores[i].pc != Finished(Rethrown) && s'.stores[i].pc == Finished(Rethrown)
    ensures Fails(s, a, i) && s.stores[i].room in s.rooms
    ensures !s.rooms[s.stores[i].room].invalidated && s.rooms[s.stores[i].room].mark.None?
  {
    G.StepSummary(s, a, s', i);
    assert Unfinished(s, i) && a.InStore? && a.store == i;
    hide StoreAction, RoomAction, Fails;
    RethrowStep(s, a.step, i);
  }

  // Only a technical failure is rethrown to the framework, and only out of a live, unmarked room that is not drained.
  lemma RethrowNeedsFailure(s0: State, actions: seq<Action>, i: StoreId)
    requires Initial(s0) && i in Run(s0, actions).stores && Run(s0, actions).stores[i].pc == Finished(Rethrown)
    ensures exists k :: 0 <= k < |actions| && Fails(Run(s0, actions[..k]), actions[k], i)
              && !Run(s0, actions[..k]).rooms[Run(s0, actions[..k]).stores[i].room].invalidated
              && Run(s0, actions[..k]).rooms[Run(s0, actions[..k]).stores[i].room].mark.None?
  {
    var k := G.FirstMoment(s0, actions, (s: State) => i in s.stores && s.stores[i].pc == Finished(Rethrown));
    var s, s' := Run(s0, actions[..k]), Run(s0, actions[..k + 1]);
    hide Run, Apply, StoreAction, Fails;
    if i in s.stores {
      RethrownNow(s, actions[k], s', i);
    } else {
      G.NewStore(s, actions[k], s', i);
    }
  }

  // ---------------------------------------------------------------------------------------------------------
  // Every way of ending is accounted for
  // ---------------------------------------------------------------------------------------------------------

  // The durable state `snapshot` of this version is in the row, and stays there as long as its generation lasts.
  ghost predicate Kept(db: Db, version: nat, generation: nat, snapshot: set<Update>) {
    && Durable(version, generation, snapshot) in db.durable
    && (db.row.generation == generation ==>
          db.row.yjs.Some? && snapshot <= db.row.yjs.value && version <= db.row.version)
  }

  ghost predicate AccountedFor(s: State, i: StoreId, before: set<Update>)
    requires i in s.stores && s.stores[i].pc.Finished? && s.stores[i].room in s.rooms
  {
    var room := s.rooms[s.stores[i].room];
    match s.stores[i].pc.outcome
    case Acknowledged(version, generation, snapshot) =>
      before <= snapshot && room.phase.Loaded? && generation == room.phase.generation
      && Kept(s.db, version, generation, snapshot)
    case Abandoned => room.invalidated
    case Behind(m) =>
      && G.TakenByAnother(s.marks, i, s.stores[i].room, m)
      && s.marks[m].consuming.value in s.stores
      && (s.stores[s.marks[m].consuming.value].pc.Finished? ==>
            G.IsAcknowledged(s.stores[s.marks[m].consuming.value].pc) || room.invalidated)
    case Rethrown => before <= room.content
  }

  lemma HomeIsThere(s: State, i: StoreId)
    requires D.Inv(s) && i in s.stores
    ensures s.stores[i].room in s.rooms
  {
  }

  lemma AcknowledgedIsKept(s: State, i: StoreId)
    requires D.Inv(s) && i in s.stores && G.IsAcknowledged(s.stores[i].pc)
    ensures var Acknowledged(version, generation, snapshot) := s.stores[i].pc.outcome;
            && Kept(s.db, version, generation, snapshot) && G.Handed(s.stores[i].pc) == Some(snapshot)
            && s.stores[i].room in s.rooms && s.rooms[s.stores[i].room].phase.Loaded?
            && s.rooms[s.stores[i].room].phase.generation == generation
  {
    assert D.StoreOk(s.db, s.rooms[s.stores[i].room], s.stores[i]);
  }

  lemma Accounts(s: State, i: StoreId, before: set<Update>)
    requires D.Inv(s) && G.Inv(s) && i in s.stores && s.stores[i].pc.Finished? && s.stores[i].room in s.rooms
    requires s.stores[i].pc.outcome.Acknowledged? ==> before <= s.stores[i].pc.outcome.snapshot
    requires s.stores[i].pc.outcome.Rethrown? ==> before <= s.rooms[s.stores[i].room].content
    ensures AccountedFor(s, i, before)
  {
    match s.stores[i].pc.outcome
    case Acknowledged(_, _, _) =>
      AcknowledgedIsKept(s, i);
      hide D.Inv, G.Inv, Kept;
    case Behind(m) =>
      assert G.StoreOk(s.marks, i, s.stores[i]) && G.MarkOk(s.rooms, s.stores, m, s.marks[m]);
    case _ =>
  }

  // Whatever happened to the room, the database and the other replicas in between: once store `i` is over, and at any
  // later moment, the edits that were in its room when it began are durable in every row of that generation, or its
  // room is invalidated, or it gave way to the store that had taken the room's mark, and that one is accounted for as
  // well, or a technical failure went to the framework as an error and the room still holds the edits.
  lemma EveryEndIsAccountedFor(s0: State, actions: seq<Action>, k: nat, i: StoreId, before: set<Update>)
    requires Initial(s0) && k <= |actions| && i !in Run(s0, actions[..k]).stores
    requires i in Run(s0, actions).stores && Run(s0, actions).stores[i].pc.Finished?
    requires var r := Run(s0, actions).stores[i].room;
             r in Run(s0, actions[..k]).rooms && before == Run(s0, actions[..k]).rooms[r].content
    ensures Run(s0, actions).stores[i].room in Run(s0, actions).rooms
    ensures AccountedFor(Run(s0, actions), i, before)
    ensures Run(s0, actions).stores[i].pc.outcome.Rethrown? ==>
              exists n :: 0 <= n < |actions| && Fails(Run(s0, actions[..n]), actions[n], i)
  {
    var s := Run(s0, actions);
    D.RunOk(s0, actions);
    G.RunOk(s0, actions);
    HomeIsThere(s, i);
    hide *;
    match s.stores[i].pc.outcome
    case Acknowledged(_, _, _) =>
      AcknowledgedIsKept(s, i);
      HandsOverEverything(s0, actions, k, i);
      Accounts(s, i, before);
    case Abandoned => Accounts(s, i, before);
    case Behind(m) => Accounts(s, i, before);
    case Rethrown =>
      RethrowNeedsFailure(s0, actions, i);
      ContentStaysAlong(s0, actions, k, s.stores[i].room);
      Accounts(s, i, before);
  }

  lemma EditApplies(s: State, r: RoomId, updates: set<Update>)
    requires r in s.rooms && s.rooms[r].phase.Loaded?
    ensures var s' := Apply(s, InRoom(r, Edit(updates)));
            && r in s'.rooms && updates <= s'.rooms[r].content && s'.stores == s.stores
            && forall u | u in updates :: Tagged(s.rooms[r].phase.generation, u) in s'.db.authored
  {
  }

  // An edit that a loaded room accepts is in the room from then on, and every store of the room that has not yet handed
  // over its content and ends acknowledged, at once or after any number of retries, has made it durable for good.
  lemma EditsBecomeDurable(s0: State, actions: seq<Action>, k: nat, r: RoomId, updates: set<Update>, i: StoreId)
    requires Initial(s0) && k < |actions| && actions[k] == InRoom(r, Edit(updates))
    requires r in Run(s0, actions[..k]).rooms && Run(s0, actions[..k]).rooms[r].phase.Loaded?
    ensures r in Run(s0, actions).rooms && updates <= Run(s0, actions).rooms[r].content
    ensures i in Run(s0, actions).stores && Run(s0, actions).stores[i].room == r
            && G.IsAcknowledged(Run(s0, actions).stores[i].pc) && NotHanded(Run(s0, actions[..k]), i) ==>
              var Acknowledged(version, generation, snapshot) := Run(s0, actions).stores[i].pc.outcome;
              updates <= snapshot && Kept(Run(s0, actions).db, version, generation, snapshot)
  {
    D.RunOk(s0, actions);
    EditApplies(Run(s0, actions[..k]), r, updates);
    AfterStep(s0, actions, k);
    hide Run, Apply, D.Inv, Initial;
    ContentStaysAlong(s0, actions, k + 1, r);
    var end := Run(s0, actions);
    if i in end.stores && end.stores[i].room == r && G.IsAcknowledged(end.stores[i].pc)
       && NotHanded(Run(s0, actions[..k]), i) {
      AcknowledgedIsKept(end, i);
      hide Kept, NotHanded;
      HandsOverEverything(s0, actions, k + 1, i);
    }
  }

  // An invocation that rethrows leaves its room loaded, live and unmarked, so the framework's next store can begin.
  lemma RethrowLeavesRoomOpen(s: State, a: Action, s': State, i: StoreId)
    requires Reachable(s) && s' == Apply(s, a) && i in s.stores && i in s'.stores
    requires !s.stores[i].pc.Finished? && s'.stores[i].pc == Finished(Rethrown)
    ensures var r := s'.stores[i].room;
            && r in s'.rooms && !s'.rooms[r].invalidated && s'.rooms[r].mark.None? && s'.rooms[r].phase.Loaded?
            && forall j :: j !in s'.stores ==> j in Apply(s', StartStore(j, r)).stores
  {
    D.ReachableOk(s);
    D.ApplyOk(s, a);
    hide Apply;
    G.StepSummary(s, a, s', i);
    assert D.StoreOk(s'.db, s'.rooms[s'.stores[i].room], s'.stores[i]);
    forall j | j !in s'.stores ensures j in Apply(s', StartStore(j, s'.stores[i].room)).stores {
      Starts(s', j, s'.stores[i].room);
    }
  }

  lemma Starts(s: State, i: StoreId, r: RoomId)
    requires i !in s.stores && r in s.rooms && s.rooms[r].phase.Loaded? && !s.rooms[r].invalidated
    ensures i in Apply(s, StartStore(i, r)).stores
  {
  }

  // An acknowledged store leaves its room knowing exactly what became durable: the next store expects that version and
  // generation, and that state is what the room owes its peers.
  lemma AcknowledgementIsRemembered(s: State, a: Action, s': State, i: StoreId)
    requires s' == Apply(s, a) && i in s.stores && i in s'.stores
    requires !s.stores[i].pc.Finished? && G.IsAcknowledged(s'.stores[i].pc)
    ensures var Acknowledged(version, generation, snapshot) := s'.stores[i].pc.outcome; var r := s'.stores[i].room;
            && r in s'.rooms && s'.rooms[r].phase == Loaded(version, generation)
            && s'.rooms[r].persisted == Some(Fanout(s'.rooms[r].replica, generation, snapshot))
            && forall j :: j !in s'.stores ==>
                 var s'' := Apply(s', StartStore(j, r));
                 j in s''.stores && s''.stores[j].version == version && s''.stores[j].generation == generation
  {
    G.StepSummary(s, a, s', i);
    hide RoomAction, OpenGeneration;
    var r := s'.stores[i].room;
    assert a.step.ResumePersist? && s.stores[i].pc.PersistReturned?;
  }

  // ---------------------------------------------------------------------------------------------------------
  // A lost compare-and-swap
  // ---------------------------------------------------------------------------------------------------------

  // The version under which the content of a store became durable.
  function WrittenAs(pc: Pc): Option<nat> {
    match pc
    case PersistReturned(version, _, _) => Some(version)
    case Finished(Acknowledged(version, _, _)) => Some(version)
    case _ => None
  }

  // In segment `a` store `i` loses the compare-and-swap: somebody else moved the row.
  predicate Loses(s: State, a: Action, i: StoreId) {
    && a.InStore? && a.store == i && a.step.Commit? && i in s.stores && s.stores[i].pc.Persisting?
    && !CasHolds(s.db, s.stores[i].version, s.stores[i].generation)
  }

  lemma NothingWritten(s: State, e: StoreEvent, i: StoreId)
    requires i in s.stores && s.stores[i].room in s.rooms && !e.Commit? && !e.ResumePersist?
    ensures i in StoreAction(s, e, i).stores
    ensures var now := StoreAction(s, e, i).stores[i]; WrittenAs(now.pc).None? || now.pc == s.stores[i].pc
  {
  }

  lemma WrittenStep(s: State, e: StoreEvent, i: StoreId)
    requires i in s.stores && s.stores[i].room in s.rooms
    ensures i in StoreAction(s, e, i).stores
    ensures var before, now := s.stores[i], StoreAction(s, e, i).stores[i];
            || WrittenAs(now.pc).None? || WrittenAs(now.pc) == WrittenAs(before.pc)
            || (CasHolds(s.db, before.version, before.generation) && WrittenAs(now.pc).value > s.db.row.version)
  {
    if !e.Commit? && !e.ResumePersist? {
      NothingWritten(s, e, i);
      hide StoreAction;
    }
  }

  // The row only ever moves on: to another generation, or to another version of its own.
  predicate MovedOn(before: Row, row: Row) {
    before.generation < row.generation || (before.generation == row.generation && before.version <= row.version)
  }

  lemma RowStep(s: State, a: Action)
    ensures MovedOn(s.db.row, Apply(s, a).db.row)
  {
    if a.InStore? && a.store in s.stores && s.stores[a.store].room in s.rooms && !a.step.Commit? {
      D.StoresAuthorNothing(s, a.step, a.store);
      hide StoreAction;
    }
  }

  // Store `i` of generation `generation` writes behind the row it lost to, and only if that row was of its generation.
  predicate Behind(s: State, i: StoreId, lostTo: Row, generation: nat) {
    && i in s.stores && s.stores[i].generation == generation && MovedOn(lostTo, s.db.row) && generation <= lostTo.generation
    && var written := WrittenAs(s.stores[i].pc);
       written.Some? ==> lostTo.generation == generation && written.value > lostTo.version
  }

  lemma BehindStep(s: State, a: Action, i: StoreId, lostTo: Row, generation: nat)
    requires Behind(s, i, lostTo, generation)
    ensures Behind(Apply(s, a), i, lostTo, generation)
  {
    RowStep(s, a);
    G.StepSummary(s, a, Apply(s, a), i);
    if a.InStore? && a.store == i && s.stores[i].room in s.rooms { WrittenStep(s, a.step, i); }
    hide StoreAction, RoomAction, WrittenAs, OpenGeneration;
  }

  lemma LosingIsBehind(s: State, a: Action, i: StoreId)
    requires D.Inv(s) && Loses(s, a, i)
    ensures Behind(Apply(s, a), i, s.db.row, s.stores[i].generation)
    ensures s.stores[i].room in s.rooms && s.db.row.generation >= s.stores[i].generation
    ensures s.db.row.generation == s.stores[i].generation ==>
              var row := s.db.row; row.yjs.Some? && Durable(row.version, row.generation, row.yjs.value) in s.db.durable
    ensures Apply(s, a).rooms == s.rooms && Apply(s, a).stores[i].room == s.stores[i].room && NotHanded(Apply(s, a), i)
  {
    assert D.StoreOk(s.db, s.rooms[s.stores[i].room], s.stores[i]);
  }

  lemma {:induction false} StaysBehind(s: State, actions: seq<Action>, k: nat, i: StoreId, lostTo: Row, generation: nat)
    requires k <= |actions| && Behind(Run(s, actions[..k]), i, lostTo, generation)
    ensures Behind(Run(s, actions), i, lostTo, generation)
    decreases |actions|
  {
    hide Apply, Behind;
    Whole(actions);
    if k < |actions| {
      var n := |actions| - 1;
      assert actions[..n][..k] == actions[..k];
      StaysBehind(s, actions[..n], k, i, lostTo, generation);
      BehindStep(Run(s, actions[..n]), actions[n], i, lostTo, generation);
    }
  }

  lemma {:induction false} RoomStays(s: State, actions: seq<Action>, k: nat, i: StoreId)
    requires k <= |actions| && i in Run(s, actions[..k]).stores
    ensures i in Run(s, actions).stores && Run(s, actions).stores[i].room == Run(s, actions[..k]).stores[i].room
    decreases |actions|
  {
    hide Apply;
    Whole(actions);
    if k < |actions| {
      var n := |actions| - 1;
      assert actions[..n][..k] == actions[..k];
      RoomStays(s, actions[..n], k, i);
      G.StepSummary(Run(s, actions[..n]), actions[n], Run(s, actions), i);
    }
  }

  // Within a generation a durable state holds every durable state of an older version.
  lemma AcknowledgedHolds(s: State, i: StoreId, lostTo: Row)
    requires D.Inv(s) && i in s.stores && G.IsAcknowledged(s.stores[i].pc) && Behind(s, i, lostTo, s.stores[i].generation)
    requires lostTo.yjs.Some? && lostTo.generation == s.stores[i].generation
    requires Durable(lostTo.version, lostTo.generation, lostTo.yjs.value) in s.db.durable
    ensures lostTo.yjs.value <= s.stores[i].pc.outcome.snapshot
  {
    assert D.StoreOk(s.db, s.rooms[s.stores[i].room], s.stores[i]);
    var Acknowledged(version, generation, snapshot) := s.stores[i].pc.outcome;
    assert Durable(version, generation, snapshot) in s.db.durable;
  }

  lemma AcknowledgedAgrees(s: State, i: StoreId, lostTo: Row, generation: nat)
    requires D.Inv(s) && i in s.stores && G.IsAcknowledged(s.stores[i].pc) && Behind(s, i, lostTo, generation)
    ensures s.stores[i].pc.outcome.generation == generation == lostTo.generation == s.stores[i].generation
    ensures G.Handed(s.stores[i].pc) == Some(s.stores[i].pc.outcome.snapshot)
  {
    assert D.StoreOk(s.db, s.rooms[s.stores[i].room], s.stores[i]);
    hide D.Inv;
  }

  // Whenever an invocation that has lost a compare-and-swap ends acknowledged, whatever came in between, it lost to a
  // row of its own generation, and what it made durable holds the winner's updates and its own room's.
  lemma LostSwapIsMerged(s0: State, actions: seq<Action>, k: nat, i: StoreId)
    requires Initial(s0) && k < |actions| && Loses(Run(s0, actions[..k]), actions[k], i)
    requires i in Run(s0, actions).stores && G.IsAcknowledged(Run(s0, actions).stores[i].pc)
    ensures var t, st := Run(s0, actions[..k]), Run(s0, actions).stores[i];
            && t.db.row.generation == st.pc.outcome.generation && t.db.row.yjs.Some? && st.room in t.rooms
            && t.db.row.yjs.value + t.rooms[st.room].content <= st.pc.outcome.snapshot
  {
    var t, end := Run(s0, actions[..k]), Run(s0, actions);
    D.RunOk(s0, actions[..k]);
    D.RunOk(s0, actions);
    AfterStep(s0, actions, k);
    D.DurableGrowsAlong(s0, actions, k);
    LosingIsBehind(t, actions[k], i);
    hide *;
    StaysBehind(s0, actions, k + 1, i, t.db.row, t.stores[i].generation);
    RoomStays(s0, actions, k + 1, i);
    AcknowledgedAgrees(end, i, t.db.row, t.stores[i].generation);
    HandsOverEverything(s0, actions, k + 1, i);
    AcknowledgedHolds(end, i, t.db.row);
  }
}
