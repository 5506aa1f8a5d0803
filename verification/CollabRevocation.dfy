/**
 * What becomes of a room whose store must not go on, in every run of the collaboration protocol: a refused writer, an
 * untrustworthy drain, oversized content or a row of another generation ends the invocation with its room invalidated;
 * only a technical failure is rethrown; and a room is invalidated for one of these reasons only.
 */
module CollabRevocation {
  import opened Options
  import opened CollabModel
  import D = CollabDurability
  import G = CollabGating
  import O = CollabOutcomes

  // ---------------------------------------------------------------------------------------------------------
  // What ends an invocation
  // ---------------------------------------------------------------------------------------------------------

  // Live authorization cannot be asked, a captured queue failed or a connection is live when a drain is claimed, the
  // content is too large for the snapshot, the database or the reload, or the row is gone or of another generation.
  predicate Revokes(s: State, a: Action, i: StoreId) {
    && O.Unfinished(s, i) && a.InStore? && a.store == i
    && var st, room := s.stores[i], s.rooms[s.stores[i].room];
       || (st.pc.AwaitingAuthorization? && a.step == ResumeAuthorize(Threw))
       || (st.pc.AwaitingQueues? && a.step == QueuesSettled && st.pc.mark in s.marks && room.mark == Some(st.pc.mark)
           && (s.marks[st.pc.mark].ready == Some(false)
               || (s.marks[st.pc.mark].ready == Some(true) && room.connections != 0)))
       || (st.pc.Authorized? && a.step == ResumeAuthorized(TooLarge))
       || (st.pc.Attempting? && st.finalDrain && a.step == BeginAttempt(TooLarge))
       || (st.pc.Persisting? && a.step == PersistFails(true))
       || (st.pc.Reloading? && a.step == ReloadFails(true))
       || (st.pc.Reloading? && a.step == Reload && (!s.db.row.live || s.db.row.generation != st.generation))
  }

  // The invocation has been revoked, and only has to leave.
  predicate Doomed(st: Store) {
    match st.pc
    case ConsumeReplied(recheck, authorized, result) =>
      result.Failed? || result.Connected? || (recheck && !authorized && result.Unmarked?)
    case PersistThrew(error) => error.Oversize?
    case Reloaded(row) => !row.live || row.generation != st.generation
    case Finished(outcome) => outcome.Abandoned?
    case _ => false
  }

  // Live authorization has said no; all that can still help is the grant of a drained room.
  predicate Refused(st: Store) {
    || st.grant.Some? || Doomed(st)
    || match st.pc
       case AwaitingQueues(recheck, authorized, _) => recheck && !authorized
       case ConsumeReplied(_, _, result) => result.Busy?
       case Finished(outcome) => outcome.Behind?
       case _ => false
  }

  // Its persist call has failed for technical reasons.
  predicate Failing(st: Store) {
    st.pc == PersistThrew(Unavailable) || (st.pc.Finished? && (st.pc.outcome.Rethrown? || st.pc.outcome.Abandoned?))
  }

  lemma DoomedSegment(s: State, e: StoreEvent, i: StoreId)
    requires O.Unfinished(s, i) && Doomed(s.stores[i])
    ensures i in StoreAction(s, e, i).stores && Doomed(StoreAction(s, e, i).stores[i])
  {
  }

  lemma RefusedSegment(s: State, e: StoreEvent, i: StoreId)
    requires G.Inv(s) && O.Unfinished(s, i) && Refused(s.stores[i])
    ensures i in StoreAction(s, e, i).stores && Refused(StoreAction(s, e, i).stores[i])
  {
    if s.stores[i].grant.Some? {
      GrantStays(s, e, i);
    } else if Doomed(s.stores[i]) {
      DoomedSegment(s, e, i);
      hide StoreAction;
    }
    hide G.Inv;
  }

  lemma GrantStays(s: State, e: StoreEvent, i: StoreId)
    requires O.Unfinished(s, i) && s.stores[i].grant.Some?
    ensures i in StoreAction(s, e, i).stores && StoreAction(s, e, i).stores[i].grant.Some?
  {
    G.StoreSummary(s, e, i);
    hide StoreAction;
  }

  lemma FailingSegment(s: State, e: StoreEvent, i: StoreId)
    requires O.Unfinished(s, i) && Failing(s.stores[i])
    ensures i in StoreAction(s, e, i).stores && Failing(StoreAction(s, e, i).stores[i])
  {
  }

  lemma RevokingDooms(s: State, a: Action, i: StoreId)
    requires Revokes(s, a, i)
    ensures i in Apply(s, a).stores && Doomed(Apply(s, a).stores[i])
  {
  }

  // ---------------------------------------------------------------------------------------------------------
  // Single steps, and what stays
  // ---------------------------------------------------------------------------------------------------------

  lemma RefusalRefuses(s: State, a: Action, i: StoreId)
    requires G.Inv(s) && O.Unfinished(s, i) && s.stores[i].pc.AwaitingAuthorization?
    requires a.InStore? && a.store == i && a.step.ResumeAuthorize? && !a.step.answer.Granted?
    ensures i in Apply(s, a).stores && Refused(Apply(s, a).stores[i])
  {
    G.InvPcOk(s, i);
    hide G.Inv;
  }

  lemma FailureFails(s: State, a: Action, i: StoreId)
    requires O.Unfinished(s, i) && s.stores[i].pc.Persisting? && a.InStore? && a.store == i
    requires a.step == PersistFails(false)
             || (a.step.Commit? && !a.step.acknowledged && CasHolds(s.db, s.stores[i].version, s.stores[i].generation))
    ensures i in Apply(s, a).stores && Failing(Apply(s, a).stores[i])
  {
  }

  // A property of one invocation that its own segments keep stays through every run.
  ghost predicate KeptBySegments(holds: Store -> bool) {
    forall s: State, e, i | G.Inv(s) && O.Unfinished(s, i) && holds(s.stores[i]) ::
      i in StoreAction(s, e, i).stores && holds(StoreAction(s, e, i).stores[i])
  }

  lemma StepKeeps(s: State, a: Action, i: StoreId, holds: Store -> bool)
    requires G.Inv(s) && KeptBySegments(holds) && i in s.stores && holds(s.stores[i])
    ensures i in Apply(s, a).stores && holds(Apply(s, a).stores[i])
  {
    G.StepSummary(s, a, Apply(s, a), i);
    hide StoreAction, RoomAction, G.Inv;
    if a.InStore? && a.store == i && O.Unfinished(s, i) { assert holds(StoreAction(s, a.step, i).stores[i]); }
  }

  lemma {:induction false} RunKeeps(s0: State, actions: seq<Action>, k: nat, i: StoreId, holds: Store -> bool)
    requires Initial(s0) && KeptBySegments(holds) && k <= |actions|
    requires i in Run(s0, actions[..k]).stores && holds(Run(s0, actions[..k]).stores[i])
    ensures i in Run(s0, actions).stores && holds(Run(s0, actions).stores[i])
    decreases |actions|
  {
    hide Apply, KeptBySegments, Initial;
    O.Whole(actions);
    if k < |actions| {
      var n := |actions| - 1;
      assert actions[..n][..k] == actions[..k];
      RunKeeps(s0, actions[..n], k, i, holds);
      G.RunOk(s0, actions[..n]);
      StepKeeps(Run(s0, actions[..n]), actions[n], i, holds);
    }
  }

  lemma SegmentsKeep()
    ensures KeptBySegments(Doomed) && KeptBySegments(Refused) && KeptBySegments(Failing)
  {
    hide StoreAction, Doomed, Refused, Failing;
    forall s: State, e, i | G.Inv(s) && O.Unfinished(s, i) && Doomed(s.stores[i])
      ensures i in StoreAction(s, e, i).stores && Doomed(StoreAction(s, e, i).stores[i])
    {
      DoomedSegment(s, e, i);
    }
    forall s: State, e, i | G.Inv(s) && O.Unfinished(s, i) && Refused(s.stores[i])
      ensures i in StoreAction(s, e, i).stores && Refused(StoreAction(s, e, i).stores[i])
    {
      RefusedSegment(s, e, i);
    }
    forall s: State, e, i | G.Inv(s) && O.Unfinished(s, i) && Failing(s.stores[i])
      ensures i in StoreAction(s, e, i).stores && Failing(StoreAction(s, e, i).stores[i])
    {
      FailingSegment(s, e, i);
    }
  }

  // ---------------------------------------------------------------------------------------------------------
  // Results over whole runs
  // ---------------------------------------------------------------------------------------------------------

  // The invocation is over and its room will never be stored again.
  ghost predicate LostItsRoom(s: State, i: StoreId) {
    && i in s.stores && s.stores[i].pc == Finished(Abandoned)
    && s.stores[i].room in s.rooms && s.rooms[s.stores[i].room].invalidated
  }

  // A writer whom live authorization refuses, or about whom it cannot be asked, never stores the room, and the room is
  // lost with him, whatever happens before the invocation is over. The exceptions are the one-shot grant of a drained
  // room, and a room whose drain another store has taken.
  lemma RefusedWriterLosesTheRoom(s0: State, actions: seq<Action>, k: nat, i: StoreId)
    requires Initial(s0) && k < |actions| && O.Unfinished(Run(s0, actions[..k]), i)
    requires Run(s0, actions[..k]).stores[i].pc.AwaitingAuthorization?
    requires actions[k].InStore? && actions[k].store == i
    requires actions[k].step.ResumeAuthorize? && !actions[k].step.answer.Granted?
    ensures i in Run(s0, actions).stores
    ensures Run(s0, actions).stores[i].pc.Finished? && Run(s0, actions).stores[i].grant.None? ==>
              Run(s0, actions).stores[i].pc.outcome.Behind? || LostItsRoom(Run(s0, actions), i)
  {
    G.RunOk(s0, actions[..k]);
    RefusalRefuses(Run(s0, actions[..k]), actions[k], i);
    O.AfterStep(s0, actions, k);
    SegmentsKeep();
    hide Run, Apply, KeptBySegments;
    RunKeeps(s0, actions, k + 1, i, Refused);
    G.RunOk(s0, actions);
  }

  // Every other reason to revoke a room is as final, grant or not.
  lemma RevocationIsFinal(s0: State, actions: seq<Action>, k: nat, i: StoreId)
    requires Initial(s0) && k < |actions| && Revokes(Run(s0, actions[..k]), actions[k], i)
    ensures i in Run(s0, actions).stores
    ensures Run(s0, actions).stores[i].pc.Finished? ==> LostItsRoom(Run(s0, actions), i)
  {
    RevokingDooms(Run(s0, actions[..k]), actions[k], i);
    O.AfterStep(s0, actions, k);
    SegmentsKeep();
    hide Run, Apply, KeptBySegments, Revokes;
    RunKeeps(s0, actions, k + 1, i, Doomed);
    G.RunOk(s0, actions);
  }

  // A persist call that fails or is not acknowledged never counts as a success: the error is rethrown, or the room is
  // lost.
  lemma FailedCallIsNoSuccess(s0: State, actions: seq<Action>, k: nat, i: StoreId)
    requires Initial(s0) && k < |actions| && O.Unfinished(Run(s0, actions[..k]), i)
    requires Run(s0, actions[..k]).stores[i].pc.Persisting? && actions[k].InStore? && actions[k].store == i
    requires var s, e := Run(s0, actions[..k]), actions[k].step;
             e == PersistFails(false)
             || (e.Commit? && !e.acknowledged && CasHolds(s.db, s.stores[i].version, s.stores[i].generation))
    ensures i in Run(s0, actions).stores
    ensures Run(s0, actions).stores[i].pc.Finished? ==>
              Run(s0, actions).stores[i].pc.outcome.Rethrown? || LostItsRoom(Run(s0, actions), i)
  {
    FailureFails(Run(s0, actions[..k]), actions[k], i);
    O.AfterStep(s0, actions, k);
    SegmentsKeep();
    hide Run, Apply, KeptBySegments;
    RunKeeps(s0, actions, k + 1, i, Failing);
    G.RunOk(s0, actions);
  }

  // The invocation runs under the grant of a drained room.
  predicate Drains(st: Store) {
    st.finalDrain || (st.pc.Authorized? && st.pc.owned)
  }

  // What may invalidate room `r`: the content event, a store that cannot be set up for a marked room, a revoked or
  // refused store, or a technical failure of a store whose room is marked or drained by it.
  predicate Invalidates(s: State, a: Action, r: RoomId) {
    && r in s.rooms
    && (|| a == InRoom(r, Invalidate)
        || (a == InRoom(r, StoreSetupFails) && s.rooms[r].mark.Some?)
        || (a.InStore? && O.Unfinished(s, a.store) && s.stores[a.store].room == r
            && (|| Doomed(s.stores[a.store]) || Revokes(s, a, a.store)
                || (O.Fails(s, a, a.store) && (Drains(s.stores[a.store]) || s.rooms[r].mark.Some?)))))
  }

  lemma InvalidatingSegment(s: State, e: StoreEvent, i: StoreId)
    requires O.Unfinished(s, i) && !s.rooms[s.stores[i].room].invalidated
    requires s.stores[i].room in StoreAction(s, e, i).rooms && StoreAction(s, e, i).rooms[s.stores[i].room].invalidated
    requires s.stores[i].pc.PersistReturned? ==> s.stores[i].pc.generation == s.stores[i].generation
    ensures Invalidates(s, InStore(i, e), s.stores[i].room)
  {
  }

  lemma InvalidatingEvent(s: State, e: RoomEvent, r: RoomId)
    requires r in s.rooms && !s.rooms[r].invalidated
    requires r in RoomAction(s, e, r).rooms && RoomAction(s, e, r).rooms[r].invalidated
    ensures Invalidates(s, InRoom(r, e), r)
  {
  }

  lemma InvalidatingStep(s: State, a: Action, r: RoomId)
    requires D.Inv(s) && r in s.rooms && !s.rooms[r].invalidated && r in Apply(s, a).rooms && Apply(s, a).rooms[r].invalidated
    ensures Invalidates(s, a, r)
  {
    if a.InStore? && a.store in s.stores && s.stores[a.store].room in s.rooms {
      var i := a.store;
      assert D.StoreOk(s.db, s.rooms[s.stores[i].room], s.stores[i]);
      G.StoreSummary(s, a.step, i);
      if s.stores[i].pc.Finished? { G.FinishedStays(s, a.step, i); }
      hide StoreAction, D.Inv, D.StoreOk, Invalidates;
      if s.stores[i].room == r { InvalidatingSegment(s, a.step, i); }
    } else if a.InRoom? && a.room in s.rooms {
      G.RoomKeepsInvalidation(s, a.event, a.room);
      hide RoomAction, D.Inv, Invalidates;
      if a.room == r { InvalidatingEvent(s, a.event, r); }
    }
  }

  lemma BornLive(s: State, a: Action, r: RoomId)
    requires r !in s.rooms && r in Apply(s, a).rooms
    ensures !Apply(s, a).rooms[r].invalidated
  {
    hide StoreAction, RoomAction;
    if a.InStore? && a.store in s.stores && s.stores[a.store].room in s.rooms { G.StoreSummary(s, a.step, a.store); }
    if a.InRoom? && a.room in s.rooms { G.RoomKeepsInvalidation(s, a.event, a.room); }
  }

  // No room is revoked without a cause.
  lemma InvalidationNeedsCause(s0: State, actions: seq<Action>, r: RoomId)
    requires Initial(s0) && r in Run(s0, actions).rooms && Run(s0, actions).rooms[r].invalidated
    ensures exists k :: 0 <= k < |actions| && Invalidates(Run(s0, actions[..k]), actions[k], r)
  {
    var k := G.FirstMoment(s0, actions, (s: State) => r in s.rooms && s.rooms[r].invalidated);
    D.RunOk(s0, actions[..k]);
    hide Run, Apply, D.Inv, Invalidates;
    if r in Run(s0, actions[..k]).rooms { InvalidatingStep(Run(s0, actions[..k]), actions[k], r); }
    else { BornLive(Run(s0, actions[..k]), actions[k], r); }
  }

  lemma EventInvalidates(s: State, a: Action, r: RoomId)
    requires r in s.rooms
    requires a == InRoom(r, Invalidate) || (a == InRoom(r, StoreSetupFails) && s.rooms[r].mark.Some?)
    ensures r in Apply(s, a).rooms && Apply(s, a).rooms[r].invalidated && Apply(s, a).rooms[r].mark.None?
  {
  }

  // A content event, or a store that cannot be set up for a marked room, takes effect for good: the room is invalidated
  // at every later moment.
  lemma InvalidationTakesEffect(s0: State, actions: seq<Action>, k: nat, r: RoomId)
    requires k < |actions| && r in Run(s0, actions[..k]).rooms
    requires actions[k] == InRoom(r, Invalidate)
             || (actions[k] == InRoom(r, StoreSetupFails) && Run(s0, actions[..k]).rooms[r].mark.Some?)
    ensures r in Run(s0, actions).rooms && Run(s0, actions).rooms[r].invalidated
  {
    EventInvalidates(Run(s0, actions[..k]), actions[k], r);
    O.AfterStep(s0, actions, k);
    hide Run, Apply;
    G.InvalidationIsPermanent(s0, actions, k + 1, r);
  }

  // Over an invalidated room an invocation can only give way or give up.
  predicate GivesUp(st: Store) {
    st.pc.Finished? ==> st.pc.outcome.Abandoned? || st.pc.outcome.Behind?
  }

  lemma GivingUpSegment(s: State, e: StoreEvent, i: StoreId)
    requires O.Unfinished(s, i) && s.rooms[s.stores[i].room].invalidated
    ensures i in StoreAction(s, e, i).stores && GivesUp(StoreAction(s, e, i).stores[i])
  {
  }

  lemma GivingUpStep(s: State, a: Action, i: StoreId)
    requires i in s.stores && s.stores[i].room in s.rooms && s.rooms[s.stores[i].room].invalidated && GivesUp(s.stores[i])
    ensures i in Apply(s, a).stores && Apply(s, a).stores[i].room == s.stores[i].room && GivesUp(Apply(s, a).stores[i])
  {
    G.StepSummary(s, a, Apply(s, a), i);
    hide StoreAction, RoomAction;
    if a.InStore? && a.store == i && O.Unfinished(s, i) {
      hide GivesUp;
      GivingUpSegment(s, a.step, i);
    }
  }

  // An invocation that is under way when its room is invalidated is never acknowledged and never rethrows.
  lemma {:induction false} InvalidationEndsStores(s0: State, actions: seq<Action>, k: nat, i: StoreId)
    requires Initial(s0) && k <= |actions| && O.Unfinished(Run(s0, actions[..k]), i)
    requires Run(s0, actions[..k]).rooms[Run(s0, actions[..k]).stores[i].room].invalidated
    ensures i in Run(s0, actions).stores && Run(s0, actions).stores[i].room == Run(s0, actions[..k]).stores[i].room
    ensures GivesUp(Run(s0, actions).stores[i])
    decreases |actions|
  {
    hide Apply;
    O.Whole(actions);
    if k < |actions| {
      var n := |actions| - 1;
      assert actions[..n][..k] == actions[..k];
      InvalidationEndsStores(s0, actions[..n], k, i);
      G.InvalidationIsPermanent(s0, actions[..n], k, Run(s0, actions[..k]).stores[i].room);
      hide GivesUp;
      GivingUpStep(Run(s0, actions[..n]), actions[n], i);
    }
  }

  // ---------------------------------------------------------------------------------------------------------
  // Marks that appear while authorization is asked
  // ---------------------------------------------------------------------------------------------------------

  // The invocation will not persist without the grant of the drain.
  ghost predicate Waits(s: State, i: StoreId) {
    && i in s.stores && s.stores[i].room in s.rooms
    && var st := s.stores[i];
       || st.grant.Some?
       || (st.pc.AwaitingQueues? && st.pc.recheck)
       || (st.pc.ConsumeReplied? && (st.pc.result.Busy? || st.pc.result.Failed? || st.pc.result.Connected?))
       || (st.pc.Finished? && !st.pc.outcome.Acknowledged?)
       || (s.rooms[st.room].invalidated && G.Handed(st.pc).None?)
  }

  lemma WaitingSegment(s: State, e: StoreEvent, i: StoreId)
    requires G.Inv(s) && Waits(s, i) && !s.stores[i].pc.Finished?
    ensures Waits(StoreAction(s, e, i), i)
  {
    G.StoreSummary(s, e, i);
    if s.rooms[s.stores[i].room].invalidated && G.Handed(s.stores[i].pc).None? {
      hide StoreAction, G.Inv;
    } else if s.stores[i].grant.Some? {
      hide StoreAction, G.Inv;
    } else if s.stores[i].pc.AwaitingQueues? {
      assert G.StoreOk(s.marks, i, s.stores[i]);
      assert G.MarkOk(s.rooms, s.stores, s.stores[i].pc.mark, s.marks[s.stores[i].pc.mark]);
    }
  }

  lemma WaitingStep(s: State, a: Action, i: StoreId)
    requires G.Inv(s) && Waits(s, i)
    ensures Waits(Apply(s, a), i)
  {
    var s' := Apply(s, a);
    G.StepSummary(s, a, s', i);
    if s.rooms[s.stores[i].room].invalidated { G.InvalidationStays(s, a, s', s.stores[i].room); }
    O.ContentStays(s, a, s.stores[i].room);
    hide StoreAction, RoomAction, G.Inv;
    if a.InStore? && a.store == i && !s.stores[i].pc.Finished? {
      hide Waits;
      WaitingSegment(s, a.step, i);
    }
  }

  lemma {:induction false} WaitingStays(s0: State, actions: seq<Action>, k: nat, i: StoreId)
    requires Initial(s0) && k <= |actions| && Waits(Run(s0, actions[..k]), i)
    ensures Waits(Run(s0, actions), i)
    decreases |actions|
  {
    hide Apply, Waits, Initial;
    O.Whole(actions);
    if k < |actions| {
      var n := |actions| - 1;
      assert actions[..n][..k] == actions[..k];
      WaitingStays(s0, actions[..n], k, i);
      G.RunOk(s0, actions[..n]);
      WaitingStep(Run(s0, actions[..n]), actions[n], i);
    }
  }

  lemma MarkedWaits(s: State, a: Action, i: StoreId)
    requires G.Inv(s) && O.Unfinished(s, i) && s.stores[i].pc.AwaitingAuthorization?
    requires s.rooms[s.stores[i].room].mark.Some? && a.InStore? && a.store == i && a.step.ResumeAuthorize?
    ensures Waits(Apply(s, a), i)
  {
    G.InvPcOk(s, i);
    hide G.Inv, G.PcOk;
  }

  // A store whose room is marked by the time its authorization is answered, whatever the answer, never persists the
  // room in that attempt or later unless it holds the grant of the drain, so unless every captured queue has drained.
  lemma MarkedStoresWait(s0: State, actions: seq<Action>, k: nat, i: StoreId)
    requires Initial(s0) && k < |actions| && O.Unfinished(Run(s0, actions[..k]), i)
    requires var s := Run(s0, actions[..k]); s.stores[i].pc.AwaitingAuthorization? && s.rooms[s.stores[i].room].mark.Some?
    requires actions[k].InStore? && actions[k].store == i && actions[k].step.ResumeAuthorize?
    ensures i in Run(s0, actions).stores
    ensures G.Handed(Run(s0, actions).stores[i].pc).Some? ==> Run(s0, actions).stores[i].grant.Some?
  {
    G.RunOk(s0, actions[..k]);
    MarkedWaits(Run(s0, actions[..k]), actions[k], i);
    O.AfterStep(s0, actions, k);
    hide Run, Apply;
    WaitingStays(s0, actions, k + 1, i);
  }
}
