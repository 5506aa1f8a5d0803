/**
 * Who may persist a room, and what becomes of the one-shot final-drain grant, in every run of the collaboration
 * protocol.
 */
module CollabGating {
  import opened Options
  import opened CollabModel

  // ---------------------------------------------------------------------------------------------------------
  // The invariant
  // ---------------------------------------------------------------------------------------------------------

  // What a store invocation knows at each await.
  ghost predicate PcOk(st: Store) {
    && (st.pc.Finished? || st.attempt < MAX_STORE_ATTEMPTS)
    && match st.pc
       case AwaitingQueues(recheck, authorized, m) =>
         !st.finalDrain && st.grant.None? && (authorized ==> st.authorizedAt == Some(st.attempt))
       case ConsumeReplied(recheck, authorized, result) =>
         !st.finalDrain && (result.Consumed? <==> st.grant.Some?) && (authorized ==> st.authorizedAt == Some(st.attempt))
       case AwaitingAuthorization(drain) =>
         !st.finalDrain && (drain.Unmarked? || drain.Consumed?) && (drain.Consumed? <==> st.grant.Some?)
       case Authorized(owned) =>
         (st.finalDrain ==> owned) && (owned <==> st.grant.Some?) && (!owned ==> st.authorizedAt == Some(st.attempt))
       case Attempting => st.finalDrain <==> st.grant.Some?
       case Finished(outcome) => st.finalDrain ==> st.grant.Some?
       case _ => (st.finalDrain <==> st.grant.Some?) && (st.finalDrain || st.authorizedAt == Some(st.attempt))
  }

  // The mark that sent store `i` away was taken by another store of the room.
  ghost predicate TakenByAnother(marks: map<MarkId, Mark>, i: StoreId, r: RoomId, m: MarkId) {
    m in marks && marks[m].room == r && marks[m].consuming.Some? && marks[m].consuming != Some(i)
  }

  ghost predicate StoreOk(marks: map<MarkId, Mark>, i: StoreId, st: Store) {
    && PcOk(st)
    && (st.pc.ConsumeReplied? && st.pc.result.Busy? ==> TakenByAnother(marks, i, st.room, st.pc.result.mark))
    && (st.pc.Finished? && st.pc.outcome.Behind? ==> TakenByAnother(marks, i, st.room, st.pc.outcome.mark))
    && (st.grant.Some? ==>
          st.grant.value in marks && marks[st.grant.value].consuming == Some(i) && marks[st.grant.value].granted)
    && (st.pc.AwaitingQueues? ==>
          st.pc.mark in marks && marks[st.pc.mark].consuming == Some(i) && !marks[st.pc.mark].granted)
  }

  // The store that took a registered mark still has to answer for it, or has completed it.
  ghost predicate Answers(st: Store, m: MarkId, mark: Mark) {
    match st.pc
    case AwaitingQueues(recheck, authorized, m') => m' == m
    case ConsumeReplied(recheck, authorized, result) =>
      result.Failed? || result.Connected? || (result.Consumed? && st.grant == Some(m))
    case Finished(outcome) => st.grant == Some(m) && mark.completed
    case _ => st.grant == Some(m)
  }

  predicate IsAcknowledged(pc: Pc) {
    pc.Finished? && pc.outcome.Acknowledged?
  }

  ghost predicate MarkOk(rooms: map<RoomId, Room>, stores: map<StoreId, Store>, m: MarkId, mark: Mark) {
    && mark.room in rooms
    && (rooms[mark.room].mark == Some(m) || rooms[mark.room].invalidated)
    && (mark.granted || mark.completed ==> mark.consuming.Some?)
    && (mark.consuming.Some? ==>
          && mark.consuming.value in stores
          && stores[mark.consuming.value].room == mark.room
          && (mark.granted <==> stores[mark.consuming.value].grant == Some(m))
          && (mark.completed <==> mark.granted && IsAcknowledged(stores[mark.consuming.value].pc))
          && (rooms[mark.room].mark == Some(m) ==> Answers(stores[mark.consuming.value], m, mark)))
  }

  ghost predicate Linked(rooms: map<RoomId, Room>, stores: map<StoreId, Store>, marks: map<MarkId, Mark>) {
    && (forall r | r in rooms && rooms[r].mark.Some? ::
          rooms[r].mark.value in marks && marks[rooms[r].mark.value].room == r)
    && (forall i | i in stores :: stores[i].room in rooms && StoreOk(marks, i, stores[i]))
    && (forall i | i in stores && stores[i].pc == Finished(Abandoned) :: rooms[stores[i].room].invalidated)
    && (forall m | m in marks :: MarkOk(rooms, stores, m, marks[m]))
  }

  ghost predicate Inv(s: State) {
    Linked(s.rooms, s.stores, s.marks)
  }

  // ---------------------------------------------------------------------------------------------------------
  // Local steps
  // ---------------------------------------------------------------------------------------------------------

  // A room may forget its mark only together with its right to be stored.
  lemma RoomStep(s: State, r: RoomId, room: Room)
    requires Inv(s) && r in s.rooms
    requires room.mark == s.rooms[r].mark || (room.mark.None? && room.invalidated)
    requires s.rooms[r].invalidated ==> room.invalidated
    ensures Linked(s.rooms[r := room], s.stores, s.marks)
  {
    forall m | m in s.marks ensures MarkOk(s.rooms[r := room], s.stores, m, s.marks[m]) {
      assert MarkOk(s.rooms, s.stores, m, s.marks[m]);
    }
  }

  lemma StoreStep(s: State, i: StoreId, st: Store)
    requires Inv(s) && i in s.stores && StoreOk(s.marks, i, st)
    requires st.room == s.stores[i].room && st.grant == s.stores[i].grant
    requires !s.stores[i].pc.Finished? && (IsAcknowledged(st.pc) ==> st.grant.None?)
    requires st.pc == Finished(Abandoned) ==> s.rooms[st.room].invalidated
    requires forall m | m in s.marks && s.marks[m].consuming == Some(i) && s.rooms[st.room].mark == Some(m) ::
               Answers(st, m, s.marks[m])
    ensures Linked(s.rooms, s.stores[i := st], s.marks)
  {
    forall m | m in s.marks ensures MarkOk(s.rooms, s.stores[i := st], m, s.marks[m]) {
      assert MarkOk(s.rooms, s.stores, m, s.marks[m]);
    }
  }

  lemma RetireOk(s: State, r: RoomId, ownsGrant: bool)
    requires Inv(s) && r in s.rooms
    ensures Inv(InvalidateRoom(s, r)) && Inv(RetireFailedStore(s, r, ownsGrant))
    ensures s.rooms[r].invalidated ==> Inv(Discard(s, r))
  {
    RoomStep(s, r, s.rooms[r].(mark := None, invalidated := true));
    if s.rooms[r].invalidated { RoomStep(s, r, s.rooms[r].(mark := None)); }
  }

  // Once the room is unmarked there is nothing left to answer for.
  lemma FinishOk(s: State, i: StoreId, outcome: StoreOutcome)
    requires Inv(s) && i in s.stores && !s.stores[i].pc.Finished? && (s.stores[i].finalDrain ==> s.stores[i].grant.Some?)
    requires var mark := s.rooms[s.stores[i].room].mark;
             mark.Some? ==> s.marks[mark.value].consuming != Some(i)
    requires match outcome
             case Acknowledged(_, _, _) => s.stores[i].grant.None?
             case Abandoned => s.rooms[s.stores[i].room].invalidated
             case Behind(m) => TakenByAnother(s.marks, i, s.stores[i].room, m)
             case Rethrown => true
    ensures Inv(Goto(s, i, Finished(outcome)))
  {
    StoreStep(s, i, s.stores[i].(pc := Finished(outcome)));
  }

  // A store that holds no grant and waits for no queue has nothing registered to answer for.
  lemma NothingTaken(s: State, i: StoreId)
    requires Inv(s) && i in s.stores
    requires s.stores[i].grant.None? && !s.stores[i].pc.AwaitingQueues? && !s.stores[i].pc.Finished?
    requires s.stores[i].pc.ConsumeReplied? ==> s.stores[i].pc.result.Unmarked? || s.stores[i].pc.result.Busy?
    ensures forall m | m in s.marks && s.rooms[s.stores[i].room].mark == Some(m) :: s.marks[m].consuming != Some(i)
  {
    forall m | m in s.marks && s.rooms[s.stores[i].room].mark == Some(m) ensures s.marks[m].consuming != Some(i) {
      assert MarkOk(s.rooms, s.stores, m, s.marks[m]);
    }
  }

  lemma LeaveDeniedOk(s: State, i: StoreId)
    requires Inv(s) && i in s.stores && !s.stores[i].pc.Finished?
    ensures Inv(LeaveDenied(s, i))
  {
    RetireOk(s, s.stores[i].room, false);
    FinishOk(InvalidateRoom(s, s.stores[i].room), i, Abandoned);
  }

  lemma LeaveInvalidatedOk(s: State, i: StoreId)
    requires Inv(s) && i in s.stores && s.rooms[s.stores[i].room].invalidated
    requires s.stores[i].finalDrain <==> s.stores[i].grant.Some?
    requires !s.stores[i].pc.AwaitingQueues? && !s.stores[i].pc.ConsumeReplied? && !s.stores[i].pc.Finished?
    ensures Inv(LeaveInvalidated(s, i))
  {
    RetireOk(s, s.stores[i].room, false);
    if s.stores[i].finalDrain { FinishOk(Discard(s, s.stores[i].room), i, Abandoned); }
    else { NothingTaken(s, i); FinishOk(s, i, Abandoned); }
  }

  lemma LeaveFailedOk(s: State, i: StoreId)
    requires Inv(s) && i in s.stores && !s.stores[i].pc.Finished?
    ensures Inv(LeaveFailed(s, i))
  {
    var st := s.stores[i];
    RetireOk(s, st.room, st.finalDrain);
    FinishOk(RetireFailedStore(s, st.room, st.finalDrain), i,
             if Retires(s.rooms[st.room], st.finalDrain) then Abandoned else Rethrown);
  }

  // ---------------------------------------------------------------------------------------------------------
  // Every action keeps the invariant
  // ---------------------------------------------------------------------------------------------------------

  // Installing the consuming promise of a free mark.
  lemma TakeOk(s: State, i: StoreId, m: MarkId, st: Store)
    requires Inv(s) && i in s.stores && m in s.marks && s.rooms[s.stores[i].room].mark == Some(m)
    requires s.marks[m].consuming.None?
    requires forall m' | m' in s.marks && s.rooms[s.stores[i].room].mark == Some(m') :: s.marks[m'].consuming != Some(i)
    requires st.pc.AwaitingQueues? && st.pc.mark == m && PcOk(st)
    requires st.room == s.stores[i].room && st.grant.None? && s.stores[i].grant.None?
    ensures Linked(s.rooms, s.stores[i := st], s.marks[m := s.marks[m].(consuming := Some(i))])
  {
    var marks := s.marks[m := s.marks[m].(consuming := Some(i))];
    forall m' | m' in marks ensures MarkOk(s.rooms, s.stores[i := st], m', marks[m']) {
      assert MarkOk(s.rooms, s.stores, m', s.marks[m']);
    }
  }

  lemma ConsumeOk(s: State, i: StoreId, recheck: bool, authorized: bool)
    requires Inv(s) && i in s.stores
    requires var st := s.stores[i];
             st.grant.None? && !st.finalDrain && st.attempt < MAX_STORE_ATTEMPTS
             && (authorized ==> st.authorizedAt == Some(st.attempt))
    requires s.stores[i].pc.Attempting? || s.stores[i].pc.AwaitingAuthorization?
    ensures Inv(Consume(s, i, recheck, authorized))
  {
    var st := s.stores[i];
    var mark := s.rooms[st.room].mark;
    if mark.None? {
      MoveOn(s, i, st.(pc := ConsumeReplied(recheck, authorized, Unmarked)));
    } else if s.marks[mark.value].consuming.Some? || s.marks[mark.value].granted {
      NothingTaken(s, i);
      assert MarkOk(s.rooms, s.stores, mark.value, s.marks[mark.value]);
      MoveOn(s, i, st.(pc := ConsumeReplied(recheck, authorized, Busy(mark.value))));
    } else {
      NothingTaken(s, i);
      TakeOk(s, i, mark.value, st.(pc := AwaitingQueues(recheck, authorized, mark.value)));
    }
  }

  // Turning the taken mark into a grant.
  lemma GrantOk(s: State, i: StoreId, m: MarkId, st: Store)
    requires Inv(s) && i in s.stores && s.stores[i].pc.AwaitingQueues? && s.stores[i].pc.mark == m
    requires s.rooms[s.stores[i].room].mark == Some(m)
    requires st == s.stores[i].(pc := ConsumeReplied(s.stores[i].pc.recheck, s.stores[i].pc.authorized, Consumed), grant := Some(m))
    ensures Linked(s.rooms, s.stores[i := st], s.marks[m := s.marks[m].(granted := true)])
  {
    var marks := s.marks[m := s.marks[m].(granted := true)];
    assert StoreOk(s.marks, i, s.stores[i]);
    forall m' | m' in marks ensures MarkOk(s.rooms, s.stores[i := st], m', marks[m']) {
      assert MarkOk(s.rooms, s.stores, m', s.marks[m']);
    }
  }

  lemma SettleConsumeOk(s: State, i: StoreId)
    requires Inv(s) && i in s.stores && s.stores[i].pc.AwaitingQueues?
    ensures Inv(SettleConsume(s, i))
  {
    var st := s.stores[i];
    var m := st.pc.mark;
    if s.marks[m].ready.Some? {
      if s.rooms[st.room].mark != Some(m) {
        Refuse(s, i, Unmarked);
      } else if !s.marks[m].ready.value {
        Refuse(s, i, Failed);
      } else if s.rooms[st.room].connections != 0 {
        Refuse(s, i, Connected);
      } else {
        GrantOk(s, i, m, st.(pc := ConsumeReplied(st.pc.recheck, st.pc.authorized, Consumed), grant := Some(m)));
      }
    }
  }

  lemma Refuse(s: State, i: StoreId, result: ConsumeResult)
    requires Inv(s) && i in s.stores && s.stores[i].pc.AwaitingQueues?
    requires result.Failed? || result.Connected?
             || (result.Unmarked? && s.rooms[s.stores[i].room].mark != Some(s.stores[i].pc.mark))
    ensures Inv(Goto(s, i, ConsumeReplied(s.stores[i].pc.recheck, s.stores[i].pc.authorized, result)))
  {
    var st := s.stores[i].(pc := ConsumeReplied(s.stores[i].pc.recheck, s.stores[i].pc.authorized, result));
    forall m | m in s.marks && s.marks[m].consuming == Some(i) && s.rooms[st.room].mark == Some(m)
      ensures Answers(st, m, s.marks[m])
    {
      assert MarkOk(s.rooms, s.stores, m, s.marks[m]);
    }
    StoreStep(s, i, st);
  }

  // Moving on without a change of grant keeps answering for the marks taken so far.
  lemma MoveOn(s: State, i: StoreId, st: Store)
    requires Inv(s) && i in s.stores && StoreOk(s.marks, i, st)
    requires st.room == s.stores[i].room && st.grant == s.stores[i].grant
    requires !s.stores[i].pc.AwaitingQueues? && !s.stores[i].pc.Finished? && !st.pc.AwaitingQueues? && !st.pc.Finished?
    requires s.stores[i].pc.ConsumeReplied? ==>
               s.stores[i].pc.result.Unmarked? || s.stores[i].pc.result.Busy? || s.stores[i].pc.result.Consumed?
    requires st.pc.ConsumeReplied? ==> st.pc.result.Unmarked? || st.pc.result.Busy? || st.pc.result.Consumed?
    requires st.pc.ConsumeReplied? && st.grant.Some? ==> st.pc.result.Consumed?
    ensures Linked(s.rooms, s.stores[i := st], s.marks)
  {
    forall m | m in s.marks && s.marks[m].consuming == Some(i) && s.rooms[st.room].mark == Some(m)
      ensures Answers(st, m, s.marks[m])
    {
      assert MarkOk(s.rooms, s.stores, m, s.marks[m]);
    }
    StoreStep(s, i, st);
  }

  lemma SnapshotOk(s: State, i: StoreId, outcome: SnapshotOutcome)
    requires Inv(s) && i in s.stores && (s.stores[i].pc.Attempting? || s.stores[i].pc.Authorized?)
    requires s.stores[i].finalDrain <==> s.stores[i].grant.Some?
    requires s.stores[i].finalDrain || s.stores[i].authorizedAt == Some(s.stores[i].attempt)
    ensures Inv(SnapshotAndPersist(s, i, outcome))
  {
    if s.rooms[s.stores[i].room].invalidated { LeaveInvalidatedOk(s, i); }
    else {
      match outcome
      case Fits => MoveOn(s, i, s.stores[i].(pc := Persisting(s.rooms[s.stores[i].room].content)));
      case TooLarge => LeaveDeniedOk(s, i);
      case Malformed => LeaveFailedOk(s, i);
    }
  }

  lemma BeginAttemptOk(s: State, i: StoreId, outcome: SnapshotOutcome)
    requires Inv(s) && i in s.stores && s.stores[i].pc.Attempting?
    ensures Inv(BeginStoreAttempt(s, i, outcome))
  {
    var st := s.stores[i];
    if s.rooms[st.room].invalidated { LeaveInvalidatedOk(s, i); }
    else if st.finalDrain { SnapshotOk(s, i, outcome); }
    else if s.rooms[st.room].mark.Some? { ConsumeOk(s, i, false, false); }
    else { MoveOn(s, i, st.(pc := AwaitingAuthorization(Unmarked))); }
  }

  lemma ResumeConsumeOk(s: State, i: StoreId)
    requires Inv(s) && i in s.stores && s.stores[i].pc.ConsumeReplied?
    ensures Inv(ResumeStoreConsume(s, i))
  {
    var st := s.stores[i];
    var pc := st.pc;
    if pc.result.Busy? { NothingTaken(s, i); FinishOk(s, i, Behind(pc.result.mark)); }
    else if pc.result.Connected? || pc.result.Failed? { LeaveDeniedOk(s, i); }
    else if !pc.recheck { MoveOn(s, i, st.(pc := AwaitingAuthorization(pc.result))); }
    else if pc.result.Consumed? { MoveOn(s, i, st.(pc := Authorized(true))); }
    else if pc.authorized { MoveOn(s, i, st.(pc := Authorized(false))); }
    else { LeaveDeniedOk(s, i); }
  }

  lemma ResumeAuthorizeOk(s: State, i: StoreId, answer: AuthorizeOutcome)
    requires Inv(s) && i in s.stores && s.stores[i].pc.AwaitingAuthorization?
    ensures Inv(ResumeStoreAuthorize(s, i, answer))
  {
    var st := s.stores[i].(authorizedAt := if answer.Granted? then Some(s.stores[i].attempt) else s.stores[i].authorizedAt);
    var s1 := s.(stores := s.stores[i := st]);
    MoveOn(s, i, st);
    if answer.Threw? { LeaveDeniedOk(s1, i); }
    else if s.rooms[st.room].invalidated { RetireOk(s1, st.room, false); FinishOk(Discard(s1, st.room), i, Abandoned); }
    else if st.pc.drain.Unmarked? { ConsumeOk(s1, i, true, answer.Granted?); }
    else { MoveOn(s1, i, st.(pc := ConsumeReplied(true, answer.Granted?, st.pc.drain))); }
  }

  lemma ResumeAuthorizedOk(s: State, i: StoreId, outcome: SnapshotOutcome)
    requires Inv(s) && i in s.stores && s.stores[i].pc.Authorized?
    ensures Inv(ResumeStoreAuthorized(s, i, outcome))
  {
    var st := s.stores[i].(finalDrain := s.stores[i].pc.owned);
    MoveOn(s, i, st);
    SnapshotOk(s.(stores := s.stores[i := st]), i, outcome);
  }

  lemma ResumePersistOk(s: State, i: StoreId)
    requires Inv(s) && i in s.stores && (s.stores[i].pc.PersistReturned? || s.stores[i].pc.PersistThrew?)
    ensures Inv(ResumeStorePersist(s, i))
  {
    var st := s.stores[i];
    var room := s.rooms[st.room];
    if room.invalidated { LeaveInvalidatedOk(s, i); }
    else if st.pc.PersistThrew? {
      match st.pc.error
      case Conflict => MoveOn(s, i, st.(pc := Reloading));
      case Oversize => LeaveDeniedOk(s, i);
      case Unavailable => LeaveFailedOk(s, i);
    } else if st.pc.generation != st.generation { LeaveDeniedOk(s, i); }
    else {
      var room1 := room.(phase := Loaded(st.pc.version, st.generation),
                         persisted := Some(Fanout(room.replica, st.generation, st.pc.snapshot)));
      RoomStep(s, st.room, room1);
      CompleteOk(SetRoom(s, st.room, room1), i);
    }
  }

  // A successful owner completes exactly the mark it was granted.
  lemma CompleteGranted(s: State, i: StoreId, m: MarkId, outcome: StoreOutcome)
    requires Inv(s) && i in s.stores && s.stores[i].pc.PersistReturned? && outcome.Acknowledged?
    requires s.stores[i].grant == Some(m) && s.stores[i].finalDrain && s.rooms[s.stores[i].room].mark == Some(m)
    ensures Linked(s.rooms, s.stores[i := s.stores[i].(pc := Finished(outcome))], s.marks[m := s.marks[m].(completed := true)])
  {
    var st := s.stores[i].(pc := Finished(outcome));
    var stores, marks := s.stores[i := st], s.marks[m := s.marks[m].(completed := true)];
    assert StoreOk(s.marks, i, s.stores[i]);
    forall m' | m' in marks ensures MarkOk(s.rooms, stores, m', marks[m']) {
      assert MarkOk(s.rooms, s.stores, m', s.marks[m']);
    }
    forall j | j in stores ensures StoreOk(marks, j, stores[j]) {
      assert StoreOk(s.marks, j, s.stores[j]);
    }
    hide MarkOk, StoreOk;
  }

  lemma CompleteOk(s: State, i: StoreId)
    requires Inv(s) && i in s.stores && s.stores[i].pc.PersistReturned? && !s.rooms[s.stores[i].room].invalidated
    ensures var pc := s.stores[i].pc;
            Inv(Goto(if s.stores[i].finalDrain then CompleteDrain(s, s.stores[i].room) else s, i,
                     Finished(Acknowledged(pc.version, pc.generation, pc.snapshot))))
  {
    var st := s.stores[i];
    var outcome := Acknowledged(st.pc.version, st.pc.generation, st.pc.snapshot);
    if st.finalDrain {
      assert MarkOk(s.rooms, s.stores, st.grant.value, s.marks[st.grant.value]);
      CompleteGranted(s, i, st.grant.value, outcome);
    } else {
      NothingTaken(s, i);
      FinishOk(s, i, outcome);
    }
  }

  lemma MergedRoomOk(s: State, i: StoreId, minted: set<Update>)
    requires Inv(s) && i in s.stores && s.stores[i].pc.Reloaded?
    ensures var room := MergeAuthoritative(s, i, minted).rooms[s.stores[i].room];
            Linked(s.rooms[s.stores[i].room := room], s.stores, s.marks)
  {
    RoomStep(s, s.stores[i].room, MergeAuthoritative(s, i, minted).rooms[s.stores[i].room]);
  }

  lemma GiveUpOk(s: State, i: StoreId, st: Store)
    requires Inv(s) && i in s.stores && s.stores[i].pc.Reloaded? && !s.rooms[s.stores[i].room].invalidated
    requires st.room == s.stores[i].room && st.grant == s.stores[i].grant && st.finalDrain == s.stores[i].finalDrain
    ensures Inv(LeaveFailed(s.(stores := s.stores[i := st]), i))
  {
    RetireOk(s, st.room, st.finalDrain);
    var s1 := RetireFailedStore(s, st.room, st.finalDrain);
    assert s1.rooms[st.room].mark.None?;
    var end := st.(pc := Finished(if Retires(s.rooms[st.room], st.finalDrain) then Abandoned else Rethrown));
    StoreStep(s1, i, end);
    assert LeaveFailed(s.(stores := s.stores[i := st]), i).stores == s1.stores[i := end];
  }

  lemma ResumeReloadOk(s: State, i: StoreId, minted: set<Update>)
    requires Inv(s) && i in s.stores && s.stores[i].pc.Reloaded?
    ensures Inv(ResumeStoreReload(s, i, minted))
  {
    var st := s.stores[i];
    if !st.pc.row.live || st.pc.row.generation != st.generation || s.rooms[st.room].invalidated {
      LeaveDeniedOk(s, i);
    } else {
      MergedRoomOk(s, i, minted);
      var merged := MergeAuthoritative(s, i, minted);
      var s1 := SetRoom(s, st.room, merged.rooms[st.room]);
      if st.attempt + 1 < MAX_STORE_ATTEMPTS {
        MoveOn(s1, i, merged.stores[i]);
      } else {
        GiveUpOk(s1, i, merged.stores[i]);
      }
    }
  }

  lemma CommitMovesOn(s: State, i: StoreId, bump: nat, html: bool, acknowledged: bool)
    requires Inv(s) && i in s.stores && s.stores[i].pc.Persisting?
    ensures Inv(StoreAction(s, Commit(bump, html, acknowledged), i))
  {
    MoveOn(s, i, StoreAction(s, Commit(bump, html, acknowledged), i).stores[i]);
  }

  lemma GotoMovesOn(s: State, i: StoreId, pc: Pc)
    requires Inv(s) && i in s.stores
    requires (s.stores[i].pc.Persisting? && pc.PersistThrew?) || (s.stores[i].pc.Reloading? && pc.Reloaded?)
    ensures Inv(Goto(s, i, pc))
  {
    MoveOn(s, i, s.stores[i].(pc := pc));
  }

  lemma StoreActionOk(s: State, e: StoreEvent, i: StoreId)
    requires Inv(s) && i in s.stores
    ensures Inv(StoreAction(s, e, i))
  {
    hide Inv, BeginStoreAttempt, SettleConsume, ResumeStoreConsume, ResumeStoreAuthorize, ResumeStoreAuthorized,
      CommitStore, Goto, ResumeStorePersist, LeaveDenied, LeaveFailed, ResumeStoreReload;
    var st := s.stores[i];
    match e
    case BeginAttempt(outcome) => if st.pc.Attempting? { BeginAttemptOk(s, i, outcome); }
    case QueuesSettled => if st.pc.AwaitingQueues? { SettleConsumeOk(s, i); }
    case ResumeConsume => if st.pc.ConsumeReplied? { ResumeConsumeOk(s, i); }
    case ResumeAuthorize(answer) => if st.pc.AwaitingAuthorization? { ResumeAuthorizeOk(s, i, answer); }
    case ResumeAuthorized(outcome) => if st.pc.Authorized? { ResumeAuthorizedOk(s, i, outcome); }
    case Commit(bump, html, acknowledged) => if st.pc.Persisting? { CommitMovesOn(s, i, bump, html, acknowledged); }
    case PersistFails(oversize) =>
      if st.pc.Persisting? { GotoMovesOn(s, i, PersistThrew(if oversize then Oversize else Unavailable)); }
    case ResumePersist => if st.pc.PersistReturned? || st.pc.PersistThrew? { ResumePersistOk(s, i); }
    case Reload => if st.pc.Reloading? { GotoMovesOn(s, i, Reloaded(s.db.row)); }
    case ReloadFails(oversize) =>
      if st.pc.Reloading? { if oversize { LeaveDeniedOk(s, i); } else { LeaveFailedOk(s, i); } }
    case ResumeReload(minted) => if st.pc.Reloaded? { ResumeReloadOk(s, i, minted); }
  }

  lemma MarkDrainOk(s: State, r: RoomId, m: MarkId)
    requires Inv(s) && r in s.rooms
    ensures Inv(RoomAction(s, MarkDrain(m), r))
  {
    hide Linked;
    if m !in s.marks && s.rooms[r].connections != 0 && s.rooms[r].mark.None? { RegisterOk(s, r, m); }
  }

  lemma RegisterOk(s: State, r: RoomId, m: MarkId)
    requires Inv(s) && r in s.rooms && m !in s.marks && s.rooms[r].mark.None?
    ensures Linked(s.rooms[r := s.rooms[r].(mark := Some(m))], s.stores, s.marks[m := Mark(r, None, None, false, false)])
  {
    var rooms := s.rooms[r := s.rooms[r].(mark := Some(m))];
    var marks := s.marks[m := Mark(r, None, None, false, false)];
    forall m' | m' in marks ensures MarkOk(rooms, s.stores, m', marks[m']) {
      if m' != m { assert MarkOk(s.rooms, s.stores, m', s.marks[m']); }
    }
    forall i | i in s.stores ensures StoreOk(marks, i, s.stores[i]) {
      assert StoreOk(s.marks, i, s.stores[i]);
    }
    hide MarkOk, StoreOk;
  }

  // Other room events change one room, neither its mark nor its invalidation.
  lemma RoomFrame(s: State, e: RoomEvent, r: RoomId)
    requires r in s.rooms && !e.MarkDrain? && !e.StoreSetupFails? && !e.Invalidate?
    ensures var s' := RoomAction(s, e, r);
            && s'.stores == s.stores && s'.marks == s.marks && r in s'.rooms && s'.rooms == s.rooms[r := s'.rooms[r]]
            && s'.rooms[r].mark == s.rooms[r].mark && (s.rooms[r].invalidated ==> s'.rooms[r].invalidated)
  {
  }

  lemma RoomActionOk(s: State, e: RoomEvent, r: RoomId)
    requires Inv(s) && r in s.rooms
    ensures Inv(RoomAction(s, e, r))
  {
    match e
    case MarkDrain(m) => MarkDrainOk(s, r, m);
    case StoreSetupFails => RetireOk(s, r, false);
    case Invalidate => RetireOk(s, r, false);
    case _ =>
      RoomFrame(s, e, r);
      hide RoomAction, Linked;
      RoomStep(s, r, RoomAction(s, e, r).rooms[r]);
  }

  // New rooms, new store invocations and settled queues do not touch anybody's grant.
  lemma BirthOk(s: State, a: Action)
    requires Inv(s) && (a.OpenRoom? || a.StartStore? || a.SettleQueues?)
    ensures Inv(Apply(s, a))
  {
    match a
    case OpenRoom(r, replica) => OpenRoomOk(s, r, replica);
    case StartStore(i, r) => StartStoreOk(s, i, r);
    case SettleQueues(m, drained) => SettleQueuesOk(s, m, drained);
  }

  lemma OpenRoomOk(s: State, r: RoomId, replica: nat)
    requires Inv(s)
    ensures Inv(Apply(s, OpenRoom(r, replica)))
  {
    var s' := Apply(s, OpenRoom(r, replica));
    forall m | m in s'.marks ensures MarkOk(s'.rooms, s'.stores, m, s'.marks[m]) {
      assert MarkOk(s.rooms, s.stores, m, s.marks[m]);
    }
  }

  lemma StartStoreOk(s: State, i: StoreId, r: RoomId)
    requires Inv(s)
    ensures Inv(Apply(s, StartStore(i, r)))
  {
    var s' := Apply(s, StartStore(i, r));
    forall m | m in s'.marks ensures MarkOk(s'.rooms, s'.stores, m, s'.marks[m]) {
      assert MarkOk(s.rooms, s.stores, m, s.marks[m]);
    }
  }

  lemma SettleQueuesOk(s: State, m: MarkId, drained: bool)
    requires Inv(s)
    ensures Inv(Apply(s, SettleQueues(m, drained)))
  {
    hide Linked;
    if m in s.marks { SettledOk(s, m, drained); }
  }

  lemma SettledOk(s: State, m: MarkId, drained: bool)
    requires Inv(s) && m in s.marks
    ensures Linked(s.rooms, s.stores, s.marks[m := s.marks[m].(ready := Some(drained))])
  {
    var marks := s.marks[m := s.marks[m].(ready := Some(drained))];
    forall m' | m' in marks ensures MarkOk(s.rooms, s.stores, m', marks[m']) {
      assert MarkOk(s.rooms, s.stores, m', s.marks[m']);
    }
    forall i | i in s.stores ensures StoreOk(marks, i, s.stores[i]) {
      assert StoreOk(s.marks, i, s.stores[i]);
    }
    hide MarkOk, StoreOk;
  }

  lemma ApplyOk(s: State, a: Action)
    requires Inv(s)
    ensures Inv(Apply(s, a))
  {
    match a
    case Reset(_, _, _, _, _) =>
    case InRoom(r, e) => if r in s.rooms { RoomActionOk(s, e, r); }
    case InStore(i, e) => if i in s.stores { StoreActionOk(s, e, i); }
    case _ => BirthOk(s, a);
  }

  lemma ReachableOk(s: State)
    requires Reachable(s)
    ensures Inv(s)
  {
    var s0, actions :| Initial(s0) && s == Run(s0, actions);
    RunOk(s0, actions);
  }

  lemma {:induction false} RunOk(s: State, actions: seq<Action>)
    requires Initial(s)
    ensures Inv(Run(s, actions))
    decreases |actions|
  {
    if actions != [] {
      RunOk(s, actions[..|actions| - 1]);
      ApplyOk(Run(s, actions[..|actions| - 1]), actions[|actions| - 1]);
    }
  }

  // ---------------------------------------------------------------------------------------------------------
  // What one segment of a store may change
  // ---------------------------------------------------------------------------------------------------------

  // One segment of store `i` touches that store and its room only, and the room forgets neither an update nor that it
  // is invalidated.
  ghost predicate OnlyStore(s: State, s': State, i: StoreId)
    requires i in s.stores && s.stores[i].room in s.rooms
  {
    var r := s.stores[i].room;
    && i in s'.stores && s'.stores == s.stores[i := s'.stores[i]]
    && s'.stores[i].room == r && s'.stores[i].generation == s.stores[i].generation
    && (s.stores[i].grant.Some? ==> s'.stores[i].grant.Some?)
    && r in s'.rooms && s'.rooms == s.rooms[r := s'.rooms[r]]
    && (s.rooms[r].invalidated ==> s'.rooms[r].invalidated) && s.rooms[r].content <= s'.rooms[r].content
  }

  // An invocation that rethrows its error leaves a room that can be stored again.
  ghost predicate Retriable(s': State, i: StoreId)
    requires i in s'.stores && s'.stores[i].room in s'.rooms
  {
    s'.stores[i].pc == Finished(Rethrown) ==>
      !s'.rooms[s'.stores[i].room].invalidated && s'.rooms[s'.stores[i].room].mark.None?
  }

  // The content a store handed to `persistContent`.
  function Handed(pc: Pc): Option<set<Update>> {
    match pc
    case Persisting(snapshot) => Some(snapshot)
    case PersistReturned(_, _, snapshot) => Some(snapshot)
    case Finished(Acknowledged(_, _, snapshot)) => Some(snapshot)
    case _ => None
  }

  // A segment that neither persists nor authorizes nor grants nor completes a drain.
  ghost predicate Quiet(s: State, s': State, i: StoreId)
    requires i in s.stores && s.stores[i].room in s.rooms
  {
    && OnlyStore(s, s', i)
    && s'.marks == s.marks
    && s'.stores[i].authorizedAt == s.stores[i].authorizedAt && s'.stores[i].grant == s.stores[i].grant
    && Handed(s'.stores[i].pc).None? && Retriable(s', i) && s'.stores[i].attempt == s.stores[i].attempt
  }

  lemma LeaveQuiet(s: State, i: StoreId)
    requires i in s.stores && s.stores[i].room in s.rooms
    ensures Quiet(s, LeaveInvalidated(s, i), i)
    ensures Quiet(s, LeaveDenied(s, i), i)
    ensures Quiet(s, LeaveFailed(s, i), i)
    ensures LeaveInvalidated(s, i).stores[i].pc.Finished? && LeaveDenied(s, i).stores[i].pc.Finished?
    ensures LeaveFailed(s, i).stores[i].pc.Finished?
  {
  }

  lemma GotoQuiet(s: State, i: StoreId, pc: Pc)
    requires i in s.stores && s.stores[i].room in s.rooms && Handed(pc).None? && pc != Finished(Rethrown)
    ensures Quiet(s, Goto(s, i, pc), i)
  {
  }

  // How a segment of store `i` may change the registry.
  ghost predicate MarkChange(s: State, s': State, i: StoreId)
    requires i in s.stores && s.stores[i].room in s.rooms && i in s'.stores
  {
    var st, room := s.stores[i], s.rooms[s.stores[i].room];
    s'.marks == s.marks
    || (room.mark.Some? && room.mark.value in s.marks
        && var m, mark := room.mark.value, s.marks[room.mark.value];
           (|| (s'.marks == s.marks[m := mark.(consuming := Some(i))] && mark.consuming.None?)
            || (s'.marks == s.marks[m := mark.(granted := true)]
                && st.pc.AwaitingQueues? && st.pc.mark == m
                && mark.ready == Some(true) && room.connections == 0 && s'.stores[i].grant == Some(m))
            || (s'.marks == s.marks[m := mark.(completed := true)]
                && st.pc.PersistReturned? && st.finalDrain && !room.invalidated)))
  }

  // Between `s` and `s'` store `i` called `persistContent`.
  ghost predicate PersistCall(s: State, s': State, i: StoreId) {
    i in s.stores && i in s'.stores && !s.stores[i].pc.Persisting? && s'.stores[i].pc.Persisting?
  }

  // How many persist calls an invocation may have made when it stands here.
  function Budget(st: Store): nat {
    st.attempt + if st.pc.Persisting? || st.pc.PersistReturned? || st.pc.PersistThrew? || st.pc.Reloading? || st.pc.Reloaded?
                 then 1 else 0
  }

  // What a segment of store `i` may do to its own record and to the registry.
  ghost predicate Summary(s: State, s': State, e: StoreEvent, i: StoreId)
    requires i in s.stores && s.stores[i].room in s.rooms
  {
    && OnlyStore(s, s', i)
    && MarkChange(s, s', i)
    && (s'.stores[i].authorizedAt != s.stores[i].authorizedAt ==>
          e == ResumeAuthorize(Granted) && s'.stores[i].authorizedAt == Some(s.stores[i].attempt))
    && (s'.stores[i].pc == s.stores[i].pc || Retriable(s', i))
    && (Handed(s'.stores[i].pc).None? || Handed(s'.stores[i].pc) == Handed(s.stores[i].pc) || PersistCall(s, s', i))
    && (!s'.stores[i].pc.Finished? ==>
          Budget(s'.stores[i]) >= Budget(s.stores[i]) + if PersistCall(s, s', i) then 1 else 0)
    && (PersistCall(s, s', i) ==>
          && !s.rooms[s.stores[i].room].invalidated
          && s'.stores[i].pc.snapshot == s.rooms[s.stores[i].room].content
          && ((s.stores[i].pc.Attempting? && s.stores[i].finalDrain) || s.stores[i].pc.Authorized?))
  }

  lemma ConsumeSummary(s: State, i: StoreId, recheck: bool, authorized: bool)
    requires i in s.stores && s.stores[i].room in s.rooms
    ensures var s' := Consume(s, i, recheck, authorized);
            && OnlyStore(s, s', i) && MarkChange(s, s', i)
            && s'.stores[i].authorizedAt == s.stores[i].authorizedAt
            && (s'.stores[i].pc.ConsumeReplied? || s'.stores[i].pc.AwaitingQueues?)
            && s'.stores[i].attempt == s.stores[i].attempt
  {
  }

  lemma SnapshotSummary(s: State, i: StoreId, outcome: SnapshotOutcome)
    requires i in s.stores && s.stores[i].room in s.rooms
    ensures var s' := SnapshotAndPersist(s, i, outcome);
            Quiet(s, s', i)
            || (s' == Goto(s, i, Persisting(s.rooms[s.stores[i].room].content)) && !s.rooms[s.stores[i].room].invalidated)
  {
    LeaveQuiet(s, i);
  }

  lemma BeginSummary(s: State, e: StoreEvent, i: StoreId)
    requires i in s.stores && s.stores[i].room in s.rooms && s.stores[i].pc.Attempting? && e.BeginAttempt?
    ensures Summary(s, StoreAction(s, e, i), e, i)
  {
    LeaveQuiet(s, i);
    SnapshotSummary(s, i, e.outcome);
    ConsumeSummary(s, i, false, false);
    GotoQuiet(s, i, AwaitingAuthorization(Unmarked));
  }

  lemma SettleSummary(s: State, e: StoreEvent, i: StoreId)
    requires i in s.stores && s.stores[i].room in s.rooms && s.stores[i].pc.AwaitingQueues? && e.QueuesSettled?
    ensures Summary(s, StoreAction(s, e, i), e, i)
  {
  }

  lemma ResumeConsumeSummary(s: State, e: StoreEvent, i: StoreId)
    requires i in s.stores && s.stores[i].room in s.rooms && s.stores[i].pc.ConsumeReplied? && e.ResumeConsume?
    ensures Summary(s, StoreAction(s, e, i), e, i)
  {
    var pc := s.stores[i].pc;
    if pc.result.Busy? { GotoQuiet(s, i, Finished(Behind(pc.result.mark))); }
    else if pc.result.Connected? || pc.result.Failed? { LeaveQuiet(s, i); }
    else if !pc.recheck { GotoQuiet(s, i, AwaitingAuthorization(pc.result)); }
    else if pc.result.Consumed? { GotoQuiet(s, i, Authorized(true)); }
    else if pc.authorized { GotoQuiet(s, i, Authorized(false)); }
    else { LeaveQuiet(s, i); }
    assert Quiet(s, ResumeStoreConsume(s, i), i);
    hide Goto, LeaveDenied, ResumeStoreConsume;
  }

  // Recording the answer first does not change what the rest of the segment may do.
  lemma Recorded(s: State, at: Option<nat>, s': State, i: StoreId)
    requires i in s.stores && s.stores[i].room in s.rooms
    requires var s1 := s.(stores := s.stores[i := s.stores[i].(authorizedAt := at)]);
             OnlyStore(s1, s', i) && MarkChange(s1, s', i)
    ensures OnlyStore(s, s', i) && MarkChange(s, s', i)
  {
  }

  lemma ResumeAuthorizeSummary(s: State, e: StoreEvent, i: StoreId)
    requires i in s.stores && s.stores[i].room in s.rooms && s.stores[i].pc.AwaitingAuthorization? && e.ResumeAuthorize?
    ensures Summary(s, StoreAction(s, e, i), e, i)
  {
    var at := if e.answer.Granted? then Some(s.stores[i].attempt) else s.stores[i].authorizedAt;
    var st := s.stores[i].(authorizedAt := at);
    var s1 := s.(stores := s.stores[i := st]);
    var s' := StoreAction(s, e, i);
    if e.answer.Threw? { LeaveQuiet(s1, i); }
    else if s.rooms[st.room].invalidated { }
    else if st.pc.drain.Unmarked? { ConsumeSummary(s1, i, true, e.answer.Granted?); }
    else { GotoQuiet(s1, i, ConsumeReplied(true, e.answer.Granted?, st.pc.drain)); }
    Recorded(s, at, s', i);
  }

  lemma ResumeAuthorizedSummary(s: State, e: StoreEvent, i: StoreId)
    requires i in s.stores && s.stores[i].room in s.rooms && s.stores[i].pc.Authorized? && e.ResumeAuthorized?
    ensures Summary(s, StoreAction(s, e, i), e, i)
  {
    SnapshotSummary(s.(stores := s.stores[i := s.stores[i].(finalDrain := s.stores[i].pc.owned)]), i, e.outcome);
  }

  lemma ResumePersistSummary(s: State, e: StoreEvent, i: StoreId)
    requires i in s.stores && s.stores[i].room in s.rooms && e.ResumePersist?
    requires s.stores[i].pc.PersistReturned? || s.stores[i].pc.PersistThrew?
    ensures Summary(s, StoreAction(s, e, i), e, i)
  {
    LeaveQuiet(s, i);
  }

  lemma OnlyStoreTwice(s: State, s1: State, s2: State, i: StoreId)
    requires i in s.stores && s.stores[i].room in s.rooms && OnlyStore(s, s1, i) && OnlyStore(s1, s2, i)
    ensures OnlyStore(s, s2, i)
  {
  }

  lemma MergeChanges(s: State, i: StoreId, minted: set<Update>)
    requires i in s.stores && s.stores[i].room in s.rooms && s.stores[i].pc.Reloaded?
    requires s.stores[i].pc.row.generation == s.stores[i].generation
    ensures var s' := MergeAuthoritative(s, i, minted);
            && OnlyStore(s, s', i) && s'.marks == s.marks && s'.stores[i].authorizedAt == s.stores[i].authorizedAt
            && s'.stores[i].pc.Attempting? && s'.stores[i].attempt == s.stores[i].attempt + 1
  {
  }

  lemma RetrySummary(s: State, e: StoreEvent, i: StoreId, minted: set<Update>)
    requires i in s.stores && s.stores[i].room in s.rooms && s.stores[i].pc.Reloaded?
    requires s.stores[i].pc.row.generation == s.stores[i].generation
    ensures Summary(s, MergeAuthoritative(s, i, minted), e, i)
    ensures Summary(s, LeaveFailed(MergeAuthoritative(s, i, minted), i), e, i)
  {
    var merged := MergeAuthoritative(s, i, minted);
    MergeChanges(s, i, minted);
    LeaveQuiet(merged, i);
    hide LeaveFailed, MergeAuthoritative;
    OnlyStoreTwice(s, merged, LeaveFailed(merged, i), i);
    hide OnlyStore;
  }

  lemma ResumeReloadSummary(s: State, e: StoreEvent, i: StoreId)
    requires i in s.stores && s.stores[i].room in s.rooms && s.stores[i].pc.Reloaded? && e.ResumeReload?
    ensures Summary(s, StoreAction(s, e, i), e, i)
  {
    var st := s.stores[i];
    hide LeaveDenied, LeaveFailed, MergeAuthoritative;
    if st.pc.row.live && st.pc.row.generation == st.generation && !s.rooms[st.room].invalidated {
      RetrySummary(s, e, i, e.minted);
      hide Summary;
    } else {
      LeaveQuiet(s, i);
      hide OnlyStore;
    }
  }

  lemma DatabaseSummary(s: State, e: StoreEvent, i: StoreId)
    requires i in s.stores && s.stores[i].room in s.rooms && (e.Commit? || e.PersistFails? || e.Reload?)
    ensures Summary(s, StoreAction(s, e, i), e, i)
  {
  }

  lemma StoreSummary(s: State, e: StoreEvent, i: StoreId)
    requires i in s.stores && s.stores[i].room in s.rooms
    ensures Summary(s, StoreAction(s, e, i), e, i)
  {
    hide BeginStoreAttempt, SettleConsume, ResumeStoreConsume, ResumeStoreAuthorize, ResumeStoreAuthorized;
    hide ResumeStorePersist, ResumeStoreReload, LeaveDenied, LeaveFailed, CommitStore, Goto;
    var pc := s.stores[i].pc;
    match e
    case BeginAttempt(_) => if pc.Attempting? { BeginSummary(s, e, i); }
    case QueuesSettled => if pc.AwaitingQueues? { SettleSummary(s, e, i); }
    case ResumeConsume => if pc.ConsumeReplied? { ResumeConsumeSummary(s, e, i); }
    case ResumeAuthorize(_) => if pc.AwaitingAuthorization? { ResumeAuthorizeSummary(s, e, i); }
    case ResumeAuthorized(_) => if pc.Authorized? { ResumeAuthorizedSummary(s, e, i); }
    case ResumePersist => if pc.PersistReturned? || pc.PersistThrew? { ResumePersistSummary(s, e, i); }
    case ReloadFails(_) => LeaveQuiet(s, i);
    case ResumeReload(_) => if pc.Reloaded? { ResumeReloadSummary(s, e, i); }
    case _ => DatabaseSummary(s, e, i);
  }

  // ---------------------------------------------------------------------------------------------------------
  // Results over whole runs
  // ---------------------------------------------------------------------------------------------------------

  lemma FinishedStays(s: State, e: StoreEvent, i: StoreId)
    requires i in s.stores && s.stores[i].room in s.rooms && s.stores[i].pc.Finished?
    ensures StoreAction(s, e, i) == s
  {
  }

  lemma StepSummary(s: State, a: Action, s': State, i: StoreId)
    requires i in s.stores && s' == Apply(s, a)
    ensures i in s'.stores
    ensures s.stores[i].pc.Finished? ==> s'.stores[i] == s.stores[i]
    ensures s'.stores[i] == s.stores[i]
            || (a.InStore? && a.store == i && s.stores[i].room in s.rooms && Summary(s, s', a.step, i))
  {
    hide StoreAction, RoomAction;
    if a.InStore? && a.store in s.stores && s.stores[a.store].room in s.rooms {
      StoreSummary(s, a.step, a.store);
      if s.stores[a.store].pc.Finished? { FinishedStays(s, a.step, a.store); }
    }
    if a.InRoom? && a.room in s.rooms { RoomKeepsStores(s, a.event, a.room); }
  }

  lemma RoomKeepsStores(s: State, e: RoomEvent, r: RoomId)
    requires r in s.rooms
    ensures RoomAction(s, e, r).stores == s.stores
  {
  }

  // A persist call carries the room's current content, leaves from a room that is not invalidated at that moment, and
  // is covered by a fresh authorization of the same attempt or by the one-shot grant of the mark still registered.
  lemma PersistenceIsGated(s: State, a: Action, i: StoreId)
    requires Reachable(s) && PersistCall(s, Apply(s, a), i)
    ensures var st := s.stores[i];
            && st.room in s.rooms && !s.rooms[st.room].invalidated
            && Apply(s, a).stores[i].pc == Persisting(s.rooms[st.room].content)
            && (st.authorizedAt == Some(st.attempt)
                || (st.grant.Some? && s.rooms[st.room].mark == st.grant
                    && st.grant.value in s.marks && s.marks[st.grant.value].consuming == Some(i)))
  {
    ReachableOk(s);
    hide Apply;
    StepSummary(s, a, Apply(s, a), i);
    var st := s.stores[i];
    if st.grant.Some? { assert MarkOk(s.rooms, s.stores, st.grant.value, s.marks[st.grant.value]); }
  }

  // `authorizedAt` records exactly the positive answers of `authorizeContext`, with the attempt they were given in.
  lemma AuthorizationIsRecorded(s: State, a: Action, s': State, i: StoreId)
    requires i in s.stores && s' == Apply(s, a) && i in s'.stores
    requires s'.stores[i].authorizedAt != s.stores[i].authorizedAt
    ensures a == InStore(i, ResumeAuthorize(Granted)) && s'.stores[i].authorizedAt == Some(s.stores[i].attempt)
  {
    hide Apply;
    StepSummary(s, a, s', i);
  }

  lemma RoomKeepsInvalidation(s: State, e: RoomEvent, r: RoomId)
    requires r in s.rooms
    ensures var s' := RoomAction(s, e, r);
            r in s'.rooms && s'.rooms == s.rooms[r := s'.rooms[r]] && (s.rooms[r].invalidated ==> s'.rooms[r].invalidated)
  {
  }

  lemma InvalidationStays(s: State, a: Action, s': State, r: RoomId)
    requires s' == Apply(s, a) && r in s.rooms && s.rooms[r].invalidated
    ensures r in s'.rooms && s'.rooms[r].invalidated
  {
    hide StoreAction, RoomAction;
    if a.InStore? && a.store in s.stores && s.stores[a.store].room in s.rooms { StoreSummary(s, a.step, a.store); }
    if a.InRoom? && a.room in s.rooms { RoomKeepsInvalidation(s, a.event, a.room); }
  }

  lemma {:induction false} InvalidationIsPermanent(s0: State, actions: seq<Action>, k: nat, r: RoomId)
    requires k <= |actions| && r in Run(s0, actions[..k]).rooms && Run(s0, actions[..k]).rooms[r].invalidated
    ensures r in Run(s0, actions).rooms && Run(s0, actions).rooms[r].invalidated
    decreases |actions|
  {
    if k == |actions| {
      assert actions[..k] == actions;
    } else {
      var n := |actions| - 1;
      assert actions[..n][..k] == actions[..k];
      InvalidationIsPermanent(s0, actions[..n], k, r);
      InvalidationStays(Run(s0, actions[..n]), actions[n], Run(s0, actions), r);
    }
  }

  lemma StoresKeepFanouts(s: State, e: StoreEvent, i: StoreId)
    requires i in s.stores && s.stores[i].room in s.rooms
    ensures StoreAction(s, e, i).fanouts == s.fanouts
  {
  }

  lemma RoomFanouts(s: State, e: RoomEvent, r: RoomId)
    requires r in s.rooms
    ensures RoomAction(s, e, r).fanouts == s.fanouts
            || (e.QueueFanout? && !s.rooms[r].invalidated && s.rooms[r].persisted.Some?
                && RoomAction(s, e, r).fanouts == s.fanouts + {s.rooms[r].persisted.value}
                && r in RoomAction(s, e, r).rooms && RoomAction(s, e, r).rooms[r].persisted.None?)
  {
  }

  // Only a room that is not invalidated at that moment fans out, and it hands over the state of its last store, once.
  lemma FanoutsComeFromLiveRooms(s: State, a: Action, f: Fanout)
    requires f in Apply(s, a).fanouts && f !in s.fanouts
    ensures a.InRoom? && a.event.QueueFanout? && a.room in s.rooms && !s.rooms[a.room].invalidated
    ensures s.rooms[a.room].persisted == Some(f)
    ensures a.room in Apply(s, a).rooms && Apply(s, a).rooms[a.room].persisted.None?
  {
    hide StoreAction, RoomAction;
    if a.InStore? && a.store in s.stores && s.stores[a.store].room in s.rooms { StoresKeepFanouts(s, a.step, a.store); }
    if a.InRoom? && a.room in s.rooms { RoomFanouts(s, a.event, a.room); }
  }

  // At some step of a run whatever holds at its end, but not at its start, became true.
  lemma {:induction false} FirstMoment(s0: State, actions: seq<Action>, holds: State -> bool) returns (k: nat)
    requires !holds(s0) && holds(Run(s0, actions))
    ensures k < |actions| && !holds(Run(s0, actions[..k])) && holds(Run(s0, actions[..k + 1]))
    ensures Run(s0, actions[..k + 1]) == Apply(Run(s0, actions[..k]), actions[k])
    decreases |actions|
  {
    hide Apply;
    var n := |actions| - 1;
    if holds(Run(s0, actions[..n])) {
      k := FirstMoment(s0, actions[..n], holds);
      assert actions[..n][..k] == actions[..k] && actions[..n][..k + 1] == actions[..k + 1];
    } else {
      k := n;
      assert actions[..n + 1] == actions;
    }
    assert actions[..k + 1][..k] == actions[..k];
  }

  // Once a room is invalidated no later store or retry persists it.
  lemma NoPersistAfterInvalidation(s0: State, actions: seq<Action>, k: nat, a: Action, i: StoreId)
    requires Initial(s0) && k <= |actions| && PersistCall(Run(s0, actions), Apply(Run(s0, actions), a), i)
    ensures var r := Run(s0, actions).stores[i].room;
            r in Run(s0, actions[..k]).rooms ==> !Run(s0, actions[..k]).rooms[r].invalidated
  {
    assert Reachable(Run(s0, actions));
    PersistenceIsGated(Run(s0, actions), a, i);
    var r := Run(s0, actions).stores[i].room;
    if r in Run(s0, actions[..k]).rooms && Run(s0, actions[..k]).rooms[r].invalidated {
      InvalidationIsPermanent(s0, actions, k, r);
    }
  }

  // Marks change only in a segment of the store that handles them; queues settle and new marks appear elsewhere.
  lemma MarkSummary(s: State, a: Action, s': State, m: MarkId)
    requires m in s.marks && s' == Apply(s, a)
    ensures m in s'.marks
    ensures s.marks[m].consuming.Some? ==> s'.marks[m].consuming == s.marks[m].consuming
    ensures s'.marks[m].ready == s.marks[m].ready
            || (s.marks[m].ready.None? && s'.marks[m].ready.Some? && a == SettleQueues(m, s'.marks[m].ready.value))
    ensures s'.marks[m].granted != s.marks[m].granted || s'.marks[m].completed != s.marks[m].completed ==>
              a.InStore? && a.store in s.stores && s.stores[a.store].room in s.rooms && Summary(s, s', a.step, a.store)
  {
    hide StoreAction, RoomAction;
    if a.InStore? && a.store in s.stores && s.stores[a.store].room in s.rooms { StoreSummary(s, a.step, a.store); }
    if a.InRoom? && a.room in s.rooms { RoomKeepsMarks(s, a.event, a.room, m); }
  }

  lemma RoomKeepsMarks(s: State, e: RoomEvent, r: RoomId, m: MarkId)
    requires r in s.rooms && m in s.marks
    ensures m in RoomAction(s, e, r).marks && RoomAction(s, e, r).marks[m] == s.marks[m]
  {
  }

  // A grant is given only to the store that took the mark, after every captured queue drained, with no live
  // connection and the mark still registered.
  lemma GrantsAreEarned(s: State, a: Action, s': State, m: MarkId)
    requires Reachable(s) && s' == Apply(s, a)
    requires m in s.marks && m in s'.marks && !s.marks[m].granted && s'.marks[m].granted
    ensures a.InStore? && a.step.QueuesSettled? && a.store in s.stores && s.marks[m].consuming == Some(a.store)
            && s.marks[m].ready == Some(true)
            && s.marks[m].room in s.rooms && s.rooms[s.marks[m].room].mark == Some(m)
            && s.rooms[s.marks[m].room].connections == 0
            && a.store in s'.stores && s'.stores[a.store].grant == Some(m)
  {
    ReachableOk(s);
    hide Apply;
    MarkSummary(s, a, s', m);
    assert StoreOk(s.marks, a.store, s.stores[a.store]);
  }

  lemma OneGrantPerMark(s: State, i: StoreId, j: StoreId)
    requires Reachable(s) && i in s.stores && j in s.stores
    requires s.stores[i].grant.Some?
    requires s.stores[i].grant == s.stores[j].grant
    ensures i == j
  {
    ReachableOk(s);
    assert StoreOk(s.marks, i, s.stores[i]) && StoreOk(s.marks, j, s.stores[j]);
  }

  // A store that took a mark never leaves it hanging: when the invocation is over the drain is completed, or the mark
  // is withdrawn together with the room.
  lemma GrantsAreNeverStranded(s: State, m: MarkId)
    requires Reachable(s) && m in s.marks && s.marks[m].consuming.Some?
    ensures var mark := s.marks[m];
            && mark.consuming.value in s.stores && mark.room in s.rooms
            && (s.stores[mark.consuming.value].pc.Finished? ==>
                  mark.completed || (s.rooms[mark.room].mark != Some(m) && s.rooms[mark.room].invalidated))
            && (mark.completed ==> IsAcknowledged(s.stores[mark.consuming.value].pc))
  {
    ReachableOk(s);
    assert MarkOk(s.rooms, s.stores, m, s.marks[m]);
  }

  // Only the owner completes a drain, and only when its write was acknowledged as durable.
  lemma CompletionIsOwned(s: State, a: Action, s': State, m: MarkId)
    requires Reachable(s) && s' == Apply(s, a)
    requires m in s.marks && m in s'.marks && !s.marks[m].completed && s'.marks[m].completed
    ensures a.InStore? && a.store in s.stores
            && s.stores[a.store].pc.PersistReturned? && s.stores[a.store].grant == Some(m)
  {
    ReachableOk(s);
    hide Apply;
    MarkSummary(s, a, s', m);
    var st := s.stores[a.store];
    assert StoreOk(s.marks, a.store, st);
    assert MarkOk(s.rooms, s.stores, st.grant.value, s.marks[st.grant.value]);
  }

  // How often store `i` called `persistContent` so far.
  ghost function PersistCalls(s0: State, actions: seq<Action>, i: StoreId): nat
    decreases |actions|
  {
    if actions == [] then 0
    else
      var n := |actions| - 1;
      PersistCalls(s0, actions[..n], i) + if PersistCall(Run(s0, actions[..n]), Run(s0, actions), i) then 1 else 0
  }

  ghost predicate CallsBounded(st: Store, calls: nat) {
    calls <= if st.pc.Finished? then MAX_STORE_ATTEMPTS else Budget(st)
  }

  lemma NewStore(s: State, a: Action, s': State, i: StoreId)
    requires s' == Apply(s, a) && i !in s.stores
    ensures i in s'.stores ==>
              var st := s'.stores[i];
              && st.pc.Attempting? && st.attempt == 0 && st.authorizedAt.None? && !st.finalDrain
              && st.room in s.rooms && !s.rooms[st.room].invalidated && s.rooms[st.room].phase.Loaded?
              && s'.db == s.db && s'.rooms == s.rooms && st.generation == s.rooms[st.room].phase.generation
  {
    hide StoreAction, RoomAction;
    if a.InStore? && a.store in s.stores && s.stores[a.store].room in s.rooms { StoreSummary(s, a.step, a.store); }
    if a.InRoom? && a.room in s.rooms { RoomKeepsStores(s, a.event, a.room); }
  }

  lemma CallsStep(s: State, a: Action, s': State, i: StoreId, calls: nat)
    requires s' == Apply(s, a) && i in s.stores && PcOk(s.stores[i]) && CallsBounded(s.stores[i], calls)
    ensures i in s'.stores
    ensures CallsBounded(s'.stores[i], calls + if PersistCall(s, s', i) then 1 else 0)
  {
    hide Apply;
    StepSummary(s, a, s', i);
  }

  lemma InvPcOk(s: State, i: StoreId)
    requires Inv(s) && i in s.stores
    ensures PcOk(s.stores[i])
  {
  }

  // One store invocation calls `persistContent` at most four times, retries included.
  lemma {:induction false} AtMostFourCalls(s0: State, actions: seq<Action>, i: StoreId)
    requires Initial(s0)
    ensures if i in Run(s0, actions).stores then CallsBounded(Run(s0, actions).stores[i], PersistCalls(s0, actions, i))
            else PersistCalls(s0, actions, i) == 0
    ensures PersistCalls(s0, actions, i) <= 4
    decreases |actions|
  {
    hide Apply, Inv;
    if actions != [] {
      var n := |actions| - 1;
      var s, a, s' := Run(s0, actions[..n]), actions[n], Run(s0, actions);
      AtMostFourCalls(s0, actions[..n], i);
      RunOk(s0, actions[..n]);
      if i in s.stores {
        InvPcOk(s, i);
        CallsStep(s, a, s', i, PersistCalls(s0, actions[..n], i));
      } else {
        NewStore(s, a, s', i);
      }
      RunOk(s0, actions);
      if i in s'.stores { InvPcOk(s', i); }
    }
  }

  // ---------------------------------------------------------------------------------------------------------
  // What a persist call rests on
  // ---------------------------------------------------------------------------------------------------------

  // At this step live authorization says yes to attempt `attempt` of store `i`.
  ghost predicate Authorizes(s: State, a: Action, i: StoreId, attempt: nat) {
    a == InStore(i, ResumeAuthorize(Granted)) && i in s.stores && s.stores[i].attempt == attempt
  }

  // At this step store `i` earns the grant of mark `m`: all captured queues drained, no connection is left and the
  // mark is still registered.
  ghost predicate Earns(s: State, a: Action, i: StoreId, m: MarkId) {
    && a == InStore(i, QueuesSettled) && m in s.marks && !s.marks[m].granted
    && s.marks[m].consuming == Some(i) && s.marks[m].ready == Some(true) && s.marks[m].room in s.rooms
    && s.rooms[s.marks[m].room].mark == Some(m) && s.rooms[s.marks[m].room].connections == 0
  }

  lemma {:induction false} AuthorizedBefore(s0: State, actions: seq<Action>, i: StoreId)
    requires Initial(s0) && i in Run(s0, actions).stores && Run(s0, actions).stores[i].authorizedAt.Some?
    ensures exists k :: 0 <= k < |actions|
              && Authorizes(Run(s0, actions[..k]), actions[k], i, Run(s0, actions).stores[i].authorizedAt.value)
  {
    hide Apply;
    var at := Run(s0, actions).stores[i].authorizedAt;
    var k := FirstMoment(s0, actions, (s: State) => i in s.stores && s.stores[i].authorizedAt == at);
    var s, s' := Run(s0, actions[..k]), Run(s0, actions[..k + 1]);
    if i in s.stores { AuthorizationIsRecorded(s, actions[k], s', i); } else { NewStore(s, actions[k], s', i); }
    assert Authorizes(s, actions[k], i, at.value);
  }

  lemma {:induction false} TakerStays(s0: State, actions: seq<Action>, k: nat, m: MarkId)
    requires k <= |actions| && m in Run(s0, actions[..k]).marks && Run(s0, actions[..k]).marks[m].consuming.Some?
    ensures m in Run(s0, actions).marks
    ensures Run(s0, actions).marks[m].consuming == Run(s0, actions[..k]).marks[m].consuming
    decreases |actions|
  {
    hide Apply;
    if k == |actions| {
      assert actions[..k] == actions;
    } else {
      var n := |actions| - 1;
      assert actions[..n][..k] == actions[..k];
      TakerStays(s0, actions[..n], k, m);
      MarkSummary(Run(s0, actions[..n]), actions[n], Run(s0, actions), m);
    }
  }

  // What a mark knows of its queues is what they reported, once.
  lemma ReadinessIsReported(s0: State, actions: seq<Action>, m: MarkId)
    requires Initial(s0) && m in Run(s0, actions).marks && Run(s0, actions).marks[m].ready.Some?
    ensures exists k :: 0 <= k < |actions|
              && actions[k] == SettleQueues(m, Run(s0, actions).marks[m].ready.value)
              && m in Run(s0, actions[..k]).marks && Run(s0, actions[..k]).marks[m].ready.None?
  {
    hide Apply;
    var ready := Run(s0, actions).marks[m].ready;
    var k := FirstMoment(s0, actions, (s: State) => m in s.marks && s.marks[m].ready == ready);
    var s, s' := Run(s0, actions[..k]), Run(s0, actions[..k + 1]);
    if m in s.marks { MarkSummary(s, actions[k], s', m); } else { NewMark(s, actions[k], s', m); }
  }

  lemma {:induction false} EarnedBefore(s0: State, actions: seq<Action>, m: MarkId)
    requires Initial(s0) && m in Run(s0, actions).marks && Run(s0, actions).marks[m].granted
    requires Run(s0, actions).marks[m].consuming.Some?
    ensures exists k :: 0 <= k < |actions|
              && Earns(Run(s0, actions[..k]), actions[k], Run(s0, actions).marks[m].consuming.value, m)
              && SettleQueues(m, true) in actions[..k]
  {
    hide Apply;
    var k := FirstMoment(s0, actions, (s: State) => m in s.marks && s.marks[m].granted);
    var s, s' := Run(s0, actions[..k]), Run(s0, actions[..k + 1]);
    assert Reachable(s);
    if m !in s.marks { NewMark(s, actions[k], s', m); }
    GrantsAreEarned(s, actions[k], s', m);
    TakerStays(s0, actions, k, m);
    assert Earns(s, actions[k], Run(s0, actions).marks[m].consuming.value, m);
    ReadinessIsReported(s0, actions[..k], m);
  }

  lemma NewMark(s: State, a: Action, s': State, m: MarkId)
    requires s' == Apply(s, a) && m !in s.marks
    ensures m in s'.marks ==> !s'.marks[m].granted && s'.marks[m].consuming.None? && s'.marks[m].ready.None?
  {
    hide StoreAction, RoomAction;
    if a.InStore? && a.store in s.stores && s.stores[a.store].room in s.rooms { StoreSummary(s, a.step, a.store); }
    if a.InRoom? && a.room in s.rooms { RoomAddsMarks(s, a.event, a.room, m); }
  }

  lemma RoomAddsMarks(s: State, e: RoomEvent, r: RoomId, m: MarkId)
    requires r in s.rooms && m !in s.marks
    ensures m in RoomAction(s, e, r).marks ==> RoomAction(s, e, r).marks[m] == Mark(r, None, None, false, false)
  {
  }

  // Behind every persist call of every run stands an earlier step: live authorization said yes to this very attempt
  // of this invocation, or this invocation earned the grant of the mark that is still registered, after the queues
  // captured by that mark had reported that they were drained.
  lemma PersistenceWasEarned(s0: State, actions: seq<Action>, a: Action, i: StoreId)
    requires Initial(s0) && PersistCall(Run(s0, actions), Apply(Run(s0, actions), a), i)
    ensures var s := Run(s0, actions); var st := s.stores[i];
            exists k :: 0 <= k < |actions|
              && (|| Authorizes(Run(s0, actions[..k]), actions[k], i, st.attempt)
                  || (st.room in s.rooms && s.rooms[st.room].mark.Some?
                      && Earns(Run(s0, actions[..k]), actions[k], i, s.rooms[st.room].mark.value)
                      && SettleQueues(s.rooms[st.room].mark.value, true) in actions[..k]))
  {
    var s := Run(s0, actions);
    assert Reachable(s);
    PersistenceIsGated(s, a, i);
    var st := s.stores[i];
    if st.authorizedAt == Some(st.attempt) {
      AuthorizedBefore(s0, actions, i);
    } else {
      RunOk(s0, actions);
      assert StoreOk(s.marks, i, st);
      EarnedBefore(s0, actions, st.grant.value);
    }
  }
}
