/**
 * What a store achieves under competition: as long as its room is neither invalidated nor marked anew and nobody opens
 * another generation, an invocation that gets favourable answers is over after at most forty of its own segments,
 * whatever the other rooms, stores and replicas do in between, and its content is durable unless it lost the
 * compare-and-swap four times. A final drain under a registered mark is one of the two cases.
 */
module CollabCompletion {
  import opened Options
  import opened CollabModel
  import D = CollabDurability
  import G = CollabGating
  import O = CollabOutcomes

  const MAX_SEGMENTS := 40

  // ---------------------------------------------------------------------------------------------------------
  // Competition
  // ---------------------------------------------------------------------------------------------------------

  // The segment that follows at `pc`, with an answer that lets the invocation go on. A compare-and-swap may still be
  // lost, and under a grant live authorization may also refuse.
  predicate Favourable(pc: Pc, e: StoreEvent) {
    match pc
    case Attempting => e == BeginAttempt(Fits)
    case AwaitingQueues(_, _, _) => e.QueuesSettled?
    case ConsumeReplied(_, _, _) => e.ResumeConsume?
    case AwaitingAuthorization(drain) =>
      e.ResumeAuthorize? && (e.answer.Granted? || (drain.Consumed? && e.answer.Refused?))
    case Authorized(_) => e == ResumeAuthorized(Fits)
    case Persisting(_) => e.Commit? && e.acknowledged
    case PersistReturned(_, _, _) => e.ResumePersist?
    case PersistThrew(_) => e.ResumePersist?
    case Reloading => e.Reload?
    case Reloaded(_) => e.ResumeReload?
    case Finished(_) => true
  }

  // The room of store `i` is live and in the row's generation; it is unmarked, or disconnected with a drained mark
  // that no other store has taken.
  predicate Stands(s: State, i: StoreId, drain: Option<MarkId>) {
    && i in s.stores && s.stores[i].room in s.rooms
    && s.db.row.live && s.db.row.generation == s.stores[i].generation
    && var room := s.rooms[s.stores[i].room];
       && !room.invalidated && room.mark == drain
       && (drain.Some? ==>
             && room.connections == 0 && drain.value in s.marks && s.marks[drain.value].ready == Some(true)
             && (s.marks[drain.value].consuming.None? || s.marks[drain.value].consuming == Some(i)))
  }

  // Until store `i` is over its room stands and its answers are favourable; the other actions are arbitrary.
  predicate Unhindered(s: State, a: Action, i: StoreId, drain: Option<MarkId>) {
    i in s.stores && !s.stores[i].pc.Finished? ==>
      Stands(s, i, drain) && (a.InStore? && a.store == i ==> Favourable(s.stores[i].pc, a.step))
  }

  ghost function Losses(s: State, actions: seq<Action>, i: StoreId): nat
    decreases |actions|
  {
    if actions == [] then 0
    else
      var n := |actions| - 1;
      Losses(s, actions[..n], i) + if O.Loses(Run(s, actions[..n]), actions[n], i) then 1 else 0
  }

  function OwnSegments(actions: seq<Action>, i: StoreId): nat
    decreases |actions|
  {
    if actions == [] then 0
    else
      var n := |actions| - 1;
      OwnSegments(actions[..n], i) + if actions[n].InStore? && actions[n].store == i then 1 else 0
  }

  // ---------------------------------------------------------------------------------------------------------
  // One segment
  // ---------------------------------------------------------------------------------------------------------

  // Where an unhindered invocation can be. `lost` is how often it has lost the compare-and-swap.
  predicate OnTrack(st: Store, drain: Option<MarkId>, lost: nat) {
    && (st.grant.Some? ==> st.grant == drain)
    && match st.pc
       case Attempting => lost == st.attempt
       case AwaitingQueues(recheck, _, m) => lost == st.attempt && !recheck && drain == Some(m)
       case ConsumeReplied(recheck, authorized, result) =>
         && lost == st.attempt && st.grant == drain
         && (if drain.Some? then result.Consumed? else recheck && authorized && result.Unmarked?)
       case AwaitingAuthorization(result) =>
         lost == st.attempt && st.grant == drain && (if drain.Some? then result.Consumed? else result.Unmarked?)
       case Authorized(owned) => lost == st.attempt && st.grant == drain && (owned <==> drain.Some?)
       case Persisting(_) => lost == st.attempt && st.grant == drain
       case PersistReturned(_, _, _) => lost == st.attempt && st.grant == drain
       case PersistThrew(error) => lost == st.attempt + 1 && error.Conflict? && st.grant == drain
       case Reloading => lost == st.attempt + 1 && st.grant == drain
       case Reloaded(row) =>
         lost == st.attempt + 1 && st.grant == drain && row.live && row.generation == st.generation
       case Finished(outcome) =>
         if outcome.Acknowledged? then lost < MAX_STORE_ATTEMPTS && st.grant == drain else lost == MAX_STORE_ATTEMPTS
  }

  function Position(pc: Pc): nat {
    match pc
    case Attempting => 0
    case AwaitingQueues(_, _, _) => 1
    case ConsumeReplied(recheck, _, _) => if recheck then 4 else 2
    case AwaitingAuthorization(_) => 3
    case Authorized(_) => 5
    case Persisting(_) => 6
    case PersistReturned(_, _, _) => 7
    case PersistThrew(_) => 7
    case Reloading => 8
    case Reloaded(_) => 9
    case Finished(_) => 10
  }

  // How many segments the invocation may still take.
  function Rank(st: Store): int {
    if st.pc.Finished? then 0 else (MAX_STORE_ATTEMPTS - st.attempt) * 10 - Position(st.pc)
  }

  // Store `i` has advanced by one segment.
  ghost predicate Advanced(s: State, s': State, i: StoreId, drain: Option<MarkId>, lost: nat)
    requires i in s.stores
  {
    && i in s'.stores && OnTrack(s'.stores[i], drain, lost)
    && (s'.stores[i].pc.Finished? || Rank(s'.stores[i]) < Rank(s.stores[i]))
  }

  // What a segment may start from.
  ghost predicate Ready(s: State, e: StoreEvent, i: StoreId, drain: Option<MarkId>, lost: nat) {
    && Stands(s, i, drain) && G.PcOk(s.stores[i]) && OnTrack(s.stores[i], drain, lost)
    && Favourable(s.stores[i].pc, e) && !s.stores[i].pc.Finished?
  }

  lemma BeginAdvances(s: State, e: StoreEvent, i: StoreId, drain: Option<MarkId>, lost: nat)
    requires G.Inv(s) && Ready(s, e, i, drain, lost) && s.stores[i].pc.Attempting?
    ensures Advanced(s, StoreAction(s, e, i), i, drain, lost + if O.Loses(s, InStore(i, e), i) then 1 else 0)
  {
    var st := s.stores[i];
    if drain.Some? && !st.finalDrain {
      G.NothingTaken(s, i);
      assert G.MarkOk(s.rooms, s.stores, drain.value, s.marks[drain.value]);
    }
    hide G.Inv;
  }

  lemma TakeAdvances(s: State, e: StoreEvent, i: StoreId, drain: Option<MarkId>, lost: nat)
    requires Ready(s, e, i, drain, lost) && (s.stores[i].pc.AwaitingQueues? || s.stores[i].pc.ConsumeReplied?)
    ensures Advanced(s, StoreAction(s, e, i), i, drain, lost + if O.Loses(s, InStore(i, e), i) then 1 else 0)
  {
  }

  lemma AuthorizeAdvances(s: State, e: StoreEvent, i: StoreId, drain: Option<MarkId>, lost: nat)
    requires Ready(s, e, i, drain, lost) && (s.stores[i].pc.AwaitingAuthorization? || s.stores[i].pc.Authorized?)
    ensures Advanced(s, StoreAction(s, e, i), i, drain, lost + if O.Loses(s, InStore(i, e), i) then 1 else 0)
  {
  }

  lemma PersistAdvances(s: State, e: StoreEvent, i: StoreId, drain: Option<MarkId>, lost: nat)
    requires Ready(s, e, i, drain, lost) && s.stores[i].pc.Persisting?
    ensures Advanced(s, StoreAction(s, e, i), i, drain, lost + if O.Loses(s, InStore(i, e), i) then 1 else 0)
  {
  }

  lemma ReturnAdvances(s: State, e: StoreEvent, i: StoreId, drain: Option<MarkId>, lost: nat)
    requires D.Inv(s) && Ready(s, e, i, drain, lost)
    requires s.stores[i].pc.PersistReturned? || s.stores[i].pc.PersistThrew?
    ensures Advanced(s, StoreAction(s, e, i), i, drain, lost + if O.Loses(s, InStore(i, e), i) then 1 else 0)
  {
    assert D.StoreOk(s.db, s.rooms[s.stores[i].room], s.stores[i]);
    hide D.Inv;
  }

  lemma ReloadAdvances(s: State, e: StoreEvent, i: StoreId, drain: Option<MarkId>, lost: nat)
    requires Ready(s, e, i, drain, lost) && (s.stores[i].pc.Reloading? || s.stores[i].pc.Reloaded?)
    ensures Advanced(s, StoreAction(s, e, i), i, drain, lost + if O.Loses(s, InStore(i, e), i) then 1 else 0)
  {
  }

  lemma SegmentAdvances(s: State, e: StoreEvent, i: StoreId, drain: Option<MarkId>, lost: nat)
    requires D.Inv(s) && G.Inv(s) && Ready(s, e, i, drain, lost)
    requires i in s.stores && s.stores[i].room in s.rooms && !s.stores[i].pc.Finished?
    ensures Advanced(s, StoreAction(s, e, i), i, drain, lost + if O.Loses(s, InStore(i, e), i) then 1 else 0)
  {
    hide *;
    match s.stores[i].pc
    case Attempting => BeginAdvances(s, e, i, drain, lost);
    case AwaitingQueues(_, _, _) => TakeAdvances(s, e, i, drain, lost);
    case ConsumeReplied(_, _, _) => TakeAdvances(s, e, i, drain, lost);
    case AwaitingAuthorization(_) => AuthorizeAdvances(s, e, i, drain, lost);
    case Authorized(_) => AuthorizeAdvances(s, e, i, drain, lost);
    case Persisting(_) => PersistAdvances(s, e, i, drain, lost);
    case PersistReturned(_, _, _) => ReturnAdvances(s, e, i, drain, lost);
    case PersistThrew(_) => ReturnAdvances(s, e, i, drain, lost);
    case Reloading => ReloadAdvances(s, e, i, drain, lost);
    case Reloaded(_) => ReloadAdvances(s, e, i, drain, lost);
    case Finished(_) =>
  }

  // ---------------------------------------------------------------------------------------------------------
  // Whole runs
  // ---------------------------------------------------------------------------------------------------------

  ghost predicate Going(s: State, i: StoreId, drain: Option<MarkId>, lost: nat, segments: nat) {
    && i in s.stores && OnTrack(s.stores[i], drain, lost)
    && (s.stores[i].pc.Finished? || segments + Rank(s.stores[i]) <= MAX_SEGMENTS)
  }

  lemma StepGoes(s: State, a: Action, i: StoreId, drain: Option<MarkId>, lost: nat, segments: nat)
    requires D.Inv(s) && G.Inv(s) && Going(s, i, drain, lost, segments) && Unhindered(s, a, i, drain)
    ensures Going(Apply(s, a), i, drain, lost + (if O.Loses(s, a, i) then 1 else 0),
                  segments + if a.InStore? && a.store == i then 1 else 0)
  {
    G.StepSummary(s, a, Apply(s, a), i);
    hide StoreAction, RoomAction, D.Inv, OnTrack, Stands, Favourable;
    if a.InStore? && a.store == i && !s.stores[i].pc.Finished? {
      G.InvPcOk(s, i);
      hide G.Inv, G.PcOk;
      SegmentAdvances(s, a.step, i, drain, lost);
    }
  }

  lemma GoesAtStart(s: State, i: StoreId, drain: Option<MarkId>)
    requires i in s.stores && s.stores[i].pc.Attempting? && s.stores[i].attempt == 0 && s.stores[i].grant.None?
    ensures Going(s, i, drain, 0, 0)
  {
  }

  lemma {:induction false} RunGoes(s: State, actions: seq<Action>, i: StoreId, drain: Option<MarkId>)
    requires D.Inv(s) && G.Inv(s) && i in s.stores && s.stores[i].pc.Attempting? && s.stores[i].attempt == 0
    requires s.stores[i].grant.None?
    requires forall k | 0 <= k < |actions| :: Unhindered(Run(s, actions[..k]), actions[k], i, drain)
    ensures D.Inv(Run(s, actions)) && G.Inv(Run(s, actions))
    ensures Going(Run(s, actions), i, drain, Losses(s, actions, i), OwnSegments(actions, i))
    decreases |actions|
  {
    hide Apply, D.Inv, G.Inv, Unhindered, Going, O.Loses;
    if actions == [] {
      GoesAtStart(s, i, drain);
    } else {
      var n := |actions| - 1;
      forall k | 0 <= k < n ensures Unhindered(Run(s, actions[..n][..k]), actions[..n][k], i, drain) {
        assert actions[..n][..k] == actions[..k];
      }
      RunGoes(s, actions[..n], i, drain);
      var t := Run(s, actions[..n]);
      D.ApplyOk(t, actions[n]);
      G.ApplyOk(t, actions[n]);
      StepGoes(t, actions[n], i, drain, Losses(s, actions[..n], i), OwnSegments(actions[..n], i));
    }
  }

  // Store `i` ended acknowledged: `before` is durable in its generation and the drain, if there is one, is completed.
  ghost predicate Achieved(end: State, i: StoreId, before: set<Update>, drain: Option<MarkId>)
    requires i in end.stores
  {
    && G.IsAcknowledged(end.stores[i].pc)
    && var outcome := end.stores[i].pc.outcome;
       && before <= outcome.snapshot && O.Kept(end.db, outcome.version, outcome.generation, outcome.snapshot)
       && (drain.Some? ==> drain.value in end.marks && end.marks[drain.value].completed)
  }

  // However its segments are interleaved with everything else: a store that nothing but competing stores stands in the
  // way of is over after forty segments of its own. Then everything that was in its room at the start is durable in
  // the room's generation and a registered drain is completed, unless it lost the compare-and-swap four times.
  lemma CompetingStoreEnds(s: State, actions: seq<Action>, i: StoreId, drain: Option<MarkId>)
    requires Reachable(s) && i in s.stores && s.stores[i].pc.Attempting? && s.stores[i].attempt == 0
    requires !s.stores[i].finalDrain
    requires forall k | 0 <= k < |actions| :: Unhindered(Run(s, actions[..k]), actions[k], i, drain)
    ensures var end := Run(s, actions);
            && i in end.stores && s.stores[i].room in s.rooms
            && (OwnSegments(actions, i) >= MAX_SEGMENTS ==> end.stores[i].pc.Finished?)
            && (end.stores[i].pc.Finished? ==>
                  if Losses(s, actions, i) < MAX_STORE_ATTEMPTS then Achieved(end, i, s.rooms[s.stores[i].room].content, drain)
                  else Losses(s, actions, i) == MAX_STORE_ATTEMPTS && !G.IsAcknowledged(end.stores[i].pc))
  {
    D.ReachableOk(s);
    G.ReachableOk(s);
    StartsFresh(s, i);
    RunGoes(s, actions, i, drain);
    assert actions[..0] == [] && Run(s, []) == s;
    hide *;
    var end := Run(s, actions);
    O.RoomStays(s, actions, 0, i);
    var lost, segments := Losses(s, actions, i), OwnSegments(actions, i);
    RankIsPositive(end, i, drain, lost, segments);
    if end.stores[i].pc.Finished? { FinishedOnTrack(end, i, drain, lost, segments); }
    if end.stores[i].pc.Finished? && lost < MAX_STORE_ATTEMPTS {
      O.HandsOverEverything(s, actions, 0, i);
      HandedIsAchieved(end, i, s.rooms[s.stores[i].room].content, drain);
    }
  }

  lemma StartsFresh(s: State, i: StoreId)
    requires D.Inv(s) && G.Inv(s) && i in s.stores && s.stores[i].pc.Attempting? && !s.stores[i].finalDrain
    ensures s.stores[i].grant.None? && s.stores[i].room in s.rooms && O.NotHanded(s, i)
  {
    G.InvPcOk(s, i);
  }

  lemma RankIsPositive(s: State, i: StoreId, drain: Option<MarkId>, lost: nat, segments: nat)
    requires G.Inv(s) && Going(s, i, drain, lost, segments)
    ensures i in s.stores && (segments >= MAX_SEGMENTS ==> s.stores[i].pc.Finished?)
  {
    G.InvPcOk(s, i);
    hide G.Inv, OnTrack;
  }

  lemma FinishedOnTrack(s: State, i: StoreId, drain: Option<MarkId>, lost: nat, segments: nat)
    requires Going(s, i, drain, lost, segments) && i in s.stores && s.stores[i].pc.Finished?
    ensures lost <= MAX_STORE_ATTEMPTS && (lost < MAX_STORE_ATTEMPTS <==> G.IsAcknowledged(s.stores[i].pc))
    ensures lost < MAX_STORE_ATTEMPTS ==>
              s.stores[i].grant == drain && G.Handed(s.stores[i].pc) == Some(s.stores[i].pc.outcome.snapshot)
  {
  }

  lemma HandedIsAchieved(s: State, i: StoreId, before: set<Update>, drain: Option<MarkId>)
    requires D.Inv(s) && G.Inv(s) && i in s.stores && G.IsAcknowledged(s.stores[i].pc) && s.stores[i].grant == drain
    requires before <= s.stores[i].pc.outcome.snapshot
    ensures Achieved(s, i, before, drain)
  {
    assert D.StoreOk(s.db, s.rooms[s.stores[i].room], s.stores[i]);
    assert G.StoreOk(s.marks, i, s.stores[i]);
    if drain.Some? { assert G.MarkOk(s.rooms, s.stores, drain.value, s.marks[drain.value]); }
  }
}
