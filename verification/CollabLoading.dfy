/**
 * How a room is loaded, in every run of the collaboration protocol: a live row is taken up with its version and
 * generation, an HTML-only row gets the Yjs identity the bootstrap stored, and a missing row is repaired and read once
 * more before the load fails.
 */
module CollabLoading {
  import opened Options
  import opened CollabModel
  import D = CollabDurability
  import G = CollabGating
  import O = CollabOutcomes
  import P = CollabProgress

  // The event that takes a loading room on from this phase.
  predicate TakesOn(phase: Phase, e: RoomEvent) {
    match phase
    case Opening(_) => e.ReadRow?
    case Repairing => e.Repair?
    case RowRead(_) => e.ResumeLoad?
    case Bootstrapping(_) => e.Bootstrap?
    case Bootstrapped(_, _) => e.FinishBootstrap?
    case Loaded(_, _) => false
    case LoadFailed => false
  }

  // Room `r` is loading, empty, and in this phase.
  ghost predicate Stands(s: State, r: RoomId, phase: Phase) {
    r in s.rooms && s.rooms[r].phase == phase && !phase.Loaded? && s.rooms[r].content == {}
  }

  predicate Moves(a: Action, r: RoomId, phase: Phase) {
    a.InRoom? && a.room == r && TakesOn(phase, a.event)
  }

  lemma LoadingIsEmpty(s: State, r: RoomId)
    requires D.Inv(s) && r in s.rooms && !s.rooms[r].phase.Loaded?
    ensures Stands(s, r, s.rooms[r].phase)
  {
    assert D.RoomOk(s.db, s.rooms[r]);
  }

  lemma EventLeavesPhase(s: State, e: RoomEvent, r: RoomId, r': RoomId, phase: Phase)
    requires r in s.rooms && Stands(s, r', phase) && (r != r' || !TakesOn(phase, e))
    ensures Stands(RoomAction(s, e, r), r', phase)
  {
  }

  lemma StoreLeavesPhase(s: State, e: StoreEvent, i: StoreId, r: RoomId, phase: Phase)
    requires D.Inv(s) && i in s.stores && s.stores[i].room in s.rooms && Stands(s, r, phase)
    ensures Stands(StoreAction(s, e, i), r, phase)
  {
    assert D.StoreOk(s.db, s.rooms[s.stores[i].room], s.stores[i]);
    hide D.Inv;
    G.StoreSummary(s, e, i);
    hide StoreAction;
  }

  lemma StepLeavesPhase(s: State, a: Action, r: RoomId, phase: Phase)
    requires D.Inv(s) && Stands(s, r, phase) && !Moves(a, r, phase)
    ensures Stands(Apply(s, a), r, phase)
  {
    hide StoreAction, RoomAction, D.Inv;
    if a.InStore? && a.store in s.stores && s.stores[a.store].room in s.rooms {
      StoreLeavesPhase(s, a.step, a.store, r, phase);
    }
    if a.InRoom? && a.room in s.rooms { EventLeavesPhase(s, a.event, a.room, r, phase); }
  }

  // Nothing but its own next segment moves a loading room.
  lemma {:induction false} PhaseWaits(s0: State, actions: seq<Action>, k: nat, n: nat, r: RoomId, phase: Phase)
    requires Initial(s0) && k <= n <= |actions| && Stands(Run(s0, actions[..k]), r, phase)
    requires forall i | k <= i < n :: !Moves(actions[i], r, phase)
    ensures Stands(Run(s0, actions[..n]), r, phase)
    decreases n - k
  {
    hide Apply, Stands, Initial;
    if k < n {
      PhaseWaits(s0, actions, k, n - 1, r, phase);
      assert actions[..n][..n - 1] == actions[..n - 1];
      D.RunOk(s0, actions[..n - 1]);
      StepLeavesPhase(Run(s0, actions[..n - 1]), actions[n - 1], r, phase);
    }
  }

  // Step `k` is the first after step `j` that takes room `r` on from the phase it had after step `j`.
  ghost predicate NextMove(s0: State, actions: seq<Action>, j: nat, k: nat, r: RoomId)
    requires j < k < |actions|
  {
    var s := Run(s0, actions[..j + 1]);
    && r in s.rooms && Moves(actions[k], r, s.rooms[r].phase)
    && forall i | j < i < k :: !Moves(actions[i], r, s.rooms[r].phase)
  }

  // What one move of a loading room finds and leaves.
  lemma MoveOn(s0: State, actions: seq<Action>, j: nat, k: nat, r: RoomId)
    requires Initial(s0) && j < k < |actions| && NextMove(s0, actions, j, k, r)
    ensures var phase := Run(s0, actions[..j + 1]).rooms[r].phase;
            && Stands(Run(s0, actions[..k]), r, phase)
            && Run(s0, actions[..k + 1]) == RoomAction(Run(s0, actions[..k]), actions[k].event, r)
  {
    D.RunOk(s0, actions[..j + 1]);
    LoadingIsEmpty(Run(s0, actions[..j + 1]), r);
    var phase := Run(s0, actions[..j + 1]).rooms[r].phase;
    PhaseWaits(s0, actions, j + 1, k, r, phase);
    O.AfterStep(s0, actions, k);
    hide Run, RoomAction;
  }

  // At step `k` room `r` reads the row for the first or the second time.
  predicate Reads(s: State, a: Action, r: RoomId) {
    a == InRoom(r, ReadRow) && r in s.rooms && s.rooms[r].phase.Opening?
  }

  lemma ReadFinds(s0: State, actions: seq<Action>, k: nat, r: RoomId)
    requires k < |actions| && Reads(Run(s0, actions[..k]), actions[k], r)
    ensures var s, s' := Run(s0, actions[..k]), Run(s0, actions[..k + 1]);
            && r in s'.rooms && s'.db == s.db
            && s'.rooms[r].phase ==
                 if s.db.row.live then RowRead(s.db.row)
                 else if s.rooms[r].phase.retried then LoadFailed else Repairing
  {
    O.AfterStep(s0, actions, k);
    hide Run;
  }

  // A room that has read a live row with a Yjs state, or with no body at all, is loaded at the row's version and
  // generation with exactly that state by its next load segment, whatever came in between.
  lemma LoadTakesTheRow(s0: State, actions: seq<Action>, k: nat, j: nat, r: RoomId)
    requires Initial(s0) && k < j < |actions| && Reads(Run(s0, actions[..k]), actions[k], r)
    requires var row := Run(s0, actions[..k]).db.row; row.live && (row.yjs.Some? || !row.html)
    requires NextMove(s0, actions, k, j, r)
    ensures var row, s' := Run(s0, actions[..k]).db.row, Run(s0, actions[..j + 1]);
            && actions[j] == InRoom(r, ResumeLoad) && r in s'.rooms
            && s'.rooms[r].phase == Loaded(row.version, row.generation)
            && s'.rooms[r].content == if row.yjs.Some? then row.yjs.value else {}
  {
    ReadFinds(s0, actions, k, r);
    MoveOn(s0, actions, k, j, r);
    hide Run;
  }

  lemma HtmlGoesOn(s: State, r: RoomId, row: Row)
    requires Stands(s, r, RowRead(row)) && row.yjs.None? && row.html
    ensures var s' := RoomAction(s, ResumeLoad, r); r in s'.rooms && s'.rooms[r].phase == Bootstrapping(row)
  {
  }

  // The state a bootstrap hands to its room is the one it leaves in the row.
  ghost predicate HandsOver(before: Db, after: Db, minted: set<Update>, state: Option<set<Update>>) {
    if before.documentLive && before.row.live && (before.row.yjs.Some? || before.row.html) then
      && state.Some? && after.row.yjs == state
      && state.value == if before.row.yjs.Some? then before.row.yjs.value else minted
    else state.None?
  }

  lemma BootstrapStores(s: State, e: RoomEvent, r: RoomId, row: Row)
    requires Stands(s, r, Bootstrapping(row)) && e.Bootstrap?
    ensures var s' := RoomAction(s, e, r);
            && r in s'.rooms && s'.rooms[r].phase.Bootstrapped? && s'.rooms[r].phase.row == row
            && HandsOver(s.db, s'.db, e.minted, s'.rooms[r].phase.state)
  {
  }

  lemma FinishTakes(s: State, r: RoomId, row: Row, state: Option<set<Update>>)
    requires Stands(s, r, Bootstrapped(row, state))
    ensures var s' := RoomAction(s, FinishBootstrap, r);
            && r in s'.rooms && s'.rooms[r].phase == Loaded(row.version, row.generation)
            && s'.rooms[r].content == if state.Some? then state.value else {}
  {
  }

  // What a room gets out of the bootstrap: the identity the row had or the one minted for it, which is then in the row.
  predicate Receives(before: Db, after: Db, minted: set<Update>, content: set<Update>) {
    if before.documentLive && before.row.live && (before.row.yjs.Some? || before.row.html) then
      && after.row.yjs == Some(content)
      && content == if before.row.yjs.Some? then before.row.yjs.value else minted
    else content == {}
  }

  lemma HtmlIsBootstrapped(s0: State, actions: seq<Action>, k: nat, j: nat, r: RoomId)
    requires Initial(s0) && k < j < |actions| && Reads(Run(s0, actions[..k]), actions[k], r)
    requires var row := Run(s0, actions[..k]).db.row; row.live && row.yjs.None? && row.html
    requires NextMove(s0, actions, k, j, r)
    ensures var s' := Run(s0, actions[..j + 1]);
            r in s'.rooms && s'.rooms[r].phase == Bootstrapping(Run(s0, actions[..k]).db.row)
  {
    ReadFinds(s0, actions, k, r);
    MoveOn(s0, actions, k, j, r);
    hide Run, Stands;
    HtmlGoesOn(Run(s0, actions[..j]), r, Run(s0, actions[..k]).db.row);
  }

  lemma BootstrapHandsOver(s0: State, actions: seq<Action>, j: nat, l: nat, r: RoomId, row: Row)
    requires Initial(s0) && j < l < |actions| && NextMove(s0, actions, j, l, r)
    requires r in Run(s0, actions[..j + 1]).rooms && Run(s0, actions[..j + 1]).rooms[r].phase == Bootstrapping(row)
    ensures actions[l].InRoom? && actions[l].event.Bootstrap?
    ensures var s' := Run(s0, actions[..l + 1]);
            && r in s'.rooms && s'.rooms[r].phase.Bootstrapped? && s'.rooms[r].phase.row == row
            && HandsOver(Run(s0, actions[..l]).db, s'.db, actions[l].event.minted, s'.rooms[r].phase.state)
  {
    MoveOn(s0, actions, j, l, r);
    hide Run, Stands, HandsOver, RoomAction;
    BootstrapStores(Run(s0, actions[..l]), actions[l].event, r, row);
  }

  lemma BootstrappedIsLoaded(s0: State, actions: seq<Action>, l: nat, m: nat, r: RoomId) returns (state: Option<set<Update>>)
    requires Initial(s0) && l < m < |actions| && NextMove(s0, actions, l, m, r)
    requires r in Run(s0, actions[..l + 1]).rooms && Run(s0, actions[..l + 1]).rooms[r].phase.Bootstrapped?
    ensures state == Run(s0, actions[..l + 1]).rooms[r].phase.state
    ensures var row, s' := Run(s0, actions[..l + 1]).rooms[r].phase.row, Run(s0, actions[..m + 1]);
            && r in s'.rooms && s'.rooms[r].phase == Loaded(row.version, row.generation)
            && s'.rooms[r].content == if state.Some? then state.value else {}
  {
    MoveOn(s0, actions, l, m, r);
    hide Run, Stands, RoomAction;
    var phase := Run(s0, actions[..l + 1]).rooms[r].phase;
    state := phase.state;
    FinishTakes(Run(s0, actions[..m]), r, phase.row, state);
  }

  lemma WhatIsReceived(before: Db, after: Db, minted: set<Update>, state: Option<set<Update>>)
    requires HandsOver(before, after, minted, state)
    ensures Receives(before, after, minted, if state.Some? then state.value else {})
  {
  }

  // A room that has read an HTML-only row is loaded, at that row's version and generation, with the Yjs identity that
  // its bootstrap found or stored in the row; without a live document, or with the body gone meanwhile, it is empty.
  lemma LoadTakesTheBootstrap(s0: State, actions: seq<Action>, k: nat, j: nat, l: nat, m: nat, r: RoomId)
    requires Initial(s0) && k < j < l < m < |actions| && Reads(Run(s0, actions[..k]), actions[k], r)
    requires var row := Run(s0, actions[..k]).db.row; row.live && row.yjs.None? && row.html
    requires NextMove(s0, actions, k, j, r) && NextMove(s0, actions, j, l, r) && NextMove(s0, actions, l, m, r)
    ensures var row, s' := Run(s0, actions[..k]).db.row, Run(s0, actions[..m + 1]);
            var before, after := Run(s0, actions[..l]).db, Run(s0, actions[..l + 1]).db;
            && actions[l].InRoom? && actions[l].event.Bootstrap?
            && r in s'.rooms && s'.rooms[r].phase == Loaded(row.version, row.generation)
            && Receives(before, after, actions[l].event.minted, s'.rooms[r].content)
  {
    hide *;
    HtmlIsBootstrapped(s0, actions, k, j, r);
    BootstrapHandsOver(s0, actions, j, l, r, Run(s0, actions[..k]).db.row);
    var state := BootstrappedIsLoaded(s0, actions, l, m, r);
    WhatIsReceived(Run(s0, actions[..l]).db, Run(s0, actions[..l + 1]).db, actions[l].event.minted, state);
  }

  // As long as the document lives and its generation lasts, that identity is in the row for good.
  lemma BootstrapStays(s0: State, actions: seq<Action>, l: nat)
    requires Initial(s0) && l < |actions| && Run(s0, actions[..l + 1]).db.row.yjs.Some?
    requires Run(s0, actions).db.row.generation == Run(s0, actions[..l + 1]).db.row.generation
    ensures Run(s0, actions).db.row.yjs.Some?
            && Run(s0, actions[..l + 1]).db.row.yjs.value <= Run(s0, actions).db.row.yjs.value
  {
    D.NoDurableUpdateLost(s0, actions, l + 1);
  }

  // A room that finds no row repairs it and reads once more; with a live document the repair brings a live row.
  lemma MissingRowIsRepaired(s0: State, actions: seq<Action>, k: nat, j: nat, r: RoomId)
    requires Initial(s0) && k < j < |actions| && Reads(Run(s0, actions[..k]), actions[k], r)
    requires !Run(s0, actions[..k]).db.row.live && !Run(s0, actions[..k]).rooms[r].phase.retried
    requires NextMove(s0, actions, k, j, r)
    ensures actions[j].InRoom? && actions[j].event.Repair?
    ensures Stands(Run(s0, actions[..j + 1]), r, Opening(true))
    ensures var before, after := Run(s0, actions[..j]).db, Run(s0, actions[..j + 1]).db;
            && (before.documentLive ==> after.row.live)
            && (before.documentLive && !before.row.live ==>
                  && after.row.generation == before.row.generation + 1 && after.row.version > before.row.version
                  && after.row.yjs == None && !after.row.html)
  {
    ReadFinds(s0, actions, k, r);
    MoveOn(s0, actions, k, j, r);
    hide Run;
  }

  lemma PhaseChange(s: State, a: Action, r: RoomId)
    requires D.Inv(s) && r in s.rooms && !s.rooms[r].phase.Loaded?
    requires r in Apply(s, a).rooms && Apply(s, a).rooms[r].phase != s.rooms[r].phase
    ensures Moves(a, r, s.rooms[r].phase)
  {
    if !Moves(a, r, s.rooms[r].phase) {
      LoadingIsEmpty(s, r);
      StepLeavesPhase(s, a, r, s.rooms[r].phase);
    }
  }

  lemma BornOpening(s: State, a: Action, r: RoomId)
    requires r !in s.rooms && r in Apply(s, a).rooms
    ensures Apply(s, a).rooms[r].phase == Opening(false)
  {
    hide StoreAction, RoomAction;
    if a.InStore? && a.store in s.stores && s.stores[a.store].room in s.rooms { G.StoreSummary(s, a.step, a.store); }
    if a.InRoom? && a.room in s.rooms { G.RoomKeepsInvalidation(s, a.event, a.room); }
  }

  lemma LoadedStaysLoaded(s: State, a: Action, r: RoomId)
    requires D.Inv(s) && r in s.rooms && s.rooms[r].phase.Loaded?
    ensures r in Apply(s, a).rooms && Apply(s, a).rooms[r].phase.Loaded?
    ensures Apply(s, a).rooms[r].phase.generation == s.rooms[r].phase.generation
  {
    if a.InStore? && a.store in s.stores {
      assert D.StoreOk(s.db, s.rooms[s.stores[a.store].room], s.stores[a.store]);
    }
    hide StoreAction, RoomAction, D.Inv, D.StoreOk;
    if a.InStore? && a.store in s.stores && s.stores[a.store].room in s.rooms {
      G.StoreSummary(s, a.step, a.store);
      StoreKeepsLoaded(s, a.step, a.store);
    }
    if a.InRoom? && a.room in s.rooms { RoomKeepsLoaded(s, a.event, a.room); }
  }

  lemma StoreKeepsLoaded(s: State, e: StoreEvent, i: StoreId)
    requires i in s.stores && s.stores[i].room in s.rooms && s.rooms[s.stores[i].room].phase.Loaded?
    requires s.stores[i].generation == s.rooms[s.stores[i].room].phase.generation
    ensures var r := s.stores[i].room; var rooms := StoreAction(s, e, i).rooms;
            r in rooms && rooms[r].phase.Loaded? && rooms[r].phase.generation == s.rooms[r].phase.generation
  {
    if !e.ResumeReload? {
      P.StoreKeepsBuffer(s, e, i);
      hide StoreAction;
    }
  }

  lemma RoomKeepsLoaded(s: State, e: RoomEvent, r: RoomId)
    requires r in s.rooms
    ensures var s' := RoomAction(s, e, r);
            r in s'.rooms && s'.rooms == s.rooms[r := s'.rooms[r]]
            && (s.rooms[r].phase.Loaded? ==>
                  s'.rooms[r].phase.Loaded? && s'.rooms[r].phase.generation == s.rooms[r].phase.generation)
  {
  }

  lemma MovesAct(s: State, a: Action, r: RoomId)
    requires r in s.rooms && Moves(a, r, s.rooms[r].phase)
    ensures Apply(s, a) == RoomAction(s, a.event, r)
  {
  }

  // A room comes into this phase by one of its own moves.
  lemma {:induction false} CameFrom(s0: State, actions: seq<Action>, r: RoomId, phase: Phase) returns (k: nat)
    requires Initial(s0) && !phase.Loaded? && phase != Opening(false)
    requires r in Run(s0, actions).rooms && Run(s0, actions).rooms[r].phase == phase
    ensures k < |actions| && r in Run(s0, actions[..k]).rooms && r in Run(s0, actions[..k + 1]).rooms
    ensures Moves(actions[k], r, Run(s0, actions[..k]).rooms[r].phase)
    ensures Run(s0, actions[..k + 1]).rooms[r].phase == phase
    ensures Run(s0, actions[..k + 1]) == RoomAction(Run(s0, actions[..k]), actions[k].event, r)
  {
    k := G.FirstMoment(s0, actions, (s: State) => r in s.rooms && s.rooms[r].phase == phase);
    var s := Run(s0, actions[..k]);
    D.RunOk(s0, actions[..k]);
    hide Apply, D.Inv;
    if r !in s.rooms { BornOpening(s, actions[k], r); }
    else if s.rooms[r].phase.Loaded? { LoadedStaysLoaded(s, actions[k], r); }
    else { PhaseChange(s, actions[k], r); }
    MovesAct(s, actions[k], r);
  }

  lemma WhatMissed(s: State, a: Action, r: RoomId)
    requires r in s.rooms && Moves(a, r, s.rooms[r].phase)
    ensures var s' := RoomAction(s, a.event, r);
            && r in s'.rooms
            && (s'.rooms[r].phase == LoadFailed ==>
                  Reads(s, a, r) && !s.db.row.live && s.rooms[r].phase == Opening(true))
            && (s'.rooms[r].phase == Opening(true) ==> a.event.Repair? && s.rooms[r].phase == Repairing)
            && (s'.rooms[r].phase == Repairing ==> Reads(s, a, r) && !s.db.row.live)
            && a.InRoom? && a.room == r
  {
  }

  // A load fails only after it missed the row twice, with a repair in between.
  lemma LoadFailsOnlyAfterTwoMisses(s0: State, actions: seq<Action>, r: RoomId)
    requires Initial(s0) && r in Run(s0, actions).rooms && Run(s0, actions).rooms[r].phase == LoadFailed
    ensures exists j, k, l ::
              && 0 <= j < k < l < |actions|
              && Reads(Run(s0, actions[..j]), actions[j], r) && !Run(s0, actions[..j]).db.row.live
              && actions[k].InRoom? && actions[k].room == r && actions[k].event.Repair?
              && Reads(Run(s0, actions[..l]), actions[l], r) && !Run(s0, actions[..l]).db.row.live
  {
    hide Run, RoomAction, Moves;
    var l := CameFrom(s0, actions, r, LoadFailed);
    WhatMissed(Run(s0, actions[..l]), actions[l], r);
    var k := CameFrom(s0, actions[..l], r, Opening(true));
    assert actions[..l][..k] == actions[..k] && actions[..l][..k + 1] == actions[..k + 1];
    WhatMissed(Run(s0, actions[..k]), actions[k], r);
    var j := CameFrom(s0, actions[..k], r, Repairing);
    assert actions[..k][..j] == actions[..j] && actions[..k][..j + 1] == actions[..j + 1];
    WhatMissed(Run(s0, actions[..j]), actions[j], r);
  }

  // ---------------------------------------------------------------------------------------------------------
  // A replaced body
  // ---------------------------------------------------------------------------------------------------------

  // A loaded room never changes its generation.
  lemma {:induction false} GenerationStays(s0: State, actions: seq<Action>, k: nat, r: RoomId)
    requires Initial(s0) && k <= |actions| && r in Run(s0, actions[..k]).rooms && Run(s0, actions[..k]).rooms[r].phase.Loaded?
    ensures r in Run(s0, actions).rooms && Run(s0, actions).rooms[r].phase.Loaded?
    ensures Run(s0, actions).rooms[r].phase.generation == Run(s0, actions[..k]).rooms[r].phase.generation
    decreases |actions|
  {
    hide Apply, D.Inv, Initial;
    O.Whole(actions);
    if k < |actions| {
      var n := |actions| - 1;
      assert actions[..n][..k] == actions[..k];
      GenerationStays(s0, actions[..n], k, r);
      D.RunOk(s0, actions[..n]);
      LoadedStaysLoaded(Run(s0, actions[..n]), actions[n], r);
    }
  }

  lemma {:induction false} RowMovesOn(s0: State, actions: seq<Action>, k: nat)
    requires k <= |actions|
    ensures O.MovedOn(Run(s0, actions[..k]).db.row, Run(s0, actions).db.row)
    decreases |actions|
  {
    hide Apply;
    O.Whole(actions);
    if k < |actions| {
      var n := |actions| - 1;
      assert actions[..n][..k] == actions[..k];
      RowMovesOn(s0, actions[..n], k);
      O.RowStep(Run(s0, actions[..n]), actions[n]);
    }
  }

  lemma NotAhead(s: State, r: RoomId)
    requires D.Inv(s) && r in s.rooms && s.rooms[r].phase.Loaded?
    ensures s.rooms[r].phase.generation <= s.db.row.generation
  {
    assert D.RoomOk(s.db, s.rooms[r]);
  }

  lemma StoresNothing(s: State, r: RoomId)
    requires Reachable(s) && r in s.rooms && s.rooms[r].phase.Loaded? && s.rooms[r].phase.generation < s.db.row.generation
    ensures forall i, e | i in s.stores && s.stores[i].room == r :: Apply(s, InStore(i, e)).db == s.db
  {
    D.RoomHoldsItsVersion(s, r);
    hide StoreAction;
  }

  // A replacement takes effect at once, with exactly its content and in a new generation, and it is final: no room that
  // was loaded before it ever stores anything again, whether or not it learns of the replacement.
  lemma ResetIsFinal(s0: State, actions: seq<Action>, k: nat, r: RoomId)
    requires Initial(s0) && k < |actions| && actions[k].Reset?
    ensures var a, before, after := actions[k], Run(s0, actions[..k]).db, Run(s0, actions[..k + 1]).db;
            && after.row == Row(a.version, before.row.generation + 1, a.yjs, a.html, a.live)
            && after.documentLive == a.documentLive
    ensures r in Run(s0, actions[..k]).rooms && Run(s0, actions[..k]).rooms[r].phase.Loaded? ==>
              var end := Run(s0, actions);
              forall i, e | i in end.stores && end.stores[i].room == r :: Apply(end, InStore(i, e)).db == end.db
  {
    var s, end := Run(s0, actions[..k]), Run(s0, actions);
    D.RunOk(s0, actions[..k]);
    O.AfterStep(s0, actions, k);
    assert Reachable(end);
    hide Run, D.Inv, Reachable, Initial;
    RowMovesOn(s0, actions, k + 1);
    if r in s.rooms && s.rooms[r].phase.Loaded? {
      NotAhead(s, r);
      GenerationStays(s0, actions, k, r);
      StoresNothing(end, r);
    }
  }
}
