/**
 * The ingress budget of a physical socket: every accepted frame is charged to its socket, whichever logical
 * connection brought it, until the connection's queue has drained; crossing a limit blocks the socket for good.
 */
module Ingress {
  // The budget of one socket.
  datatype Budget = Budget(blocked: bool, pendingBytes: int, pendingMessages: int)

  // An accepted frame, with the flag of its release closure.
  datatype Frame = Frame(socket: nat, connection: nat, size: nat, released: bool)

  datatype Close = Close(socket: nat, connection: nat)

  datatype Outcome = Ignored | Refused | Accepted | Raised

  datatype Event = Handle(socket: nat, connection: nat, size: nat, raises: bool) | Release(frame: nat)

  // DOCUMENTS_COLLAB_MAX_PENDING_BYTES, twice the largest payload, and DOCUMENTS_COLLAB_MAX_PENDING_MESSAGES.
  const MAX_PENDING_BYTES: nat := (8 * 1024 * 1024 + 64 * 1024) * 2
  const MAX_PENDING_MESSAGES: nat := 128

  function Share(f: Frame, socket: nat): nat {
    if f.socket == socket && !f.released then f.size else 0
  }

  function Weight(f: Frame, socket: nat): nat {
    if f.socket == socket && !f.released then 1 else 0
  }

  // The bytes of a socket's accepted frames that are not released yet, over all its connections.
  function OpenBytes(frames: seq<Frame>, socket: nat): nat {
    if frames == [] then 0 else OpenBytes(frames[..|frames| - 1], socket) + Share(frames[|frames| - 1], socket)
  }

  function OpenCount(frames: seq<Frame>, socket: nat): nat {
    if frames == [] then 0 else OpenCount(frames[..|frames| - 1], socket) + Weight(frames[|frames| - 1], socket)
  }

  lemma AcceptCharges(frames: seq<Frame>, f: Frame, socket: nat)
    ensures OpenBytes(frames + [f], socket) == OpenBytes(frames, socket) + Share(f, socket)
    ensures OpenCount(frames + [f], socket) == OpenCount(frames, socket) + Weight(f, socket)
  {
    assert (frames + [f])[..|frames|] == frames;
  }

  lemma {:induction false} ReleaseDischarges(frames: seq<Frame>, i: nat, socket: nat)
    requires i < |frames|
    ensures var after := frames[i := frames[i].(released := true)];
            && OpenBytes(after, socket) == OpenBytes(frames, socket) - Share(frames[i], socket)
            && OpenCount(after, socket) == OpenCount(frames, socket) - Weight(frames[i], socket)
  {
    var n := |frames| - 1;
    var after := frames[i := frames[i].(released := true)];
    if i == n {
      assert after[..n] == frames[..n];
    } else {
      ReleaseDischarges(frames[..n], i, socket);
      assert after[..n] == frames[..n][i := frames[..n][i].(released := true)];
    }
  }

  // The charged amounts are exactly the open frames', and within the limits.
  ghost predicate Exact(b: Budget, frames: seq<Frame>, socket: nat) {
    && b.pendingBytes == OpenBytes(frames, socket) <= MAX_PENDING_BYTES
    && b.pendingMessages == OpenCount(frames, socket) <= MAX_PENDING_MESSAGES
  }

  // A blocked socket was closed, once; no other socket was.
  ghost predicate ClosedOnce(budgets: map<nat, Budget>, closes: seq<Close>) {
    && (forall s :: (s in budgets && budgets[s].blocked) <==> exists i :: 0 <= i < |closes| && closes[i].socket == s)
    && (forall i, j | 0 <= i < j < |closes| :: closes[i].socket != closes[j].socket)
  }

  class IngressGuard {
    var budgets: map<nat, Budget>
    var frames: seq<Frame>
    ghost var closes: seq<Close>

    ghost predicate Valid()
      reads this
    {
      && (forall s | s in budgets :: Exact(budgets[s], frames, s))
      && (forall i | 0 <= i < |frames| :: frames[i].socket in budgets)
      && ClosedOnce(budgets, closes)
    }

    constructor ()
      ensures Valid() && frames == [] && closes == []
    {
      budgets, frames, closes := map[], [], [];
    }

    // Blocking is absorbing, and frames stay as they were accepted.
    twostate predicate Persists()
      reads this
    {
      && (forall s | s in old(budgets) && old(budgets)[s].blocked :: s in budgets && budgets[s].blocked)
      && |old(frames)| <= |frames|
      && (forall i | 0 <= i < |old(frames)| ::
            frames[i] == old(frames)[i] || frames[i] == old(frames)[i].(released := true))
    }

    method HandleFrame(socket: nat, connection: nat, size: nat, raises: bool) returns (outcome: Outcome)
      requires Valid()
      modifies this
      ensures Valid() && Persists()
      ensures forall s | s != socket :: (s in budgets <==> s in old(budgets)) && (s in budgets ==> budgets[s] == old(budgets)[s])
      ensures var was := if socket in old(budgets) then old(budgets)[socket] else Budget(false, 0, 0);
              && socket in budgets
              && (outcome == Ignored <==> was.blocked)
              && (outcome == Refused <==>
                    !was.blocked && (was.pendingBytes + size > 16_908_288 || was.pendingMessages + 1 > 128))
              && (outcome == Raised ==> raises) && (outcome == Accepted ==> !raises)
              && (outcome == Ignored ==> budgets[socket] == was && frames == old(frames) && closes == old(closes))
              && (outcome == Refused ==> budgets[socket] == was.(blocked := true) && frames == old(frames)
                                          && closes == old(closes) + [Close(socket, connection)])
              && (outcome == Accepted ==> budgets[socket] == Budget(false, was.pendingBytes + size, was.pendingMessages + 1)
                                          && frames == old(frames) + [Frame(socket, connection, size, false)])
              && (outcome == Raised ==> budgets[socket] == was
                                          && frames == old(frames) + [Frame(socket, connection, size, true)])
    {
      hide OpenBytes, OpenCount, Exact, ClosedOnce;
      var state := StateFor(socket);
      if state.blocked { return Ignored; }
      var pendingBytes, pendingMessages := state.pendingBytes + size, state.pendingMessages + 1;
      if pendingBytes > MAX_PENDING_BYTES || pendingMessages > MAX_PENDING_MESSAGES {
        CloseIngress(connection, socket);
        return Refused;
      }
      var frame := Frame(socket, connection, size, false);
      Charge(frame, pendingBytes, pendingMessages);
      if raises {
        ReleaseLast(old(frames), frame, state);
        return Raised;
      }
      outcome := Accepted;
    }

    method StateFor(socket: nat) returns (state: Budget)
      requires Valid()
      modifies `budgets
      ensures Valid() && state == if socket in old(budgets) then old(budgets)[socket] else Budget(false, 0, 0)
      ensures budgets == old(budgets)[socket := state]
    {
      hide OpenBytes, OpenCount;
      if socket in budgets {
        state := budgets[socket];
      } else {
        NothingOpen(frames, socket, budgets);
        state := Budget(false, 0, 0);
        budgets := budgets[socket := state];
      }
      assert budgets == old(budgets)[socket := state];
    }

    method Charge(frame: Frame, pendingBytes: int, pendingMessages: int)
      requires Valid() && !frame.released && frame.socket in budgets && !budgets[frame.socket].blocked
      requires pendingBytes == budgets[frame.socket].pendingBytes + frame.size <= MAX_PENDING_BYTES
      requires pendingMessages == budgets[frame.socket].pendingMessages + 1 <= MAX_PENDING_MESSAGES
      modifies `budgets, `frames
      ensures Valid() && frames == old(frames) + [frame]
      ensures budgets == old(budgets)[frame.socket := Budget(false, pendingBytes, pendingMessages)]
    {
      forall s | s in budgets
        ensures OpenBytes(frames + [frame], s) == OpenBytes(frames, s) + Share(frame, s)
        ensures OpenCount(frames + [frame], s) == OpenCount(frames, s) + Weight(frame, s)
      {
        AcceptCharges(frames, frame, s);
      }
      hide OpenBytes, OpenCount;
      budgets := budgets[frame.socket := budgets[frame.socket].(pendingBytes := pendingBytes, pendingMessages := pendingMessages)];
      frames := frames + [frame];
    }

    method CloseIngress(connection: nat, socket: nat)
      requires Valid() && socket in budgets
      modifies `budgets, `closes
      ensures Valid() && budgets == old(budgets)[socket := old(budgets)[socket].(blocked := true)]
      ensures closes == if old(budgets)[socket].blocked then old(closes) else old(closes) + [Close(socket, connection)]
    {
      if budgets[socket].blocked { return; }
      hide OpenBytes, OpenCount;
      budgets := budgets[socket := budgets[socket].(blocked := true)];
      closes := closes + [Close(socket, connection)];
      assert closes[|closes| - 1].socket == socket;
      assert forall i | 0 <= i < |closes| - 1 :: closes[i] == old(closes)[i];
    }

    // The release closure of one frame: it works once, and takes off exactly what was charged, so that the clamps at
    // zero never act.
    method ReleaseFrame(i: nat)
      requires Valid() && i < |frames|
      modifies `budgets, `frames
      ensures Valid() && frames == old(frames)[i := old(frames)[i].(released := true)]
      ensures var f := old(frames)[i];
              && f.socket in old(budgets)
              && var was := old(budgets)[f.socket];
                 && was.pendingBytes >= Share(f, f.socket) && was.pendingMessages >= Weight(f, f.socket)
                 && budgets == old(budgets)[f.socket :=
                      was.(pendingBytes := was.pendingBytes - Share(f, f.socket),
                           pendingMessages := was.pendingMessages - Weight(f, f.socket))]
    {
      var f := frames[i];
      if f.released {
        assert frames == frames[i := f];
        return;
      }
      forall s | s in budgets
        ensures var after := frames[i := f.(released := true)];
                && OpenBytes(after, s) == OpenBytes(frames, s) - Share(f, s)
                && OpenCount(after, s) == OpenCount(frames, s) - Weight(f, s)
      {
        ReleaseDischarges(frames, i, s);
      }
      hide OpenBytes, OpenCount;
      var state := budgets[f.socket];
      frames := frames[i := f.(released := true)];
      budgets := budgets[f.socket := state.(
        pendingBytes := if state.pendingBytes - f.size > 0 then state.pendingBytes - f.size else 0,
        pendingMessages := if state.pendingMessages - 1 > 0 then state.pendingMessages - 1 else 0)];
    }

    method ReleaseLast(ghost before: seq<Frame>, frame: Frame, ghost was: Budget)
      requires Valid() && frames == before + [frame] && !frame.released && frame.socket in budgets
      requires budgets[frame.socket] == Budget(was.blocked, was.pendingBytes + frame.size, was.pendingMessages + 1)
      modifies `budgets, `frames
      ensures Valid() && frames == before + [frame.(released := true)]
      ensures budgets == old(budgets)[frame.socket := was]
    {
      hide OpenBytes, OpenCount;
      ReleaseFrame(|frames| - 1);
    }

    // Any interleaving of frames and releases over any number of sockets and connections.
    method Replay(events: seq<Event>)
      requires Valid()
      modifies this
      ensures Valid() && Persists()
    {
      var k := 0;
      while k < |events|
        invariant 0 <= k <= |events| && Valid() && Persists()
      {
        match events[k] {
          case Handle(socket, connection, size, raises) =>
            var _ := HandleFrame(socket, connection, size, raises);
          case Release(i) =>
            if i < |frames| { ReleaseFrame(i); }
        }
        k := k + 1;
      }
    }
  }

  lemma {:induction false} NothingOpen(frames: seq<Frame>, socket: nat, budgets: map<nat, Budget>)
    requires forall i | 0 <= i < |frames| :: frames[i].socket in budgets
    requires socket !in budgets
    ensures OpenBytes(frames, socket) == 0 && OpenCount(frames, socket) == 0
  {
    if frames != [] { NothingOpen(frames[..|frames| - 1], socket, budgets); }
  }
}
