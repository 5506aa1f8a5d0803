/**
 * The bookkeeping the Redis fan-out queue is proved against: every durable state ever queued has one record in a
 * ledger, and the queue is exactly the records still waiting.
 */
module FanoutLedger {
  import opened Options

  // One durable room state on its way to the peers; `bytes` is the length of its encoded message.
  datatype Pending = Pending(name: string, document: nat, generation: int, revision: nat, bytes: nat)

  datatype Fate = Waiting | Published | Superseded | Evicted | Discarded | ShutDown

  datatype Record = Record(entry: Pending, fate: Fate)

  // DOCUMENTS_COLLAB_REDIS_FANOUT_MAX_PENDING_ROOMS
  const MAX_PENDING_ROOMS: nat := 256
  // Eight payloads of at most 8 MiB of Yjs state plus a 64 KiB envelope each.
  const MAX_PENDING_BYTES: nat := (8 * 1024 * 1024 + 64 * 1024) * 8

  function Bytes(s: seq<Pending>): nat {
    if s == [] then 0 else s[0].bytes + Bytes(s[1..])
  }

  function Find(s: seq<Pending>, name: string): (r: Option<Pending>)
    ensures r.None? ==> forall p | p in s :: p.name != name
    ensures r.Some? ==> r.value in s && r.value.name == name
  {
    if s == [] then None else if s[0].name == name then Some(s[0]) else Find(s[1..], name)
  }

  function Drop(s: seq<Pending>, name: string): seq<Pending> {
    if s == [] then [] else if s[0].name == name then Drop(s[1..], name) else [s[0]] + Drop(s[1..], name)
  }

  predicate OnePerRoom(s: seq<Pending>) {
    forall i, j | 0 <= i < j < |s| :: s[i].name != s[j].name
  }

  function WaitingIn(ledger: seq<Record>): seq<Pending> {
    if ledger == [] then []
    else if ledger[0].fate == Waiting then [ledger[0].entry] + WaitingIn(ledger[1..])
    else WaitingIn(ledger[1..])
  }

  // The waiting record of a room, if there is one, meets its fate.
  function Settle(ledger: seq<Record>, name: string, fate: Fate): seq<Record> {
    seq(|ledger|, i requires 0 <= i < |ledger| =>
      if ledger[i].fate == Waiting && ledger[i].entry.name == name then ledger[i].(fate := fate) else ledger[i])
  }

  // Revisions number the records; only the newest record of a room can wait, and a record is superseded only by a
  // newer one of its room.
  ghost predicate LedgerOk(ledger: seq<Record>) {
    Numbered(ledger) && NewestWaits(ledger) && SupersededByNewer(ledger)
  }

  ghost predicate Numbered(ledger: seq<Record>) {
    forall i | 0 <= i < |ledger| :: ledger[i].entry.revision == i + 1
  }

  ghost predicate NewestWaits(ledger: seq<Record>) {
    forall i, j | 0 <= i < j < |ledger| && ledger[i].entry.name == ledger[j].entry.name :: ledger[i].fate != Waiting
  }

  ghost predicate SupersededByNewer(ledger: seq<Record>) {
    forall i | 0 <= i < |ledger| && ledger[i].fate == Superseded :: HasNewer(ledger, i)
  }

  ghost predicate HasNewer(ledger: seq<Record>, i: nat)
    requires i < |ledger|
  {
    exists j :: i < j < |ledger| && ledger[j].entry.name == ledger[i].entry.name
  }

  ghost predicate Recorded(ledger: seq<Record>, p: Pending) {
    1 <= p.revision <= |ledger| && ledger[p.revision - 1].entry == p
  }

  // History is never rewritten: entries stay, and a fate other than waiting is final.
  ghost predicate Extends(after: seq<Record>, before: seq<Record>) {
    && |before| <= |after|
    && forall i | 0 <= i < |before| ::
         after[i].entry == before[i].entry && (before[i].fate != Waiting ==> after[i].fate == before[i].fate)
  }

  lemma ExtendsTransitive(a: seq<Record>, b: seq<Record>, c: seq<Record>)
    requires Extends(b, a) && Extends(c, b)
    ensures Extends(c, a)
  {
  }

  // ---------------------------------------------------------------------------------------------------------
  // The queue operations, on the ledger
  // ---------------------------------------------------------------------------------------------------------

  lemma {:induction false} WaitingMembers(ledger: seq<Record>, p: Pending)
    ensures p in WaitingIn(ledger) <==> exists i :: 0 <= i < |ledger| && ledger[i] == Record(p, Waiting)
  {
    if ledger != [] {
      WaitingMembers(ledger[1..], p);
      if i :| 0 <= i < |ledger| && ledger[i] == Record(p, Waiting) {
        if i > 0 { assert ledger[1..][i - 1] == Record(p, Waiting); }
      }
      if j :| 0 <= j < |ledger[1..]| && ledger[1..][j] == Record(p, Waiting) { assert ledger[j + 1] == Record(p, Waiting); }
    }
  }

  lemma {:induction false} WaitingAppend(ledger: seq<Record>, p: Pending)
    ensures WaitingIn(ledger + [Record(p, Waiting)]) == WaitingIn(ledger) + [p]
  {
    var more := ledger + [Record(p, Waiting)];
    if ledger == [] {
      assert more[1..] == [];
    } else {
      WaitingAppend(ledger[1..], p);
      assert more[1..] == ledger[1..] + [Record(p, Waiting)];
    }
  }

  lemma {:induction false} WaitingSettle(ledger: seq<Record>, name: string, fate: Fate)
    requires fate != Waiting
    ensures WaitingIn(Settle(ledger, name, fate)) == Drop(WaitingIn(ledger), name)
  {
    if ledger != [] {
      WaitingSettle(ledger[1..], name, fate);
      assert Settle(ledger, name, fate)[1..] == Settle(ledger[1..], name, fate);
    }
  }

  // The same entries under other fates: a newer entry of a room stays one.
  lemma NewerStays(before: seq<Record>, after: seq<Record>, i: nat)
    requires i < |before| <= |after| && (forall k | 0 <= k < |before| :: after[k].entry == before[k].entry)
    requires HasNewer(before, i)
    ensures HasNewer(after, i)
  {
    var j :| i < j < |before| && before[j].entry.name == before[i].entry.name;
    assert after[j].entry.name == after[i].entry.name;
  }

  lemma SettleOk(ledger: seq<Record>, name: string, fate: Fate)
    requires LedgerOk(ledger) && fate != Waiting && fate != Superseded
    ensures LedgerOk(Settle(ledger, name, fate)) && Extends(Settle(ledger, name, fate), ledger)
  {
    var after := Settle(ledger, name, fate);
    assert Numbered(after) && NewestWaits(after) && Extends(after, ledger);
    hide Numbered, NewestWaits, Extends;
    forall i | 0 <= i < |after| && after[i].fate == Superseded ensures HasNewer(after, i) {
      assert ledger[i].fate == Superseded;
      NewerStays(ledger, after, i);
    }
  }

  // A newer state of a room takes the place of the waiting one.
  function Supersede(ledger: seq<Record>, p: Pending): seq<Record> {
    Settle(ledger, p.name, Superseded) + [Record(p, Waiting)]
  }

  lemma SupersededHasNewer(ledger: seq<Record>, p: Pending)
    requires SupersededByNewer(ledger)
    ensures SupersededByNewer(Supersede(ledger, p))
  {
    var after := Supersede(ledger, p);
    forall i | 0 <= i < |after| && after[i].fate == Superseded ensures HasNewer(after, i) {
      if ledger[i].fate == Superseded {
        NewerStays(ledger, after, i);
      } else {
        assert after[|ledger|].entry.name == after[i].entry.name;
      }
    }
  }

  lemma OnlyNewestWaits(ledger: seq<Record>, p: Pending)
    requires NewestWaits(ledger)
    ensures NewestWaits(Supersede(ledger, p))
  {
    var after := Supersede(ledger, p);
    forall i, j | 0 <= i < j < |after| && after[i].entry.name == after[j].entry.name ensures after[i].fate != Waiting {
      if j < |ledger| { assert ledger[i].entry.name == ledger[j].entry.name; }
    }
  }

  lemma SupersedeExtends(ledger: seq<Record>, p: Pending)
    requires Numbered(ledger) && p.revision == |ledger| + 1
    ensures Extends(Supersede(ledger, p), ledger) && Numbered(Supersede(ledger, p))
  {
  }

  lemma SupersedeOk(ledger: seq<Record>, p: Pending)
    requires LedgerOk(ledger) && p.revision == |ledger| + 1
    ensures LedgerOk(Supersede(ledger, p)) && Extends(Supersede(ledger, p), ledger)
    ensures WaitingIn(Supersede(ledger, p)) == Drop(WaitingIn(ledger), p.name) + [p]
  {
    hide Numbered, NewestWaits, SupersededByNewer, Extends, WaitingIn, Drop, Settle;
    WaitingSettle(ledger, p.name, Superseded);
    WaitingAppend(Settle(ledger, p.name, Superseded), p);
    SupersedeExtends(ledger, p);
    OnlyNewestWaits(ledger, p);
    SupersededHasNewer(ledger, p);
  }

  lemma {:induction false} WaitingSubset(ledger: seq<Record>)
    ensures forall p | p in WaitingIn(ledger) :: exists i :: 0 <= i < |ledger| && ledger[i] == Record(p, Waiting)
  {
    forall p | p in WaitingIn(ledger) ensures exists i :: 0 <= i < |ledger| && ledger[i] == Record(p, Waiting) {
      WaitingMembers(ledger, p);
    }
  }

  lemma {:induction false} WaitingOnePerRoom(ledger: seq<Record>)
    requires NewestWaits(ledger)
    ensures OnePerRoom(WaitingIn(ledger))
  {
    if ledger != [] {
      WaitingOnePerRoom(ledger[1..]);
      WaitingSubset(ledger[1..]);
      if ledger[0].fate == Waiting {
        forall p | p in WaitingIn(ledger[1..]) ensures p.name != ledger[0].entry.name {
          var i :| 0 <= i < |ledger[1..]| && ledger[1..][i] == Record(p, Waiting);
          assert ledger[i + 1].entry == p;
        }
      }
    }
  }

  // The waiting entry of a room is the newest state ever queued for it.
  lemma {:induction false} WaitingIsNewest(ledger: seq<Record>, p: Pending, i: nat)
    requires LedgerOk(ledger) && p in WaitingIn(ledger) && i < |ledger| && ledger[i].entry.name == p.name
    ensures Recorded(ledger, p) && ledger[i].entry.revision <= p.revision
  {
    WaitingMembers(ledger, p);
  }

  // The newest state queued for a room is never lost sight of: it waits in the queue, or it was published, evicted,
  // discarded or dropped at shutdown.
  lemma {:induction false} NewestIsAccountedFor(ledger: seq<Record>, i: nat)
    requires LedgerOk(ledger) && i < |ledger|
    requires forall j | i < j < |ledger| :: ledger[j].entry.name != ledger[i].entry.name
    ensures ledger[i].fate != Superseded
    ensures ledger[i].fate == Waiting <==> ledger[i].entry in WaitingIn(ledger)
  {
    WaitingMembers(ledger, ledger[i].entry);
    if ledger[i].entry in WaitingIn(ledger) {
      var j :| 0 <= j < |ledger| && ledger[j] == Record(ledger[i].entry, Waiting);
      assert ledger[j].entry.revision == j + 1;
    }
  }

  function CloseAll(ledger: seq<Record>): seq<Record> {
    seq(|ledger|, i requires 0 <= i < |ledger| =>
      if ledger[i].fate == Waiting then ledger[i].(fate := ShutDown) else ledger[i])
  }

  lemma {:induction false} WaitingClosed(ledger: seq<Record>)
    ensures WaitingIn(CloseAll(ledger)) == []
  {
    if ledger != [] {
      WaitingClosed(ledger[1..]);
      assert CloseAll(ledger)[1..] == CloseAll(ledger[1..]);
    }
  }

  lemma CloseAllOk(ledger: seq<Record>)
    requires LedgerOk(ledger)
    ensures LedgerOk(CloseAll(ledger)) && Extends(CloseAll(ledger), ledger) && WaitingIn(CloseAll(ledger)) == []
  {
    WaitingClosed(ledger);
    var after := CloseAll(ledger);
    forall i | 0 <= i < |after| && after[i].fate == Superseded ensures HasNewer(after, i) {
      assert ledger[i].fate == Superseded;
      NewerStays(ledger, after, i);
    }
    hide HasNewer, WaitingIn;
  }

  // ---------------------------------------------------------------------------------------------------------
  // Dropping and counting
  // ---------------------------------------------------------------------------------------------------------

  lemma {:induction false} DropMembers(s: seq<Pending>, name: string)
    ensures forall p :: p in Drop(s, name) <==> p in s && p.name != name
    ensures |Drop(s, name)| <= |s|
  {
    if s != [] { DropMembers(s[1..], name); }
  }

  lemma {:induction false} DropAbsent(s: seq<Pending>, name: string)
    requires forall p | p in s :: p.name != name
    ensures Drop(s, name) == s
  {
    if s != [] { DropAbsent(s[1..], name); }
  }

  lemma {:induction false} FindUnique(s: seq<Pending>, p: Pending)
    requires OnePerRoom(s) && p in s
    ensures Find(s, p.name) == Some(p)
  {
    if s[0] != p { FindUnique(s[1..], p); }
  }

  lemma DropFirst(s: seq<Pending>)
    requires s != [] && OnePerRoom(s)
    ensures Drop(s, s[0].name) == s[1..]
  {
    DropAbsent(s[1..], s[0].name);
  }

  // Removing the entry the queue finds for a room takes exactly its bytes off the sum.
  lemma {:induction false} DropBytes(s: seq<Pending>, name: string)
    requires OnePerRoom(s)
    ensures Find(s, name).None? ==> Drop(s, name) == s
    ensures Find(s, name).Some? ==> Bytes(Drop(s, name)) == Bytes(s) - Find(s, name).value.bytes
  {
    if Find(s, name).None? {
      DropAbsent(s, name);
    } else if s[0].name == name {
      DropAbsent(s[1..], name);
    } else {
      DropBytes(s[1..], name);
    }
  }

  lemma {:induction false} BytesAppend(s: seq<Pending>, p: Pending)
    ensures Bytes(s + [p]) == Bytes(s) + p.bytes
  {
    if s == [] { assert s + [p] == [p]; }
    else {
      BytesAppend(s[1..], p);
      assert (s + [p])[1..] == s[1..] + [p];
    }
  }

  // ---------------------------------------------------------------------------------------------------------
  // Eviction
  // ---------------------------------------------------------------------------------------------------------

  predicate WithinLimits(s: seq<Pending>) {
    |s| <= MAX_PENDING_ROOMS && Bytes(s) <= MAX_PENDING_BYTES
  }

  // The bound on the backlog: both limits hold, or a single oversized room is all that is left.
  predicate Backlog(s: seq<Pending>) {
    WithinLimits(s) || |s| == 1
  }

  lemma {:induction false} DropShrinks(s: seq<Pending>, name: string)
    ensures |Drop(s, name)| <= |s| && Bytes(Drop(s, name)) <= Bytes(s)
    ensures Backlog(s) ==> Backlog(Drop(s, name))
  {
    if s != [] { DropShrinks(s[1..], name); }
  }

  // Drop the least recently refreshed rooms, never the last one, until the backlog fits.
  function Bounded(s: seq<Pending>): (r: seq<Pending>)
    ensures |r| <= |s| && r == s[|s| - |r|..]
  {
    if WithinLimits(s) || |s| == 1 then s else Bounded(s[1..])
  }

  // What eviction leaves is the longest run of most recently refreshed rooms that fits, and never less than the one
  // just queued.
  lemma {:induction false} BoundedIsLongest(s: seq<Pending>)
    requires s != []
    ensures var r := Bounded(s);
            && r != [] && r[|r| - 1] == s[|s| - 1] && |r| <= MAX_PENDING_ROOMS
            && Backlog(r)
            && (forall k | 0 <= k < |s| - |r| :: !WithinLimits(s[k..]))
  {
    hide Bytes;
    if WithinLimits(s) || |s| == 1 {
      assert Bounded(s) == s;
    } else {
      BoundedIsLongest(s[1..]);
      var r := Bounded(s[1..]);
      assert Bounded(s) == r && r[|r| - 1] == s[1..][|s| - 2];
      hide WithinLimits, Backlog, Bounded;
      forall k | 0 <= k < |s| - |r| ensures !WithinLimits(s[k..]) {
        if k > 0 { assert s[1..][k - 1..] == s[k..]; } else { assert s[0..] == s; }
      }
    }
  }

  lemma AppendOnePerRoom(s: seq<Pending>, p: Pending)
    requires OnePerRoom(s)
    ensures OnePerRoom(Drop(s, p.name) + [p])
  {
    DropMembers(s, p.name);
    DropOnePerRoom(s, p.name);
  }

  // The eviction loop stands before index `i` of the queue it started with: only what it has still to visit is left,
  // or, once it is past the end, the entry it never drops.
  ghost predicate EvictAt(queued: seq<Pending>, i: nat, pending: seq<Pending>) {
    && queued != [] && OnePerRoom(queued) && i <= |queued|
    && pending == queued[if i < |queued| then i else |queued| - 1..] && Bounded(pending) == Bounded(queued)
  }

  lemma EvictStart(queued: seq<Pending>)
    requires OnePerRoom(queued) && queued != []
    ensures EvictAt(queued, 0, queued)
  {
    assert queued[0..] == queued;
  }

  lemma EvictHead(queued: seq<Pending>, i: nat, pending: seq<Pending>)
    requires EvictAt(queued, i, pending) && i < |queued|
    ensures pending != [] && pending[0] == queued[i]
    ensures queued[i].name == queued[|queued| - 1].name ==> i == |queued| - 1
  {
    hide Bounded;
  }

  lemma EvictNext(queued: seq<Pending>, i: nat, pending: seq<Pending>)
    requires EvictAt(queued, i, pending) && i < |queued| - 1 && !WithinLimits(pending)
    ensures EvictAt(queued, i + 1, pending[1..])
  {
    hide WithinLimits, OnePerRoom;
    assert queued[i..][1..] == queued[i + 1..];
    assert |pending| > 1;
  }

  lemma EvictStop(queued: seq<Pending>, i: nat, pending: seq<Pending>)
    requires EvictAt(queued, i, pending) && WithinLimits(pending)
    ensures pending == Bounded(queued)
  {
    hide WithinLimits, OnePerRoom;
  }

  lemma EvictRound(queued: seq<Pending>, i: nat, pending: seq<Pending>)
    requires EvictAt(queued, i, pending) && i < |queued|
    ensures pending != [] && pending[0] == queued[i]
    ensures WithinLimits(pending) ==> pending == Bounded(queued)
    ensures queued[i].name == queued[|queued| - 1].name ==> EvictAt(queued, i + 1, pending)
    ensures queued[i].name != queued[|queued| - 1].name && !WithinLimits(pending) ==> EvictAt(queued, i + 1, pending[1..])
  {
    EvictHead(queued, i, pending);
    if WithinLimits(pending) { EvictStop(queued, i, pending); }
    else if i < |queued| - 1 { EvictNext(queued, i, pending); }
    hide WithinLimits, OnePerRoom, Bounded;
  }

  lemma EvictEnd(queued: seq<Pending>, pending: seq<Pending>)
    requires EvictAt(queued, |queued|, pending)
    ensures pending == Bounded(queued)
  {
    hide Bytes, WithinLimits;
  }

  lemma ExtendsSelf(ledger: seq<Record>)
    ensures Extends(ledger, ledger)
  {
  }

  lemma SuffixFind(s: seq<Pending>, k: nat)
    requires OnePerRoom(s) && k < |s|
    ensures forall q | q in s[k..] :: q in s
    ensures Find(s[k..], s[|s| - 1].name) == Some(s[|s| - 1])
  {
    var r := s[k..];
    assert r[|r| - 1] == s[|s| - 1];
    FindUnique(r, s[|s| - 1]);
  }

  lemma BoundedKeepsLast(queued: seq<Pending>)
    requires OnePerRoom(queued) && queued != []
    ensures var last := queued[|queued| - 1]; Find(Bounded(queued), last.name) == Some(last)
    ensures forall q | q in Bounded(queued) :: q in queued
    ensures Backlog(Bounded(queued))
  {
    hide *;
    BoundedIsLongest(queued);
    SuffixFind(queued, |queued| - |Bounded(queued)|);
  }

  // The state just queued survives the eviction it triggers.
  lemma QueuedSurvives(s: seq<Pending>, p: Pending)
    requires OnePerRoom(s)
    ensures Find(Bounded(Drop(s, p.name) + [p]), p.name) == Some(p)
    ensures forall q | q in Bounded(Drop(s, p.name) + [p]) :: q == p || (q in s && q.name != p.name)
    ensures Backlog(Bounded(Drop(s, p.name) + [p]))
  {
    hide *;
    var queued := Drop(s, p.name) + [p];
    DropMembers(s, p.name);
    AppendOnePerRoom(s, p);
    BoundedKeepsLast(queued);
  }

  lemma {:induction false} DropOnePerRoom(s: seq<Pending>, name: string)
    requires OnePerRoom(s)
    ensures OnePerRoom(Drop(s, name))
  {
    if s != [] {
      DropOnePerRoom(s[1..], name);
      DropMembers(s[1..], name);
    }
  }
}
