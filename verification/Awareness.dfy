/**
 * Awareness ownership: which presence states of an inbound update survive, under whose name, and which client ids a
 * connection and a room end up bound to.
 */
module Awareness {
  import opened Options
  import opened Sequences

  // ---------------------------------------------------------------------------------------------------------
  // Cursors
  // ---------------------------------------------------------------------------------------------------------

  datatype Json =
    | Undefined
    | Null
    | Bool(b: bool)
    | Integer(n: int)
    | Fraction
    | Text(text: string)
    | List(items: seq<Json>)
    | Object(fields: map<string, Json>)

  datatype YjsId = YjsId(client: int, clock: int)

  datatype Anchor = Item(item: YjsId) | Name(tname: string) | Type(yjsType: YjsId)

  datatype Position = Position(at: Anchor, assoc: int)

  datatype Cursor = Cursor(anchor: Position, head: Position)

  const MAX_YJS_CLIENT_ID: int := 0xffff_ffff
  const MAX_SAFE_INTEGER: int := 0x1f_ffff_ffff_ffff

  function Field(fields: map<string, Json>, name: string): Json {
    if name in fields then fields[name] else Undefined
  }

  predicate ValidId(id: YjsId) {
    0 <= id.client <= MAX_YJS_CLIENT_ID && 0 <= id.clock <= MAX_SAFE_INTEGER
  }

  predicate ValidPosition(p: Position) {
    && -1 <= p.assoc <= 1
    && match p.at
       case Item(id) => ValidId(id)
       case Name(tname) => 0 < |tname| <= 120
       case Type(id) => ValidId(id)
  }

  predicate ValidCursor(c: Cursor) {
    ValidPosition(c.anchor) && ValidPosition(c.head)
  }

  function SanitizeId(value: Json): (r: Option<YjsId>)
    ensures r.Some? ==> ValidId(r.value)
  {
    if value.Object? then
      var client, clock := Field(value.fields, "client"), Field(value.fields, "clock");
      if client.Integer? && clock.Integer? && 0 <= client.n <= MAX_YJS_CLIENT_ID && 0 <= clock.n <= MAX_SAFE_INTEGER
      then Some(YjsId(client.n, clock.n)) else None
    else None
  }

  function SanitizePosition(value: Json): (r: Option<Position>)
    ensures r.Some? ==> ValidPosition(r.value)
  {
    if !value.Object? then None else
    var given := Field(value.fields, "assoc");
    var assoc := if given == Undefined then Integer(0) else given;
    if !assoc.Integer? || assoc.n < -1 || assoc.n > 1 then None else
    var item, yjsType := SanitizeId(Field(value.fields, "item")), SanitizeId(Field(value.fields, "type"));
    var tname := Field(value.fields, "tname");
    if item.Some? then Some(Position(Item(item.value), assoc.n))
    else if tname.Text? && 0 < |tname.text| <= 120 then Some(Position(Name(tname.text), assoc.n))
    else if yjsType.Some? then Some(Position(Type(yjsType.value), assoc.n))
    else None
  }

  function SanitizeCursor(value: Json): (r: Option<Cursor>)
    ensures r.Some? ==> ValidCursor(r.value)
  {
    if !value.Object? then None else
    var anchor, head := SanitizePosition(Field(value.fields, "anchor")), SanitizePosition(Field(value.fields, "head"));
    if anchor.Some? && head.Some? then Some(Cursor(anchor.value, head.value)) else None
  }

  // The record a sanitized cursor is broadcast as.
  function EncodeId(id: YjsId): Json {
    Object(map["client" := Integer(id.client), "clock" := Integer(id.clock)])
  }

  function EncodePosition(p: Position): Json {
    match p.at
    case Item(id) => Object(map["item" := EncodeId(id), "assoc" := Integer(p.assoc)])
    case Name(tname) => Object(map["tname" := Text(tname), "assoc" := Integer(p.assoc)])
    case Type(id) => Object(map["type" := EncodeId(id), "assoc" := Integer(p.assoc)])
  }

  function EncodeCursor(c: Cursor): Json {
    Object(map["anchor" := EncodePosition(c.anchor), "head" := EncodePosition(c.head)])
  }

  lemma PositionRoundTrip(p: Position)
    requires ValidPosition(p)
    ensures SanitizePosition(EncodePosition(p)) == Some(p)
  {
    if p.at.Item? { assert SanitizeId(EncodeId(p.at.item)) == Some(p.at.item); }
    if p.at.Type? { assert SanitizeId(EncodeId(p.at.yjsType)) == Some(p.at.yjsType); }
  }

  // The field `name` holds this id.
  predicate HoldsId(fields: map<string, Json>, name: string, id: YjsId) {
    && name in fields && fields[name].Object?
    && "client" in fields[name].fields && fields[name].fields["client"] == Integer(id.client)
    && "clock" in fields[name].fields && fields[name].fields["clock"] == Integer(id.clock)
  }

  ghost predicate HoldsNoId(fields: map<string, Json>, name: string) {
    forall id | ValidId(id) :: !HoldsId(fields, name, id)
  }

  predicate HoldsName(fields: map<string, Json>, name: string) {
    "tname" in fields && fields["tname"] == Text(name) && 0 < |name| <= 120
  }

  // What a record says of a position: a missing association means 0, a valid item counts before a type name, a type
  // name before a type, and other fields are ignored.
  ghost predicate Says(fields: map<string, Json>, p: Position) {
    && -1 <= p.assoc <= 1
    && (if "assoc" in fields && fields["assoc"] != Undefined then fields["assoc"] == Integer(p.assoc) else p.assoc == 0)
    && match p.at
       case Item(id) => ValidId(id) && HoldsId(fields, "item", id)
       case Name(name) => HoldsNoId(fields, "item") && HoldsName(fields, name)
       case Type(id) =>
         && HoldsNoId(fields, "item") && (forall name :: !HoldsName(fields, name))
         && ValidId(id) && HoldsId(fields, "type", id)
  }

  lemma IdIsRead(fields: map<string, Json>, name: string)
    ensures forall id :: SanitizeId(Field(fields, name)) == Some(id) <==> ValidId(id) && HoldsId(fields, name, id)
    ensures SanitizeId(Field(fields, name)).None? <==> HoldsNoId(fields, name)
  {
    forall id ensures SanitizeId(Field(fields, name)) == Some(id) <==> ValidId(id) && HoldsId(fields, name, id) { }
    var r := SanitizeId(Field(fields, name));
    if r.Some? { assert HoldsId(fields, name, r.value); }
  }

  // A position is read out of a record exactly if the record says it.
  lemma PositionIsRead(fields: map<string, Json>, p: Position)
    ensures SanitizePosition(Object(fields)) == Some(p) <==> Says(fields, p)
  {
    IdIsRead(fields, "item");
    IdIsRead(fields, "type");
    var item, yjsType := SanitizeId(Field(fields, "item")), SanitizeId(Field(fields, "type"));
    if item.Some? { assert HoldsId(fields, "item", item.value) && !HoldsNoId(fields, "item"); }
    var tname := Field(fields, "tname");
    if tname.Text? { assert HoldsName(fields, tname.text) <==> 0 < |tname.text| <= 120; }
    hide SanitizeId;
  }

  // Sanitizing is the identity on what it lets through: a peer that sanitizes a broadcast cursor again gets it back,
  // and exactly the valid cursors are broadcast.
  lemma CursorRoundTrip(c: Cursor)
    ensures SanitizeCursor(EncodeCursor(c)) == Some(c) <==> ValidCursor(c)
  {
    if ValidCursor(c) {
      PositionRoundTrip(c.anchor);
      PositionRoundTrip(c.head);
    }
  }

  // ---------------------------------------------------------------------------------------------------------
  // The meaning of one update
  // ---------------------------------------------------------------------------------------------------------

  datatype User = User(id: string, name: string, color: string)

  // A decoded state: nothing usable, or an object with its cursor field and whether its serialization is short enough.
  datatype RawState = Blank | Filled(cursor: Json, bounded: bool)

  datatype Entry = Entry(clientId: int, state: RawState)

  datatype Canonical = Canonical(clientId: int, user: User, cursor: Option<Cursor>)

  // What the sender is known by. The parts a caller leaves out are neither consulted nor recorded.
  datatype Ownership = Ownership(owned: set<int>, occupied: set<int>, claimed: Option<set<int>>, owners: Option<map<int, string>>)

  const MAX_CLIENT_IDS_PER_CONNECTION: nat := 1
  const MAX_CLIENT_IDS_PER_ROOM: nat := 256

  function Owned(o: Option<Ownership>): set<int> {
    if o.Some? then o.value.owned else {}
  }

  function Claimed(o: Option<Ownership>): set<int> {
    if o.Some? && o.value.claimed.Some? then o.value.claimed.value else {}
  }

  function Occupied(o: Option<Ownership>): set<int> {
    if o.Some? then o.value.occupied else {}
  }

  function Owners(o: Option<Ownership>): map<int, string> {
    if o.Some? && o.value.owners.Some? then o.value.owners.value else map[]
  }

  predicate Usable(e: Entry) {
    e.state.Filled? && e.state.bounded && 0 <= e.clientId <= MAX_YJS_CLIENT_ID
  }

  // Not another socket's id, and not another actor's.
  predicate Free(user: User, o: Option<Ownership>, id: int) {
    && (id in Occupied(o) ==> id in Owned(o))
    && (id in Owners(o) ==> Owners(o)[id] == user.id)
  }

  predicate HasRoom(o: Option<Ownership>, admitted: set<int>, id: int) {
    && (id in Owned(o) || id in Claimed(o) || |Owned(o) + Claimed(o) + admitted| < MAX_CLIENT_IDS_PER_CONNECTION)
    && (id in Owners(o) || |Owners(o)| < MAX_CLIENT_IDS_PER_ROOM)
  }

  predicate Admits(user: User, o: Option<Ownership>, admitted: set<int>, e: Entry) {
    Usable(e) && Free(user, o, e.clientId) && HasRoom(o, admitted, e.clientId)
  }

  // Admission records the claim and, for an unowned id, the owner.
  function Record(user: User, o: Option<Ownership>, id: int): Option<Ownership> {
    if o.None? then None else
    var claimed := if o.value.claimed.Some? then Some(o.value.claimed.value + {id}) else None;
    var owners := if o.value.owners.Some? && id !in o.value.owners.value then Some(o.value.owners.value[id := user.id])
                  else o.value.owners;
    Some(o.value.(claimed := claimed, owners := owners))
  }

  datatype Outcome = Outcome(states: seq<Canonical>, admitted: set<int>, ownership: Option<Ownership>)

  // An update is worked off in order.
  function Bind(user: User, o: Option<Ownership>, entries: seq<Entry>): Outcome
    decreases |entries|
  {
    if entries == [] then Outcome([], {}, o) else
    var before := Bind(user, o, entries[..|entries| - 1]);
    var e := entries[|entries| - 1];
    if Admits(user, before.ownership, before.admitted, e) then
      Outcome(before.states + [Canonical(e.clientId, user, SanitizeCursor(e.state.cursor))],
              before.admitted + {e.clientId}, Record(user, before.ownership, e.clientId))
    else before
  }

  lemma BindStep(user: User, o: Option<Ownership>, entries: seq<Entry>, i: nat)
    requires i < |entries|
    ensures var before := Bind(user, o, entries[..i]);
            Bind(user, o, entries[..i + 1]) ==
            if Admits(user, before.ownership, before.admitted, entries[i]) then
              Outcome(before.states + [Canonical(entries[i].clientId, user, SanitizeCursor(entries[i].state.cursor))],
                      before.admitted + {entries[i].clientId}, Record(user, before.ownership, entries[i].clientId))
            else before
  {
    assert entries[..i + 1][..i] == entries[..i];
  }

  // ---------------------------------------------------------------------------------------------------------
  // What one update promises
  // ---------------------------------------------------------------------------------------------------------

  // Write-once: no id is ever rebound, and every new binding is to the sender and to an admitted id.
  lemma {:induction false} OwnersAreWriteOnce(user: User, o: Option<Ownership>, entries: seq<Entry>)
    ensures var r := Bind(user, o, entries);
            && (forall id | id in Owners(o) :: id in Owners(r.ownership) && Owners(r.ownership)[id] == Owners(o)[id])
            && (forall id | id in Owners(r.ownership) && id !in Owners(o) ::
                  Owners(r.ownership)[id] == user.id && id in r.admitted)
  {
    hide Admits, SanitizeCursor;
    if entries != [] { OwnersAreWriteOnce(user, o, entries[..|entries| - 1]); }
  }

  lemma {:induction false} RoomStaysBounded(user: User, o: Option<Ownership>, entries: seq<Entry>)
    requires |Owners(o)| <= 256
    ensures |Owners(Bind(user, o, entries).ownership)| <= 256
  {
    if entries != [] { RoomStaysBounded(user, o, entries[..|entries| - 1]); }
  }

  // What stays fixed, and what the claims become: exactly the admitted ids are added.
  lemma {:induction false} ClaimsGrowByAdmitted(user: User, o: Option<Ownership>, entries: seq<Entry>)
    ensures var r := Bind(user, o, entries);
            && (o.None? <==> r.ownership.None?)
            && Owned(r.ownership) == Owned(o) && (o.Some? ==> r.ownership.value.occupied == o.value.occupied)
            && (o.Some? ==> (o.value.claimed.Some? <==> r.ownership.value.claimed.Some?))
            && (o.Some? ==> (o.value.owners.Some? <==> r.ownership.value.owners.Some?))
            && Claimed(r.ownership) == (if o.Some? && o.value.claimed.Some? then Claimed(o) + r.admitted else {})
  {
    hide Admits, SanitizeCursor;
    if entries != [] { ClaimsGrowByAdmitted(user, o, entries[..|entries| - 1]); }
  }

  // Survivors carry the sender's own identity and a sanitized cursor, name admitted ids, come from usable entries of
  // the update, and never stand for another socket's or another actor's id.
  ghost predicate Survives(user: User, o: Option<Ownership>, entries: seq<Entry>, c: Canonical) {
    && c.user == user && (c.cursor.Some? ==> ValidCursor(c.cursor.value))
    && 0 <= c.clientId <= MAX_YJS_CLIENT_ID
    && (exists i :: 0 <= i < |entries| && entries[i].clientId == c.clientId
                    && entries[i].state.Filled? && entries[i].state.bounded
                    && c.cursor == SanitizeCursor(entries[i].state.cursor))
    && (o.Some? && c.clientId in o.value.occupied ==> c.clientId in o.value.owned)
    && (o.Some? && o.value.owners.Some? && c.clientId in o.value.owners.value ==>
          o.value.owners.value[c.clientId] == user.id)
  }

  lemma {:induction false} SurvivorsAreCanonical(user: User, o: Option<Ownership>, entries: seq<Entry>)
    ensures var r := Bind(user, o, entries);
            && (forall c | c in r.states :: Survives(user, o, entries, c))
            && (forall id :: id in r.admitted <==> exists c :: c in r.states && c.clientId == id)
            && (forall id | id in r.admitted && r.ownership.Some? && r.ownership.value.owners.Some? ::
                  id in Owners(r.ownership) && Owners(r.ownership)[id] == user.id)
  {
    if entries != [] {
      var n := |entries| - 1;
      var e := entries[n];
      SurvivorsAreCanonical(user, o, entries[..n]);
      OwnersAreWriteOnce(user, o, entries[..n]);
      OwnersAreWriteOnce(user, o, entries);
      ClaimsGrowByAdmitted(user, o, entries[..n]);
      ClaimsGrowByAdmitted(user, o, entries);
      var before, r := Bind(user, o, entries[..n]), Bind(user, o, entries);
      forall c | c in before.states ensures Survives(user, o, entries, c) { StillSurvives(user, o, entries, c); }
      if Admits(user, before.ownership, before.admitted, e) {
        var c := Canonical(e.clientId, user, SanitizeCursor(e.state.cursor));
        NewSurvivor(user, o, before, entries);
        OwnerRecorded(user, before.ownership, e.clientId);
        hide Admits, Survives, SanitizeCursor;
        assert r.states == before.states + [c];
        assert c in r.states;
      }
    }
  }

  lemma OwnerRecorded(user: User, o: Option<Ownership>, id: int)
    requires Free(user, o, id)
    ensures forall k | k in Owners(o) :: k in Owners(Record(user, o, id)) && Owners(Record(user, o, id))[k] == Owners(o)[k]
    ensures o.Some? && o.value.owners.Some? ==> id in Owners(Record(user, o, id)) && Owners(Record(user, o, id))[id] == user.id
  {
  }

  lemma NewSurvivor(user: User, o: Option<Ownership>, before: Outcome, entries: seq<Entry>)
    requires entries != [] && Admits(user, before.ownership, before.admitted, entries[|entries| - 1])
    requires forall id | id in Owners(o) :: id in Owners(before.ownership) && Owners(before.ownership)[id] == Owners(o)[id]
    requires (o.None? <==> before.ownership.None?) && Owned(before.ownership) == Owned(o)
    requires o.Some? ==> before.ownership.value.occupied == o.value.occupied
    ensures var e := entries[|entries| - 1];
            Survives(user, o, entries, Canonical(e.clientId, user, SanitizeCursor(e.state.cursor)))
  {
    hide SanitizeId, SanitizePosition;
  }

  lemma StillSurvives(user: User, o: Option<Ownership>, entries: seq<Entry>, c: Canonical)
    requires entries != [] && Survives(user, o, entries[..|entries| - 1], c)
    ensures Survives(user, o, entries, c)
  {
  }

  // A usable state of an id in range that is no other socket's and no other actor's.
  predicate Acceptable(user: User, o: Option<Ownership>, e: Entry) {
    && e.state.Filled? && e.state.bounded && 0 <= e.clientId <= MAX_YJS_CLIENT_ID
    && (o.Some? && e.clientId in o.value.occupied ==> e.clientId in o.value.owned)
    && (o.Some? && o.value.owners.Some? && e.clientId in o.value.owners.value ==>
          o.value.owners.value[e.clientId] == user.id)
  }

  // The room has bound the id already, or still takes one, or the call keeps no owners.
  predicate Placed(o: Option<Ownership>, id: int) {
    o.None? || o.value.owners.None? || id in o.value.owners.value || |o.value.owners.value| < MAX_CLIENT_IDS_PER_ROOM
  }

  lemma {:induction false} StatesGrow(user: User, o: Option<Ownership>, entries: seq<Entry>, i: nat)
    requires i <= |entries|
    ensures Bind(user, o, entries[..i]).states <= Bind(user, o, entries).states
  {
    if i == |entries| {
      assert entries[..i] == entries;
    } else {
      var n := |entries| - 1;
      StatesGrow(user, o, entries[..n], i);
      assert entries[..n][..i] == entries[..i];
    }
  }

  // Whoever owns an id that the room has bound to him gets every acceptable state of it through.
  lemma OwnStatesSurvive(user: User, o: Option<Ownership>, entries: seq<Entry>, i: nat)
    requires i < |entries| && Acceptable(user, o, entries[i])
    requires o.Some? && entries[i].clientId in o.value.owned
    requires o.value.owners.None? || entries[i].clientId in o.value.owners.value
    ensures Canonical(entries[i].clientId, user, SanitizeCursor(entries[i].state.cursor)) in Bind(user, o, entries).states
  {
    ClaimsGrowByAdmitted(user, o, entries[..i]);
    OwnersAreWriteOnce(user, o, entries[..i]);
    BindStep(user, o, entries, i);
    StatesGrow(user, o, entries, i + 1);
    hide Bind, SanitizeCursor, Record;
    var states := Bind(user, o, entries[..i + 1]).states;
    assert states[|states| - 1] in Bind(user, o, entries).states;
  }

  // Before a connection known by no id has brought an acceptable state for which there is a place, nothing happens.
  lemma {:induction false} NothingAdmittedYet(user: User, o: Option<Ownership>, entries: seq<Entry>)
    requires forall j | 0 <= j < |entries| :: !Acceptable(user, o, entries[j]) || !Placed(o, entries[j].clientId)
    ensures Bind(user, o, entries) == Outcome([], {}, o)
  {
    hide SanitizeCursor, Record;
    if entries != [] {
      var n := |entries| - 1;
      NothingAdmittedYet(user, o, entries[..n]);
      assert !Acceptable(user, o, entries[n]) || !Placed(o, entries[n].clientId);
    }
  }

  // A connection known by no id gets the first acceptable state through for which there is a place.
  lemma NewcomerGetsFirst(user: User, o: Option<Ownership>, entries: seq<Entry>, i: nat)
    requires Owned(o) + Claimed(o) == {} && i < |entries|
    requires Acceptable(user, o, entries[i]) && Placed(o, entries[i].clientId)
    requires forall j | 0 <= j < i :: !Acceptable(user, o, entries[j]) || !Placed(o, entries[j].clientId)
    ensures var states := Bind(user, o, entries).states;
            states != [] && states[0] == Canonical(entries[i].clientId, user, SanitizeCursor(entries[i].state.cursor))
  {
    NothingAdmittedYet(user, o, entries[..i]);
    BindStep(user, o, entries, i);
    StatesGrow(user, o, entries, i + 1);
    hide Bind, SanitizeCursor, Record;
    assert Owned(o) + Claimed(o) + {} == {};
  }

  // A connection that is known by no id yet gets at most one; a known one gets only ids it is known by.
  lemma {:induction false} AdmittedIds(user: User, o: Option<Ownership>, entries: seq<Entry>)
    ensures var r := Bind(user, o, entries);
            var known := Owned(o) + Claimed(o);
            r.admitted <= known || (known == {} && exists id :: r.admitted == {id})
  {
    if entries != [] {
      var n := |entries| - 1;
      AdmittedIds(user, o, entries[..n]);
      ClaimsGrowByAdmitted(user, o, entries[..n]);
      var before := Bind(user, o, entries[..n]);
      var known, now := Owned(o) + Claimed(o), Owned(before.ownership) + Claimed(before.ownership) + before.admitted;
      var id := entries[n].clientId;
      if Admits(user, before.ownership, before.admitted, entries[n]) && id !in known {
        if before.admitted == {} {
          assert now == known;
          assert before.admitted + {id} == {id};
        } else {
          var other :| other in before.admitted;
          assert other in now;
        }
      }
    }
  }

  // A connection known by at most one id claims at most one id, whatever the update.
  lemma ClaimsStayBounded(user: User, o: Option<Ownership>, entries: seq<Entry>)
    requires |Owned(o) + Claimed(o)| <= 1
    ensures |Claimed(Bind(user, o, entries).ownership)| <= 1
  {
    AdmittedIds(user, o, entries);
    ClaimsGrowByAdmitted(user, o, entries);
    var r := Bind(user, o, entries);
    var known := Owned(o) + Claimed(o);
    if r.admitted <= known {
      SubsetSize(Claimed(r.ownership), known);
    } else {
      SubsetSize(Claimed(r.ownership), r.admitted);
    }
  }

  function Presence(id: int): Entry {
    Entry(id, Filled(Undefined, true))
  }

  // The own ids an update may bring in: in range, and unbound or bound to the sender.
  function Eligible(user: User, o: Option<Ownership>): set<int> {
    set id | id in Owned(o) && 0 <= id <= MAX_YJS_CLIENT_ID && (id in Owners(o) ==> Owners(o)[id] == user.id)
  }

  // The eligible ids the room knows already, and those it would have to bind for the first time.
  function Bound(user: User, o: Option<Ownership>): set<int> {
    set id | id in Eligible(user, o) && id in Owners(o)
  }

  function Unbound(user: User, o: Option<Ownership>): set<int> {
    set id | id in Eligible(user, o) && id !in Owners(o) && id !in Claimed(o)
  }

  function Min(a: nat, b: nat): nat {
    if a < b then a else b
  }

  // How many of `n` unbound ids a room still takes; a call without a room binds nothing and takes all.
  function Places(o: Option<Ownership>, n: nat): nat {
    if o.Some? && o.value.owners.Some? then
      Min(n, if |Owners(o)| < MAX_CLIENT_IDS_PER_ROOM then MAX_CLIENT_IDS_PER_ROOM - |Owners(o)| else 0)
    else n
  }

  // What the claims of a connection known by some id can come to by one update. A call without a record of claims
  // claims nothing.
  function Reach(user: User, o: Option<Ownership>): nat {
    if o.Some? && o.value.claimed.Some? then
      |Claimed(o) + Bound(user, o)| + Places(o, |Unbound(user, o)|)
    else 0
  }

  lemma UnionSize<T>(a: set<T>, b: set<T>)
    requires forall x | x in a :: x !in b
    ensures |a + b| == |a| + |b|
  {
    assert a * b == {};
  }

  lemma AdmittedAreBound(user: User, o: Option<Ownership>, entries: seq<Entry>)
    requires o.Some? && o.value.owners.Some?
    ensures forall id | id in Bind(user, o, entries).admitted :: id in Owners(Bind(user, o, entries).ownership)
  {
    hide Survives, Admits, Record, SanitizeCursor;
    SurvivorsAreCanonical(user, o, entries);
    ClaimsGrowByAdmitted(user, o, entries);
  }

  // Newly bound ids fit the room.
  lemma NewlyBoundFit(user: User, o: Option<Ownership>, entries: seq<Entry>, fresh': set<int>)
    requires o.Some? && o.value.owners.Some?
    requires fresh' <= Bind(user, o, entries).admitted && forall id | id in fresh' :: id !in Owners(o)
    ensures |fresh'| <= if |Owners(o)| < MAX_CLIENT_IDS_PER_ROOM then MAX_CLIENT_IDS_PER_ROOM - |Owners(o)| else 0
  {
    hide Survives, Admits, Record, SanitizeCursor;
    RoomNeverOutgrows(user, o, entries);
    AdmittedAreBound(user, o, entries);
    OwnersAreWriteOnce(user, o, entries);
    var after := Owners(Bind(user, o, entries).ownership);
    assert forall id | id in fresh' :: id in after;
    assert forall id | id in Owners(o).Keys + fresh' :: id in after.Keys;
    assert forall id: int | id in Owners(o).Keys :: id !in fresh';
    UnionSize(Owners(o).Keys, fresh');
    SubsetSize(Owners(o).Keys + fresh', after.Keys);
  }

  lemma {:induction false} RoomNeverOutgrows(user: User, o: Option<Ownership>, entries: seq<Entry>)
    ensures var n := |Owners(Bind(user, o, entries).ownership)|;
            n <= MAX_CLIENT_IDS_PER_ROOM || n <= |Owners(o)|
  {
    hide Usable, Free, SanitizeCursor;
    if entries != [] { RoomNeverOutgrows(user, o, entries[..|entries| - 1]); }
  }

  lemma AdmittedSurvive(user: User, o: Option<Ownership>, entries: seq<Entry>, id: int) returns (c: Canonical)
    requires id in Bind(user, o, entries).admitted
    ensures c in Bind(user, o, entries).states && c.clientId == id && Survives(user, o, entries, c)
  {
    SurvivorsAreCanonical(user, o, entries);
    var r := Bind(user, o, entries);
    c :| c in r.states && c.clientId == id;
  }

  lemma AdmittedAreEligible(user: User, o: Option<Ownership>, entries: seq<Entry>)
    ensures forall id | id in Bind(user, o, entries).admitted && id in Owned(o) :: id in Eligible(user, o)
  {
    forall id | id in Bind(user, o, entries).admitted && id in Owned(o) ensures id in Eligible(user, o) {
      hide Bind, SanitizeCursor;
      var c := AdmittedSurvive(user, o, entries, id);
    }
  }

  // Nothing goes beyond the reach.
  lemma ClaimsStayInReach(user: User, o: Option<Ownership>, entries: seq<Entry>)
    requires o.Some? && o.value.claimed.Some? && Bind(user, o, entries).admitted <= Owned(o) + Claimed(o)
    ensures |Claimed(Bind(user, o, entries).ownership)| <= Reach(user, o)
  {
    AdmittedAreEligible(user, o, entries);
    ClaimsGrowByAdmitted(user, o, entries);
    var admitted := Bind(user, o, entries).admitted;
    var fresh' := set id | id in admitted && id in Unbound(user, o);
    var base := Claimed(o) + Bound(user, o);
    if o.value.owners.Some? { NewlyBoundFit(user, o, entries, fresh'); }
    hide Bind, Eligible;
    SubsetSize(fresh', Unbound(user, o));
    assert Claimed(o) + admitted <= base + fresh';
    SubsetSize(Claimed(o) + admitted, base + fresh');
    UnionSize(base, fresh');
  }

  function NotIn(a: set<int>, b: set<int>): set<int> {
    set x | x in a && x !in b
  }

  // The room takes this many first bindings.
  predicate Roomy(o: Option<Ownership>, n: nat) {
    o.Some? && o.value.owners.Some? ==> n == 0 || |Owners(o)| + n <= MAX_CLIENT_IDS_PER_ROOM
  }

  lemma NotInLess(ids: set<int>, keys: set<int>, id: int)
    requires id in ids
    ensures NotIn(ids - {id}, keys) == NotIn(ids, keys) - {id}
    ensures |NotIn(ids - {id}, keys)| == |NotIn(ids, keys)| - if id in keys then 0 else 1
  {
    assert NotIn(ids - {id}, keys) == NotIn(ids, keys) - {id};
  }

  // All of `ids` can be brought in by one update when the room has places for the unbound ones.
  lemma {:induction false} AllAdmitted(user: User, o: Option<Ownership>, ids: set<int>) returns (entries: seq<Entry>)
    requires o.Some? && o.value.claimed.Some? && ids <= Eligible(user, o)
    requires Roomy(o, |NotIn(ids, Owners(o).Keys)|)
    ensures Brings(user, o, entries, ids)
    decreases |ids|
  {
    if ids == {} {
      entries := [];
      BindNothing(user, o);
    } else {
      hide Brings, Owners, Eligible, NotIn;
      var id :| id in ids;
      NotInLess(ids, Owners(o).Keys, id);
      entries := AllAdmitted(user, o, ids - {id});
      OneMoreAdmitted(user, o, entries, ids, id);
      entries := entries + [Presence(id)];
    }
  }

  // This update brings in at least these ids and binds no others.
  ghost predicate Brings(user: User, o: Option<Ownership>, entries: seq<Entry>, ids: set<int>) {
    && Claimed(o) + ids <= Claimed(Bind(user, o, entries).ownership)
    && Owners(Bind(user, o, entries).ownership).Keys <= Owners(o).Keys + ids
  }

  lemma PlaceLeft(keys: set<int>, after: set<int>, ids: set<int>, id: int)
    requires id in ids && id !in keys && after <= keys + (ids - {id})
    requires |keys| + |NotIn(ids, keys)| <= MAX_CLIENT_IDS_PER_ROOM
    ensures |after| < MAX_CLIENT_IDS_PER_ROOM
  {
    NotInLess(ids, keys, id);
    var rest := NotIn(ids - {id}, keys);
    assert keys + (ids - {id}) == keys + rest;
    UnionSize(keys, rest);
    SubsetSize(after, keys + rest);
    hide NotIn;
  }

  lemma BindAppend(user: User, o: Option<Ownership>, entries: seq<Entry>, e: Entry)
    ensures var before := Bind(user, o, entries);
            Admits(user, before.ownership, before.admitted, e) ==>
              Bind(user, o, entries + [e]).ownership == Record(user, before.ownership, e.clientId)
  {
    var longer := entries + [e];
    assert longer[..|entries|] == entries && longer[..|entries| + 1] == longer;
    BindStep(user, o, longer, |entries|);
    hide Bind, Admits, Record, SanitizeCursor;
  }

  lemma RecordBrings(user: User, o: Option<Ownership>, id: int)
    requires o.Some? && o.value.claimed.Some?
    ensures Claimed(Record(user, o, id)) == Claimed(o) + {id}
    ensures Owners(Record(user, o, id)).Keys <= Owners(o).Keys + {id}
  {
  }

  lemma OneMoreAdmitted(user: User, o: Option<Ownership>, entries: seq<Entry>, ids: set<int>, id: int)
    requires o.Some? && o.value.claimed.Some? && id in ids && ids <= Eligible(user, o)
    requires Roomy(o, |NotIn(ids, Owners(o).Keys)|) && Brings(user, o, entries, ids - {id})
    ensures Brings(user, o, entries + [Presence(id)], ids)
  {
    hide Bind, Admits, Eligible, SanitizeCursor, Roomy, NotIn, Record, Claimed, Owners, Owned;
    PresenceIsAdmitted(user, o, entries, ids, id);
    BindAppend(user, o, entries, Presence(id));
    ClaimsGrowByAdmitted(user, o, entries);
    RecordBrings(user, Bind(user, o, entries).ownership, id);
  }

  // An eligible id is admitted after any update that left a place for it.
  lemma PresenceFits(user: User, o: Option<Ownership>, now: Option<Ownership>, admitted: set<int>, id: int)
    requires o.Some? && now.Some? && id in Eligible(user, o)
    requires Owned(now) == Owned(o) && now.value.occupied == o.value.occupied
    requires forall k | k in Owners(o) :: k in Owners(now) && Owners(now)[k] == Owners(o)[k]
    requires forall k | k in Owners(now) && k !in Owners(o) :: Owners(now)[k] == user.id
    requires id in Owners(o) || |Owners(now)| < MAX_CLIENT_IDS_PER_ROOM
    ensures Admits(user, now, admitted, Presence(id))
  {
  }

  lemma PresenceIsAdmitted(user: User, o: Option<Ownership>, entries: seq<Entry>, ids: set<int>, id: int)
    requires o.Some? && o.value.claimed.Some? && id in ids && ids <= Eligible(user, o)
    requires Roomy(o, |NotIn(ids, Owners(o).Keys)|) && Brings(user, o, entries, ids - {id})
    ensures Admits(user, Bind(user, o, entries).ownership, Bind(user, o, entries).admitted, Presence(id))
  {
    hide Bind, Admits, Eligible, SanitizeCursor, NotIn, Record;
    var before := Bind(user, o, entries);
    ClaimsGrowByAdmitted(user, o, entries);
    OwnersAreWriteOnce(user, o, entries);
    if o.value.owners.Some? && id !in Owners(o) {
      NotInLess(ids, Owners(o).Keys, id);
      PlaceLeft(Owners(o).Keys, Owners(before.ownership).Keys, ids, id);
    }
    PresenceFits(user, o, before.ownership, before.admitted, id);
  }

  lemma {:induction false} PickSome<T>(a: set<T>, n: nat) returns (b: set<T>)
    requires n <= |a|
    ensures b <= a && |b| == n
  {
    if n == 0 {
      b := {};
    } else {
      var x :| x in a;
      b := PickSome(a - {x}, n - 1);
      b := b + {x};
    }
  }

  // The reach is attained.
  lemma ReachIsAttained(user: User, o: Option<Ownership>) returns (entries: seq<Entry>)
    requires o.Some? && o.value.claimed.Some?
    ensures |Claimed(Bind(user, o, entries).ownership)| >= Reach(user, o)
  {
    var bound, unbound := Bound(user, o), Unbound(user, o);
    var picked := PickSome(unbound, Places(o, |unbound|));
    PickedFit(user, o, picked);
    hide Bind, Eligible, Bound, Unbound, Claimed, Owners, NotIn, Places, Roomy;
    entries := AllAdmitted(user, o, bound + picked);
    assert (Claimed(o) + bound) + picked == Claimed(o) + (bound + picked);
    UnionSize(Claimed(o) + bound, picked);
    SubsetSize(Claimed(o) + (bound + picked), Claimed(Bind(user, o, entries).ownership));
  }

  lemma PickedFit(user: User, o: Option<Ownership>, picked: set<int>)
    requires picked <= Unbound(user, o) && |picked| == Places(o, |Unbound(user, o)|)
    ensures Bound(user, o) + picked <= Eligible(user, o)
    ensures Roomy(o, |NotIn(Bound(user, o) + picked, Owners(o).Keys)|)
    ensures forall id | id in Claimed(o) + Bound(user, o) :: id !in picked
  {
    hide Eligible;
    assert NotIn(Bound(user, o) + picked, Owners(o).Keys) == picked;
  }

  // The bound on claims holds for every update exactly when what the connection has claimed, what it may bring in of its
  // own ids the room has bound to it, and as many of its unbound own ids as the room still takes, are together at most
  // one. Own ids the connection never claimed are what can break it.
  lemma ClaimBoundIsExact(user: User, o: Option<Ownership>)
    ensures (forall entries :: |Claimed(Bind(user, o, entries).ownership)| <= 1) <==> Reach(user, o) <= 1
  {
    if Reach(user, o) <= MAX_CLIENT_IDS_PER_CONNECTION {
      forall entries ensures |Claimed(Bind(user, o, entries).ownership)| <= MAX_CLIENT_IDS_PER_CONNECTION {
        ReachBounds(user, o, entries);
      }
    } else {
      var entries := ReachIsAttained(user, o);
    }
  }

  lemma ReachBounds(user: User, o: Option<Ownership>, entries: seq<Entry>)
    requires Reach(user, o) <= MAX_CLIENT_IDS_PER_CONNECTION
    ensures |Claimed(Bind(user, o, entries).ownership)| <= MAX_CLIENT_IDS_PER_CONNECTION
  {
    AdmittedIds(user, o, entries);
    ClaimsGrowByAdmitted(user, o, entries);
    if o.Some? && o.value.claimed.Some? {
      if Bind(user, o, entries).admitted <= Owned(o) + Claimed(o) {
        ClaimsStayInReach(user, o, entries);
      } else {
        assert Claimed(o) + Bind(user, o, entries).admitted == Bind(user, o, entries).admitted;
      }
    }
    hide Bind, Reach;
  }

  // Own ids bound to another actor are no danger, however many they are.
  lemma ForeignOwnIdsAreHarmless()
    ensures var user := User("a", "", "");
            var o := Some(Ownership({1, 2}, {1, 2}, Some({}), Some(map[1 := "b", 2 := "b"])));
            Reach(user, o) == 0 && |Owned(o) + Claimed(o)| == 2
  {
    var user := User("a", "", "");
    var o := Some(Ownership({1, 2}, {1, 2}, Some({}), Some(map[1 := "b", 2 := "b"])));
    assert Eligible(user, o) == {} && Bound(user, o) == {} && Unbound(user, o) == {};
    assert Owned(o) + Claimed(o) == {1, 2};
  }

  lemma BindNothing(user: User, o: Option<Ownership>)
    ensures Bind(user, o, []) == Outcome([], {}, o)
  {
  }

  lemma {:induction false} SubsetSize<T>(a: set<T>, b: set<T>)
    requires a <= b
    ensures |a| <= |b|
  {
    if a != {} {
      var x :| x in a;
      SubsetSize(a - {x}, b - {x});
    }
  }

  // ---------------------------------------------------------------------------------------------------------
  // The binder and its records
  // ---------------------------------------------------------------------------------------------------------

  // All client ids admitted during one connection's lifetime.
  class ConnectionClaims {
    var ids: set<int>

    constructor ()
      ensures ids == {}
    {
      ids := {};
    }
  }

  // The room-lifetime binding of client ids to actors.
  class RoomOwners {
    var owners: map<int, string>

    constructor ()
      ensures owners == map[]
    {
      owners := map[];
    }
  }

  datatype Failure = NotAuthenticated

  datatype Result = Ok(states: seq<Canonical>) | Err(failure: Failure)

  // What the server reports about the sender's socket.
  datatype Report = Report(owned: set<int>, occupied: set<int>)

  // The ownership a call works with: nothing without a report, and only the records at hand.
  ghost function OwnershipOf(report: Option<Report>, claims: ConnectionClaims?, room: RoomOwners?): Option<Ownership>
    reads claims, room
  {
    if report.None? then None
    else Some(Ownership(report.value.owned, report.value.occupied,
                        if claims == null then None else Some(claims.ids),
                        if room == null then None else Some(room.owners)))
  }

  // Admission of one entry: the checks, and the records when it passes.
  method AdmitEntry(user: User, e: Entry, report: Option<Report>, admitted: set<int>,
                    claims: ConnectionClaims?, room: RoomOwners?) returns (passed: bool)
    modifies claims, room
    ensures passed == old(Admits(user, OwnershipOf(report, claims, room), admitted, e))
    ensures OwnershipOf(report, claims, room) == old(if Admits(user, OwnershipOf(report, claims, room), admitted, e) then
                                                       Record(user, OwnershipOf(report, claims, room), e.clientId)
                                                     else OwnershipOf(report, claims, room))
    ensures report.None? ==> Unchanged(claims, room)
  {
    assert Unchanged(claims, room);
    hide *;
    var id := e.clientId;
    var owned, occupied := if report.Some? then report.value.owned else {}, if report.Some? then report.value.occupied else {};
    var claimed := if report.Some? && claims != null then claims.ids else {};
    var owners := if report.Some? && room != null then room.owners else map[];
    Parts(report, claims, room);
    AdmitsSpelled(user, OwnershipOf(report, claims, room), admitted, e);
    if !Usable(e) { return false; }
    if id in occupied && id !in owned { return false; }
    if id in owners && owners[id] != user.id { return false; }
    var known := id in owned || id in claimed;
    if !known && |owned + claimed + admitted| >= MAX_CLIENT_IDS_PER_CONNECTION { return false; }
    if id !in owners && |owners| >= MAX_CLIENT_IDS_PER_ROOM { return false; }
    RecordAdmission(user, id, report, claims, room);
    passed := true;
  }

  lemma Parts(report: Option<Report>, claims: ConnectionClaims?, room: RoomOwners?)
    ensures var o := OwnershipOf(report, claims, room);
            && Owned(o) == (if report.Some? then report.value.owned else {})
            && Occupied(o) == (if report.Some? then report.value.occupied else {})
            && Claimed(o) == (if report.Some? && claims != null then claims.ids else {})
            && Owners(o) == (if report.Some? && room != null then room.owners else map[])
  {
  }

  lemma AdmitsSpelled(user: User, o: Option<Ownership>, admitted: set<int>, e: Entry)
    ensures var id := e.clientId;
            Admits(user, o, admitted, e) <==>
              && Usable(e) && (id in Occupied(o) ==> id in Owned(o)) && (id in Owners(o) ==> Owners(o)[id] == user.id)
              && (id in Owned(o) || id in Claimed(o) || |Owned(o) + Claimed(o) + admitted| < MAX_CLIENT_IDS_PER_CONNECTION)
              && (id in Owners(o) || |Owners(o)| < MAX_CLIENT_IDS_PER_ROOM)
  {
    hide Usable, Owned, Claimed, Owners;
  }

  method RecordAdmission(user: User, id: int, report: Option<Report>, claims: ConnectionClaims?, room: RoomOwners?)
    modifies claims, room
    ensures OwnershipOf(report, claims, room) == old(Record(user, OwnershipOf(report, claims, room), id))
    ensures report.None? ==> Unchanged(claims, room)
  {
    if report.None? { return; }
    if claims != null { claims.ids := claims.ids + {id}; }
    if room != null && id !in room.owners { room.owners := room.owners[id := user.id]; }
  }

  twostate predicate Unchanged(claims: ConnectionClaims?, room: RoomOwners?)
    reads claims, room
  {
    (claims != null ==> claims.ids == old(claims.ids)) && (room != null ==> room.owners == old(room.owners))
  }

  // Without an authenticated sender nothing changes, and without a report nothing is recorded.
  method BindAwarenessStates(user: Option<User>, entries: seq<Entry>, report: Option<Report>,
                             claims: ConnectionClaims?, room: RoomOwners?) returns (result: Result)
    modifies claims, room
    ensures result.Err? <==> user.None?
    ensures user.None? || report.None? ==> Unchanged(claims, room)
    ensures user.Some? ==>
              var r := Bind(user.value, old(OwnershipOf(report, claims, room)), entries);
              result == Ok(r.states) && OwnershipOf(report, claims, room) == r.ownership
  {
    if user.None? { return Err(NotAuthenticated); }
    ghost var start := OwnershipOf(report, claims, room);
    var states: seq<Canonical>, admitted: set<int> := [], {};
    var i := 0;
    BindNothing(user.value, start);
    assert entries[..0] == [];
    hide Bind, SanitizeCursor, Admits, Record, OwnershipOf;
    while i < |entries|
      invariant 0 <= i <= |entries|
      invariant Bind(user.value, start, entries[..i]) == Outcome(states, admitted, OwnershipOf(report, claims, room))
      invariant report.None? ==> Unchanged(claims, room)
    {
      BindStep(user.value, start, entries, i);
      var e := entries[i];
      var passed := AdmitEntry(user.value, e, report, admitted, claims, room);
      if passed {
        states := states + [Canonical(e.clientId, user.value, SanitizeCursor(e.state.cursor))];
        admitted := admitted + {e.clientId};
      }
      i := i + 1;
    }
    assert entries[..i] == entries;
    result := Ok(states);
  }

  datatype Update = Update(connection: nat, user: Option<User>, entries: seq<Entry>, owned: set<int>, occupied: set<int>)

  // A room over any sequence of updates from any of its connections: owners are write-once and at most 256, and no
  // connection ever claims a second id, provided the ids the server reports as a connection's own are among its claims.
  method ReplayRoom(room: RoomOwners, connections: seq<ConnectionClaims>, updates: seq<Update>)
    requires Distinct(connections)
    requires |room.owners| <= MAX_CLIENT_IDS_PER_ROOM
    requires forall i | 0 <= i < |connections| :: |connections[i].ids| <= MAX_CLIENT_IDS_PER_CONNECTION
    modifies room, connections
    ensures |room.owners| <= MAX_CLIENT_IDS_PER_ROOM
    ensures forall id | id in old(room.owners) :: id in room.owners && room.owners[id] == old(room.owners)[id]
    ensures forall i | 0 <= i < |connections| ::
              old(connections[i].ids) <= connections[i].ids && |connections[i].ids| <= MAX_CLIENT_IDS_PER_CONNECTION
  {
    var k := 0;
    while k < |updates|
      invariant 0 <= k <= |updates| && |room.owners| <= MAX_CLIENT_IDS_PER_ROOM
      invariant forall id | id in old(room.owners) :: id in room.owners && room.owners[id] == old(room.owners)[id]
      invariant forall i | 0 <= i < |connections| ::
                  old(connections[i].ids) <= connections[i].ids && |connections[i].ids| <= MAX_CLIENT_IDS_PER_CONNECTION
    {
      var u := updates[k];
      if u.connection < |connections| && u.owned <= connections[u.connection].ids {
        ApplyUpdate(u, connections[u.connection], room);
      }
      k := k + 1;
    }
  }

  method ApplyUpdate(u: Update, claims: ConnectionClaims, room: RoomOwners)
    requires |room.owners| <= MAX_CLIENT_IDS_PER_ROOM && |claims.ids| <= MAX_CLIENT_IDS_PER_CONNECTION
    requires u.owned <= claims.ids
    modifies claims, room
    ensures |room.owners| <= MAX_CLIENT_IDS_PER_ROOM && |claims.ids| <= MAX_CLIENT_IDS_PER_CONNECTION
    ensures forall id | id in old(room.owners) :: id in room.owners && room.owners[id] == old(room.owners)[id]
    ensures old(claims.ids) <= claims.ids
  {
    ghost var o := OwnershipOf(Some(Report(u.owned, u.occupied)), claims, room);
    if u.user.Some? {
      assert Owned(o) + Claimed(o) == claims.ids;
      OwnersAreWriteOnce(u.user.value, o, u.entries);
      RoomStaysBounded(u.user.value, o, u.entries);
      ClaimsGrowByAdmitted(u.user.value, o, u.entries);
      ClaimsStayBounded(u.user.value, o, u.entries);
    }
    hide Bind;
    var _ := BindAwarenessStates(u.user, u.entries, Some(Report(u.owned, u.occupied)), claims, room);
  }
}
