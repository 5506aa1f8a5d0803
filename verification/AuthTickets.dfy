/**
 * Authorization tickets: a handshake takes a ticket, access-change events bump the epoch of the ticket's document and
 * scope, and a ticket is current exactly while no such event has crossed it.
 */
module AuthTickets {
  import opened Options

  datatype Scope = Scope(tenantId: string, organizationId: string)

  const NUL: char := '\0'

  function StateKey(documentName: string, scope: Option<Scope>): string {
    match scope
    case None => documentName
    case Some(s) => documentName + [NUL] + s.tenantId + [NUL] + s.organizationId
  }

  predicate NulFree(documentName: string, scope: Option<Scope>) {
    NUL !in documentName && (scope.Some? ==> NUL !in scope.value.tenantId && NUL !in scope.value.organizationId)
  }

  lemma SplitAtNul(a: string, b: string, a': string, b': string)
    requires NUL !in a && NUL !in a' && a + [NUL] + b == a' + [NUL] + b'
    ensures a == a' && b == b'
  {
    var s := a + [NUL] + b;
    assert s[|a|] == NUL && s[|a'|] == NUL;
    assert forall i | 0 <= i < |a| :: s[i] == a[i];
    assert forall i | 0 <= i < |a'| :: s[i] == a'[i];
    assert a == s[..|a|] && a' == s[..|a'|];
    assert b == s[|a| + 1..] && b' == s[|a'| + 1..];
  }

  lemma ScopeShows(name: string, scope: Option<Scope>)
    requires NulFree(name, scope)
    ensures NUL in StateKey(name, scope) <==> scope.Some?
  {
    if scope.Some? { assert StateKey(name, scope)[|name|] == NUL; }
  }

  // Names without NUL characters never share a key: an event of one document and scope leaves the tickets of every
  // other alone.
  lemma KeysAreExact(name: string, scope: Option<Scope>, name': string, scope': Option<Scope>)
    requires NulFree(name, scope) && NulFree(name', scope') && StateKey(name, scope) == StateKey(name', scope')
    ensures name == name' && scope == scope'
  {
    ScopeShows(name, scope);
    ScopeShows(name', scope');
    if scope.Some? && scope'.Some? {
      var rest := scope.value.tenantId + [NUL] + scope.value.organizationId;
      var rest' := scope'.value.tenantId + [NUL] + scope'.value.organizationId;
      assert StateKey(name, scope) == name + [NUL] + rest;
      assert StateKey(name', scope') == name' + [NUL] + rest';
      SplitAtNul(name, rest, name', rest');
      SplitAtNul(scope.value.tenantId, scope.value.organizationId, scope'.value.tenantId, scope'.value.organizationId);
    }
  }

  function Nuls(s: string): nat {
    if s == "" then 0 else (if s[0] == NUL then 1 else 0) + Nuls(s[1..])
  }

  lemma {:induction false} NulsConcat(a: string, b: string)
    ensures Nuls(a + b) == Nuls(a) + Nuls(b)
  {
    if a == "" { assert a + b == b; }
    else {
      NulsConcat(a[1..], b);
      assert (a + b)[1..] == a[1..] + b;
    }
  }

  lemma {:induction false} NoNuls(s: string)
    ensures Nuls(s) == 0 <==> NUL !in s
  {
    if s != "" {
      NoNuls(s[1..]);
      assert s == [s[0]] + s[1..];
    }
  }

  // The two separators of a scoped key are its only NULs exactly if its parts have none.
  lemma ScopedNuls(name: string, s: Scope)
    ensures Nuls(StateKey(name, Some(s))) >= 2
    ensures Nuls(StateKey(name, Some(s))) == 2 <==> NulFree(name, Some(s))
  {
    NulsConcat(name + [NUL] + s.tenantId + [NUL], s.organizationId);
    NulsConcat(name + [NUL] + s.tenantId, [NUL]);
    NulsConcat(name + [NUL], s.tenantId);
    NulsConcat(name, [NUL]);
    assert Nuls([NUL]) == 1;
    NoNuls(name);
    NoNuls(s.tenantId);
    NoNuls(s.organizationId);
  }

  // `s` has no other way to be read as the key of a document and scope.
  ghost predicate NamesOnlyItself(name: string, s: Scope) {
    forall name', s' :: StateKey(name', Some(s')) == StateKey(name, Some(s)) ==> name' == name && s' == s
  }

  lemma CutAtNul(s: string) returns (a: string, b: string)
    requires NUL in s
    ensures s == a + [NUL] + b
  {
    var i :| 0 <= i < |s| && s[i] == NUL;
    a, b := s[..i], s[i + 1..];
  }

  // A NUL in any part shifts the boundaries: another document and scope have the same key.
  lemma NulShiftsBoundaries(name: string, s: Scope) returns (name': string, s': Scope)
    requires !NulFree(name, Some(s))
    ensures StateKey(name', Some(s')) == StateKey(name, Some(s)) && name' != name
  {
    var t, o := s.tenantId, s.organizationId;
    if NUL in name {
      var a, b := CutAtNul(name);
      name', s' := a, Scope(b, t + [NUL] + o);
      assert a + [NUL] + b + [NUL] + (t + [NUL] + o) == a + [NUL] + b + [NUL] + t + [NUL] + o;
    } else if NUL in t {
      var a, b := CutAtNul(t);
      name', s' := name + [NUL] + a, Scope(b, o);
      assert name + [NUL] + a + [NUL] + b + [NUL] + o == name + [NUL] + (a + [NUL] + b) + [NUL] + o;
    } else {
      var a, b := CutAtNul(o);
      name', s' := name + [NUL] + t, Scope(a, b);
      assert name + [NUL] + t + [NUL] + a + [NUL] + b == name + [NUL] + t + [NUL] + (a + [NUL] + b);
    }
  }

  // A scoped key identifies its document and scope exactly when none of the three parts contains a NUL.
  lemma KeyIdentifiesIff(name: string, s: Scope)
    ensures NamesOnlyItself(name, s) <==> NulFree(name, Some(s))
  {
    if NulFree(name, Some(s)) {
      forall name', s' | StateKey(name', Some(s')) == StateKey(name, Some(s)) ensures name' == name && s' == s {
        ScopedNuls(name, s);
        ScopedNuls(name', s');
        KeysAreExact(name, Some(s), name', Some(s'));
      }
    } else {
      var name', s' := NulShiftsBoundaries(name, s);
    }
  }

  // Among scoped and unscoped keys together only an unscoped name with fewer than two NULs identifies itself: an
  // unscoped document could bear any scoped key as its name. The server never asks for an unscoped key.
  lemma KeyIdentifiesAmongAllIff(name: string, scope: Option<Scope>)
    ensures (forall name', scope' :: StateKey(name', scope') == StateKey(name, scope) ==> name' == name && scope' == scope)
            <==> scope.None? && Nuls(name) < 2
  {
    if scope.Some? {
      assert StateKey(StateKey(name, scope), None) == StateKey(name, scope);
    } else if Nuls(name) < 2 {
      forall name', scope' | StateKey(name', scope') == name ensures name' == name && scope' == scope {
        if scope'.Some? { ScopedNuls(name', scope'.value); }
      }
    } else {
      var name', s' := TwoNulsReadAsScope(name);
    }
  }

  lemma TwoNulsReadAsScope(name: string) returns (name': string, s': Scope)
    requires Nuls(name) >= 2
    ensures StateKey(name', Some(s')) == name
  {
    NoNuls(name);
    var i := FirstNul(name);
    var rest := name[i + 1..];
    NoNuls(name[..i]);
    NulsConcat(name[..i] + [NUL], rest);
    NulsConcat(name[..i], [NUL]);
    assert name == name[..i] + [NUL] + rest && Nuls([NUL]) == 1;
    NoNuls(rest);
    var t, o := CutAtNul(rest);
    name', s' := name[..i], Scope(t, o);
    assert name[..i] + [NUL] + t + [NUL] + o == name[..i] + [NUL] + (t + [NUL] + o);
  }

  lemma {:induction false} FirstNul(s: string) returns (i: nat)
    requires NUL in s
    ensures i < |s| && s[i] == NUL && NUL !in s[..i]
  {
    if s[0] == NUL {
      i := 0;
    } else {
      i := FirstNul(s[1..]);
      assert s[..i + 1] == [s[0]] + s[1..][..i];
      i := i + 1;
    }
  }

  // Two documents of different tenants that share a key.
  lemma ScopedKeysCollide()
    ensures var name, other := ['a', NUL, 'b'], Scope("c", "d");
            var s' := Scope("b", ['c', NUL, 'd']);
            StateKey(name, Some(other)) == StateKey("a", Some(s')) && !NulFree(name, Some(other))
  {
    assert ['a', NUL, 'b'] + [NUL] + "c" + [NUL] + "d" == "a" + [NUL] + "b" + [NUL] + ['c', NUL, 'd'];
  }

  // An access-change event.
  datatype Event = Event(documentName: string, scope: Option<Scope>)

  function KeyOf(e: Event): string {
    StateKey(e.documentName, e.scope)
  }

  // Events that carry a scope, as the server's always do, or at least a NUL-free name.
  predicate WellNamed(log: seq<Event>) {
    forall e | e in log :: e.scope.Some? || NUL !in e.documentName
  }

  // For a NUL-free document and scope, the events that share the key are the events of that document and scope.
  lemma SharesKeyIffSame(name: string, scope: Option<Scope>, e: Event)
    requires NulFree(name, scope) && (e.scope.Some? || NUL !in e.documentName)
    ensures KeyOf(e) == StateKey(name, scope) <==> e == Event(name, scope)
  {
    if KeyOf(e) == StateKey(name, scope) {
      if e.scope.Some? {
        ScopedNuls(e.documentName, e.scope.value);
        NoNuls(KeyOf(e));
        ScopeShows(name, scope);
        if scope.Some? { KeyIdentifiesIff(name, scope.value); }
      } else {
        KeysAreExact(name, scope, e.documentName, e.scope);
      }
    }
  }

  // How often a key occurs in a log of events.
  function Count(log: seq<Event>, key: string): nat {
    if log == [] then 0 else Count(log[..|log| - 1], key) + if KeyOf(log[|log| - 1]) == key then 1 else 0
  }

  ghost predicate Hits(log: seq<Event>, key: string) {
    exists e :: e in log && KeyOf(e) == key
  }

  lemma {:induction false} CountZero(log: seq<Event>, key: string)
    ensures Count(log, key) == 0 <==> !Hits(log, key)
  {
    if log != [] {
      var n := |log| - 1;
      CountZero(log[..n], key);
      assert log == log[..n] + [log[n]];
      if e :| e in log[..n] && KeyOf(e) == key { assert e in log; }
    }
  }

  lemma CountSince(log: seq<Event>, more: Event, start: nat, key: string)
    requires start <= |log|
    ensures Count((log + [more])[start..], key) == Count(log[start..], key) + if KeyOf(more) == key then 1 else 0
  {
    var after := (log + [more])[start..];
    assert after[..|after| - 1] == log[start..] && after[|after| - 1] == more;
  }

  // Whether an event of this document and scope is in the log can be read off the key alone.
  lemma HitsNamesTheDocument(log: seq<Event>, name: string, scope: Option<Scope>)
    requires NulFree(name, scope) && WellNamed(log)
    ensures Hits(log, StateKey(name, scope)) <==> Event(name, scope) in log
  {
    forall e | e in log ensures KeyOf(e) == StateKey(name, scope) <==> e == Event(name, scope) {
      SharesKeyIffSame(name, scope, e);
    }
    hide StateKey;
  }

  class AuthState {
    var active: int
    var epoch: nat

    constructor ()
      ensures active == 0 && epoch == 0
    {
      active, epoch := 0, 0;
    }
  }

  class Ticket {
    const documentName: string
    ghost const scope: Option<Scope>
    const stateKey: string
    const epoch: nat
    const state: AuthState
    var released: bool
    // The length of the event log when the ticket was taken.
    ghost const beganAt: nat

    constructor (documentName: string, ghost scope: Option<Scope>, stateKey: string, epoch: nat, state: AuthState,
                 ghost beganAt: nat)
      ensures this.documentName == documentName && this.scope == scope && this.stateKey == stateKey
      ensures this.epoch == epoch && this.state == state && this.beganAt == beganAt && !released
    {
      this.documentName, this.scope, this.stateKey := documentName, scope, stateKey;
      this.epoch, this.state, this.beganAt, this.released := epoch, state, beganAt, false;
    }
  }

  ghost function OfKey(live: set<Ticket>, key: string): set<Ticket> {
    set t | t in live && t.stateKey == key
  }

  lemma OfKeyAdd(live: set<Ticket>, t: Ticket)
    requires t !in live
    ensures OfKey(live + {t}, t.stateKey) == OfKey(live, t.stateKey) + {t}
    ensures |OfKey(live + {t}, t.stateKey)| == |OfKey(live, t.stateKey)| + 1
    ensures forall k | k != t.stateKey :: OfKey(live + {t}, k) == OfKey(live, k)
  {
  }

  lemma OfKeyRemove(live: set<Ticket>, t: Ticket)
    requires t in live
    ensures |OfKey(live - {t}, t.stateKey)| == |OfKey(live, t.stateKey)| - 1
    ensures forall k | k != t.stateKey :: OfKey(live - {t}, k) == OfKey(live, k)
  {
    assert OfKey(live - {t}, t.stateKey) == OfKey(live, t.stateKey) - {t};
  }

  // The registered states are distinct objects, and an unreleased ticket points at the state of its key.
  ghost predicate Registered(states: map<string, AuthState>, live: set<Ticket>, pool: set<AuthState>) {
    && (forall k | k in states :: states[k] in pool)
    && (forall k, l | k in states && l in states && k != l :: states[k] != states[l])
    && (forall t | t in live :: t.stateKey in states && states[t.stateKey] == t.state)
  }

  // Every ticket bears the key of its document and scope.
  ghost predicate Keyed(tickets: set<Ticket>) {
    forall t | t in tickets :: t.stateKey == StateKey(t.documentName, t.scope)
  }

  ghost predicate Flagged(tickets: set<Ticket>, live: set<Ticket>)
    reads tickets`released
  {
    live <= tickets && forall t | t in tickets :: t.released <==> t !in live
  }

  // Each state counts the unreleased tickets of its key and there are some, except that `key` may be `extra` ahead.
  ghost predicate Counted(states: map<string, AuthState>, live: set<Ticket>, pool: set<AuthState>, key: string, extra: nat)
    requires Registered(states, live, pool)
    reads pool`active
  {
    forall k | k in states ::
      if k == key then states[k].active == |OfKey(live, k)| + extra else states[k].active == |OfKey(live, k)| > 0
  }

  ghost predicate AllCounted(states: map<string, AuthState>, live: set<Ticket>, pool: set<AuthState>)
    requires Registered(states, live, pool)
    reads pool`active
  {
    forall k | k in states :: states[k].active == |OfKey(live, k)| > 0
  }

  // An unreleased ticket's state has moved on by exactly the bumps of its key since the ticket was taken.
  ghost predicate Tracked(states: map<string, AuthState>, live: set<Ticket>, pool: set<AuthState>, bumps: seq<Event>)
    requires Registered(states, live, pool)
    reads pool`epoch
  {
    forall t | t in live ::
      t.beganAt <= |bumps| && t.state.epoch == t.epoch + Count(bumps[t.beganAt..], t.stateKey)
  }

  lemma CountedAdd(states: map<string, AuthState>, live: set<Ticket>, pool: set<AuthState>, t: Ticket)
    requires Registered(states, live, pool) && t !in live && t.stateKey in states && states[t.stateKey] == t.state
    requires Counted(states, live, pool, t.stateKey, 1)
    ensures Registered(states, live + {t}, pool) && AllCounted(states, live + {t}, pool)
  {
    OfKeyAdd(live, t);
    hide OfKey;
  }

  lemma TrackedAdd(states: map<string, AuthState>, live: set<Ticket>, pool: set<AuthState>, bumps: seq<Event>, t: Ticket)
    requires Registered(states, live, pool) && Registered(states, live + {t}, pool) && Tracked(states, live, pool, bumps)
    requires t.beganAt == |bumps| && t.epoch == t.state.epoch
    ensures Tracked(states, live + {t}, pool, bumps)
  {
    assert bumps[|bumps|..] == [];
    CountZero([], t.stateKey);
    hide Count;
  }

  lemma KeyedAdd(tickets: set<Ticket>, t: Ticket)
    requires Keyed(tickets) && t.stateKey == StateKey(t.documentName, t.scope)
    ensures Keyed(tickets + {t})
  {
    hide StateKey;
  }

  // The registered states may change; what is tracked hangs on the tickets' own states.
  lemma TrackedElsewhere(states: map<string, AuthState>, live: set<Ticket>, pool: set<AuthState>, bumps: seq<Event>,
                         states': map<string, AuthState>, pool': set<AuthState>)
    requires Registered(states, live, pool) && Registered(states', live, pool') && Tracked(states, live, pool, bumps)
    ensures Tracked(states', live, pool', bumps)
  {
    hide Count;
  }

  lemma FlaggedAdd(tickets: set<Ticket>, live: set<Ticket>, t: Ticket)
    requires Flagged(tickets, live) && !t.released
    ensures Flagged(tickets + {t}, live + {t})
  {
  }

  class AuthorizationRegistry {
    var states: map<string, AuthState>
    ghost var tickets: set<Ticket>
    ghost var live: set<Ticket>
    ghost var bumps: seq<Event>
    // Every state object ever registered.
    ghost var pool: set<AuthState>

    ghost predicate Valid()
      reads this, tickets, pool
    {
      && Keyed(tickets) && Flagged(tickets, live) && Registered(states, live, pool)
      && Tracked(states, live, pool, bumps) && AllCounted(states, live, pool)
    }

    // Valid, except that the count of one state is `extra` ahead of its unreleased tickets.
    ghost predicate Almost(key: string, extra: nat)
      reads this, tickets, pool
    {
      && Keyed(tickets) && Flagged(tickets, live) && Registered(states, live, pool)
      && Tracked(states, live, pool, bumps) && Counted(states, live, pool, key, extra)
    }

    constructor ()
      ensures Valid() && tickets == {} && bumps == []
    {
      states, tickets, live, bumps, pool := map[], {}, {}, [], {};
    }

    // A state entry exists exactly while its key has unreleased tickets, and it counts them.
    lemma ActiveCountsUnreleased(key: string)
      requires Valid()
      ensures OfKey(live, key) == set t | t in tickets && !t.released && t.stateKey == key
      ensures key in states <==> OfKey(live, key) != {}
      ensures key in states ==> states[key].active == |OfKey(live, key)|
    {
      if t :| t in OfKey(live, key) { assert key in states; }
    }

    method BeginAuthorization(documentName: string, scope: Option<Scope>) returns (ticket: Ticket)
      requires Valid()
      modifies this, pool
      ensures Valid() && fresh(ticket) && !ticket.released
      ensures ticket.documentName == documentName && ticket.scope == scope
      ensures tickets == old(tickets) + {ticket} && bumps == old(bumps) && ticket.beganAt == |bumps|
      ensures fresh(pool - old(pool))
    {
      hide *;
      var state := StateFor(StateKey(documentName, scope));
      CountOneMore(StateKey(documentName, scope), state);
      ticket := Issue(documentName, scope, state);
    }

    // The state of a key, created on demand; a new one counts nobody yet.
    method StateFor(key: string) returns (state: AuthState)
      requires Valid()
      modifies `states, `pool
      ensures Almost(key, 0)
      ensures key in states && states[key] == state && state in pool
      ensures fresh(pool - old(pool)) && old(pool) <= pool && (state in old(pool) || fresh(state))
    {
      ActiveCountsUnreleased(key);
      hide Count, OfKey, Flagged, Keyed, Tracked;
      if key in states {
        state := states[key];
        return;
      }
      state := new AuthState();
      TrackedElsewhere(states, live, pool, bumps, states[key := state], pool + {state});
      states := states[key := state];
      pool := pool + {state};
    }

    // The count runs ahead of the ticket about to be issued.
    method CountOneMore(key: string, state: AuthState)
      requires Almost(key, 0) && key in states && states[key] == state
      modifies state`active
      ensures Almost(key, 1)
    {
      hide OfKey, Flagged, Keyed, Tracked;
      state.active := state.active + 1;
    }

    method Issue(documentName: string, scope: Option<Scope>, state: AuthState) returns (ticket: Ticket)
      requires Almost(StateKey(documentName, scope), 1)
      requires StateKey(documentName, scope) in states && states[StateKey(documentName, scope)] == state
      modifies `tickets, `live
      ensures Valid() && fresh(ticket) && !ticket.released && ticket.beganAt == |bumps|
      ensures ticket.documentName == documentName && ticket.scope == scope
      ensures tickets == old(tickets) + {ticket}
    {
      hide *;
      ghost var start := |bumps|;
      ticket := new Ticket(documentName, scope, StateKey(documentName, scope), state.epoch, state, start);
      Admit(ticket);
    }

    ghost method Admit(ticket: Ticket)
      requires Almost(ticket.stateKey, 1) && ticket.stateKey == StateKey(ticket.documentName, ticket.scope)
      requires ticket.stateKey in states && states[ticket.stateKey] == ticket.state
      requires ticket !in tickets && !ticket.released && ticket.beganAt == |bumps| && ticket.epoch == ticket.state.epoch
      modifies `tickets, `live
      ensures Valid() && tickets == old(tickets) + {ticket}
    {
      assert ticket !in live;
      CountedAdd(states, live, pool, ticket);
      TrackedAdd(states, live, pool, bumps, ticket);
      FlaggedAdd(tickets, live, ticket);
      KeyedAdd(tickets, ticket);
      hide Keyed, Flagged, Registered, Tracked, AllCounted, Counted;
      tickets := tickets + {ticket};
      live := live + {ticket};
    }

    method BumpAuthorization(documentName: string, scope: Option<Scope>)
      requires Valid()
      modifies `bumps, pool`epoch
      ensures Valid() && bumps == old(bumps) + [Event(documentName, scope)]
    {
      var key := StateKey(documentName, scope);
      ghost var event := Event(documentName, scope);
      hide Keyed, Flagged, AllCounted, OfKey, StateKey;
      forall t | t in live
        ensures t.beganAt <= |bumps|
        ensures Count((bumps + [event])[t.beganAt..], t.stateKey)
             == Count(bumps[t.beganAt..], t.stateKey) + if key == t.stateKey then 1 else 0
      {
        CountSince(bumps, event, t.beganAt, t.stateKey);
      }
      hide Count, KeyOf;
      if key in states { states[key].epoch := states[key].epoch + 1; }
      bumps := bumps + [event];
    }

    // The events since a ticket was taken.
    ghost function Since(ticket: Ticket): seq<Event>
      reads this
    {
      if ticket.beganAt <= |bumps| then bumps[ticket.beganAt..] else []
    }

    // A ticket is current exactly while it is unreleased and no event of its key has crossed it. For a NUL-free document
    // and scope that is: no event of this document and scope.
    method IsAuthorizationCurrent(ticket: Ticket) returns (current: bool)
      requires Valid() && ticket in tickets
      ensures !ticket.released ==> ticket.beganAt <= |bumps|
      ensures current <==> !ticket.released && !Hits(Since(ticket), StateKey(ticket.documentName, ticket.scope))
      ensures NulFree(ticket.documentName, ticket.scope) && WellNamed(Since(ticket)) ==>
                (current <==> !ticket.released && Event(ticket.documentName, ticket.scope) !in Since(ticket))
    {
      CountZero(Since(ticket), ticket.stateKey);
      if NulFree(ticket.documentName, ticket.scope) && WellNamed(Since(ticket)) {
        HitsNamesTheDocument(Since(ticket), ticket.documentName, ticket.scope);
      }
      hide Hits, Count, StateKey, NulFree, WellNamed;
      current := !ticket.released && ticket.stateKey in states && states[ticket.stateKey] == ticket.state
        && ticket.state.epoch == ticket.epoch;
    }

    // Ending a ticket, by its owner or by its expiry timer; a second release does nothing.
    method EndAuthorization(ticket: Ticket)
      requires Valid() && ticket in tickets
      modifies `states, `live, ticket`released, pool`active
      ensures Valid() && ticket.released && live == old(live) - {ticket}
    {
      if ticket.released {
        assert Flagged(tickets, live);
        return;
      }
      assert ticket in live by { assert Flagged(tickets, live); }
      hide *;
      Retire(ticket);
      var key := ticket.stateKey;
      if key !in states || states[key] != ticket.state { return; }
      Uncount(key);
    }

    method Retire(ticket: Ticket)
      requires Valid() && ticket in live
      modifies ticket`released, `live
      ensures Almost(ticket.stateKey, 1) && ticket.released && live == old(live) - {ticket}
      ensures ticket.stateKey in states && states[ticket.stateKey] == ticket.state
    {
      OfKeyRemove(live, ticket);
      hide Count, OfKey, Keyed;
      ticket.released := true;
      live := live - {ticket};
    }

    // The count goes down by one, and a state nobody holds a ticket of is forgotten.
    method Uncount(key: string)
      requires Almost(key, 1) && key in states
      modifies `states, pool`active
      ensures Valid()
    {
      var state := states[key];
      NobodyLeft(live, key);
      hide OfKey, Flagged, Keyed, Tracked;
      state.active := if state.active - 1 > 0 then state.active - 1 else 0;
      if state.active == 0 {
        TrackedElsewhere(states, live, pool, bumps, states - {key}, pool);
        states := states - {key};
      }
    }
  }

  lemma NobodyLeft(live: set<Ticket>, key: string)
    ensures |OfKey(live, key)| == 0 ==> forall u | u in live :: u.stateKey != key
  {
    assert forall u | u in live && u.stateKey == key :: u in OfKey(live, key);
  }
}
