/**
 * The event bus and its queue worker: which subscribers run inline, which run from the queue, and how the stamp on a
 * job keeps every persistent subscriber at one delivery.
 */
module EventBus {
  import opened Sequences

  datatype Subscriber = Subscriber(pattern: string, persistent: bool)

  // The subscribers of one pattern, by registration number, in order.
  datatype Listener = Listener(pattern: string, handlers: seq<nat>)

  datatype EmitOptions = EmitOptions(
    persistent: bool, deliverInline: bool, skipPersistentSubscribersInline: bool, rethrowHandlerErrors: bool)

  datatype Job = Job(event: string, persistentDeliveredInline: bool)

  datatype DispatchResult = DispatchResult(subscriber: nat, ok: bool)

  datatype Audience = Everyone | EphemeralOnly | PersistentOnly

  predicate Keeps(audience: Audience, persistent: set<nat>, id: nat) {
    match audience
    case Everyone => true
    case EphemeralOnly => id !in persistent
    case PersistentOnly => id in persistent
  }

  // ---------------------------------------------------------------------------------------------------------
  // Who is reached
  // ---------------------------------------------------------------------------------------------------------

  function Kept(handlers: seq<nat>, audience: Audience, persistent: set<nat>): seq<nat> {
    if handlers == [] then []
    else Kept(handlers[..|handlers| - 1], audience, persistent)
         + if Keeps(audience, persistent, handlers[|handlers| - 1]) then [handlers[|handlers| - 1]] else []
  }

  function Selected(listeners: seq<Listener>, matches: (string, string) -> bool, event: string, audience: Audience,
                    persistent: set<nat>): seq<nat> {
    if listeners == [] then []
    else Selected(listeners[..|listeners| - 1], matches, event, audience, persistent)
         + if matches(event, listeners[|listeners| - 1].pattern)
           then Kept(listeners[|listeners| - 1].handlers, audience, persistent) else []
  }

  // Every registered subscriber is listed once, under its own pattern, and nothing else is.
  ghost predicate RegistryOk(listeners: seq<Listener>, registered: seq<Subscriber>) {
    && (forall i, j | 0 <= i < j < |listeners| :: listeners[i].pattern != listeners[j].pattern)
    && (forall i | 0 <= i < |listeners| :: ListenerOk(listeners[i], registered))
    && (forall id | 0 <= id < |registered| :: Lists(listeners, registered[id].pattern))
  }

  ghost predicate Lists(listeners: seq<Listener>, pattern: string) {
    exists i :: 0 <= i < |listeners| && listeners[i].pattern == pattern
  }

  ghost predicate ListenerOk(l: Listener, registered: seq<Subscriber>) {
    && (forall id: nat :: id in l.handlers <==> id < |registered| && registered[id].pattern == l.pattern)
    && Distinct(l.handlers)
  }

  lemma {:induction false} KeptOnce(handlers: seq<nat>, audience: Audience, persistent: set<nat>, id: nat)
    requires Distinct(handlers)
    ensures multiset(Kept(handlers, audience, persistent))[id] ==
            if id in handlers && Keeps(audience, persistent, id) then 1 else 0
  {
    if handlers != [] {
      var n := |handlers| - 1;
      KeptOnce(handlers[..n], audience, persistent, id);
      assert id in handlers <==> id in handlers[..n] || id == handlers[n];
    }
  }

  lemma KeptOf(l: Listener, registered: seq<Subscriber>, audience: Audience, persistent: set<nat>, id: nat)
    requires ListenerOk(l, registered)
    ensures multiset(Kept(l.handlers, audience, persistent))[id] ==
            if id < |registered| && registered[id].pattern == l.pattern && Keeps(audience, persistent, id) then 1 else 0
  {
    KeptOnce(l.handlers, audience, persistent, id);
  }

  // Whoever is registered under a matching pattern and belongs to the audience is selected exactly once.
  lemma {:induction false} SelectedOnce(listeners: seq<Listener>, registered: seq<Subscriber>,
                                        matches: (string, string) -> bool, event: string, audience: Audience,
                                        persistent: set<nat>, id: nat)
    requires forall i, j | 0 <= i < j < |listeners| :: listeners[i].pattern != listeners[j].pattern
    requires forall i | 0 <= i < |listeners| :: ListenerOk(listeners[i], registered)
    ensures multiset(Selected(listeners, matches, event, audience, persistent))[id] ==
            if id < |registered| && matches(event, registered[id].pattern) && Keeps(audience, persistent, id)
               && Lists(listeners, registered[id].pattern)
            then 1 else 0
  {
    if listeners != [] {
      hide *;
      var n := |listeners| - 1;
      SelectedOnce(listeners[..n], registered, matches, event, audience, persistent, id);
      SelectedLast(listeners, matches, event, audience, persistent, id);
      KeptOf(listeners[n], registered, audience, persistent, id);
      if id < |registered| { ListsStep(listeners, registered[id].pattern); }
    } else {
      assert Selected(listeners, matches, event, audience, persistent) == [];
    }
  }

  lemma SelectedLast(listeners: seq<Listener>, matches: (string, string) -> bool, event: string, audience: Audience,
                     persistent: set<nat>, id: nat)
    requires listeners != []
    ensures var n := |listeners| - 1;
            multiset(Selected(listeners, matches, event, audience, persistent))[id] ==
            multiset(Selected(listeners[..n], matches, event, audience, persistent))[id]
            + if matches(event, listeners[n].pattern) then multiset(Kept(listeners[n].handlers, audience, persistent))[id] else 0
  {
    hide Kept;
  }

  lemma ListsStep(listeners: seq<Listener>, pattern: string)
    requires listeners != [] && forall i, j | 0 <= i < j < |listeners| :: listeners[i].pattern != listeners[j].pattern
    ensures var n := |listeners| - 1;
            && (Lists(listeners, pattern) <==> Lists(listeners[..n], pattern) || listeners[n].pattern == pattern)
            && (listeners[n].pattern == pattern ==> !Lists(listeners[..n], pattern))
  {
    var n := |listeners| - 1;
    if Lists(listeners, pattern) && listeners[n].pattern != pattern {
      var i :| 0 <= i < |listeners| && listeners[i].pattern == pattern;
      assert listeners[..n][i].pattern == pattern;
    }
    if i :| 0 <= i < n && listeners[..n][i].pattern == pattern { assert listeners[i].pattern == pattern; }
  }

  function Runs(matches: (string, string) -> bool, registered: seq<Subscriber>, event: string, audience: Audience,
                persistent: set<nat>, id: nat): nat {
    if id < |registered| && matches(event, registered[id].pattern)
       && (audience == Everyone || (audience == EphemeralOnly && id !in persistent)
           || (audience == PersistentOnly && id in persistent))
    then 1 else 0
  }

  lemma SelectedRuns(listeners: seq<Listener>, registered: seq<Subscriber>, matches: (string, string) -> bool,
                     event: string, audience: Audience, persistent: set<nat>, id: nat)
    requires RegistryOk(listeners, registered)
    ensures multiset(Selected(listeners, matches, event, audience, persistent))[id] ==
            Runs(matches, registered, event, audience, persistent, id)
  {
    SelectedOnce(listeners, registered, matches, event, audience, persistent, id);
  }

  lemma {:induction false} SelectedPrefix(listeners: seq<Listener>, matches: (string, string) -> bool, event: string,
                                          audience: Audience, persistent: set<nat>, i: nat, j: nat)
    requires i < |listeners| && j <= |listeners[i].handlers| && matches(event, listeners[i].pattern)
    ensures Selected(listeners[..i], matches, event, audience, persistent) + Kept(listeners[i].handlers[..j], audience, persistent)
            <= Selected(listeners, matches, event, audience, persistent)
  {
    var n := |listeners| - 1;
    if i == n {
      KeptPrefix(listeners[n].handlers, audience, persistent, j);
    } else {
      SelectedPrefix(listeners[..n], matches, event, audience, persistent, i, j);
      assert listeners[..n][..i] == listeners[..i];
    }
  }

  lemma {:induction false} KeptPrefix(handlers: seq<nat>, audience: Audience, persistent: set<nat>, j: nat)
    requires j <= |handlers|
    ensures Kept(handlers[..j], audience, persistent) <= Kept(handlers, audience, persistent)
  {
    if j == |handlers| { assert handlers[..j] == handlers; }
    else {
      KeptPrefix(handlers[..|handlers| - 1], audience, persistent, j);
      assert handlers[..|handlers| - 1][..j] == handlers[..j];
    }
  }

  lemma SelectedAll(listeners: seq<Listener>, matches: (string, string) -> bool, event: string, audience: Audience,
                    persistent: set<nat>, i: nat)
    requires i < |listeners|
    ensures Selected(listeners[..i + 1], matches, event, audience, persistent) ==
            Selected(listeners[..i], matches, event, audience, persistent)
            + if matches(event, listeners[i].pattern) then Kept(listeners[i].handlers, audience, persistent) else []
  {
    assert listeners[..i + 1][..i] == listeners[..i];
  }

  lemma KeptStep(handlers: seq<nat>, audience: Audience, persistent: set<nat>, j: nat)
    requires j < |handlers|
    ensures Kept(handlers[..j + 1], audience, persistent) ==
            Kept(handlers[..j], audience, persistent) + if Keeps(audience, persistent, handlers[j]) then [handlers[j]] else []
  {
    assert handlers[..j + 1][..j] == handlers[..j];
  }

  lemma NoneYet(matches: (string, string) -> bool, event: string, audience: Audience, persistent: set<nat>, fails: nat -> bool)
    ensures Selected([], matches, event, audience, persistent) == [] && Kept([], audience, persistent) == []
    ensures !SomeFails([], fails) && PersistentFailures([], persistent, fails) == 0
  {
  }

  ghost predicate SomeFails(ran: seq<nat>, fails: nat -> bool) {
    exists s :: s in ran && fails(s)
  }

  ghost predicate SomePersistentFails(ran: seq<nat>, persistent: set<nat>, fails: nat -> bool) {
    exists s :: s in ran && s in persistent && fails(s)
  }

  // How many of the persistent subscribers that ran have failed.
  function PersistentFailures(ran: seq<nat>, persistent: set<nat>, fails: nat -> bool): nat {
    if ran == [] then 0
    else
      var n := |ran| - 1;
      PersistentFailures(ran[..n], persistent, fails) + if ran[n] in persistent && fails(ran[n]) then 1 else 0
  }

  lemma {:induction false} FailuresMeanSome(ran: seq<nat>, persistent: set<nat>, fails: nat -> bool)
    ensures PersistentFailures(ran, persistent, fails) > 0 <==> SomePersistentFails(ran, persistent, fails)
  {
    if ran != [] {
      var n := |ran| - 1;
      FailuresMeanSome(ran[..n], persistent, fails);
      assert ran == ran[..n] + [ran[n]];
    }
  }

  lemma FailsStep(ran: seq<nat>, s: nat, persistent: set<nat>, fails: nat -> bool)
    ensures SomeFails(ran + [s], fails) <==> SomeFails(ran, fails) || fails(s)
    ensures PersistentFailures(ran + [s], persistent, fails) ==
            PersistentFailures(ran, persistent, fails) + if s in persistent && fails(s) then 1 else 0
  {
    assert s in ran + [s];
    assert forall x | x in ran :: x in ran + [s];
    assert (ran + [s])[..|ran|] == ran;
  }

  // `ran` is `all` up to and with its first failure.
  ghost predicate StopsAtFirst(ran: seq<nat>, all: seq<nat>, fails: nat -> bool) {
    ran <= all && ran != [] && fails(ran[|ran| - 1]) && !SomeFails(ran[..|ran| - 1], fails)
  }

  lemma PrefixFails(before: seq<nat>, s: nat, all: seq<nat>, fails: nat -> bool)
    requires before + [s] <= all && fails(s) && !SomeFails(before, fails)
    ensures SomeFails(all, fails) && StopsAtFirst(before + [s], all, fails)
  {
    var ran := before + [s];
    assert all[|ran| - 1] == ran[|ran| - 1] && all[|ran| - 1] in all;
    assert ran[..|ran| - 1] == before;
  }

  // ---------------------------------------------------------------------------------------------------------
  // The bus
  // ---------------------------------------------------------------------------------------------------------

  predicate EnqueueOnly(options: EmitOptions) {
    options.persistent && !options.deliverInline
  }

  predicate SkipsPersistentInline(options: EmitOptions, singleDelivery: bool) {
    options.skipPersistentSubscribersInline || (options.persistent && singleDelivery)
  }

  // An emit that runs the persistent subscribers itself.
  predicate RunsPersistentInline(options: EmitOptions, singleDelivery: bool) {
    !EnqueueOnly(options) && !SkipsPersistentInline(options, singleDelivery)
  }

  class Bus {
    const matches: (string, string) -> bool
    var listeners: seq<Listener>
    var registered: seq<Subscriber>
    var persistentSubscribers: set<nat>
    var queue: seq<Job>

    ghost predicate Valid()
      reads this
    {
      && RegistryOk(listeners, registered)
      && forall id: nat :: id in persistentSubscribers <==> id < |registered| && registered[id].persistent
    }

    constructor (matches: (string, string) -> bool)
      ensures Valid() && this.matches == matches && registered == [] && queue == []
    {
      this.matches := matches;
      listeners, registered, persistentSubscribers, queue := [], [], {}, [];
    }

    // `on`: a new subscriber, listed last under its pattern.
    method On(pattern: string, persistent: bool)
      requires Valid()
      modifies `listeners, `registered, `persistentSubscribers
      ensures Valid() && registered == old(registered) + [Subscriber(pattern, persistent)]
    {
      var id := |registered|;
      var i := 0;
      while i < |listeners| && listeners[i].pattern != pattern
        invariant 0 <= i <= |listeners| && forall k | 0 <= k < i :: listeners[k].pattern != pattern
      {
        i := i + 1;
      }
      ghost var before := listeners;
      registered := registered + [Subscriber(pattern, persistent)];
      if i == |listeners| {
        listeners := listeners + [Listener(pattern, [id])];
      } else {
        listeners := listeners[i := Listener(pattern, listeners[i].handlers + [id])];
      }
      RegistryGrows(before, old(registered), pattern, persistent, i, listeners);
      if persistent { persistentSubscribers := persistentSubscribers + {id}; }
    }

    // Whom an inline delivery reaches, in order.
    function Inline(event: string, skipPersistent: bool): seq<nat>
      reads this
    {
      Selected(listeners, matches, event, if skipPersistent then EphemeralOnly else Everyone, persistentSubscribers)
    }

    // Whom the worker reaches, in order.
    function Queued(event: string): seq<nat>
      reads this
    {
      Selected(listeners, matches, event, PersistentOnly, persistentSubscribers)
    }

    // Inline delivery: failures are counted and delivery goes on, unless the caller wants them rethrown.
    method Deliver(event: string, rethrow: bool, skipPersistent: bool, fails: nat -> bool)
      returns (persistentFailures: nat, raised: bool, ghost ran: seq<nat>)
      requires Valid()
      ensures raised <==> rethrow && SomeFails(Inline(event, skipPersistent), fails)
      ensures !raised ==>
                persistentFailures == PersistentFailures(Inline(event, skipPersistent), persistentSubscribers, fails)
      ensures !raised ==> ran == Inline(event, skipPersistent)
      ensures raised ==> StopsAtFirst(ran, Inline(event, skipPersistent), fails)
    {
      hide Kept, Selected, SomeFails, PersistentFailures, StopsAtFirst, RegistryOk;
      var audience := if skipPersistent then EphemeralOnly else Everyone;
      persistentFailures, raised, ran := 0, false, [];
      NoneYet(matches, event, audience, persistentSubscribers, fails);
      var i := 0;
      while i < |listeners|
        invariant 0 <= i <= |listeners| && !raised
        invariant ran == Selected(listeners[..i], matches, event, audience, persistentSubscribers)
        invariant rethrow ==> !SomeFails(ran, fails)
        invariant persistentFailures == PersistentFailures(ran, persistentSubscribers, fails)
      {
        SelectedAll(listeners, matches, event, audience, persistentSubscribers, i);
        if matches(event, listeners[i].pattern) {
          persistentFailures, raised, ran := DeliverTo(event, i, rethrow, skipPersistent, fails, persistentFailures, ran);
          if raised { return; }
        }
        i := i + 1;
      }
      assert listeners[..i] == listeners;
    }

    // The handlers of one matching pattern.
    method DeliverTo(event: string, i: nat, rethrow: bool, skipPersistent: bool, fails: nat -> bool,
                     failures: nat, ghost before: seq<nat>)
      returns (persistentFailures: nat, raised: bool, ghost ran: seq<nat>)
      requires Valid() && i < |listeners| && matches(event, listeners[i].pattern)
      requires var audience := if skipPersistent then EphemeralOnly else Everyone;
               before == Selected(listeners[..i], matches, event, audience, persistentSubscribers)
      requires rethrow ==> !SomeFails(before, fails)
      requires failures == PersistentFailures(before, persistentSubscribers, fails)
      ensures var audience := if skipPersistent then EphemeralOnly else Everyone;
              var all := Selected(listeners, matches, event, audience, persistentSubscribers);
              && (!raised ==> ran == before + Kept(listeners[i].handlers, audience, persistentSubscribers))
              && (raised ==> rethrow && SomeFails(all, fails) && StopsAtFirst(ran, all, fails))
      ensures !raised && rethrow ==> !SomeFails(ran, fails)
      ensures !raised ==> persistentFailures == PersistentFailures(ran, persistentSubscribers, fails)
    {
      hide Kept, Selected, SomeFails, PersistentFailures, StopsAtFirst, RegistryOk;
      var audience := if skipPersistent then EphemeralOnly else Everyone;
      var handlers := listeners[i].handlers;
      persistentFailures, raised, ran := failures, false, before;
      NoneYet(matches, event, audience, persistentSubscribers, fails);
      assert handlers[..0] == [] && before + [] == before;
      var j := 0;
      while j < |handlers|
        invariant 0 <= j <= |handlers| && !raised
        invariant ran == before + Kept(handlers[..j], audience, persistentSubscribers)
        invariant rethrow ==> !SomeFails(ran, fails)
        invariant persistentFailures == PersistentFailures(ran, persistentSubscribers, fails)
      {
        var subscriber := handlers[j];
        KeptStep(handlers, audience, persistentSubscribers, j);
        FailsStep(ran, subscriber, persistentSubscribers, fails);
        if !(skipPersistent && subscriber in persistentSubscribers) {
          assert ran + [subscriber] == before + (Kept(handlers[..j], audience, persistentSubscribers) + [subscriber]);
          ghost var earlier := ran;
          ran := ran + [subscriber];
          if fails(subscriber) {
            if subscriber in persistentSubscribers { persistentFailures := persistentFailures + 1; }
            if rethrow {
              raised := true;
              SelectedPrefix(listeners, matches, event, audience, persistentSubscribers, i, j + 1);
              PrefixFails(earlier, subscriber, Selected(listeners, matches, event, audience, persistentSubscribers), fails);
              return;
            }
          }
        }
        j := j + 1;
      }
      assert handlers[..j] == handlers;
    }

    method Emit(event: string, options: EmitOptions, singleDelivery: bool, fails: nat -> bool)
      returns (raised: bool, ghost ran: seq<nat>)
      requires Valid()
      modifies `queue
      ensures Valid()
      ensures var enqueueOnly := options.persistent && !options.deliverInline;
              var skipPersistent := options.skipPersistentSubscribersInline || (options.persistent && singleDelivery);
              var inline := Inline(event, skipPersistent);
              && (raised <==> !enqueueOnly && options.rethrowHandlerErrors && SomeFails(inline, fails))
              && (if enqueueOnly then ran == [] else if raised then StopsAtFirst(ran, inline, fails) else ran == inline)
              && queue == old(queue) +
                   if raised || !options.persistent then []
                   else [Job(event, !enqueueOnly && !skipPersistent
                                    && !SomePersistentFails(inline, persistentSubscribers, fails))]
    {
      var enqueueOnly := options.persistent && !options.deliverInline;
      var skipPersistentInline := options.skipPersistentSubscribersInline || (options.persistent && singleDelivery);
      var inlinePersistentFailed := false;
      raised, ran := false, [];
      if !enqueueOnly {
        var failures: nat;
        failures, raised, ran := Deliver(event, options.rethrowHandlerErrors, skipPersistentInline, fails);
        FailuresMeanSome(Inline(event, skipPersistentInline), persistentSubscribers, fails);
        if raised { return; }
        inlinePersistentFailed := failures > 0;
      }
      if options.persistent {
        queue := queue + [Job(event, !enqueueOnly && !skipPersistentInline && !inlinePersistentFailed)];
      }
    }

    method SelectQueuedSubscribers(event: string) returns (matched: seq<nat>)
      requires Valid()
      ensures matched == Queued(event)
    {
      matched := [];
      NoneYet(matches, event, PersistentOnly, persistentSubscribers, s => false);
      hide Kept, Selected;
      var i := 0;
      while i < |listeners|
        invariant 0 <= i <= |listeners|
        invariant matched == Selected(listeners[..i], matches, event, PersistentOnly, persistentSubscribers)
      {
        SelectedAll(listeners, matches, event, PersistentOnly, persistentSubscribers, i);
        if matches(event, listeners[i].pattern) {
          var kept := PersistentAmong(i);
          matched := matched + kept;
        }
        i := i + 1;
      }
      assert listeners[..i] == listeners;
    }

    method PersistentAmong(i: nat) returns (kept: seq<nat>)
      requires Valid() && i < |listeners|
      ensures kept == Kept(listeners[i].handlers, PersistentOnly, persistentSubscribers)
    {
      var handlers := listeners[i].handlers;
      assert ListenerOk(listeners[i], registered);
      kept := [];
      var j := 0;
      while j < |handlers|
        invariant 0 <= j <= |handlers|
        invariant kept == Kept(handlers[..j], PersistentOnly, persistentSubscribers)
      {
        KeptStep(handlers, PersistentOnly, persistentSubscribers, j);
        assert handlers[j] in handlers;
        if registered[handlers[j]].persistent { kept := kept + [handlers[j]]; }
        j := j + 1;
      }
      assert handlers[..j] == handlers;
    }

    // The worker's half: every selected subscriber runs, whatever the others do, and each outcome is reported.
    method DispatchQueued(event: string, fails: nat -> bool) returns (results: seq<DispatchResult>, ghost ran: seq<nat>)
      requires Valid()
      ensures |results| == |Queued(event)| && ran == Queued(event)
      ensures forall i | 0 <= i < |results| :: results[i] == DispatchResult(Queued(event)[i], !fails(Queued(event)[i]))
    {
      var subscribers := SelectQueuedSubscribers(event);
      ran := subscribers;
      results := seq(|subscribers|, i requires 0 <= i < |subscribers| => DispatchResult(subscribers[i], !fails(subscribers[i])));
    }

    // The events worker: a stamped job is skipped, and a failed subscriber fails the job.
    method HandleJob(job: Job, fails: nat -> bool) returns (failed: bool, ghost ran: seq<nat>)
      requires Valid()
      ensures ran == if job.persistentDeliveredInline then [] else Queued(job.event)
      ensures failed <==> !job.persistentDeliveredInline && SomeFails(Queued(job.event), fails)
    {
      if job.persistentDeliveredInline { return false, []; }
      var results: seq<DispatchResult>;
      results, ran := DispatchQueued(job.event, fails);
      failed := exists r :: r in results && !r.ok;
      assert failed ==> exists s :: s in ran && fails(s);
      if s :| s in ran && fails(s) {
        var i :| 0 <= i < |ran| && ran[i] == s;
        assert results[i] in results && !results[i].ok;
      }
    }
  }

  lemma RegistryGrows(listeners: seq<Listener>, registered: seq<Subscriber>, pattern: string, persistent: bool, i: nat,
                      listeners': seq<Listener>)
    requires RegistryOk(listeners, registered) && i <= |listeners|
    requires forall k | 0 <= k < i :: listeners[k].pattern != pattern
    requires i < |listeners| ==> listeners[i].pattern == pattern
    requires listeners' == if i == |listeners| then listeners + [Listener(pattern, [|registered|])]
                           else listeners[i := Listener(pattern, listeners[i].handlers + [|registered|])]
    ensures RegistryOk(listeners', registered + [Subscriber(pattern, persistent)])
  {
    var registered' := registered + [Subscriber(pattern, persistent)];
    forall k | 0 <= k < |listeners'| ensures ListenerOk(listeners'[k], registered') {
      if k < |listeners| {
        assert ListenerOk(listeners[k], registered);
        assert forall x | 0 <= x < |listeners[k].handlers| :: listeners[k].handlers[x] in listeners[k].handlers;
      } else {
        forall id: nat | id < |registered| ensures registered[id].pattern != pattern {
          var m :| 0 <= m < |listeners| && listeners[m].pattern == registered[id].pattern;
        }
      }
    }
    forall id | 0 <= id < |registered'| ensures Lists(listeners', registered'[id].pattern) {
      if id < |registered| {
        var k :| 0 <= k < |listeners| && listeners[k].pattern == registered[id].pattern;
        assert listeners'[k].pattern == registered'[id].pattern;
      } else {
        assert listeners'[i].pattern == pattern;
      }
    }
  }

  // ---------------------------------------------------------------------------------------------------------
  // Conservation
  // ---------------------------------------------------------------------------------------------------------

  // How often a subscriber runs for one persistent emit, inline and from the queue together.
  function Deliveries(matched: bool, persistent: bool, enqueueOnly: bool, ranInline: bool, failed: bool): nat {
    if !matched then 0
    else if !persistent then (if enqueueOnly then 0 else 1)
    else if ranInline && failed then 2
    else 1
  }

  lemma Accounted(listeners: seq<Listener>, listeners': seq<Listener>, registered: seq<Subscriber>,
                  matches: (string, string) -> bool, event: string, persistent: set<nat>, options: EmitOptions,
                  singleDelivery: bool, inline: seq<nat>, queued: seq<nat>, failed: bool, s: nat)
    requires RegistryOk(listeners, registered) && RegistryOk(listeners', registered) && s < |registered|
    requires options.persistent && (s in persistent <==> registered[s].persistent)
    requires EnqueueOnly(options) ==> inline == []
    requires !EnqueueOnly(options) ==>
               inline == Selected(listeners, matches, event,
                                  if SkipsPersistentInline(options, singleDelivery) then EphemeralOnly else Everyone, persistent)
    requires queued == if RunsPersistentInline(options, singleDelivery) && !failed then []
                       else Selected(listeners', matches, event, PersistentOnly, persistent)
    ensures multiset(inline)[s] + multiset(queued)[s] ==
              Deliveries(matches(event, registered[s].pattern), registered[s].persistent, EnqueueOnly(options),
                         RunsPersistentInline(options, singleDelivery), failed)
  {
    var audience := if SkipsPersistentInline(options, singleDelivery) then EphemeralOnly else Everyone;
    SelectedRuns(listeners, registered, matches, event, audience, persistent, s);
    SelectedRuns(listeners', registered, matches, event, PersistentOnly, persistent, s);
    hide Selected, RegistryOk;
  }

  // A persistent emit on one bus and its job on another with the same registry, possibly with another single-delivery
  // setting for the next emit: every matching persistent subscriber runs exactly once in all, unless a persistent
  // handler failed inline, when the job hands them all to the worker once more; ephemeral ones run inline only.
  method DeliverPersistent(producer: Bus, worker: Bus, event: string, options: EmitOptions, singleDelivery: bool,
                           fails: nat -> bool, failsInWorker: nat -> bool)
    returns (ghost inline: seq<nat>, ghost queued: seq<nat>, raised: bool)
    requires producer.Valid() && worker.Valid() && options.persistent
    requires producer.registered == worker.registered && producer.matches == worker.matches
    modifies producer`queue
    ensures var enqueueOnly := !options.deliverInline;
            var skipPersistent := options.skipPersistentSubscribersInline || singleDelivery;
            var audience := producer.Inline(event, skipPersistent);
            var failed := SomePersistentFails(audience, producer.persistentSubscribers, fails);
            && (raised <==> !enqueueOnly && options.rethrowHandlerErrors && SomeFails(audience, fails))
            && (raised ==> queued == [] && producer.queue == old(producer.queue))
            && (!raised ==> forall s: nat | s < |producer.registered| ::
                  multiset(inline)[s] + multiset(queued)[s] ==
                    Deliveries(producer.matches(event, producer.registered[s].pattern), producer.registered[s].persistent,
                               enqueueOnly, !enqueueOnly && !skipPersistent, failed))
  {
    raised, inline := producer.Emit(event, options, singleDelivery, fails);
    queued := [];
    if raised { return; }
    var job := producer.queue[|producer.queue| - 1];
    var failed: bool;
    failed, queued := worker.HandleJob(job, failsInWorker);
    assert producer.persistentSubscribers == worker.persistentSubscribers;
    ghost var someFailed := SomePersistentFails(producer.Inline(event, SkipsPersistentInline(options, singleDelivery)),
                                                producer.persistentSubscribers, fails);
    hide Selected, RegistryOk, Kept;
    forall s: nat | s < |producer.registered|
      ensures multiset(inline)[s] + multiset(queued)[s] ==
                Deliveries(producer.matches(event, producer.registered[s].pattern), producer.registered[s].persistent,
                           EnqueueOnly(options), RunsPersistentInline(options, singleDelivery), someFailed)
    {
      Accounted(producer.listeners, worker.listeners, producer.registered, producer.matches, event,
                producer.persistentSubscribers, options, singleDelivery, inline, queued, someFailed, s);
    }
  }
}
