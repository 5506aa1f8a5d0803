/**
 * The bounded worker pool of the search service: a fixed number of runners share one cursor over the items.
 */
module WorkerPool {

  // A runner about to take an item, awaiting the worker on one, past the end, or stopped by an error.
  datatype Runner = Ready | Busy(index: nat) | Finished | Failed

  datatype Call = Call(runner: nat, index: nat)

  function RunnerCount(limit: int, n: nat): nat {
    if limit < 0 then 0 else if limit < n then limit else n
  }

  function UpTo(n: nat): (s: set<nat>)
    ensures forall k: nat :: k in s <==> k < n
  {
    if n == 0 then {} else UpTo(n - 1) + {n - 1}
  }

  function Weight(r: Runner): nat {
    match r
    case Ready => 1
    case Busy(_) => 2
    case _ => 0
  }

  function Load(runners: seq<Runner>): nat {
    if runners == [] then 0 else Load(runners[..|runners| - 1]) + Weight(runners[|runners| - 1])
  }

  lemma {:induction false} LoadUpdate(runners: seq<Runner>, i: nat, r: Runner)
    requires i < |runners|
    ensures Load(runners[i := r]) == Load(runners) - Weight(runners[i]) + Weight(r)
  {
    var n := |runners| - 1;
    var after := runners[i := r];
    if i == n {
      assert after[..n] == runners[..n];
    } else {
      LoadUpdate(runners[..n], i, r);
      assert after[..n] == runners[..n][i := r];
    }
  }

  function InFlight(runners: seq<Runner>): nat {
    if runners == [] then 0
    else InFlight(runners[..|runners| - 1]) + if runners[|runners| - 1].Busy? then 1 else 0
  }

  lemma {:induction false} InFlightBound(runners: seq<Runner>)
    ensures InFlight(runners) <= |runners|
  {
    if runners != [] { InFlightBound(runners[..|runners| - 1]); }
  }

  lemma {:induction false} AllInFlight(runners: seq<Runner>)
    requires forall r | 0 <= r < |runners| :: runners[r].Busy?
    ensures InFlight(runners) == |runners|
  {
    if runners != [] { AllInFlight(runners[..|runners| - 1]); }
  }

  // How many runners an error has stopped.
  function Stopped(runners: seq<Runner>): nat {
    if runners == [] then 0
    else Stopped(runners[..|runners| - 1]) + if runners[|runners| - 1].Failed? then 1 else 0
  }

  lemma {:induction false} StoppedUpdate(runners: seq<Runner>, i: nat, r: Runner)
    requires i < |runners| && !runners[i].Failed?
    ensures Stopped(runners[i := r]) == Stopped(runners) + if r.Failed? then 1 else 0
  {
    var n := |runners| - 1;
    var after := runners[i := r];
    if i == n {
      assert after[..n] == runners[..n];
    } else {
      StoppedUpdate(runners[..n], i, r);
      assert after[..n] == runners[..n][i := r];
    }
  }

  lemma {:induction false} NoneStopped(runners: seq<Runner>)
    requires forall r | 0 <= r < |runners| :: runners[r].Ready?
    ensures Stopped(runners) == 0
  {
    if runners != [] { NoneStopped(runners[..|runners| - 1]); }
  }

  lemma {:induction false} AllStopped(runners: seq<Runner>)
    requires forall r | 0 <= r < |runners| :: runners[r].Failed?
    ensures Stopped(runners) == |runners|
  {
    if runners != [] { AllStopped(runners[..|runners| - 1]); }
  }

  // Calls are made in the order of the items, one for each.
  ghost predicate InOrder(calls: seq<Call>, handedOut: nat, runners: nat) {
    |calls| == handedOut && forall k | 0 <= k < |calls| :: calls[k].index == k && calls[k].runner < runners
  }

  // A call is open exactly while its runner waits for it; otherwise it is done or failed.
  ghost predicate OneRunnerEach(runners: seq<Runner>, calls: seq<Call>, done: set<nat>, failed: set<nat>) {
    && done !! failed && (forall k | k in done + failed :: k < |calls|)
    && (forall k | 0 <= k < |calls| :: calls[k].runner < |runners|)
    && (forall r | 0 <= r < |runners| && runners[r].Busy? ::
          && runners[r].index < |calls| && calls[runners[r].index].runner == r && runners[r].index !in done + failed)
    && (forall k | 0 <= k < |calls| && k !in done + failed :: runners[calls[k].runner] == Busy(k))
  }

  ghost predicate SomeStopped(runners: seq<Runner>) {
    exists r :: 0 <= r < |runners| && runners[r].Failed?
  }

  // Runners finish only past the end, and one is stopped exactly when a call failed.
  ghost predicate EndedProperly(runners: seq<Runner>, pastEnd: bool, failed: set<nat>) {
    && (forall r | 0 <= r < |runners| && runners[r].Finished? :: pastEnd)
    && (failed != {} <==> SomeStopped(runners))
  }

  lemma TakeEnds(runners: seq<Runner>, i: nat, r: Runner, pastEnd: bool, pastEnd': bool, failed: set<nat>)
    requires EndedProperly(runners, pastEnd, failed) && i < |runners| && runners[i].Ready? && !r.Failed?
    requires (pastEnd ==> pastEnd') && (r.Finished? ==> pastEnd')
    ensures EndedProperly(runners[i := r], pastEnd', failed)
  {
    var after := runners[i := r];
    assert forall s | 0 <= s < |runners| && s != i :: after[s] == runners[s];
    if s :| 0 <= s < |runners| && runners[s].Failed? { assert after[s].Failed?; }
  }

  lemma SettleEnds(runners: seq<Runner>, i: nat, ok: bool, index: nat, pastEnd: bool, failed: set<nat>)
    requires EndedProperly(runners, pastEnd, failed) && i < |runners| && runners[i].Busy?
    ensures EndedProperly(runners[i := if ok then Ready else Failed], pastEnd, if ok then failed else failed + {index})
  {
    var after := runners[i := if ok then Ready else Failed];
    assert forall s | 0 <= s < |runners| && s != i :: after[s] == runners[s];
    if s :| 0 <= s < |runners| && runners[s].Failed? { assert after[s].Failed?; }
    if !ok { assert after[i].Failed? && index in failed + {index}; }
  }

  ghost predicate Consistent(n: nat, limit: int, nextIndex: nat, runners: seq<Runner>, calls: seq<Call>, done: set<nat>,
                             failed: set<nat>)
  {
    && |runners| == RunnerCount(limit, n)
    && InOrder(calls, if nextIndex < n then nextIndex else n, |runners|)
    && OneRunnerEach(runners, calls, done, failed)
    && EndedProperly(runners, nextIndex >= n, failed)
    && |failed| == Stopped(runners)
  }

  lemma TakeOk(n: nat, limit: int, next: nat, runners: seq<Runner>, calls: seq<Call>, done: set<nat>, failed: set<nat>, r: nat)
    requires Consistent(n, limit, next, runners, calls, done, failed) && r < |runners| && runners[r].Ready?
    ensures next < n ==>
              Consistent(n, limit, next + 1, runners[r := Busy(next)], calls + [Call(r, next)], done, failed)
    ensures next >= n ==> Consistent(n, limit, next + 1, runners[r := Finished], calls, done, failed)
  {
    var after := if next < n then Busy(next) else Finished;
    TakeEnds(runners, r, after, next >= n, next + 1 >= n, failed);
    StoppedUpdate(runners, r, after);
    hide Stopped, EndedProperly, RunnerCount;
  }

  lemma SettleOk(n: nat, limit: int, next: nat, runners: seq<Runner>, calls: seq<Call>, done: set<nat>, failed: set<nat>,
                 r: nat, ok: bool)
    requires Consistent(n, limit, next, runners, calls, done, failed) && r < |runners| && runners[r].Busy?
    ensures runners[r].index < n
    ensures var index := runners[r].index;
            if ok then Consistent(n, limit, next, runners[r := Ready], calls, done + {index}, failed)
            else Consistent(n, limit, next, runners[r := Failed], calls, done, failed + {index})
  {
    var index := runners[r].index;
    SettleEnds(runners, r, ok, index, next >= n, failed);
    StoppedUpdate(runners, r, if ok then Ready else Failed);
    SettleCalls(runners, calls, done, failed, r, ok);
    assert index !in failed;
    hide Stopped, EndedProperly, OneRunnerEach, InOrder, RunnerCount;
  }

  lemma SettleCalls(runners: seq<Runner>, calls: seq<Call>, done: set<nat>, failed: set<nat>, r: nat, ok: bool)
    requires OneRunnerEach(runners, calls, done, failed) && r < |runners| && runners[r].Busy?
    ensures var index := runners[r].index;
            if ok then OneRunnerEach(runners[r := Ready], calls, done + {index}, failed)
            else OneRunnerEach(runners[r := Failed], calls, done, failed + {index})
  {
  }

  class Pool {
    const n: nat
    const limit: int
    var nextIndex: nat
    var runners: seq<Runner>
    // Every call of the worker, and how the calls ended.
    ghost var calls: seq<Call>
    ghost var done: set<nat>
    ghost var failed: set<nat>

    ghost predicate Valid()
      reads this
    {
      Consistent(n, limit, nextIndex, runners, calls, done, failed)
    }

    constructor (n: nat, limit: int)
      ensures Valid() && this.n == n && this.limit == limit && nextIndex == 0 && calls == [] && done == {} && failed == {}
      ensures forall r | 0 <= r < |runners| :: runners[r] == Ready
    {
      this.n, this.limit, nextIndex := n, limit, 0;
      runners := seq(RunnerCount(limit, n), i => Ready);
      calls, done, failed := [], {}, {};
      new;
      NoneStopped(runners);
    }

    ghost function Remaining(): nat
      reads this
    {
      3 * (if nextIndex < n then n - nextIndex else 0) + Load(runners)
    }

    // `nextIndex++`, and the start of the worker or the end of the runner.
    method Take(r: nat)
      requires Valid() && r < |runners| && runners[r].Ready?
      modifies this
      ensures Valid() && Remaining() < old(Remaining()) && nextIndex == old(nextIndex) + 1
      ensures done == old(done) && failed == old(failed)
      ensures runners == old(runners)[r := if old(nextIndex) < n then Busy(old(nextIndex)) else Finished]
      ensures calls == if old(nextIndex) < n then old(calls) + [Call(r, old(nextIndex))] else old(calls)
    {
      var currentIndex := nextIndex;
      ghost var next := if currentIndex < n then Busy(currentIndex) else Finished;
      LoadUpdate(runners, r, next);
      TakeOk(n, limit, nextIndex, runners, calls, done, failed, r);
      hide Load, Consistent;
      nextIndex := nextIndex + 1;
      if currentIndex >= n {
        runners := runners[r := Finished];
      } else {
        calls := calls + [Call(r, currentIndex)];
        runners := runners[r := Busy(currentIndex)];
      }
    }

    // The worker's promise settles; an error stops its runner and no other.
    method Settle(r: nat, ok: bool)
      requires Valid() && r < |runners| && runners[r].Busy?
      modifies this
      ensures Valid() && Remaining() < old(Remaining()) && nextIndex == old(nextIndex) && calls == old(calls)
      ensures runners == old(runners)[r := if ok then Ready else Failed] && old(runners)[r].index < n
      ensures done == if ok then old(done) + {old(runners)[r].index} else old(done)
      ensures failed == if ok then old(failed) else old(failed) + {old(runners)[r].index}
    {
      var index := runners[r].index;
      LoadUpdate(runners, r, if ok then Ready else Failed);
      SettleOk(n, limit, nextIndex, runners, calls, done, failed, r, ok);
      hide Load, Consistent;
      if ok {
        done := done + {index};
        runners := runners[r := Ready];
      } else {
        failed := failed + {index};
        runners := runners[r := Failed];
      }
    }

    // Failures and successes are what the worker says they are.
    ghost predicate Honest(ok: nat -> bool)
      reads this
    {
      (forall k | k in failed :: k < n && !ok(k)) && (forall k | k in done :: k < n && ok(k))
    }

    // One step of one runner.
    method Step(r: nat, ok: nat -> bool)
      requires Valid() && Honest(ok) && r < |runners| && (runners[r].Ready? || runners[r].Busy?)
      modifies this
      ensures Valid() && Honest(ok) && Remaining() < old(Remaining())
      ensures |runners| == |old(runners)| && forall s | 0 <= s < |runners| && s != r :: runners[s] == old(runners)[s]
    {
      hide Load, Consistent, Remaining;
      if runners[r].Ready? { Take(r); } else { Settle(r, ok(runners[r].index)); }
    }

    // Steps of the runners in any order until none goes on.
    method RunAll(ok: nat -> bool)
      requires Valid() && Honest(ok)
      modifies this
      ensures Valid() && Honest(ok) && |runners| == |old(runners)|
      ensures forall r | 0 <= r < |runners| :: runners[r].Finished? || runners[r].Failed?
    {
      var active := UpTo(|runners|);
      hide Load, Consistent, Honest;
      while active != {}
        invariant Valid() && Honest(ok) && |runners| == |old(runners)|
        invariant forall r: nat :: r in active ==> r < |runners|
        invariant forall r: nat | r < |runners| && r !in active :: runners[r].Finished? || runners[r].Failed?
        decreases Remaining() + |active|
      {
        var r :| r in active;
        if runners[r].Finished? || runners[r].Failed? {
          active := active - {r};
        } else {
          Step(r, ok);
        }
      }
    }

    // Fewer failures than runners leave no item untried.
    lemma Tried(ok: nat -> bool)
      requires Honest(ok)
      ensures |failed| <= |Refused(n, ok)| && failed <= Refused(n, ok)
    {
      SmallerThan(failed, Refused(n, ok));
    }

    // The smaller of the limit and the number of items, or none for a limit below one.
    lemma Runners()
      requires Valid()
      ensures limit < 1 ==> |runners| == 0
      ensures limit >= 1 ==> |runners| <= limit && |runners| <= n && (|runners| == limit || |runners| == n)
    {
    }

    // Every runner takes its first item before any of them waits.
    method Start()
      requires Valid() && nextIndex == 0 && calls == [] && forall r | 0 <= r < |runners| :: runners[r].Ready?
      modifies this
      ensures Valid() && done == old(done) && failed == old(failed)
      ensures |runners| == |old(runners)| && forall r | 0 <= r < |runners| :: runners[r] == Busy(r)
      ensures InFlight(runners) == |runners| == |calls|
    {
      Runners();
      hide Load, Consistent;
      var r := 0;
      while r < |runners|
        invariant Valid() && |runners| == |old(runners)| && nextIndex == r <= |runners| && |calls| == r
        invariant done == old(done) && failed == old(failed)
        invariant forall s | 0 <= s < r :: runners[s] == Busy(s)
        invariant forall s | r <= s < |runners| :: runners[s].Ready?
      {
        Runners();
        Take(r);
        r := r + 1;
      }
      AllInFlight(runners);
    }

    // At every moment: no item is with two runners, and no more calls are open than the limit allows.
    lemma Exclusive()
      requires Valid()
      ensures forall r, s | 0 <= r < s < |runners| && runners[r].Busy? && runners[s].Busy? :: runners[r].index != runners[s].index
      ensures InFlight(runners) <= (if limit < 0 then 0 else limit) && InFlight(runners) <= n
    {
      InFlightBound(runners);
    }

    // When no runner goes on: without an error everything is done exactly if a runner was started at all; with
    // errors, everything has at least been tried unless every runner was stopped by one.
    lemma AtTheEnd()
      requires Valid() && forall r | 0 <= r < |runners| :: runners[r].Finished? || runners[r].Failed?
      ensures done + failed == UpTo(|calls|) && forall k | 0 <= k < |calls| :: calls[k].index == k && k in done + failed
      ensures failed == {} ==> (done == UpTo(n) <==> limit >= 1 || n == 0)
      ensures failed == {} && limit < 1 ==> calls == []
      ensures (exists r :: 0 <= r < |runners| && runners[r].Finished?) ==> done + failed == UpTo(n)
      ensures failed == {} <==> forall r | 0 <= r < |runners| :: runners[r].Finished?
      ensures |failed| < |runners| ==> done + failed == UpTo(n)
    {
      if |failed| < |runners| {
        if forall r | 0 <= r < |runners| :: runners[r].Failed? { AllStopped(runners); }
      }
      if failed == {} && limit >= 1 && n > 0 { assert runners[0].Finished?; }
      assert calls == [] || calls[0].runner < |runners|;
      if limit < 1 && n > 0 {
        assert done + failed == {};
        assert 0 in UpTo(n) && 0 !in done + failed;
      }
    }
  }

  // The items the worker fails on.
  ghost function Refused(n: nat, ok: nat -> bool): set<nat> {
    set k | k in UpTo(n) && !ok(k)
  }

  lemma {:induction false} SmallerThan<T>(a: set<T>, b: set<T>)
    requires a <= b
    ensures |a| <= |b|
  {
    if a != {} {
      var x :| x in a;
      SmallerThan(a - {x}, b - {x});
    }
  }

  // A whole run under any schedule; `ok` says which items the worker succeeds on, and `peak` is the number of calls
  // that are open when every runner has started.
  method MapWithConcurrency(n: nat, limit: int, ok: nat -> bool) returns (resolved: bool, pool: Pool, ghost peak: nat)
    ensures pool.Valid() && pool.n == n && pool.limit == limit
    ensures peak == (if limit < 1 then 0 else if limit < n then limit else n)
    ensures resolved <==> pool.failed == {}
    ensures forall k | k in pool.failed :: k < n && !ok(k)
    ensures forall k | k in pool.done :: k < n && ok(k)
    ensures forall k | 0 <= k < |pool.calls| :: pool.calls[k].index == k && k in pool.done + pool.failed
    ensures |Refused(n, ok)| < peak ==> pool.done + pool.failed == UpTo(n)
    ensures limit >= 1 && (forall k | 0 <= k < n :: ok(k)) ==> resolved && pool.done == UpTo(n)
    ensures limit < 1 ==> resolved && pool.calls == []
  {
    hide Consistent, Load, InFlight, Refused;
    pool := new Pool(n, limit);
    pool.Start();
    pool.Runners();
    peak := InFlight(pool.runners);
    pool.RunAll(ok);
    pool.AtTheEnd();
    pool.Tried(ok);
    resolved := forall r :: 0 <= r < |pool.runners| ==> pool.runners[r].Finished?;
  }
}
