/**
 The bounded worker pool: a few asynchronous workers share a cursor over a list.
 The broadcast pool stops taking items after the first failure and drains; the
 republishing pool counts failures and goes on.
 */
module WorkerPool {
  import opened Wrappers

  /** What processing an item came to; an error is opaque. */
  datatype Settled = Settled(item: nat, error: Option<nat>)

  datatype Worker = Busy(item: nat) | Finished

  /** `log` is history: every item that settled, in order. */
  datatype Pool = Pool(size: nat, stopOnFailure: bool, cursor: nat, failure: Option<nat>, workers: seq<Worker>,
                       log: seq<Settled>)

  /** A worker's turn: it takes the next item or ends. */
  function Taken(p: Pool, w: nat): Pool
    requires w < |p.workers|
  {
    if p.failure.None? && p.cursor < p.size
    then p.(workers := p.workers[w := Busy(p.cursor)], cursor := p.cursor + 1)
    else p.(workers := p.workers[w := Finished])
  }

  /** The workers up to `n` have had their first turn. */
  function Started(size: nat, stopOnFailure: bool, concurrency: nat, n: nat): (p: Pool)
    requires n <= concurrency
    ensures |p.workers| == n
  {
    if n == 0 then Pool(size, stopOnFailure, 0, None, [], [])
    else
      var before := Started(size, stopOnFailure, concurrency, n - 1);
      Taken(before.(workers := before.workers + [Finished]), n - 1)
  }

  function Min(a: nat, b: nat): nat { if a <= b then a else b }

  function Start(size: nat, stopOnFailure: bool, concurrency: nat): Pool {
    var n := Min(concurrency, size);
    Started(size, stopOnFailure, n, n)
  }

  function Recorded(p: Pool, w: nat, error: Option<nat>): Pool
    requires w < |p.workers| && p.workers[w].Busy?
  {
    p.(log := p.log + [Settled(p.workers[w].item, error)],
       failure := if p.stopOnFailure && p.failure.None? then error else p.failure)
  }

  /** An event lets worker `w`'s item settle; the worker then has its next turn. */
  datatype Event = Event(worker: nat, error: Option<nat>)

  function Step(p: Pool, e: Event): Pool {
    if e.worker < |p.workers| && p.workers[e.worker].Busy? then Taken(Recorded(p, e.worker, e.error), e.worker) else p
  }

  function Run(p: Pool, schedule: seq<Event>): Pool
    decreases |schedule|
  {
    if schedule == [] then p else Run(Step(p, schedule[0]), schedule[1..])
  }

  predicate AllFinished(p: Pool) { forall w :: 0 <= w < |p.workers| ==> p.workers[w].Finished? }

  function FirstError(log: seq<Settled>): Option<nat> {
    if log == [] then None else if log[0].error.Some? then log[0].error else FirstError(log[1..])
  }

  // ---- The invariant -------------------------------------------------------

  predicate InFlight(p: Pool, item: nat) { exists w :: 0 <= w < |p.workers| && p.workers[w] == Busy(item) }

  predicate InLog(p: Pool, item: nat) { exists k :: 0 <= k < |p.log| && p.log[k].item == item }

  ghost predicate OncePerItem(p: Pool) {
    && (forall v, w :: 0 <= v < w < |p.workers| && p.workers[v].Busy? ==> p.workers[v] != p.workers[w])
    && (forall j, k :: 0 <= j < k < |p.log| ==> p.log[j].item != p.log[k].item)
    && (forall w, k :: 0 <= w < |p.workers| && p.workers[w].Busy? && 0 <= k < |p.log| ==>
         p.log[k].item != p.workers[w].item)
  }

  /** Exactly the items before the cursor were started: each is in flight or settled. */
  ghost predicate Accounted(p: Pool) {
    p.cursor <= p.size && forall item: nat :: item < p.cursor <==> InFlight(p, item) || InLog(p, item)
  }

  /** A worker ends only when nothing is left to take. */
  predicate EndedWell(p: Pool) {
    (exists w :: 0 <= w < |p.workers| && p.workers[w].Finished?) ==> p.failure.Some? || p.cursor == p.size
  }

  ghost predicate Inv(p: Pool) {
    && OncePerItem(p) && Accounted(p) && EndedWell(p)
    && p.failure == (if p.stopOnFailure then FirstError(p.log) else None)
  }

  lemma {:induction false} FirstErrorAppend(log: seq<Settled>, s: Settled)
    ensures FirstError(log + [s]) == if FirstError(log).Some? then FirstError(log) else s.error
  {
    if log == [] { assert log + [s] == [s]; }
    else {
      FirstErrorAppend(log[1..], s);
      assert (log + [s])[1..] == log[1..] + [s];
    }
  }

  /** One worker is between items: not in flight, about to take its turn. */
  ghost predicate Idle(p: Pool, w: nat) {
    && w < |p.workers| && p.workers[w].Finished? && OncePerItem(p) && Accounted(p)
    && (forall v :: 0 <= v < |p.workers| && v != w && p.workers[v].Finished? ==> p.failure.Some? || p.cursor == p.size)
    && p.failure == if p.stopOnFailure then FirstError(p.log) else None
  }

  lemma InFlightStays(p: Pool, w: nat, worker: Worker, item: nat)
    requires w < |p.workers| && p.workers[w].Finished?
    ensures InFlight(p.(workers := p.workers[w := worker]), item) <==> InFlight(p, item) || worker == Busy(item)
  {
    var q := p.(workers := p.workers[w := worker]);
    if InFlight(p, item) {
      var v :| 0 <= v < |p.workers| && p.workers[v] == Busy(item);
      assert q.workers[v] == Busy(item);
    }
    if worker == Busy(item) { assert q.workers[w] == Busy(item); }
  }

  lemma TurnKeeps(p: Pool, w: nat)
    requires Idle(p, w)
    ensures Inv(Taken(p, w))
  {
    var q := Taken(p, w);
    if p.failure.None? && p.cursor < p.size {
      assert !InFlight(p, p.cursor) && !InLog(p, p.cursor);
      forall item: nat ensures item < q.cursor <==> InFlight(q, item) || InLog(q, item) {
        InFlightStays(p, w, Busy(p.cursor), item);
        assert InLog(q, item) <==> InLog(p, item);
      }
    } else {
      assert q.workers == p.workers;
    }
  }

  lemma SettleIdles(p: Pool, w: nat, error: Option<nat>)
    requires Inv(p) && w < |p.workers| && p.workers[w].Busy?
    ensures Idle(Recorded(p, w, error).(workers := p.workers[w := Finished]), w)
  {
    var item := p.workers[w].item;
    var r := Recorded(p, w, error).(workers := p.workers[w := Finished]);
    FirstErrorAppend(p.log, Settled(item, error));
    forall i: nat ensures i < r.cursor <==> InFlight(r, i) || InLog(r, i) { SettleAccounts(p, w, error, i); }
  }

  lemma SettleAccounts(p: Pool, w: nat, error: Option<nat>, i: nat)
    requires Inv(p) && w < |p.workers| && p.workers[w].Busy?
    ensures var r := Recorded(p, w, error).(workers := p.workers[w := Finished]);
      InFlight(r, i) || InLog(r, i) <==> InFlight(p, i) || InLog(p, i)
  {
    var item := p.workers[w].item;
    var r := Recorded(p, w, error).(workers := p.workers[w := Finished]);
    assert InFlight(p, item);
    assert r.log[|p.log|].item == item;
    if InLog(p, i) {
      var k :| 0 <= k < |p.log| && p.log[k].item == i;
      assert r.log[k].item == i;
    }
    if InFlight(p, i) && i != item {
      var v :| 0 <= v < |p.workers| && p.workers[v] == Busy(i);
      assert r.workers[v] == Busy(i);
    }
    if InFlight(r, i) {
      var v :| 0 <= v < |r.workers| && r.workers[v] == Busy(i);
      assert p.workers[v] == Busy(i);
    }
  }

  lemma StepKeeps(p: Pool, e: Event)
    requires Inv(p)
    ensures Inv(Step(p, e)) && |Step(p, e).workers| == |p.workers|
  {
    var w := e.worker;
    if w < |p.workers| && p.workers[w].Busy? {
      var r := Recorded(p, w, e.error).(workers := p.workers[w := Finished]);
      SettleIdles(p, w, e.error);
      TurnKeeps(r, w);
      assert r.workers[w := Busy(p.cursor)] == p.workers[w := Busy(p.cursor)];
      assert r.workers[w := Finished] == p.workers[w := Finished];
      assert Taken(r, w) == Step(p, e);
    }
  }

  lemma {:induction false} StartKeeps(size: nat, stopOnFailure: bool, n: nat, m: nat)
    requires n <= m <= size
    ensures var p := Started(size, stopOnFailure, m, n); Inv(p) && p.cursor == n && p.failure == None && p.log == []
  {
    if n > 0 {
      StartKeeps(size, stopOnFailure, n - 1, m);
      StartMode(size, stopOnFailure, n - 1, m);
      var p := Started(size, stopOnFailure, m, n - 1);
      var q := p.(workers := p.workers + [Finished]);
      forall item: nat ensures InFlight(q, item) <==> InFlight(p, item) {
        if InFlight(p, item) {
          var w :| 0 <= w < |p.workers| && p.workers[w] == Busy(item);
          assert q.workers[w] == Busy(item);
        }
      }
      assert forall item: nat :: InLog(q, item) <==> InLog(p, item);
      assert forall v :: 0 <= v < n - 1 ==> q.workers[v] == p.workers[v];
      assert Idle(q, n - 1);
      TurnKeeps(q, n - 1);
    }
  }

  lemma {:induction false} RunKeeps(p: Pool, schedule: seq<Event>)
    requires Inv(p)
    ensures var q := Run(p, schedule);
      Inv(q) && |q.workers| == |p.workers| && q.size == p.size && q.stopOnFailure == p.stopOnFailure
    decreases |schedule|
  {
    if schedule != [] {
      StepKeeps(p, schedule[0]);
      RunKeeps(Step(p, schedule[0]), schedule[1..]);
    }
  }

  // ---- Main results --------------------------------------------------------

  /** Main result: under every schedule the items started are the first ones of
      the list, each in flight with one worker or settled once, and never more
      of them together than the concurrency allows. */
  lemma EachStartsOnce(size: nat, stopOnFailure: bool, concurrency: nat, schedule: seq<Event>)
    ensures var p := Run(Start(size, stopOnFailure, concurrency), schedule);
      && |p.workers| <= concurrency && OncePerItem(p)
      && forall item: nat :: item < p.cursor <==> InFlight(p, item) || InLog(p, item)
  {
    var n := Min(concurrency, size);
    StartKeeps(size, stopOnFailure, n, n);
    RunKeeps(Start(size, stopOnFailure, concurrency), schedule);
  }

  /** Main result: nothing is started after the first failure. */
  lemma {:induction false} NothingStartsAfterFailure(p: Pool, schedule: seq<Event>)
    requires p.failure.Some?
    ensures Run(p, schedule).cursor == p.cursor && Run(p, schedule).failure == p.failure
    decreases |schedule|
  {
    if schedule != [] { NothingStartsAfterFailure(Step(p, schedule[0]), schedule[1..]); }
  }

  /** Main result: the call settles only when nothing is in flight.  It then
      rethrows the first failure, or every item was processed exactly once,
      with success when the pool stops on failures. */
  lemma SettlesDrained(size: nat, stopOnFailure: bool, concurrency: nat, schedule: seq<Event>)
    requires concurrency >= 1 && AllFinished(Run(Start(size, stopOnFailure, concurrency), schedule))
    ensures var p := Run(Start(size, stopOnFailure, concurrency), schedule);
      && (forall item: nat :: !InFlight(p, item))
      && (stopOnFailure ==> p.failure == FirstError(p.log))
      && (p.failure.None? ==> forall item: nat :: item < size <==> InLog(p, item))
      && (p.failure.None? && stopOnFailure ==> forall k :: 0 <= k < |p.log| ==> p.log[k].error.None?)
  {
    var n := Min(concurrency, size);
    StartKeeps(size, stopOnFailure, n, n);
    StartMode(size, stopOnFailure, n, n);
    RunKeeps(Start(size, stopOnFailure, concurrency), schedule);
    var p := Run(Start(size, stopOnFailure, concurrency), schedule);
    assert n > 0 ==> p.workers[0].Finished?;
    NoErrorMeansNone(p.log);
  }

  lemma {:induction false} NoErrorMeansNone(log: seq<Settled>)
    ensures FirstError(log).None? <==> forall k :: 0 <= k < |log| ==> log[k].error.None?
  {
    if log != [] {
      NoErrorMeansNone(log[1..]);
      assert log == [log[0]] + log[1..];
    }
  }

  lemma {:induction false} LogSize(log: seq<Settled>, items: set<nat>)
    requires forall j, k :: 0 <= j < k < |log| ==> log[j].item != log[k].item
    requires items == set k | 0 <= k < |log| :: log[k].item
    ensures |items| == |log|
    decreases |log|
  {
    if log != [] {
      var m := |log| - 1;
      var rest := set k | 0 <= k < m :: log[k].item;
      assert rest == set k | 0 <= k < |log[..m]| :: log[..m][k].item;
      LogSize(log[..m], rest);
      assert items == rest + {log[m].item};
    } else { assert items == {}; }
  }

  // ---- Republishing pending deliveries -------------------------------------

  function CountErrors(log: seq<Settled>): nat {
    if log == [] then 0 else (if log[0].error.Some? then 1 else 0) + CountErrors(log[1..])
  }

  function Succeeded(log: seq<Settled>): seq<nat> {
    if log == [] then [] else (if log[0].error.None? then [log[0].item] else []) + Succeeded(log[1..])
  }

  lemma {:induction false} CountsAddUp(log: seq<Settled>)
    ensures CountErrors(log) + |Succeeded(log)| == |log|
  {
    if log != [] { CountsAddUp(log[1..]); }
  }

  lemma {:induction false} SucceededAre(log: seq<Settled>, item: nat)
    ensures item in Succeeded(log) <==> Settled(item, None) in log
  {
    if log != [] { SucceededAre(log[1..], item); }
  }

  lemma BoundedSet(items: set<nat>, n: nat)
    requires forall i: nat :: i in items <==> i < n
    ensures |items| == n
    decreases n
  {
    if n > 0 {
      BoundedSet(items - {n - 1}, n - 1);
      assert items == (items - {n - 1}) + {n - 1};
    } else { assert items == {}; }
  }

  /** Main result: when the republishing pool settles, every order was published
      or counted as failed, exactly once, and the list of successes names the
      orders whose publishing did not fail. */
  lemma RepublishedAll(size: nat, concurrency: nat, schedule: seq<Event>)
    requires concurrency >= 1 && AllFinished(Run(Start(size, false, concurrency), schedule))
    ensures var log := Run(Start(size, false, concurrency), schedule).log;
      && |Succeeded(log)| + CountErrors(log) == size
      && forall item: nat :: item in Succeeded(log) <==> item < size && Settled(item, None) in log
  {
    EachStartsOnce(size, false, concurrency, schedule);
    SettlesDrained(size, false, concurrency, schedule);
    NoFailureKept(Start(size, false, concurrency), schedule, size, concurrency);
    var p := Run(Start(size, false, concurrency), schedule);
    var items := set k | 0 <= k < |p.log| :: p.log[k].item;
    LogSize(p.log, items);
    forall i: nat ensures i in items <==> i < size {
      assert i < size <==> InLog(p, i);
      if InLog(p, i) { var k :| 0 <= k < |p.log| && p.log[k].item == i; assert p.log[k].item in items; }
    }
    BoundedSet(items, size);
    CountsAddUp(p.log);
    forall item: nat ensures item in Succeeded(p.log) <==> item < size && Settled(item, None) in p.log {
      SucceededAre(p.log, item);
      if Settled(item, None) in p.log {
        var k :| 0 <= k < |p.log| && p.log[k] == Settled(item, None);
        assert InLog(p, item);
      }
    }
  }

  lemma NoFailureKept(p: Pool, schedule: seq<Event>, size: nat, concurrency: nat)
    requires p == Start(size, false, concurrency)
    ensures Run(p, schedule).failure == None
  {
    var n := Min(concurrency, size);
    StartKeeps(size, false, n, n);
    StartMode(size, false, n, n);
    RunKeeps(p, schedule);
  }

  lemma {:induction false} StartMode(size: nat, stopOnFailure: bool, n: nat, m: nat)
    requires n <= m
    ensures Started(size, stopOnFailure, m, n).stopOnFailure == stopOnFailure &&
            Started(size, stopOnFailure, m, n).size == size
  {
    if n > 0 { StartMode(size, stopOnFailure, n - 1, m); }
  }

  // ---- The shared variables ------------------------------------------------

  /** The variables the workers close over. */
  class Workers {
    const size: nat
    const stopOnFailure: bool
    var cursor: nat
    var failure: Option<nat>
    var workers: seq<Worker>
    ghost var log: seq<Settled>

    ghost function State(): Pool
      reads this
    {
      Pool(size, stopOnFailure, cursor, failure, workers, log)
    }

    method Turn(w: nat)
      requires w < |workers|
      modifies this`cursor, this`workers
      ensures State() == Taken(old(State()), w)
    {
      if failure.None? && cursor < size {
        workers := workers[w := Busy(cursor)];
        cursor := cursor + 1;
      } else {
        workers := workers[w := Finished];
      }
    }

    constructor (n: nat, stop: bool, concurrency: nat)
      ensures State() == Start(n, stop, concurrency)
    {
      size, stopOnFailure, cursor, failure, workers, log := n, stop, 0, None, [], [];
      new;
      var count := Min(concurrency, n);
      for w := 0 to count
        invariant State() == Started(n, stop, count, w)
      {
        workers := workers + [Finished];
        Turn(w);
      }
    }

    method Settle(w: nat, error: Option<nat>)
      requires w < |workers| && workers[w].Busy?
      modifies this
      ensures State() == Step(old(State()), Event(w, error))
    {
      log := log + [Settled(workers[w].item, error)];
      if stopOnFailure && failure.None? { failure := error; }
      Turn(w);
    }
  }
}
