/**
 The local worker pool. `dispatch` calls handlers synchronously up to their first await, and a
 handler may call `submit` or `shutdown` or throw from there, so every method may be re-entered.
 A job carries what its handler does before its first await; what it does afterwards are further
 calls from outside. `Resume` is the microtask in which an awaited handler has finished.
 */
module WorkerPools {
  import opened Wrappers

  /** If the handler throws, the error names its job. */
  datatype Job = Job(id: nat, calls: seq<Call>, throws: bool)

  /** What a handler calls on the pool before its first await. */
  datatype Call = Submits(job: Job) | ShutsDown

  datatype Outcome = Resolved(value: int) | Rejected(job: nat)

  /** A pending job; the ticket is the number of its submission and stands for its promise. */
  datatype Entry = Entry(ticket: nat, job: Job)

  const DEFAULT_CONCURRENCY := 5

  function ResolveWorkerConcurrency(value: Option<int>): Option<nat>
  {
    match value
    case None => Some(DEFAULT_CONCURRENCY)
    case Some(n) => if n > 0 then Some(n) else None
  }

  // ----- Work that a job can cause

  function Weight(job: Job): nat { 1 + CallsWeight(job.calls) }

  function CallsWeight(calls: seq<Call>): nat
  {
    if calls == [] then 0 else CallWeight(calls[0]) + CallsWeight(calls[1..])
  }

  function CallWeight(call: Call): nat
  {
    match call
    case Submits(job) => Weight(job)
    case ShutsDown => 0
  }

  ghost function PendingWeight(pending: seq<Entry>): nat
  {
    if pending == [] then 0 else Weight(pending[0].job) + PendingWeight(pending[1..])
  }

  lemma {:induction false} PendingWeightAppend(pending: seq<Entry>, e: Entry)
    ensures PendingWeight(pending + [e]) == PendingWeight(pending) + Weight(e.job)
  {
    if pending == [] {
      assert pending + [e] == [e];
    } else {
      PendingWeightAppend(pending[1..], e);
      assert (pending + [e])[1..] == pending[1..] + [e];
    }
  }

  // ----- What handlers ask for

  /** The calls that the handlers of `jobs` make before their first await, one job after the other. */
  function CallsOf(jobs: seq<Job>): seq<Call>
  {
    if jobs == [] then [] else CallsOf(jobs[..|jobs| - 1]) + jobs[|jobs| - 1].calls
  }

  /** The jobs that the calls submit before one of them shuts the pool down, in call order. */
  function Taken(calls: seq<Call>): seq<Job>
  {
    if calls == [] || calls[0].ShutsDown? then [] else [calls[0].job] + Taken(calls[1..])
  }

  lemma {:induction false} TakenAppend(first: seq<Call>, second: seq<Call>)
    ensures Taken(first + second) == if ShutsDown in first then Taken(first) else Taken(first) + Taken(second)
  {
    if first == [] {
      assert first + second == second;
    } else {
      assert first == [first[0]] + first[1..];
      assert (first + second)[1..] == first[1..] + second;
      TakenAppend(first[1..], second);
    }
  }

  lemma CallsAppend(jobs: seq<Job>, job: Job)
    ensures CallsOf(jobs + [job]) == CallsOf(jobs) + job.calls
  {
    assert (jobs + [job])[..|jobs|] == jobs;
  }

  /** The accepted jobs after the calls, and whether more are accepted. */
  predicate Served(before: seq<Job>, accepting: bool, calls: seq<Call>, after: seq<Job>, accepting': bool)
  {
    && after == (if accepting then before + Taken(calls) else before)
    && accepting' == (accepting && ShutsDown !in calls)
  }

  lemma ClosesAppend(first: seq<Call>, second: seq<Call>)
    ensures ShutsDown in first + second <==> ShutsDown in first || ShutsDown in second
  {}

  lemma JobsAppend(x: seq<Job>, y: seq<Job>, z: seq<Job>)
    ensures x + y + z == x + (y + z)
  {}

  lemma ServedTwice(before: seq<Job>, accepting: bool, first: seq<Call>, between: seq<Job>, accepting': bool,
                    second: seq<Call>, after: seq<Job>, accepting'': bool)
    requires Served(before, accepting, first, between, accepting') && Served(between, accepting', second, after, accepting'')
    ensures Served(before, accepting, first + second, after, accepting'')
  {
    TakenAppend(first, second);
    ClosesAppend(first, second);
    JobsAppend(before, Taken(first), Taken(second));
  }

  // ----- Started jobs

  /** A started job: its handler is awaited, it is counted and about to settle, or it has settled. */
  datatype Status = Running | Finished(outcome: Outcome) | Settled(outcome: Outcome)

  /** A handler that throws at once has its job rejected with its own error; any other is awaited. */
  function FirstStatus(job: Job): Status { if job.throws then Settled(Rejected(job.id)) else Running }

  datatype Kind = Busy | Succeeded | Failed

  function KindOf(status: Status): Kind
  {
    if status.Running? then Busy else if status.outcome.Resolved? then Succeeded else Failed
  }

  ghost function Count(status: seq<Status>, kind: Kind): nat
  {
    if status == [] then 0
    else Count(status[..|status| - 1], kind) + if KindOf(status[|status| - 1]) == kind then 1 else 0
  }

  lemma CountAppend(status: seq<Status>, next: Status, kind: Kind)
    ensures Count(status + [next], kind) == Count(status, kind) + if KindOf(next) == kind then 1 else 0
  {
    assert (status + [next])[..|status|] == status;
  }

  lemma {:induction false} CountUpdate(status: seq<Status>, t: nat, next: Status, kind: Kind)
    requires t < |status|
    ensures Count(status[t := next], kind)
         == Count(status, kind) - (if KindOf(status[t]) == kind then 1 else 0) + if KindOf(next) == kind then 1 else 0
  {
    var last := |status| - 1;
    if t == last {
      assert status[t := next][..last] == status[..last];
    } else {
      CountUpdate(status[..last], t, next, kind);
      assert status[t := next][..last] == status[..last][t := next];
    }
  }

  lemma {:induction false} CountPositive(status: seq<Status>, t: nat)
    requires t < |status|
    ensures Count(status, KindOf(status[t])) > 0
  {
    if t < |status| - 1 {
      CountPositive(status[..|status| - 1], t);
    }
  }

  lemma {:induction false} CountsAddUp(status: seq<Status>)
    ensures Count(status, Busy) + Count(status, Succeeded) + Count(status, Failed) == |status|
  {
    if status != [] {
      CountsAddUp(status[..|status| - 1]);
    }
  }

  lemma {:induction false} SomeRunning(status: seq<Status>) returns (t: nat)
    requires Count(status, Busy) > 0
    ensures t < |status| && status[t].Running?
  {
    if status[|status| - 1].Running? {
      t := |status| - 1;
    } else {
      t := SomeRunning(status[..|status| - 1]);
    }
  }

  /** Between the two, only new jobs have started, each as its own handler has it. */
  ghost predicate Started(before: seq<Status>, now: seq<Status>, accepted: seq<Job>)
  {
    && before <= now && |now| <= |accepted|
    && forall t :: |before| <= t < |now| ==> now[t] == FirstStatus(accepted[t])
  }

  /** New jobs have started, and all that their handlers ask for has been done. */
  ghost predicate Progress(accepted0: seq<Job>, accepting0: bool, before: seq<Status>,
                           now: seq<Status>, accepted: seq<Job>, accepting: bool)
  {
    && Started(before, now, accepted)
    && Served(accepted0, accepting0, CallsOf(accepted[|before|..|now|]), accepted, accepting)
  }

  lemma StartedExtends(before: seq<Status>, middle: seq<Status>, between: seq<Job>, accepted: seq<Job>)
    requires Started(before, middle, between) && |middle| < |between| && between <= accepted
    ensures Started(before, middle + [FirstStatus(between[|middle|])], accepted)
  {}

  lemma SliceExtends(between: seq<Job>, accepted: seq<Job>, m: nat, n: nat)
    requires m <= n < |between| && between <= accepted
    ensures accepted[m..n + 1] == between[m..n] + [between[n]]
  {}

  lemma ServedExtends(before: seq<Job>, accepting: bool, accepted: seq<Job>, calls: seq<Call>, accepting': bool)
    requires Served(before, accepting, calls, accepted, accepting')
    ensures before <= accepted
  {}

  /** One more start. */
  lemma ProgressOn(accepted0: seq<Job>, accepting0: bool, before: seq<Status>, middle: seq<Status>,
                   between: seq<Job>, accepting: bool, accepted: seq<Job>, accepting': bool)
    requires Progress(accepted0, accepting0, before, middle, between, accepting) && |middle| < |between|
    requires Served(between, accepting, between[|middle|].calls, accepted, accepting')
    ensures Progress(accepted0, accepting0, before, middle + [FirstStatus(between[|middle|])], accepted, accepting')
  {
    var jobs, next := between[|before|..|middle|], between[|middle|];
    ServedExtends(between, accepting, accepted, next.calls, accepting');
    StartedExtends(before, middle, between, accepted);
    SliceExtends(between, accepted, |before|, |middle|);
    CallsAppend(jobs, next);
    ServedTwice(accepted0, accepting0, CallsOf(jobs), between, accepting, next.calls, accepted, accepting');
  }

  class WorkerPool {
    const maximumWorkers: nat

    var pendingJobs: seq<Entry>
    var acceptingJobs: bool
    var activeWorkers: nat
    var dispatching: bool
    var successfulJobs: nat
    var failedJobs: nat
    var nextTicket: nat
    var shutdownRequested: bool
    var shutdownUnresolved: bool

    /** Accepted jobs by ticket, and the status of those whose handler has been called. */
    ghost var accepted: seq<Job>
    ghost var status: seq<Status>

    /** How often the promise of `shutdown` has been resolved. */
    ghost var resolutions: nat

    /**
     What holds whenever a handler is entered, and hence wherever a method can be re-entered. Jobs
     start in submission order: the started ones are a prefix of the accepted ones.
     */
    ghost predicate Consistent()
      reads this
    {
      && 0 < maximumWorkers
      && activeWorkers == Count(status, Busy) <= maximumWorkers
      && successfulJobs == Count(status, Succeeded) && failedJobs == Count(status, Failed)
      && nextTicket == |accepted| == |status| + |pendingJobs|
      && (forall i :: 0 <= i < |pendingJobs| ==> pendingJobs[i] == Entry(|status| + i, accepted[|status| + i]))
      && acceptingJobs == !shutdownRequested
      && (shutdownUnresolved ==> shutdownRequested)
      && resolutions == (if shutdownRequested && !shutdownUnresolved then 1 else 0)
      && (resolutions == 1 ==> Idle())
    }

    ghost predicate Idle()
      reads this
    {
      activeWorkers == 0 && pendingJobs == []
    }

    /** A drained pool that no longer accepts jobs has resolved its shutdown. */
    ghost predicate Drained()
      reads this
    {
      !acceptingJobs && Idle() ==> resolutions == 1
    }

    /** The invariant between microtasks; in particular no worker is free while jobs wait. */
    ghost predicate Valid()
      reads this
    {
      && Consistent() && !dispatching && Drained()
      && (forall t :: 0 <= t < |status| ==> !status[t].Finished?)
      && (forall t :: 0 <= t < |status| && accepted[t].throws ==> status[t] == Settled(Rejected(accepted[t].id)))
      && (pendingJobs != [] ==> activeWorkers == maximumWorkers)
    }

    /** Every accepted job is pending, running, or counted. */
    lemma AcceptedAccounted()
      requires Consistent()
      ensures |accepted| == |pendingJobs| + activeWorkers + successfulJobs + failedJobs
    {
      CountsAddUp(status);
    }

    /** Since then new jobs have started, each as its own handler has it, and all they ask for has been done in order. */
    ghost predicate Advanced(accepted0: seq<Job>, accepting0: bool, before: seq<Status>)
      reads this
    {
      Progress(accepted0, accepting0, before, status, accepted, acceptingJobs)
    }

    constructor (concurrency: nat)
      requires concurrency > 0
      ensures Valid() && maximumWorkers == concurrency && acceptingJobs && accepted == []
    {
      maximumWorkers := concurrency;
      pendingJobs, acceptingJobs, activeWorkers, dispatching := [], true, 0, false;
      successfulJobs, failedJobs, nextTicket := 0, 0, 0;
      shutdownRequested, shutdownUnresolved := false, false;
      accepted, status, resolutions := [], [], 0;
    }

    /** Jobs are never forgotten, promises settle once, and after its shutdown resolves the pool rests. */
    twostate predicate Grows()
      reads this
    {
      && old(accepted) <= accepted && |old(status)| <= |status|
      && (forall t :: 0 <= t < |old(status)| && old(status)[t].Settled? ==> status[t] == old(status)[t])
      && (old(!acceptingJobs) ==> !acceptingJobs && accepted == old(accepted))
      && old(resolutions) <= resolutions
      && (old(resolutions) == 1 ==> |status| == |old(status)|)
    }

    method CompleteShutdownWhenIdle()
      requires Consistent()
      modifies this`shutdownUnresolved, this`resolutions
      ensures Consistent() && Drained()
      ensures acceptingJobs || !Idle() ==> resolutions == old(resolutions)
      ensures old(resolutions) <= resolutions
    {
      if !acceptingJobs && activeWorkers == 0 && |pendingJobs| == 0 && shutdownUnresolved {
        shutdownUnresolved := false;
        resolutions := resolutions + 1;
      }
    }

    /** Takes the oldest pending job, which is the next accepted one, and marks a worker busy with it. */
    method TakeNext() returns (entry: Entry)
      requires Consistent() && pendingJobs != [] && activeWorkers < maximumWorkers
      modifies this`pendingJobs, this`activeWorkers, this`status
      ensures Consistent()
      ensures entry == old(pendingJobs)[0] == Entry(|old(status)|, accepted[|old(status)|])
      ensures pendingJobs == old(pendingJobs)[1..] && activeWorkers == old(activeWorkers) + 1
      ensures status == old(status) + [Running]
    {
      entry := pendingJobs[0];
      pendingJobs := pendingJobs[1..];
      activeWorkers := activeWorkers + 1;
      CountAppend(status, Running, Busy);
      CountAppend(status, Running, Succeeded);
      CountAppend(status, Running, Failed);
      status := status + [Running];
    }

    /** Counts a finished job and frees its worker. */
    method CountFinished(ghost ticket: nat, outcome: Outcome)
      requires Consistent() && ticket < |status| && status[ticket].Running?
      modifies this`successfulJobs, this`failedJobs, this`activeWorkers, this`status
      ensures Consistent()
      ensures successfulJobs == old(successfulJobs) + if outcome.Resolved? then 1 else 0
      ensures failedJobs == old(failedJobs) + if outcome.Rejected? then 1 else 0
      ensures activeWorkers == old(activeWorkers) - 1
      ensures status == old(status)[ticket := Finished(outcome)]
    {
      CountUpdate(status, ticket, Finished(outcome), Busy);
      CountUpdate(status, ticket, Finished(outcome), Succeeded);
      CountUpdate(status, ticket, Finished(outcome), Failed);
      if outcome.Resolved? {
        successfulJobs := successfulJobs + 1;
      } else {
        failedJobs := failedJobs + 1;
      }
      status := status[ticket := Finished(outcome)];
      activeWorkers := activeWorkers - 1;
    }

    /** Settles the promise of a finished job. */
    ghost method SettlePromise(ticket: nat, outcome: Outcome)
      requires Consistent() && ticket < |status| && status[ticket] == Finished(outcome)
      modifies this`status
      ensures Consistent() && status == old(status)[ticket := Settled(outcome)]
    {
      CountUpdate(status, ticket, Settled(outcome), Busy);
      CountUpdate(status, ticket, Settled(outcome), Succeeded);
      CountUpdate(status, ticket, Settled(outcome), Failed);
      status := status[ticket := Settled(outcome)];
    }

    /**
     While `dispatching`, a nested call returns at once; otherwise it fills the free workers. Each started
     job is left as its own handler has it, and all that the handlers ask for is done, in order.
     */
    method Dispatch()
      requires Consistent()
      modifies this
      ensures Consistent() && Grows() && dispatching == old(dispatching)
      ensures old(dispatching) ==> unchanged(this)
      ensures Advanced(old(accepted), old(acceptingJobs), old(status))
      ensures successfulJobs + failedJobs >= old(successfulJobs + failedJobs)
      ensures !dispatching && pendingJobs != [] ==> activeWorkers == maximumWorkers
      ensures old(Drained()) ==> Drained()
      decreases if dispatching then 0 else 1, 0, 0
    {
      assert accepted[|status|..|status|] == [];
      if dispatching {
        return;
      }
      dispatching := true;
      FillWorkers();
      dispatching := false;
    }

    /** The loop of dispatch. */
    method FillWorkers()
      requires Consistent() && dispatching
      modifies this
      ensures Consistent() && dispatching && Advanced(old(accepted), old(acceptingJobs), old(status))
      ensures successfulJobs + failedJobs >= old(successfulJobs + failedJobs)
      ensures pendingJobs != [] ==> activeWorkers == maximumWorkers
      ensures old(resolutions) <= resolutions && (old(resolutions) == 1 ==> status == old(status))
      ensures old(Drained()) ==> Drained()
      decreases 0, 5, 0
    {
      assert accepted[|status|..|status|] == [];
      while activeWorkers < maximumWorkers && |pendingJobs| > 0
        invariant Consistent() && dispatching
        invariant Advanced(old(accepted), old(acceptingJobs), old(status))
        invariant successfulJobs + failedJobs >= old(successfulJobs + failedJobs)
        invariant old(resolutions) <= resolutions && (old(resolutions) == 1 ==> status == old(status))
        invariant old(Drained()) ==> Drained()
        decreases PendingWeight(pendingJobs)
      {
        ghost var middle, between, accepting := status, accepted, acceptingJobs;
        StartNext();
        ProgressOn(old(accepted), old(acceptingJobs), old(status), middle, between, accepting, accepted, acceptingJobs);
      }
    }

    /** One round of the dispatch loop: the next accepted job starts, with its own handler, and may already have settled. */
    method StartNext()
      requires Consistent() && dispatching && pendingJobs != [] && activeWorkers < maximumWorkers
      modifies this
      ensures Consistent() && Drained() && dispatching && old(resolutions) == 0
      ensures |old(status)| < |old(accepted)|
      ensures status == old(status) + [FirstStatus(old(accepted)[|old(status)|])]
      ensures Served(old(accepted), old(acceptingJobs), old(accepted)[|old(status)|].calls, accepted, acceptingJobs)
      ensures successfulJobs + failedJobs >= old(successfulJobs + failedJobs)
      ensures PendingWeight(pendingJobs) < old(PendingWeight(pendingJobs))
      decreases 0, 4, 0
    {
      var entry := TakeNext();
      ProcessJob(entry);
    }

    /** The synchronous part of processJob: up to the handler's first await, or to its throw. */
    method ProcessJob(entry: Entry)
      requires Consistent() && dispatching && entry.ticket < |status| && status[entry.ticket].Running?
      modifies this
      ensures Consistent() && Drained() && dispatching
      ensures Served(old(accepted), old(acceptingJobs), entry.job.calls, accepted, acceptingJobs)
      ensures old(resolutions) == 0
      ensures successfulJobs + failedJobs >= old(successfulJobs + failedJobs)
      ensures status == if entry.job.throws then old(status)[entry.ticket := Settled(Rejected(entry.job.id))] else old(status)
      ensures PendingWeight(pendingJobs) <= old(PendingWeight(pendingJobs)) + CallsWeight(entry.job.calls)
      decreases 0, 3, 0
    {
      CountPositive(status, entry.ticket);
      RunCalls(entry.job.calls);
      if entry.job.throws {
        CountFinished(entry.ticket, Rejected(entry.job.id));
        Dispatch();
        CompleteShutdownWhenIdle();
        SettlePromise(entry.ticket, Rejected(entry.job.id));
      }
    }

    /** What a handler calls before its first await: every submission and every shutdown is done. */
    method RunCalls(calls: seq<Call>)
      requires Consistent() && dispatching && activeWorkers > 0
      modifies this
      ensures Consistent() && dispatching
      ensures Served(old(accepted), old(acceptingJobs), calls, accepted, acceptingJobs)
      ensures status == old(status) && activeWorkers == old(activeWorkers) && resolutions == old(resolutions)
      ensures successfulJobs + failedJobs == old(successfulJobs + failedJobs)
      ensures PendingWeight(pendingJobs) <= old(PendingWeight(pendingJobs)) + CallsWeight(calls)
      decreases 0, 2, |calls|
    {
      if calls != [] {
        match calls[0] {
          case Submits(job) => var ticket := Submit(job);
          case ShutsDown => Shutdown();
        }
        assert Served(old(accepted), old(acceptingJobs), [calls[0]], accepted, acceptingJobs);
        ghost var between, accepting := accepted, acceptingJobs;
        RunCalls(calls[1..]);
        assert calls == [calls[0]] + calls[1..];
        ServedTwice(old(accepted), old(acceptingJobs), [calls[0]], between, accepting, calls[1..], accepted, acceptingJobs);
      }
    }

    method Enqueue(job: Job)
      requires Consistent() && acceptingJobs
      modifies this`pendingJobs, this`nextTicket, this`accepted
      ensures Consistent()
      ensures pendingJobs == old(pendingJobs) + [Entry(old(nextTicket), job)] && accepted == old(accepted) + [job]
    {
      pendingJobs := pendingJobs + [Entry(nextTicket, job)];
      nextTicket := nextTicket + 1;
      accepted := accepted + [job];
    }

    /**
     Answers the ticket of the accepted job, or nothing once shutdown has begun. The jobs that start
     now are left as their own handlers have it, and what those ask for follows the accepted job.
     */
    method Submit(job: Job) returns (ticket: Option<nat>)
      requires Consistent() && (!dispatching ==> Valid())
      modifies this
      ensures Consistent() && Grows() && dispatching == old(dispatching) && (!dispatching ==> Valid())
      ensures ticket == if old(acceptingJobs) then Some(|old(accepted)|) else None
      ensures old(acceptingJobs) ==> Advanced(old(accepted) + [job], true, old(status))
      ensures !old(acceptingJobs) ==> unchanged(this)
      ensures dispatching ==> unchanged(this`status, this`activeWorkers, this`resolutions)
      ensures dispatching ==> PendingWeight(pendingJobs) <= old(PendingWeight(pendingJobs)) + Weight(job)
      decreases if dispatching then 0 else 1, 1, 0
    {
      if !acceptingJobs {
        return None;
      }
      ticket := Some(nextTicket);
      PendingWeightAppend(pendingJobs, Entry(nextTicket, job));
      Enqueue(job);
      Dispatch();
    }

    method Shutdown()
      requires Consistent() && (!dispatching ==> Valid())
      modifies this`acceptingJobs, this`shutdownRequested, this`shutdownUnresolved, this`resolutions
      ensures Consistent() && Grows() && Drained() && (!dispatching ==> Valid())
      ensures !acceptingJobs
      ensures !Idle() ==> resolutions == old(resolutions)
    {
      acceptingJobs := false;
      if !shutdownRequested {
        shutdownRequested, shutdownUnresolved := true, true;
      }
      CompleteShutdownWhenIdle();
    }

    /** An awaited handler has finished: its own promise settles with its own outcome. */
    method Resume(ghost ticket: nat, outcome: Outcome)
      requires Valid() && ticket < |status| && status[ticket].Running?
      modifies this
      ensures Valid() && Grows()
      ensures Advanced(old(accepted), old(acceptingJobs), old(status)[ticket := Settled(outcome)])
      ensures successfulJobs + failedJobs > old(successfulJobs + failedJobs)
    {
      CountFinished(ticket, outcome);
      Dispatch();
      CompleteShutdownWhenIdle();
      SettlePromise(ticket, outcome);
    }

    /**
     Once shutdown has begun, finishing the awaited handlers one after the other, in any order,
     drains the pool: every accepted job settles and the shutdown resolves.
     */
    method FinishAll(outcomes: nat -> Outcome)
      requires Valid() && !acceptingJobs
      modifies this
      ensures Valid() && resolutions == 1 && accepted == old(accepted)
      ensures |status| == |accepted| && forall t :: 0 <= t < |status| ==> status[t].Settled?
    {
      while activeWorkers > 0
        invariant Valid() && !acceptingJobs && accepted == old(accepted)
        decreases |accepted| - successfulJobs - failedJobs
      {
        AcceptedAccounted();
        ghost var some := SomeRunning(status);
        ghost var ticket: nat :| ticket < |status| && status[ticket].Running?;
        Resume(ticket, outcomes(activeWorkers));
      }
      forall t | 0 <= t < |status| ensures status[t].Settled? {
        if status[t].Running? {
          CountPositive(status, t);
        }
      }
    }
  }

  /** createWorkerPool: no pool for a concurrency that is not positive. */
  method CreateWorkerPool(concurrency: Option<int>) returns (pool: Option<WorkerPool>)
    ensures pool.Some? <==> concurrency.None? || concurrency.value > 0
    ensures pool.Some? ==> fresh(pool.value) && pool.value.Valid() && pool.value.accepted == []
    ensures pool.Some? ==> pool.value.maximumWorkers == if concurrency.Some? then concurrency.value else 5
  {
    match ResolveWorkerConcurrency(concurrency)
    case None => pool := None;
    case Some(maximum) =>
      var created := new WorkerPool(maximum);
      pool := Some(created);
  }
}
