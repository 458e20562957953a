/** The submission engine: one `processBatch` and one `Retry` as they are written, on the shared
    store and router. Other processes may act between any two calls. The ghost state machine runs
    along, and every execution of the code, under any interference, is shown to be a run of it. */
module Engines {
  import opened Base
  import opened Tables
  import opened Protocol
  import opened Stores
  import opened Routing
  import opened Worlds
  import opened Division
  import opened Backoff

  /** How the engine reads what the router returns: accepted when there is no error and no rejected
      operation. */
  function Judge(result: Submission): (outcome: Outcome)
    ensures outcome == Accepted <==> result == Success(false)
    ensures outcome == Rejected <==> result == Success(true)
  {
    match result
    case Success(rejected) => if rejected then Rejected else Accepted
    case EndpointError(_, _) => Errored("endpoint error")
    case AllFailed(_) => Errored("all endpoints failed")
    case SorobanSucceeded => Errored("soroban submission succeeded")
    case Panic => Errored("index out of range")
  }

  /** The record of a router call in the history of the machine. */
  function Logged(id: TxId, call: Invocation, retry: bool): (logged: Call)
    ensures logged.tx == id && logged.envelope == call.envelope && logged.retry == retry
    ensures logged.outcome == Accepted <==> call.result == Success(false)
    ensures logged.outcome == Rejected <==> call.result == Success(true)
  {
    Call(id, call.envelope, Judge(call.result), SendCount(call.attempts), retry)
  }

  /** The history went on, and `call` is in what was added. */
  ghost predicate Recorded(before: seq<Call>, after: seq<Call>, call: Call)
  {
    before <= after && exists k | |before| <= k < |after| :: after[k] == call
  }

  /** ... at position `at`. */
  predicate RecordedAt(before: seq<Call>, after: seq<Call>, at: nat, call: Call)
  {
    before <= after && |before| <= at < |after| && after[at] == call
  }

  /** The router call of a batch, if there was one, is in the history of the machine. */
  ghost predicate Reported(before: seq<Call>, after: seq<Call>, end: BatchEnd)
  {
    before <= after && (end.Died? || end.Settled? ==> Recorded(before, after, Logged(end.tx, end.call, false)))
  }

  /** How one batch ended. */
  datatype BatchEnd =
    | NotClaimed                       // nothing pending, or the query or the mark failed
    | Unleased(tx: TxId)
    | Died(tx: TxId, account: AccountId, call: Invocation)   // the router panicked
    | Settled(tx: TxId, account: AccountId, call: Invocation)

  datatype EnqueueResult = Enqueued(id: TxId) | EmptyEnvelope | InvalidEnvelope | NotSaved

  datatype RetryResult =
    | Confirmation
    | NotFetchedError | NotFailedError | MaxReachedError | InterruptedError | FeeBumpError
    | IncrementError | MarkError | SubmitError | RejectedError | PanicError

  // ----- the steps a process takes -----

  predicate OfWorker(a: Action, w: nat)
  {
    a.Work? && a.i == w
  }

  predicate FetchesAndMarks(steps: seq<Action>, w: nat, t: TxId)
  {
    |steps| >= 2 && steps[0] == Work(w, Fetch(t)) && steps[1] == Work(w, Mark(Done))
  }

  /** A lease that gives the worker no account. */
  predicate GivesNone(x: WorkerStep)
  {
    x.NoneIdle? || x.LeaseFails? || (x.Lease? && x.reply == Lost)
  }

  /** From the router's answer to the end of the batch. */
  predicate FinishSteps(steps: seq<Action>, w: nat)
  {
    && |steps| == 3 && (forall k :: 0 <= k < 3 ==> OfWorker(steps[k], w))
    && steps[0].work.Stamp? && steps[1].work.Release? && steps[2].work.Finish?
  }

  /** The sequence write and the router call. */
  predicate SubmitSteps(steps: seq<Action>, w: nat, call: Invocation)
  {
    && |steps| == 2 && OfWorker(steps[0], w) && steps[0].work.WriteSequence?
    && steps[1] == Work(w, Submit(Judge(call.result), SendCount(call.attempts)))
  }

  /** From the sequence write to the end of the batch. */
  predicate DeliverSteps(steps: seq<Action>, w: nat, end: BatchEnd)
  {
    && (end.Died? || end.Settled?) && |steps| > 2 && SubmitSteps(steps[..2], w, end.call)
    && if end.Died? then steps[2..] == [Work(w, Crash)] else FinishSteps(steps[2..], w)
  }

  /** From the lease to the end of the batch. */
  predicate ProcessSteps(steps: seq<Action>, w: nat, end: BatchEnd)
  {
    match end
    case NotClaimed => false
    case Unleased(_) =>
      && |steps| == 2 && OfWorker(steps[0], w) && OfWorker(steps[1], w)
      && GivesNone(steps[0].work) && steps[1].work.FailUnleased?
    case _ => |steps| > 1 && steps[0] == Work(w, Lease(end.account, Done)) && DeliverSteps(steps[1..], w, end)
  }

  /** All that a worker does in one batch, in this order. */
  predicate BatchSteps(steps: seq<Action>, w: nat, end: BatchEnd)
  {
    if end.NotClaimed?
    then
      || steps == []
      || (|steps| == 2 && OfWorker(steps[0], w) && OfWorker(steps[1], w)
          && steps[0].work.Fetch? && steps[1].work.Mark? && steps[1].work.reply != Done)
    else FetchesAndMarks(steps, w, end.tx) && ProcessSteps(steps[2..], w, end)
  }

  /** All that a retrier does in one retry, in this order. */
  predicate RetrySteps(steps: seq<Action>, j: nat, id: TxId, result: RetryResult)
  {
    && (forall k :: 0 <= k < |steps| ==> steps[k].Retry? && steps[k].j == j)
    && (steps != [] ==> steps[0].retry == Gate(id))
    && (|steps| > 2 ==> steps[1].retry == Increment(Done))
    && (|steps| > 3 ==> steps[2].retry == Remark(Done))
    && match result
       case NotFetchedError | NotFailedError | MaxReachedError => steps == []
       case InterruptedError | FeeBumpError => |steps| == 2 && steps[1].retry.Abandon?
       case IncrementError => |steps| == 2 && steps[1].retry.Increment? && steps[1].retry.reply != Done
       case MarkError => |steps| == 3 && steps[2].retry.Remark? && steps[2].retry.reply != Done
       case SubmitError | PanicError =>
         |steps| == 4 && steps[3].retry.Resubmit? && steps[3].retry.outcome.Errored?
       case Confirmation =>
         |steps| == 5 && steps[3].retry.Resubmit? && steps[3].retry.outcome == Accepted && steps[4].retry.Conclude?
       case RejectedError =>
         |steps| == 5 && steps[3].retry.Resubmit? && steps[3].retry.outcome == Rejected && steps[4].retry.Conclude?
  }

  /** A batch that leaves the table as a settled transaction would. */
  predicate SettledRow(t: TxTable, u: TxTable, id: TxId, status: TxStatus, channel: Option<AccountId>,
                       lastError: string)
  {
    id in t && u == t[id := t[id].(status := status, channel := channel, lastError := lastError)]
  }

  /** What the router's answer makes of the row: confirmed when it accepted, failed otherwise. */
  predicate RowAnswers(row: TxRow, result: Submission)
  {
    && row.status == (if result == Success(false) then Confirmed else Failed)
    && (result == Success(false) ==> row.lastError == "")
    && (result == Success(true) ==> row.lastError == "operation rejected by horizon")
  }

  class Engine {
    const world: World
    const router: Router
    const baseDelay: int
    const multiplier: real

    constructor (world: World, router: Router, baseDelay: int, multiplier: real)
      requires world.Valid() && router.Valid() && router.route == world.config.route
      requires router.horizons == world.config.horizons && router.sorobans == world.config.sorobans
      ensures Valid() && this.world == world && this.router == router
      ensures this.baseDelay == baseDelay && this.multiplier == multiplier
    {
      this.world, this.router, this.baseDelay, this.multiplier := world, router, baseDelay, multiplier;
    }

    ghost predicate Valid()
      reads world, world.store, router
    {
      && world.Valid() && router.Valid() && router.route == world.config.route
      && router.horizons == world.config.horizons && router.sorobans == world.config.sorobans
    }

    ghost predicate WorkerAt(w: nat, pc: Worker)
      reads world
    {
      w < |world.m.workers| && world.m.workers[w] == pc
    }

    ghost predicate RetrierAt(j: nat, pc: Retrier)
      reads world
    {
      j < |world.m.retriers| && world.m.retriers[j] == pc
    }

    /** With room for one more call on an undisturbed counter, the router does not panic. */
    predicate RouterCalled(room: bool, h: int, s: int, panicked: bool)
      reads router
    {
      room ==> !panicked && router.Advanced(h, s, 1)
    }

    /** A batch calls the router once if it gets an account, and not at all otherwise. */
    ghost predicate RouterSaw(before: seq<Invocation>, end: BatchEnd)
      reads router
    {
      match end
      case Died(_, _, call) => router.invocations == before + [call] && router.Explains(call) && call.result == Panic
      case Settled(_, _, call) => router.invocations == before + [call] && router.Explains(call) && call.result != Panic
      case _ => router.invocations == before
    }

    /** The latest invocation of the router. */
    ghost function LastCall(): Invocation
      requires router.invocations != []
      reads router
    {
      router.invocations[|router.invocations| - 1]
    }

    /** A retry calls the router once if it gets as far, and its result tells how the call ended. */
    ghost predicate RetrySaw(before: seq<Invocation>, result: RetryResult)
      reads router
    {
      if Called(result)
      then
        && router.invocations != [] && router.invocations == before + [LastCall()] && router.Explains(LastCall())
        && (result == Confirmation <==> LastCall().result == Success(false))
        && (result == RejectedError <==> LastCall().result == Success(true))
        && (result == PanicError <==> LastCall().result == Panic)
      else router.invocations == before
    }

    /** The latest invocation of the router is in the history of the machine, as a call for a retry. */
    ghost predicate RetryReported(before: seq<Call>, id: TxId)
      reads router, world
    {
      router.invocations != [] && Recorded(before, world.m.calls, Logged(id, LastCall(), true))
    }

    ghost predicate RetryReportedAt(before: seq<Call>, id: TxId, at: nat)
      reads router, world
    {
      router.invocations != [] && RecordedAt(before, world.m.calls, at, Logged(id, LastCall(), true))
    }

    // ----- Enqueue -----

    /** The two checks and the insert; the random id and the time of the insert come from outside.
        Only an acknowledged insert returns an id, and that row is then pending at the tail. */
    method Enqueue(id: TxId, envelope: Envelope, parses: bool, now: int) returns (result: EnqueueResult)
      requires Valid()
      modifies world, world.store
      ensures Valid() && world.WentOn(old(world.m), old(world.run))
      ensures result == EmptyEnvelope <==> envelope == ""
      ensures result == InvalidEnvelope <==> envelope != "" && !parses
      ensures result in {EmptyEnvelope, InvalidEnvelope} ==> world.m == old(world.m)
      ensures result.Enqueued? ==>
        && result.id == id && id in world.m.txs
        && world.m.txs[id] == TxRow(envelope, Pending, None, 0, "", now)
        && world.m.enqueued != [] && world.m.enqueued[|world.m.enqueued| - 1] == id
      ensures world.store.reliable && result == NotSaved ==> id in world.m.txs
      ensures world.Calm() && envelope != "" && parses ==>
        if id in old(world.m.txs) then result == NotSaved && world.m == old(world.m)
        else
          && result == Enqueued(id)
          && world.m.txs == old(world.m.txs)[id := TxRow(envelope, Pending, None, 0, "", now)]
    {
      if envelope == "" {
        world.GoneOn(old(world.m), old(world.run));
        return EmptyEnvelope;
      }
      if !parses {
        world.GoneOn(old(world.m), old(world.run));
        return InvalidEnvelope;
      }
      world.Yield(Client);
      var ok, reply := world.store.SaveTransaction(id, envelope, now);
      if reply != Refused {
        world.Do(Client, Action.Enqueue(id, envelope, now));
      }
      result := if ok then Enqueued(id) else NotSaved;
      world.GoneOn(old(world.m), old(world.run));
    }

    // ----- processBatch -----

    /** Reads the oldest pending row, if there is one. */
    method FetchOldest(ghost w: nat) returns (tx: Option<TxRecord>)
      requires Valid() && WorkerAt(w, Waiting)
      modifies world, world.store
      ensures Valid() && old(world.m.calls) <= world.m.calls
      ensures world.Did(WorkerRole(w), old(world.run), old(world.Own(WorkerRole(w))),
                  if tx.Some? then [Work(w, Fetch(tx.value.id))] else [])
      ensures WorkerAt(w, if tx.Some? then Fetched(tx.value.id, tx.value.row.envelope) else Waiting)
      ensures tx.Some? ==> tx.value.id in world.m.txs && world.m.txs[tx.value.id] == tx.value.row
      ensures tx.None? && world.store.reliable ==> PendingIds(world.m.txs) == {}
      ensures world.Calm() ==> world.m == old(world.m).(workers := world.m.workers)
      ensures world.Calm() && tx.None? ==> world.m == old(world.m)
      ensures world.Calm() && tx.Some? ==> OldestPending(world.m.txs, tx.value.id)
    {
      world.Yield(WorkerRole(w));
      var ok, txs := world.store.GetPendingTransactions(1);
      if !ok || |txs| == 0 {
        return None;
      }
      tx := Some(txs[0]);
      world.Do(WorkerRole(w), Work(w, Fetch(tx.value.id)));
    }

    /** The mark that is meant to keep other workers away. */
    method MarkSubmitting(ghost w: nat, tx: TxRecord) returns (marked: bool, ghost reply: Reply)
      requires Valid() && WorkerAt(w, Fetched(tx.id, tx.row.envelope)) && tx.id in world.m.txs
      modifies world, world.store
      ensures Valid() && old(world.m.calls) <= world.m.calls
      ensures world.Did(WorkerRole(w), old(world.run), old(world.Own(WorkerRole(w))), [Work(w, Mark(reply))])
      ensures marked <==> reply == Done
      ensures WorkerAt(w, if marked then Marked(tx.id, tx.row.envelope) else Waiting)
      ensures world.Calm() ==> world.m.txs == SetStatus(old(world.m.txs), tx.id, Submitting, None, "")
      ensures world.Calm() ==> world.m.accounts == old(world.m.accounts) && world.m.calls == old(world.m.calls)
    {
      world.Yield(WorkerRole(w));
      marked, reply := world.store.UpdateTransactionStatus(tx.id, Submitting, None, "");
      world.Do(WorkerRole(w), Work(w, Mark(reply)));
    }

    method LeaseAccount(ghost w: nat, tx: TxRecord) returns (acct: Option<AccountRecord>, ghost step: WorkerStep)
      requires Valid() && WorkerAt(w, Marked(tx.id, tx.row.envelope))
      modifies world, world.store
      ensures Valid() && old(world.m.calls) <= world.m.calls
      ensures world.Did(WorkerRole(w), old(world.run), old(world.Own(WorkerRole(w))), [Work(w, step)])
      ensures acct.None? ==> GivesNone(step) && WorkerAt(w, NoAccount(tx.id))
      ensures acct.Some? ==>
        && step == Lease(acct.value.key, Done)
        && WorkerAt(w, Holding(tx.id, tx.row.envelope, acct.value.key, acct.value.row.sequence))
      ensures world.Calm() ==> world.m.txs == old(world.m.txs) && world.m.calls == old(world.m.calls)
      ensures world.Calm() && acct.None? ==>
        world.m.accounts == old(world.m.accounts) && IdleIds(world.m.accounts) == {}
      ensures world.Calm() && acct.Some? ==>
        && LeastRecentlyUsed(old(world.m.accounts), acct.value.key)
        && acct.value.row == old(world.m.accounts)[acct.value.key]
        && world.m.accounts == SetLeased(old(world.m.accounts), acct.value.key)
    {
      world.Yield(WorkerRole(w));
      ghost var picked;
      acct, picked := world.store.LeaseChannelAccount();
      step :=
        if picked.Some? then Lease(picked.value, if acct.Some? then Done else Lost)
        else if IdleIds(world.m.accounts) == {} then NoneIdle
        else LeaseFails;
      world.Do(WorkerRole(w), Work(w, step));
    }

    method FailWithoutAccount(ghost w: nat, id: TxId) returns (ghost reply: Reply)
      requires Valid() && WorkerAt(w, NoAccount(id))
      modifies world, world.store
      ensures Valid() && WorkerAt(w, Waiting) && old(world.m.calls) <= world.m.calls
      ensures world.Did(WorkerRole(w), old(world.run), old(world.Own(WorkerRole(w))), [Work(w, FailUnleased(reply))])
      ensures world.Calm() ==> world.m.txs == SetStatus(old(world.m.txs), id, Failed, None, "no channel account")
      ensures world.Calm() ==> world.m.accounts == old(world.m.accounts) && world.m.calls == old(world.m.calls)
    {
      world.Yield(WorkerRole(w));
      var ok;
      ok, reply := world.store.UpdateTransactionStatus(id, Failed, None, "no channel account");
      world.Do(WorkerRole(w), Work(w, FailUnleased(reply)));
    }

    /** The batch goes on whether or not the write succeeds. */
    method WriteNumber(ghost w: nat, tx: TxRecord, acct: AccountRecord) returns (ghost reply: Reply)
      requires Valid() && WorkerAt(w, Holding(tx.id, tx.row.envelope, acct.key, acct.row.sequence))
      modifies world, world.store
      ensures Valid() && WorkerAt(w, Sequenced(tx.id, tx.row.envelope, acct.key))
      ensures old(world.m.calls) <= world.m.calls
      ensures world.Did(WorkerRole(w), old(world.run), old(world.Own(WorkerRole(w))), [Work(w, WriteSequence(reply))])
      ensures world.Calm() ==> world.m.accounts == SetSequence(old(world.m.accounts), acct.key, acct.row.sequence + 1)
      ensures world.Calm() ==> world.m.txs == old(world.m.txs) && world.m.calls == old(world.m.calls)
    {
      var newSeq := acct.row.sequence + 1;
      world.Yield(WorkerRole(w));
      var ok;
      ok, reply := world.store.UpdateSequenceNumber(acct.key, newSeq);
      world.Do(WorkerRole(w), Work(w, WriteSequence(reply)));
    }

    /** A call that panics may have reached endpoints before; the worker goes down with it. */
    method CallRouter(ghost w: nat, tx: TxRecord, key: AccountId) returns (call: Invocation, ghost at: nat)
      requires Valid() && WorkerAt(w, Sequenced(tx.id, tx.row.envelope, key))
      modifies world, world.store, router
      ensures Valid() && WorkerAt(w, Answered(tx.id, key, Judge(call.result)))
      ensures world.Did(WorkerRole(w), old(world.run), old(world.Own(WorkerRole(w))),
                  [Work(w, Submit(Judge(call.result), SendCount(call.attempts)))])
      ensures RouterCalled(old(router.Room(1)), old(router.horizonIdx), old(router.sorobanIdx), call.result == Panic)
      ensures router.invocations == old(router.invocations) + [call]
      ensures router.Explains(call) && call.envelope == tx.row.envelope
      ensures RecordedAt(old(world.m.calls), world.m.calls, at, Logged(tx.id, call, false))
      ensures world.Calm() ==> world.m.txs == old(world.m.txs) && world.m.accounts == old(world.m.accounts)
      ensures world.Calm() ==> world.m.calls == old(world.m.calls) + [Logged(tx.id, call, false)]
    {
      world.Yield(WorkerRole(w));
      var result, attempts, schedule := router.SubmitTransaction(tx.row.envelope);
      call := Invocation(tx.row.envelope, result, attempts);
      CallMayEnd(world.config, router, call);
      at := |world.m.calls|;
      world.Do(WorkerRole(w), Work(w, Submit(Judge(result), SendCount(attempts))));
    }

    /** The worker is gone, and nobody is left to release its account. */
    ghost method Die(w: nat, id: TxId, key: AccountId, outcome: Outcome)
      requires world.Valid() && WorkerAt(w, Answered(id, key, outcome))
      modifies world`m, world`run
      ensures world.Valid() && WorkerAt(w, Waiting)
      ensures world.Did(WorkerRole(w), old(world.run), old(world.Own(WorkerRole(w))), [Work(w, Crash)])
      ensures world.m.txs == old(world.m.txs) && world.m.accounts == old(world.m.accounts)
      ensures world.m.calls == old(world.m.calls)
    {
      world.Do(WorkerRole(w), Work(w, Crash));
    }

    method ReadClock(ghost w: nat, id: TxId, key: AccountId, outcome: Outcome) returns (now: int)
      requires Valid() && WorkerAt(w, Answered(id, key, outcome))
      modifies world, world.store
      ensures Valid() && WorkerAt(w, Stamped(id, key, outcome, now)) && old(world.m.calls) <= world.m.calls
      ensures world.Did(WorkerRole(w), old(world.run), old(world.Own(WorkerRole(w))), [Work(w, Stamp(now))])
      ensures world.Calm() ==> world.m.txs == old(world.m.txs) && world.m.calls == old(world.m.calls)
      ensures world.Calm() ==> world.m.accounts == old(world.m.accounts)
    {
      world.Yield(WorkerRole(w));
      now := *;
      world.Do(WorkerRole(w), Work(w, Stamp(now)));
    }

    method WriteIdle(ghost w: nat, id: TxId, key: AccountId, outcome: Outcome, now: int) returns (ghost reply: Reply)
      requires Valid() && WorkerAt(w, Stamped(id, key, outcome, now))
      modifies world, world.store
      ensures Valid() && WorkerAt(w, Released(id, key, outcome)) && old(world.m.calls) <= world.m.calls
      ensures world.Did(WorkerRole(w), old(world.run), old(world.Own(WorkerRole(w))), [Work(w, Release(reply))])
      ensures world.Calm() ==> world.m.txs == old(world.m.txs) && world.m.calls == old(world.m.calls)
      ensures world.Calm() && key in old(world.m.accounts) ==>
        Freed(old(world.m.accounts), world.m.accounts, key) && world.m.accounts[key].lastUsed == Some(now)
    {
      world.Yield(WorkerRole(w));
      var ok;
      ok, reply := world.store.ReleaseChannelAccount(key, now);
      world.Do(WorkerRole(w), Work(w, Release(reply)));
    }

    /** Release reads the clock in a step before it writes. */
    method ReleaseAccount(ghost w: nat, id: TxId, key: AccountId, outcome: Outcome)
      returns (now: int, ghost reply: Reply)
      requires Valid() && WorkerAt(w, Answered(id, key, outcome))
      modifies world, world.store
      ensures Valid() && WorkerAt(w, Released(id, key, outcome)) && old(world.m.calls) <= world.m.calls
      ensures world.Did(WorkerRole(w), old(world.run), old(world.Own(WorkerRole(w))),
                  [Work(w, Stamp(now)), Work(w, Release(reply))])
      ensures world.Calm() ==> world.m.txs == old(world.m.txs) && world.m.calls == old(world.m.calls)
      ensures world.Calm() && key in old(world.m.accounts) ==>
        Freed(old(world.m.accounts), world.m.accounts, key) && world.m.accounts[key].lastUsed == Some(now)
    {
      ghost var own := world.Own(WorkerRole(w));
      now := ReadClock(w, id, key, outcome);
      reply := WriteIdle(w, id, key, outcome, now);
      StepsJoin(own, [Work(w, Stamp(now))], [Work(w, Release(reply))]);
      assert [Work(w, Stamp(now)), Work(w, Release(reply))] == [Work(w, Stamp(now))] + [Work(w, Release(reply))];
    }

    /** `failTransaction`. */
    method FailTransaction(ghost w: nat, id: TxId, key: AccountId, ghost outcome: Outcome, message: string)
      returns (ghost reply: Reply)
      requires Valid() && WorkerAt(w, Released(id, key, outcome))
      requires outcome != Accepted && message == BatchError(outcome)
      modifies world, world.store
      ensures Valid() && WorkerAt(w, Waiting) && old(world.m.calls) <= world.m.calls
      ensures world.Did(WorkerRole(w), old(world.run), old(world.Own(WorkerRole(w))), [Work(w, Finish(reply))])
      ensures world.Calm() ==>
        && world.m.txs == SetStatus(old(world.m.txs), id, Failed, Some(key), message)
        && world.m.calls == old(world.m.calls) && world.m.accounts == old(world.m.accounts)
    {
      world.Yield(WorkerRole(w));
      var written;
      written, reply := world.store.UpdateTransactionStatus(id, Failed, Some(key), message);
      world.Do(WorkerRole(w), Work(w, Finish(reply)));
    }

    method ConfirmTransaction(ghost w: nat, id: TxId, key: AccountId) returns (ghost reply: Reply)
      requires Valid() && WorkerAt(w, Released(id, key, Accepted))
      modifies world, world.store
      ensures Valid() && WorkerAt(w, Waiting) && old(world.m.calls) <= world.m.calls
      ensures world.Did(WorkerRole(w), old(world.run), old(world.Own(WorkerRole(w))), [Work(w, Finish(reply))])
      ensures world.Calm() ==>
        && world.m.txs == SetStatus(old(world.m.txs), id, Confirmed, Some(key), "")
        && world.m.calls == old(world.m.calls) && world.m.accounts == old(world.m.accounts)
    {
      world.Yield(WorkerRole(w));
      var written;
      written, reply := world.store.UpdateTransactionStatus(id, Confirmed, Some(key), "");
      world.Do(WorkerRole(w), Work(w, Finish(reply)));
    }

    /** The terminal status that the outcome calls for. */
    method WriteTerminal(ghost w: nat, id: TxId, key: AccountId, outcome: Outcome) returns (ghost reply: Reply)
      requires Valid() && WorkerAt(w, Released(id, key, outcome))
      modifies world, world.store
      ensures Valid() && WorkerAt(w, Waiting) && old(world.m.calls) <= world.m.calls
      ensures world.Did(WorkerRole(w), old(world.run), old(world.Own(WorkerRole(w))), [Work(w, Finish(reply))])
      ensures world.Calm() ==>
        && world.m.txs == SetStatus(old(world.m.txs), id, TerminalStatus(outcome), Some(key), BatchError(outcome))
        && world.m.calls == old(world.m.calls) && world.m.accounts == old(world.m.accounts)
    {
      match outcome {
        case Errored(message) => reply := FailTransaction(w, id, key, outcome, message);
        case Rejected => reply := FailTransaction(w, id, key, outcome, "operation rejected by horizon");
        case Accepted => reply := ConfirmTransaction(w, id, key);
      }
    }

    /** Release the account, then write the terminal status. */
    method FinishBatch(ghost w: nat, id: TxId, key: AccountId, outcome: Outcome) returns (ghost steps: seq<Action>)
      requires Valid() && WorkerAt(w, Answered(id, key, outcome))
      modifies world, world.store
      ensures Valid() && WorkerAt(w, Waiting) && old(world.m.calls) <= world.m.calls
      ensures world.Did(WorkerRole(w), old(world.run), old(world.Own(WorkerRole(w))), steps)
      ensures FinishSteps(steps, w)
      ensures world.Calm() ==>
        && world.m.txs == SetStatus(old(world.m.txs), id, TerminalStatus(outcome), Some(key), BatchError(outcome))
        && world.m.calls == old(world.m.calls)
        && (key in old(world.m.accounts) ==> Freed(old(world.m.accounts), world.m.accounts, key))
    {
      ghost var own := world.Own(WorkerRole(w));
      var now;
      ghost var released, written;
      now, released := ReleaseAccount(w, id, key, outcome);
      written := WriteTerminal(w, id, key, outcome);
      StepsJoin(own, [Work(w, Stamp(now)), Work(w, Release(released))], [Work(w, Finish(written))]);
      steps := [Work(w, Stamp(now)), Work(w, Release(released))] + [Work(w, Finish(written))];
    }

    /** Fetch and mark; None when there is nothing pending or one of the two calls fails. */
    method Claim(ghost w: nat) returns (tx: Option<TxRecord>, ghost steps: seq<Action>)
      requires Valid() && WorkerAt(w, Waiting)
      modifies world, world.store
      ensures Valid() && old(world.m.calls) <= world.m.calls
      ensures world.Did(WorkerRole(w), old(world.run), old(world.Own(WorkerRole(w))), steps)
      ensures tx.Some? ==> |steps| == 2 && FetchesAndMarks(steps, w, tx.value.id)
      ensures tx.None? ==> BatchSteps(steps, w, NotClaimed)
      ensures tx.None? && world.store.reliable ==> steps == [] && PendingIds(world.m.txs) == {}
      ensures WorkerAt(w, if tx.Some? then Marked(tx.value.id, tx.value.row.envelope) else Waiting)
      ensures world.Calm() && tx.None? ==> world.m == old(world.m)
      ensures world.Calm() && tx.Some? ==>
        && OldestPending(old(world.m.txs), tx.value.id) && tx.value.row == old(world.m.txs)[tx.value.id]
        && world.m.txs == SetStatus(old(world.m.txs), tx.value.id, Submitting, None, "")
        && world.m.accounts == old(world.m.accounts) && world.m.calls == old(world.m.calls)
    {
      tx := FetchOldest(w);
      steps := [];
      if tx.Some? {
        var marked;
        ghost var reply;
        marked, reply := MarkSubmitting(w, tx.value);
        steps := [Work(w, Fetch(tx.value.id))] + [Work(w, Mark(reply))];
        if !marked {
          tx := None;
        }
      }
    }

    /** Every execution of a batch is a run of the machine in which worker `w` takes exactly the steps of
        its program, in order, once around, whatever other processes do in between; a reliable store
        acknowledges each, and then the batch claims nothing only when nothing is pending. It calls
        the router once if it gets an account, never gets anything but an error for an envelope routed
        to Soroban, and logs as accepted exactly a result without a rejected operation. Left alone
        with a reliable store, it settles the oldest pending row with the least recently used account. */
    method ProcessBatch(ghost w: nat) returns (end: BatchEnd, ghost steps: seq<Action>)
      requires Valid() && WorkerAt(w, Waiting)
      modifies world, world.store, router
      ensures Valid() && WorkerAt(w, Waiting) && world.WentOn(old(world.m), old(world.run))
      ensures world.Did(WorkerRole(w), old(world.run), old(world.Own(WorkerRole(w))), steps)
      ensures BatchSteps(steps, w, end)
      ensures end.NotClaimed? && world.store.reliable ==> steps == [] && PendingIds(world.m.txs) == {}
      ensures world.Calm() ==> BatchEffect(old(world.m), world.m, end)
      ensures world.Calm() && end.Settled? ==>
        end.tx in world.m.txs && RowAnswers(world.m.txs[end.tx], end.call.result)
      ensures RouterSaw(old(router.invocations), end) && Reported(old(world.m.calls), world.m.calls, end)
      ensures end.Settled? && world.config.route(end.call.envelope) == Soroban ==> Judge(end.call.result).Errored?
      ensures RouterCalled(old(router.Room(1)), old(router.horizonIdx), old(router.sorobanIdx), end.Died?)
    {
      var next;
      next, steps := Claim(w);
      if next.None? {
        world.GoneOn(old(world.m), old(world.run));
        return NotClaimed, steps;
      }
      ghost var mid := world.m;
      ghost var more;
      end, more := Process(w, next.value);
      StepsJoin(old(world.Own(WorkerRole(w))), steps, more);
      assert (steps + more)[2..] == more;
      steps := steps + more;
      if world.Calm() {
        BatchComposes(old(world.m), mid, world.m, next.value, end);
      }
      world.GoneOn(old(world.m), old(world.run));
    }

    /** From a marked row to the end of the batch. */
    method Process(ghost w: nat, tx: TxRecord) returns (end: BatchEnd, ghost steps: seq<Action>)
      requires Valid() && WorkerAt(w, Marked(tx.id, tx.row.envelope))
      modifies world, world.store, router
      ensures Valid() && WorkerAt(w, Waiting)
      ensures world.Did(WorkerRole(w), old(world.run), old(world.Own(WorkerRole(w))), steps)
      ensures ProcessSteps(steps, w, end)
      ensures end.tx == tx.id
      ensures world.Calm() ==> ProcessEffect(old(world.m), world.m, tx, end)
      ensures RouterSaw(old(router.invocations), end) && Reported(old(world.m.calls), world.m.calls, end)
      ensures RouterCalled(old(router.Room(1)), old(router.horizonIdx), old(router.sorobanIdx), end.Died?)
    {
      ghost var start, own := world.m, world.Own(WorkerRole(w));
      var acct;
      ghost var step, more;
      acct, step := LeaseAccount(w, tx);
      if acct.None? {
        ghost var reply := FailWithoutAccount(w, tx.id);
        StepsJoin(own, [Work(w, step)], [Work(w, FailUnleased(reply))]);
        return Unleased(tx.id), [Work(w, step)] + [Work(w, FailUnleased(reply))];
      }
      ghost var mid := world.m;
      ghost var at;
      end, at, more := Deliver(w, tx, acct.value);
      StepsJoin(own, [Work(w, step)], more);
      steps := [Work(w, step)] + more;
      assert steps[1..] == more;
      assert RecordedAt(old(world.m.calls), world.m.calls, at, Logged(end.tx, end.call, false));
      if world.Calm() {
        ProcessComposes(start, mid, world.m, tx, acct.value, end);
      }
    }

    /** From the lease to the terminal write. */
    method Deliver(ghost w: nat, tx: TxRecord, acct: AccountRecord)
      returns (end: BatchEnd, ghost at: nat, ghost steps: seq<Action>)
      requires Valid() && WorkerAt(w, Holding(tx.id, tx.row.envelope, acct.key, acct.row.sequence))
      modifies world, world.store, router
      ensures Valid() && WorkerAt(w, Waiting)
      ensures world.Did(WorkerRole(w), old(world.run), old(world.Own(WorkerRole(w))), steps)
      ensures DeliverSteps(steps, w, end)
      ensures end.tx == tx.id && end.account == acct.key && end.call.envelope == tx.row.envelope
      ensures RouterSaw(old(router.invocations), end)
      ensures RecordedAt(old(world.m.calls), world.m.calls, at, Logged(tx.id, end.call, false))
      ensures world.Calm() ==> DeliverEffect(old(world.m), world.m, tx, acct, end)
      ensures RouterCalled(old(router.Room(1)), old(router.horizonIdx), old(router.sorobanIdx), end.Died?)
    {
      ghost var own := world.Own(WorkerRole(w));
      var call;
      ghost var more;
      call, at, steps := NumberAndSubmit(w, tx, acct);
      if call.result == Panic {
        Die(w, tx.id, acct.key, Judge(call.result));
        end, more := Died(tx.id, acct.key, call), [Work(w, Crash)];
      } else {
        more := FinishBatch(w, tx.id, acct.key, Judge(call.result));
        end := Settled(tx.id, acct.key, call);
      }
      StepsJoin(own, steps, more);
      assert (steps + more)[..2] == steps && (steps + more)[2..] == more;
      steps := steps + more;
    }

    /** The sequence write, whatever becomes of it, and the router call. */
    method NumberAndSubmit(ghost w: nat, tx: TxRecord, acct: AccountRecord)
      returns (call: Invocation, ghost at: nat, ghost steps: seq<Action>)
      requires Valid() && WorkerAt(w, Holding(tx.id, tx.row.envelope, acct.key, acct.row.sequence))
      modifies world, world.store, router
      ensures Valid() && WorkerAt(w, Answered(tx.id, acct.key, Judge(call.result)))
      ensures world.Did(WorkerRole(w), old(world.run), old(world.Own(WorkerRole(w))), steps)
      ensures SubmitSteps(steps, w, call)
      ensures RouterCalled(old(router.Room(1)), old(router.horizonIdx), old(router.sorobanIdx), call.result == Panic)
      ensures router.invocations == old(router.invocations) + [call]
      ensures router.Explains(call) && call.envelope == tx.row.envelope
      ensures RecordedAt(old(world.m.calls), world.m.calls, at, Logged(tx.id, call, false))
      ensures world.Calm() ==> world.m.accounts == SetSequence(old(world.m.accounts), acct.key, acct.row.sequence + 1)
      ensures world.Calm() ==>
        world.m.txs == old(world.m.txs) && world.m.calls == old(world.m.calls) + [Logged(tx.id, call, false)]
    {
      ghost var own := world.Own(WorkerRole(w));
      ghost var written := WriteNumber(w, tx, acct);
      call, at := CallRouter(w, tx, acct.key);
      ghost var submit := Submit(Judge(call.result), SendCount(call.attempts));
      steps := [Work(w, WriteSequence(written))] + [Work(w, submit)];
      StepsJoin(own, [Work(w, WriteSequence(written))], [Work(w, submit)]);
    }

    // ----- ProcessQueue -----

    /** The ticker loop, cancelled after some ticks: one batch for each tick, unless the process dies.
        Left alone with a reliable store, each takes one row, oldest first, out of `pending` and into a
        terminal status: k ticks drain k rows. */
    method ProcessQueue(ghost w: nat, ticks: nat) returns (died: bool, ghost batches: seq<Batch>)
      requires Valid() && WorkerAt(w, Waiting)
      modifies world, world.store, router
      ensures Valid() && world.WentOn(old(world.m), old(world.run))
      ensures |batches| <= ticks && (!died ==> |batches| == ticks)
      ensures BatchesOk(batches, w, died)
      ensures world.Own(WorkerRole(w)) == old(world.Own(WorkerRole(w))) + StepsOf(batches)
      ensures world.Calm() && !died ==> Drained(old(world.m.txs), world.m.txs, ticks)
      ensures old(router.Room(ticks)) ==> !died
    {
      died, batches := false, [];
      ghost var own := world.Own(WorkerRole(w));
      for tick := 0 to ticks
        invariant Valid() && WorkerAt(w, Waiting) && old(world.run) <= world.run
        invariant |batches| == tick && BatchesOk(batches, w, false)
        invariant world.Own(WorkerRole(w)) == own + StepsOf(batches)
        invariant world.Calm() ==> Drained(old(world.m.txs), world.m.txs, tick)
        invariant old(router.Room(ticks)) ==> router.Advanced(old(router.horizonIdx), old(router.sorobanIdx), tick)
      {
        if old(router.Room(ticks)) {
          RoomForTick(router, old(router.horizonIdx), old(router.sorobanIdx), tick, ticks);
        }
        ghost var batch;
        died, batch := Tick(w, batches, old(world.m.txs), tick);
        StepsOfMore(batches, batch);
        StepsJoin(own, StepsOf(batches), batch.steps);
        batches := batches + [batch];
        if died {
          world.GoneOn(old(world.m), old(world.run));
          return;
        }
      }
      world.GoneOn(old(world.m), old(world.run));
    }

    /** One tick, after the `batches` so far. */
    method Tick(ghost w: nat, ghost batches: seq<Batch>, ghost start: TxTable, ghost tick: nat)
      returns (died: bool, ghost batch: Batch)
      requires Valid() && WorkerAt(w, Waiting) && BatchesOk(batches, w, false)
      requires world.Calm() ==> Drained(start, world.m.txs, tick)
      modifies world, world.store, router
      ensures Valid() && WorkerAt(w, Waiting) && old(world.run) <= world.run
      ensures BatchesOk(batches + [batch], w, died)
      ensures world.Own(WorkerRole(w)) == old(world.Own(WorkerRole(w))) + batch.steps
      ensures world.Calm() && !died ==> Drained(start, world.m.txs, tick + 1)
      ensures RouterCalled(old(router.Room(1)), old(router.horizonIdx), old(router.sorobanIdx), died)
    {
      var end;
      ghost var steps;
      end, steps := ProcessBatch(w);
      died := end.Died?;
      batch := Batch(end, steps, world.run, world.m);
      forall k | 0 <= k < |batches|
        ensures BatchOk(world.config, world.origin, world.run, world.store.reliable, batches[k], w)
      {
        assert BatchOk(world.config, world.origin, old(world.run), world.store.reliable, batches[k], w);
      }
      if world.Calm() && !died {
        DrainOne(start, old(world.m), world.m, tick, end);
      }
    }

    /** The batches took their steps, and the process died in the last of them or not at all. */
    ghost predicate BatchesOk(batches: seq<Batch>, w: nat, died: bool)
      reads world, world.store
    {
      && (died ==> batches != [])
      && forall k | 0 <= k < |batches| ::
           && BatchOk(world.config, world.origin, world.run, world.store.reliable, batches[k], w)
           && (batches[k].end.Died? <==> died && k == |batches| - 1)
    }

    // ----- Retry -----

    /** Every execution of a retry is a run of the machine in which retrier `j` takes exactly the steps of
        its program. It is interrupted only if its context is cancelled before the wait is over, and
        ends at the fee bump only if there is none; a reliable store acknowledges every step, and then
        its gates tell the state of the row. It calls the router at most once, with the fee bump, and
        its result says how that ended. Left alone with a reliable store, its sleep and its effect on
        the row are as stated. */
    method Retry(ghost j: nat, id: TxId, cancelledAt: Option<nat>)
      returns (result: RetryResult, slept: int, ghost steps: seq<Action>)
      requires Valid() && RetrierAt(j, Ready)
      modifies world, world.store, router
      ensures Valid() && RetrierAt(j, Ready) && world.WentOn(old(world.m), old(world.run))
      ensures world.Did(RetrierRole(j), old(world.run), old(world.Own(RetrierRole(j))), steps)
      ensures RetrySteps(steps, j, id, result)
      ensures result == InterruptedError ==> cancelledAt.Some? && slept == cancelledAt.value
      ensures result != InterruptedError && cancelledAt.Some? ==> slept <= cancelledAt.value
      ensures result == FeeBumpError ==> id in world.m.txs && world.config.feeBump(world.m.txs[id].envelope).None?
      ensures world.store.reliable ==> GateTells(world.m.txs, id, world.config.maxRetries, result)
      ensures world.store.reliable ==> result != IncrementError && result != MarkError
      ensures RetrySaw(old(router.invocations), result)
      ensures Called(result) ==>
        && RetryReported(old(world.m.calls), id)
        && id in world.m.txs && world.config.feeBump(world.m.txs[id].envelope) == Some(LastCall().envelope)
      ensures world.Calm() ==> RetryEffectOn(world.config, old(world.m), world.m, id, result)
      ensures world.Calm() && cancelledAt.None? && Open(old(world.m.txs), id, world.config.maxRetries) ==>
        if world.config.feeBump(old(world.m.txs)[id].envelope).Some? then Called(result) else result == FeeBumpError
      ensures world.Calm() ==> MaySleep(old(world.m).txs, id, result, baseDelay, multiplier, slept)
    {
      ghost var before, own := world.m, world.Own(RetrierRole(j));
      var row;
      result, row, steps := PassGate(j, id);
      slept := 0;
      if result != Confirmation {
        world.GoneOn(before, old(world.run));
        return;
      }
      ghost var mid, more := world.m, [];
      result, slept, more := FromGate(j, id, row, cancelledAt);
      StepsJoin(own, steps, more);
      RetryStepsJoin(steps, more, j, id, result);
      steps := steps + more;
      if world.Calm() {
        EffectFrom(world.config, before, mid, world.m, id, result);
      }
      world.GoneOn(before, old(world.run));
    }

    /** From the gate on, seen from the state at the gate. */
    method FromGate(ghost j: nat, id: TxId, row: TxRow, cancelledAt: Option<nat>)
      returns (result: RetryResult, slept: int, ghost steps: seq<Action>)
      requires Valid() && RetrierAt(j, Gated(id, row.envelope))
      requires Open(world.m.txs, id, world.config.maxRetries) && world.m.txs[id] == row
      modifies world, world.store, router
      ensures Valid() && RetrierAt(j, Ready) && Grows(old(world.m), world.m)
      ensures world.Did(RetrierRole(j), old(world.run), old(world.Own(RetrierRole(j))), steps)
      ensures PastSteps(steps, j, result) && RetrySaw(old(router.invocations), result)
      ensures result == InterruptedError ==> cancelledAt.Some? && slept == cancelledAt.value
      ensures result != InterruptedError && cancelledAt.Some? ==> slept <= cancelledAt.value
      ensures world.store.reliable ==> Called(result) || result in {InterruptedError, FeeBumpError}
      ensures Called(result) ==> RetryReported(old(world.m.calls), id)
      ensures id in world.m.txs
      ensures result == FeeBumpError ==> world.config.feeBump(world.m.txs[id].envelope).None?
      ensures Called(result) ==> world.config.feeBump(world.m.txs[id].envelope) == Some(LastCall().envelope)
      ensures world.Calm() ==> RetryEffectOn(world.config, old(world.m), world.m, id, result)
      ensures world.Calm() ==> MaySleep(old(world.m).txs, id, result, baseDelay, multiplier, slept)
    {
      ghost var at;
      result, slept, at, steps := PastGate(j, id, row, cancelledAt);
      assert Called(result) ==> RetryReportedAt(old(world.m.calls), id, at);
      world.LaterSince(old(world.m), old(world.run));
      if world.Calm() {
        RetryComposes(world.config, old(world.m), old(world.m), world.m, id, result);
      }
    }

    /** The wait, the fee bump and, if there is one, the submission. */
    method PastGate(ghost j: nat, id: TxId, row: TxRow, cancelledAt: Option<nat>)
      returns (result: RetryResult, slept: int, ghost at: nat, ghost steps: seq<Action>)
      requires Valid() && RetrierAt(j, Gated(id, row.envelope))
      requires id in world.m.txs && world.m.txs[id] == row
      modifies world, world.store, router
      ensures Valid() && RetrierAt(j, Ready) && Grows(old(world.m), world.m)
      ensures world.Did(RetrierRole(j), old(world.run), old(world.Own(RetrierRole(j))), steps)
      ensures PastSteps(steps, j, result) && RetrySaw(old(router.invocations), result)
      ensures result == InterruptedError ==> cancelledAt.Some? && slept == cancelledAt.value
      ensures result != InterruptedError && cancelledAt.Some? ==> slept <= cancelledAt.value
      ensures result == FeeBumpError ==> world.config.feeBump(row.envelope).None?
      ensures world.store.reliable ==> Called(result) || result in {InterruptedError, FeeBumpError}
      ensures Called(result) ==>
        && RetryReportedAt(old(world.m.calls), id, at)
        && world.config.feeBump(row.envelope) == Some(LastCall().envelope)
      ensures Waited(result, slept, Delay(row.retryCount, baseDelay, multiplier))
      ensures world.Calm() && Called(result) ==>
        && VerdictWritten(SetStatus(BumpRetry(old(world.m.txs), id), id, Submitting, None, ""), world.m.txs, id, result)
        && OneMoreCall(old(world.m.calls), world.m.calls, id, LastCall().envelope, result)
      ensures world.Calm() && !Called(result) ==> world.m.txs == old(world.m.txs)
    {
      at := 0;
      var interrupted;
      slept, interrupted := Wait(Delay(row.retryCount, baseDelay, multiplier), cancelledAt);
      if interrupted {
        GiveUp(j, id, row.envelope);
        return InterruptedError, slept, 0, [Action.Retry(j, Abandon)];
      }
      var bumped := world.config.feeBump(row.envelope);
      if bumped.None? {
        GiveUp(j, id, row.envelope);
        return FeeBumpError, slept, 0, [Action.Retry(j, Abandon)];
      }
      result, at, steps := SendBumped(j, id, row.envelope);
    }

    /** Waits for the delay or until the context is cancelled, whichever comes first; when both come at
        once either may be taken. */
    method Wait(delay: int, cancelledAt: Option<nat>) returns (slept: int, interrupted: bool)
      ensures if interrupted then WaitsPart(slept, delay) else Waits(slept, delay)
      ensures interrupted ==> cancelledAt.Some? && slept == cancelledAt.value
      ensures !interrupted && cancelledAt.Some? ==> slept <= cancelledAt.value
    {
      var duration := delay;
      if !IsDuration(delay) {
        var converted: int := *;      // a number out of range converts as the platform likes
        duration := if IsDuration(converted) then converted else 0;
      }
      slept := if duration < 0 then 0 else duration;
      interrupted := false;
      if cancelledAt.Some? && cancelledAt.value <= slept {
        interrupted := *;
        if cancelledAt.value < slept {
          interrupted := true;
        }
        slept := cancelledAt.value;
      }
    }

    /** From the fee bump to the end of the retry. */
    method SendBumped(ghost j: nat, id: TxId, envelope: Envelope)
      returns (result: RetryResult, ghost at: nat, ghost steps: seq<Action>)
      requires Valid() && RetrierAt(j, Gated(id, envelope)) && id in world.m.txs
      requires world.config.feeBump(envelope).Some?
      modifies world, world.store, router
      ensures Valid() && RetrierAt(j, Ready) && Grows(old(world.m), world.m)
      ensures world.Did(RetrierRole(j), old(world.run), old(world.Own(RetrierRole(j))), steps)
      ensures SendSteps(steps, j, result) && RetrySaw(old(router.invocations), result)
      ensures Called(result) ==>
        RetryReportedAt(old(world.m.calls), id, at) && LastCall().envelope == world.config.feeBump(envelope).value
      ensures world.store.reliable ==> Called(result)
      ensures world.Calm() ==>
        && VerdictWritten(SetStatus(BumpRetry(old(world.m.txs), id), id, Submitting, None, ""), world.m.txs, id, result)
        && OneMoreCall(old(world.m.calls), world.m.calls, id, world.config.feeBump(envelope).value, result)
    {
      at := 0;
      ghost var own := world.Own(RetrierRole(j));
      result, steps := CountAndMark(j, id, envelope);
      if result == Confirmation {
        ghost var more;
        result, at, more := Resubmission(j, id, world.config.feeBump(envelope).value);
        StepsJoin(own, steps, more);
        steps := steps + more;
      }
    }

    /** The three gates, on a row read outside any lock. */
    method PassGate(ghost j: nat, id: TxId) returns (result: RetryResult, row: TxRow, ghost steps: seq<Action>)
      requires Valid() && RetrierAt(j, Ready)
      modifies world, world.store
      ensures Valid() && Grows(old(world.m), world.m)
      ensures world.Did(RetrierRole(j), old(world.run), old(world.Own(RetrierRole(j))), steps)
      ensures result in {Confirmation, NotFetchedError, NotFailedError, MaxReachedError}
      ensures steps == if result == Confirmation then [Action.Retry(j, Gate(id))] else []
      ensures RetrierAt(j, if result == Confirmation then Gated(id, row.envelope) else Ready)
      ensures result == Confirmation ==> id in world.m.txs && row == world.m.txs[id]
      ensures result == Confirmation ==> Open(world.m.txs, id, world.config.maxRetries)
      ensures world.store.reliable ==> GateTells(world.m.txs, id, world.config.maxRetries, result)
      ensures world.Calm() ==> world.m.txs == old(world.m.txs) && world.m.calls == old(world.m.calls)
      ensures world.Calm() && result != Confirmation ==> world.m == old(world.m)
    {
      world.Yield(RetrierRole(j));
      steps := [];
      var found := world.store.GetTransactionForRetry(id);
      row := if found.Some? then found.value else NewRow("", 0);
      if found.None? {
        return NotFetchedError, row, steps;
      }
      if row.status != Failed {
        return NotFailedError, row, steps;
      }
      if row.retryCount >= world.config.maxRetries {
        return MaxReachedError, row, steps;
      }
      world.Do(RetrierRole(j), Action.Retry(j, Gate(id)));
      result, steps := Confirmation, [Action.Retry(j, Gate(id))];
    }

    method GiveUp(ghost j: nat, id: TxId, envelope: Envelope)
      requires Valid() && RetrierAt(j, Gated(id, envelope))
      modifies world, world.store
      ensures Valid() && RetrierAt(j, Ready) && Grows(old(world.m), world.m)
      ensures world.Did(RetrierRole(j), old(world.run), old(world.Own(RetrierRole(j))), [Action.Retry(j, Abandon)])
      ensures world.Calm() ==> world.m.txs == old(world.m.txs)
    {
      world.Yield(RetrierRole(j));
      world.Do(RetrierRole(j), Action.Retry(j, Abandon));
    }

    method CountOne(ghost j: nat, id: TxId, envelope: Envelope) returns (counted: bool, ghost reply: Reply)
      requires Valid() && RetrierAt(j, Gated(id, envelope)) && id in world.m.txs
      requires world.config.feeBump(envelope).Some?
      modifies world, world.store
      ensures Valid() && Grows(old(world.m), world.m) && (counted <==> reply == Done)
      ensures world.Did(RetrierRole(j), old(world.run), old(world.Own(RetrierRole(j))),
                        [Action.Retry(j, Increment(reply))])
      ensures RetrierAt(j, if counted then Counted(id, world.config.feeBump(envelope).value) else Ready)
      ensures world.Calm() ==>
        world.m.txs == BumpRetry(old(world.m.txs), id) && world.m.calls == old(world.m.calls)
    {
      world.Yield(RetrierRole(j));
      counted, reply := world.store.IncrementRetry(id);
      world.Do(RetrierRole(j), Action.Retry(j, Increment(reply)));
    }

    method MarkAgain(ghost j: nat, id: TxId, envelope: Envelope) returns (marked: bool, ghost reply: Reply)
      requires Valid() && RetrierAt(j, Counted(id, envelope)) && id in world.m.txs
      modifies world, world.store
      ensures Valid() && Grows(old(world.m), world.m) && (marked <==> reply == Done)
      ensures world.Did(RetrierRole(j), old(world.run), old(world.Own(RetrierRole(j))),
                        [Action.Retry(j, Remark(reply))])
      ensures RetrierAt(j, if marked then Remarked(id, envelope) else Ready)
      ensures world.Calm() ==>
        world.m.txs == SetStatus(old(world.m.txs), id, Submitting, None, "") && world.m.calls == old(world.m.calls)
    {
      world.Yield(RetrierRole(j));
      marked, reply := world.store.UpdateTransactionStatus(id, Submitting, None, "");
      world.Do(RetrierRole(j), Action.Retry(j, Remark(reply)));
    }

    /** The increment and the mark, each of which may end the retry. */
    method CountAndMark(ghost j: nat, id: TxId, envelope: Envelope)
      returns (result: RetryResult, ghost steps: seq<Action>)
      requires Valid() && RetrierAt(j, Gated(id, envelope)) && id in world.m.txs
      requires world.config.feeBump(envelope).Some?
      modifies world, world.store
      ensures Valid() && Grows(old(world.m), world.m) && result in {Confirmation, IncrementError, MarkError}
      ensures world.Did(RetrierRole(j), old(world.run), old(world.Own(RetrierRole(j))), steps)
      ensures CountSteps(steps, j, result) && (world.store.reliable ==> result == Confirmation)
      ensures RetrierAt(j, if result == Confirmation then Remarked(id, world.config.feeBump(envelope).value) else Ready)
      ensures world.Calm() ==>
        && world.m.calls == old(world.m.calls)
        && world.m.txs == SetStatus(BumpRetry(old(world.m.txs), id), id, Submitting, None, "")
    {
      ghost var own := world.Own(RetrierRole(j));
      var counted, marked;
      ghost var first, second;
      counted, first := CountOne(j, id, envelope);
      steps := [Action.Retry(j, Increment(first))];
      if !counted {
        return IncrementError, steps;
      }
      marked, second := MarkAgain(j, id, world.config.feeBump(envelope).value);
      StepsJoin(own, steps, [Action.Retry(j, Remark(second))]);
      steps := steps + [Action.Retry(j, Remark(second))];
      result := if marked then Confirmation else MarkError;
    }

    /** The router call of a retry; an error ends it with no status written. */
    method SubmitBump(ghost j: nat, id: TxId, envelope: Envelope)
      returns (result: RetryResult, ghost at: nat, ghost step: RetryStep)
      requires Valid() && RetrierAt(j, Remarked(id, envelope))
      modifies world, world.store, router
      ensures Valid() && Grows(old(world.m), world.m)
      ensures world.Did(RetrierRole(j), old(world.run), old(world.Own(RetrierRole(j))), [Action.Retry(j, step)])
      ensures step.Resubmit? && Called(result) && RetrySaw(old(router.invocations), result)
      ensures step.outcome == Accepted <==> result == Confirmation
      ensures step.outcome == Rejected <==> result == RejectedError
      ensures RetryReportedAt(old(world.m.calls), id, at) && LastCall().envelope == envelope
      ensures world.Calm() ==> OneMoreCall(old(world.m.calls), world.m.calls, id, envelope, result)
      ensures RetrierAt(j, if step.outcome.Errored? then Ready else Judged(id, step.outcome))
      ensures world.Calm() ==> world.m.txs == old(world.m.txs)
    {
      world.Yield(RetrierRole(j));
      var submission, attempts, schedule := router.SubmitTransaction(envelope);
      CallMayEnd(world.config, router, Invocation(envelope, submission, attempts));
      at := |world.m.calls|;
      step := Resubmit(Judge(submission), SendCount(attempts));
      world.Do(RetrierRole(j), Action.Retry(j, step));
      result := Verdict(submission);
    }

    method WriteVerdict(ghost j: nat, id: TxId, outcome: Outcome) returns (ghost reply: Reply)
      requires Valid() && RetrierAt(j, Judged(id, outcome)) && !outcome.Errored?
      modifies world, world.store
      ensures Valid() && RetrierAt(j, Ready) && Grows(old(world.m), world.m)
      ensures world.Did(RetrierRole(j), old(world.run), old(world.Own(RetrierRole(j))),
                        [Action.Retry(j, Conclude(reply))])
      ensures world.Calm() ==>
        world.m.txs == SetStatus(old(world.m.txs), id, TerminalStatus(outcome), None,
                                 if outcome == Accepted then "" else "fee bump operation rejected")
      ensures world.Calm() ==> world.m.calls == old(world.m.calls)
    {
      world.Yield(RetrierRole(j));
      var written;
      if outcome == Rejected {
        written, reply := world.store.UpdateTransactionStatus(id, Failed, None, "fee bump operation rejected");
      } else {
        written, reply := world.store.UpdateTransactionStatus(id, Confirmed, None, "");
      }
      world.Do(RetrierRole(j), Action.Retry(j, Conclude(reply)));
    }

    /** The status of a retry whose router call ended without an error; with an error there is none. */
    method Conclusion(ghost j: nat, id: TxId, ghost step: RetryStep, result: RetryResult)
      returns (ghost steps: seq<Action>)
      requires Valid() && Called(result) && step.Resubmit?
      requires step.outcome == Accepted <==> result == Confirmation
      requires step.outcome == Rejected <==> result == RejectedError
      requires RetrierAt(j, if step.outcome.Errored? then Ready else Judged(id, step.outcome))
      modifies world, world.store
      ensures Valid() && RetrierAt(j, Ready) && Grows(old(world.m), world.m)
      ensures world.Did(RetrierRole(j), old(world.run), old(world.Own(RetrierRole(j))), steps)
      ensures ResubmitSteps([Action.Retry(j, step)] + steps, j, result)
      ensures world.Calm() ==>
        world.m.calls == old(world.m.calls) && VerdictWritten(old(world.m.txs), world.m.txs, id, result)
    {
      steps := [];
      if result == Confirmation || result == RejectedError {
        ghost var reply := WriteVerdict(j, id, if result == Confirmation then Accepted else Rejected);
        steps := [Action.Retry(j, Conclude(reply))];
      }
    }

    /** The router call of a retry and the status it writes; an error writes none. */
    method Resubmission(ghost j: nat, id: TxId, envelope: Envelope)
      returns (result: RetryResult, ghost at: nat, ghost steps: seq<Action>)
      requires Valid() && RetrierAt(j, Remarked(id, envelope))
      modifies world, world.store, router
      ensures Valid() && RetrierAt(j, Ready) && Grows(old(world.m), world.m)
      ensures world.Did(RetrierRole(j), old(world.run), old(world.Own(RetrierRole(j))), steps)
      ensures ResubmitSteps(steps, j, result) && Called(result) && RetrySaw(old(router.invocations), result)
      ensures RetryReportedAt(old(world.m.calls), id, at) && LastCall().envelope == envelope
      ensures world.Calm() ==> OneMoreCall(old(world.m.calls), world.m.calls, id, envelope, result)
      ensures world.Calm() ==> VerdictWritten(old(world.m.txs), world.m.txs, id, result)
    {
      ghost var own := world.Own(RetrierRole(j));
      ghost var step;
      result, at, step := SubmitBump(j, id, envelope);
      ghost var more := Conclusion(j, id, step, result);
      StepsJoin(own, [Action.Retry(j, step)], more);
      steps := [Action.Retry(j, step)] + more;
    }
  }

  predicate OfRetrier(steps: seq<Action>, j: nat)
  {
    forall k :: 0 <= k < |steps| ==> steps[k].Retry? && steps[k].j == j
  }

  predicate CountSteps(steps: seq<Action>, j: nat, result: RetryResult)
  {
    && OfRetrier(steps, j) && |steps| == (if result == IncrementError then 1 else 2)
    && (if result == IncrementError then steps[0].retry.Increment? && steps[0].retry.reply != Done
        else
          && steps[0].retry == Increment(Done)
          && steps[1].retry.Remark? && (steps[1].retry.reply == Done <==> result == Confirmation))
  }

  predicate ResubmitSteps(steps: seq<Action>, j: nat, result: RetryResult)
  {
    && OfRetrier(steps, j) && |steps| == (if result in {Confirmation, RejectedError} then 2 else 1)
    && steps[0].retry.Resubmit?
    && (steps[0].retry.outcome == Accepted <==> result == Confirmation)
    && (steps[0].retry.outcome == Rejected <==> result == RejectedError)
    && (|steps| == 2 ==> steps[1].retry.Conclude?)
  }

  /** From the increment to the end of the retry. */
  predicate SendSteps(steps: seq<Action>, j: nat, result: RetryResult)
  {
    if Called(result)
    then |steps| > 2 && CountSteps(steps[..2], j, Confirmation) && ResubmitSteps(steps[2..], j, result)
    else result in {IncrementError, MarkError} && CountSteps(steps, j, result)
  }

  /** From the wait to the end of the retry. */
  predicate PastSteps(steps: seq<Action>, j: nat, result: RetryResult)
  {
    if result in {InterruptedError, FeeBumpError} then steps == [Action.Retry(j, Abandon)]
    else SendSteps(steps, j, result)
  }

  lemma RetryStepsJoin(steps: seq<Action>, more: seq<Action>, j: nat, id: TxId, result: RetryResult)
    requires steps == [Action.Retry(j, Gate(id))] && PastSteps(more, j, result)
    ensures RetrySteps(steps + more, j, id, result)
  {
    if Called(result) {
      assert forall k :: 0 <= k < 2 ==> more[k] == more[..2][k];
      assert forall k :: 2 <= k < |more| ==> more[k] == more[2..][k - 2];
    }
  }

  /** The sleep of a call that got past its gates. */
  predicate Waited(result: RetryResult, slept: int, delay: int)
  {
    if result == InterruptedError then WaitsPart(slept, delay) else Waits(slept, delay)
  }

  /** The row may be retried. */
  predicate Open(t: TxTable, id: TxId, max: nat)
  {
    id in t && t[id].status == Failed && t[id].retryCount < max
  }

  /** What a gate that ends a retry says of the row. */
  predicate GateTells(t: TxTable, id: TxId, max: nat, result: RetryResult)
  {
    && (result == NotFetchedError ==> id !in t)
    && (result == NotFailedError ==> id in t && t[id].status != Failed)
    && (result == MaxReachedError ==> id in t && t[id].status == Failed && t[id].retryCount >= max)
  }

  /** One tick: how its batch ended, the steps of its worker, and the run and the state it came to. */
  datatype Batch = Batch(end: BatchEnd, steps: seq<Action>, run: seq<Action>, after: State)

  /** The batch took its steps, and when it claimed nothing from a reliable store nothing was pending in
      the state that the run had come to. */
  ghost predicate BatchOk(c: Config, origin: State, run: seq<Action>, reliable: bool, batch: Batch, w: nat)
  {
    && BatchSteps(batch.steps, w, batch.end) && batch.run <= run && Run(c, origin, batch.run, batch.after)
    && (reliable ==> AllAcknowledged(batch.steps))
    && (batch.end.NotClaimed? && reliable ==> batch.steps == [] && PendingIds(batch.after.txs) == {})
  }

  function StepsOf(batches: seq<Batch>): seq<Action>
  {
    if batches == [] then [] else StepsOf(batches[..|batches| - 1]) + batches[|batches| - 1].steps
  }

  lemma StepsOfMore(batches: seq<Batch>, batch: Batch)
    ensures StepsOf(batches + [batch]) == StepsOf(batches) + batch.steps
  {
    assert (batches + [batch])[..|batches|] == batches;
  }

  /** The account is idle again, stamped, and otherwise nothing changed. */
  predicate Freed(t: AccountTable, u: AccountTable, key: AccountId)
    requires key in t
  {
    && u.Keys == t.Keys && u[key].status == Idle && u[key].lastUsed.Some? && u[key].sequence == t[key].sequence
    && forall b :: b in t && b != key ==> u[b] == t[b]
  }

  /** What an undisturbed batch on a reliable store does once it has its account. */
  ghost predicate DeliverEffect(s: State, u: State, tx: TxRecord, acct: AccountRecord, end: BatchEnd)
  {
    match end
    case Died(t, a, call) =>
      && u.txs == s.txs && u.accounts == SetSequence(s.accounts, a, acct.row.sequence + 1)
      && u.calls == s.calls + [Logged(t, call, false)]
    case Settled(t, a, call) =>
      && u.txs == SetStatus(s.txs, t, TerminalStatus(Judge(call.result)), Some(a), BatchError(Judge(call.result)))
      && u.calls == s.calls + [Logged(t, call, false)]
      && (a in s.accounts ==> Freed(SetSequence(s.accounts, a, acct.row.sequence + 1), u.accounts, a))
    case _ => false
  }

  lemma ProcessComposes(s: State, mid: State, u: State, tx: TxRecord, acct: AccountRecord, end: BatchEnd)
    requires LeastRecentlyUsed(s.accounts, acct.key) && acct.row == s.accounts[acct.key]
    requires mid.accounts == SetLeased(s.accounts, acct.key) && mid.txs == s.txs && mid.calls == s.calls
    requires (end.Died? || end.Settled?) && end.tx == tx.id && end.account == acct.key
    requires end.call.envelope == tx.row.envelope
    requires DeliverEffect(mid, u, tx, acct, end)
    ensures ProcessEffect(s, u, tx, end)
  {
  }

  /** What an undisturbed batch on a reliable store does once its row is marked. */
  ghost predicate ProcessEffect(s: State, u: State, tx: TxRecord, end: BatchEnd)
  {
    match end
    case NotClaimed => false
    case Unleased(t) =>
      && t == tx.id && IdleIds(s.accounts) == {} && u.accounts == s.accounts && u.calls == s.calls
      && u.txs == SetStatus(s.txs, t, Failed, None, "no channel account")
    case Died(t, a, call) =>
      && t == tx.id && call.envelope == tx.row.envelope && LeastRecentlyUsed(s.accounts, a)
      && u.txs == s.txs && u.calls == s.calls + [Logged(t, call, false)]
      && u.accounts == SetLeased(SetSequence(s.accounts, a, s.accounts[a].sequence + 1), a)
    case Settled(t, a, call) =>
      && t == tx.id && call.envelope == tx.row.envelope && LeastRecentlyUsed(s.accounts, a)
      && u.txs == SetStatus(s.txs, t, TerminalStatus(Judge(call.result)), Some(a), BatchError(Judge(call.result)))
      && u.calls == s.calls + [Logged(t, call, false)]
      && Freed(SetSequence(s.accounts, a, s.accounts[a].sequence + 1), u.accounts, a)
  }

  lemma BatchComposes(s: State, mid: State, u: State, tx: TxRecord, end: BatchEnd)
    requires OldestPending(s.txs, tx.id) && tx.row == s.txs[tx.id]
    requires mid.txs == SetStatus(s.txs, tx.id, Submitting, None, "")
    requires mid.accounts == s.accounts && mid.calls == s.calls && ProcessEffect(mid, u, tx, end)
    ensures BatchEffect(s, u, end)
  {
  }

  /** What an undisturbed batch on a reliable store does to the tables. */
  ghost predicate BatchEffect(s: State, u: State, end: BatchEnd)
  {
    match end
    case NotClaimed => u == s && PendingIds(s.txs) == {}
    case Unleased(t) =>
      && OldestPending(s.txs, t) && IdleIds(s.accounts) == {}
      && SettledRow(s.txs, u.txs, t, Failed, None, "no channel account")
      && u.accounts == s.accounts && u.calls == s.calls
    case Died(t, a, call) =>
      && OldestPending(s.txs, t) && LeastRecentlyUsed(s.accounts, a) && call.envelope == s.txs[t].envelope
      && SettledRow(s.txs, u.txs, t, Submitting, None, "") && u.calls == s.calls + [Logged(t, call, false)]
      && u.accounts == s.accounts[a := AccountRow(Leased, s.accounts[a].sequence + 1, s.accounts[a].lastUsed)]
    case Settled(t, a, call) =>
      && OldestPending(s.txs, t) && LeastRecentlyUsed(s.accounts, a) && call.envelope == s.txs[t].envelope
      && SettledRow(s.txs, u.txs, t, TerminalStatus(Judge(call.result)), Some(a), BatchError(Judge(call.result)))
      && u.calls == s.calls + [Logged(t, call, false)]
      && u.accounts.Keys == s.accounts.Keys
      && u.accounts[a].status == Idle && u.accounts[a].sequence == s.accounts[a].sequence + 1
      && u.accounts[a].lastUsed.Some?
      && forall b :: b in s.accounts && b != a ==> u.accounts[b] == s.accounts[b]
  }

  ghost predicate RetryEffectOn(c: Config, s: State, u: State, id: TxId, result: RetryResult)
  {
    if id !in s.txs then result == NotFetchedError && u == s
    else if s.txs[id].status != Failed then result == NotFailedError && u == s
    else if s.txs[id].retryCount >= c.maxRetries then result == MaxReachedError && u == s
    else
      match result
      case InterruptedError => u.txs == s.txs
      case FeeBumpError => u.txs == s.txs && c.feeBump(s.txs[id].envelope).None?
      case Confirmation | RejectedError | SubmitError | PanicError =>
        && c.feeBump(s.txs[id].envelope).Some?
        && Bumped(s, u, id,
             if result == Confirmation then Confirmed else if result == RejectedError then Failed else Submitting,
             if result == RejectedError then "fee bump operation rejected" else "")
        && OneMoreCall(s.calls, u.calls, id, c.feeBump(s.txs[id].envelope).value, result)
      case _ => false
  }

  /** How a retry reports what the router returns. */
  function Verdict(submission: Submission): (result: RetryResult)
    ensures result == Confirmation <==> submission == Success(false)
    ensures result == RejectedError <==> submission == Success(true)
  {
    match submission
    case Panic => PanicError
    case Success(rejected) => if rejected then RejectedError else Confirmation
    case _ => SubmitError
  }

  /** The retry got as far as the router. */
  predicate Called(result: RetryResult)
  {
    result in {Confirmation, RejectedError, SubmitError, PanicError}
  }

  /** One router call was added, for the fee bump, with the outcome that the result reports. */
  predicate OneMoreCall(calls: seq<Call>, more: seq<Call>, id: TxId, bump: Envelope, result: RetryResult)
  {
    && |more| == |calls| + 1 && calls <= more
    && var call := more[|calls|];
      && call.tx == id && call.envelope == bump && call.retry
      && (call.outcome == Accepted <==> result == Confirmation)
      && (call.outcome == Rejected <==> result == RejectedError)
  }

  /** What the router did fits what the machine allows a router call. */
  lemma CallMayEnd(c: Config, router: Router, call: Invocation)
    requires router.route == c.route && router.horizons == c.horizons && router.sorobans == c.sorobans
    requires router.Explains(call)
    ensures MayEnd(c, call.envelope, Judge(call.result), SendCount(call.attempts))
  {
  }

  /** The status that a retry writes once it has reached the router, if it writes one. */
  predicate VerdictWritten(t: TxTable, u: TxTable, id: TxId, result: RetryResult)
  {
    match result
    case Confirmation => u == SetStatus(t, id, Confirmed, None, "")
    case RejectedError => u == SetStatus(t, id, Failed, None, "fee bump operation rejected")
    case _ => u == t
  }

  lemma RetryComposes(c: Config, s: State, mid: State, u: State, id: TxId, result: RetryResult)
    requires id in s.txs && s.txs[id].status == Failed && s.txs[id].retryCount < c.maxRetries
    requires mid.txs == s.txs && mid.calls == s.calls
    requires Called(result) || result in {InterruptedError, FeeBumpError}
    requires result == FeeBumpError ==> c.feeBump(s.txs[id].envelope).None?
    requires !Called(result) ==> u.txs == mid.txs
    requires Called(result) ==>
      && c.feeBump(s.txs[id].envelope).Some?
      && VerdictWritten(SetStatus(BumpRetry(mid.txs, id), id, Submitting, None, ""), u.txs, id, result)
      && OneMoreCall(mid.calls, u.calls, id, c.feeBump(s.txs[id].envelope).value, result)
    ensures RetryEffectOn(c, s, u, id, result)
  {
  }

  lemma EffectFrom(c: Config, s: State, mid: State, u: State, id: TxId, result: RetryResult)
    requires Open(s.txs, id, c.maxRetries) && mid.txs == s.txs && mid.calls == s.calls
    requires RetryEffectOn(c, mid, u, id, result)
    ensures RetryEffectOn(c, s, u, id, result)
  {
  }

  /** One row has one more retry, a new status and no channel account; all others are as they were. */
  ghost predicate Bumped(s: State, u: State, id: TxId, status: TxStatus, lastError: string)
  {
    && id in s.txs
    && u.txs == s.txs[id :=
         TxRow(s.txs[id].envelope, status, None, s.txs[id].retryCount + 1, lastError, s.txs[id].createdAt)]
  }

  /** A retry sleeps the delay of the attempt it read, or part of it when it is interrupted, unless a
      gate stops it. */
  predicate MaySleep(t: TxTable, id: TxId, result: RetryResult, baseDelay: int, multiplier: real, slept: int)
  {
    if id !in t || result in {NotFetchedError, NotFailedError, MaxReachedError} then slept == 0
    else
      Waited(result, slept, Delay(t[id].retryCount, baseDelay, multiplier))
  }

  /** After `ticks` ticks that many rows have left `pending` for a terminal status, oldest first. */
  ghost predicate Drained(t: TxTable, u: TxTable, ticks: nat)
  {
    && PendingIds(u) <= PendingIds(t) && u.Keys == t.Keys
    && |PendingIds(u)| == (if ticks < |PendingIds(t)| then |PendingIds(t)| - ticks else 0)
    && (forall id :: id in u ==> RowDrained(t[id], u[id]))
    && OldestGone(t, u)
  }

  /** Pending and settled rows are as they were; a row that left `pending` is settled. */
  predicate RowDrained(row: TxRow, now: TxRow)
  {
    if row.status == Pending && now.status != Pending then now.status in {Failed, Confirmed} else now == row
  }

  ghost predicate OldestGone(t: TxTable, u: TxTable)
  {
    forall gone, left :: IsPending(t, gone) && !IsPending(u, gone) && IsPending(u, left) && left in t ==>
      t[gone].createdAt <= t[left].createdAt
  }

  /** After `tick` calls there is room for one more, when there was room for `ticks` at the start. */
  lemma RoomForTick(router: Router, h: int, s: int, tick: nat, ticks: nat)
    requires tick < ticks && router.alone && router.Advanced(h, s, tick) && 0 <= h && 0 <= s
    requires h <= MAX_INT64 - ticks * router.horizons && s <= MAX_INT64 - ticks * router.sorobans
    ensures router.Room(1)
    ensures router.Advanced(h, s, tick) && (tick + 1) * router.horizons == tick * router.horizons + router.horizons
    ensures (tick + 1) * router.sorobans == tick * router.sorobans + router.sorobans
  {
    OneMore(tick, router.horizons);
    OneMore(tick, router.sorobans);
    TimesMonotone(tick + 1, ticks, router.horizons);
    TimesMonotone(tick + 1, ticks, router.sorobans);
  }

  /** The row `id` was an oldest pending one and is settled, or nothing was pending. */
  ghost predicate TookOne(s: TxTable, u: TxTable, id: TxId)
  {
    if PendingIds(s) == {} then u == s
    else
      && OldestPending(s, id) && u.Keys == s.Keys && u[id].status in {Failed, Confirmed}
      && forall other :: other in s && other != id ==> u[other] == s[other]
  }

  lemma BatchTakes(s: State, u: State, end: BatchEnd) returns (id: TxId)
    requires BatchEffect(s, u, end) && !end.Died?
    ensures TookOne(s.txs, u.txs, id)
  {
    id := if end.NotClaimed? then 0 else end.tx;
    if !end.NotClaimed? {
      assert end.tx in PendingIds(s.txs);
    }
  }

  lemma OldestGoes(t: TxTable, s: TxTable, u: TxTable, id: TxId)
    requires OldestGone(t, s) && OldestPending(s, id) && s.Keys == u.Keys == t.Keys
    requires forall other :: other in s && other != id ==> u[other] == s[other]
    requires forall other :: other in s ==> RowDrained(t[other], s[other])
    requires !IsPending(u, id)
    ensures OldestGone(t, u)
  {
    forall gone, left | IsPending(t, gone) && !IsPending(u, gone) && IsPending(u, left) && left in t
      ensures t[gone].createdAt <= t[left].createdAt
    {
      assert IsPending(s, left) && s[left] == t[left] && s[id] == t[id];
    }
  }

  lemma DrainStep(t: TxTable, s: TxTable, u: TxTable, ticks: nat, id: TxId)
    requires Drained(t, s, ticks) && TookOne(s, u, id) && PendingIds(s) != {}
    ensures Drained(t, u, ticks + 1)
  {
    assert PendingIds(u) == PendingIds(s) - {id};
    assert id in PendingIds(s);
    OldestGoes(t, s, u, id);
  }

  lemma DrainOne(t: TxTable, s: State, u: State, ticks: nat, end: BatchEnd)
    requires Drained(t, s.txs, ticks) && BatchEffect(s, u, end) && !end.Died?
    ensures Drained(t, u.txs, ticks + 1)
  {
    var id := BatchTakes(s, u, end);
    if PendingIds(s.txs) != {} {
      DrainStep(t, s.txs, u.txs, ticks, id);
    }
  }
}
