/** The table as a queue. Reading the oldest pending row and marking it are two steps, and workers
    race between them; the rows still leave `pending` in the order they were enqueued. */
module Queue {
  import opened Base
  import opened Tables
  import opened Protocol
  import opened Effects
  import opened Submissions

  /** Every row is created strictly later than the rows before it. */
  ghost predicate InsertsTick(s: State, x: Action)
  {
    x.Enqueue? ==> NewerThanAll(s.txs, x.at)
  }

  ghost predicate NewerThanAll(t: TxTable, at: int)
  {
    forall id :: id in t ==> t[id].createdAt < at
  }

  ghost predicate NoneTouched(s: State)
  {
    forall t :: UntouchedUntilBegun(s, t)
  }

  /** The rows in the order they were enqueued. */
  ghost predicate Ordered(s: State)
  {
    && Distinct(s.enqueued)
    && (forall t :: t in s.txs <==> t in s.enqueued)
    && (forall j, k | 0 <= j < k < |s.enqueued| :: s.txs[s.enqueued[j]].createdAt < s.txs[s.enqueued[k]].createdAt)
  }

  /** What was claimed is what is no longer pending, a prefix of what was enqueued. */
  ghost predicate ClaimedFirst(s: State)
  {
    && s.claimed <= s.enqueued
    && (forall k | 0 <= k < |s.enqueued| :: IsPending(s.txs, s.enqueued[k]) <==> |s.claimed| <= k)
  }

  /** A row that a worker read and that is still pending is at the head of the queue. */
  ghost predicate ReadersAtHead(s: State)
  {
    forall i | 0 <= i < |s.workers| :: s.workers[i].Fetched? && IsPending(s.txs, s.workers[i].tx) ==>
      |s.claimed| < |s.enqueued| && s.workers[i].tx == s.enqueued[|s.claimed|]
  }

  ghost predicate Fifo(s: State)
  {
    NoneTouched(s) && Ordered(s) && ClaimedFirst(s) && ReadersAtHead(s)
  }

  lemma StepNoneTouched(c: Config, s: State, x: Action)
    requires Enabled(c, s, x) && NoneTouched(s)
    ensures NoneTouched(Apply(c, s, x))
  {
    forall t ensures UntouchedUntilBegun(Apply(c, s, x), t) {
      StepUntouched(c, s, x, t);
    }
  }

  /** The pending row that the query may return is the head of the queue. */
  lemma OldestIsHead(s: State, t: TxId)
    requires Ordered(s) && ClaimedFirst(s) && OldestPending(s.txs, t)
    ensures |s.claimed| < |s.enqueued| && t == s.enqueued[|s.claimed|]
  {
    var k :| 0 <= k < |s.enqueued| && s.enqueued[k] == t;
    assert IsPending(s.txs, s.enqueued[|s.claimed|]);
  }

  /** Steps that keep the set of pending rows. */
  lemma FifoFrame(s: State, u: State)
    requires Ordered(s) && ClaimedFirst(s)
    requires u.enqueued == s.enqueued && u.claimed == s.claimed && u.txs.Keys == s.txs.Keys
    requires forall t :: t in s.txs ==> SameOrigin(s.txs[t], u.txs[t]) && (IsPending(u.txs, t) <==> IsPending(s.txs, t))
    ensures Ordered(u) && ClaimedFirst(u)
  {
  }

  /** The mark that takes the head of the queue out of `pending`. */
  lemma ClaimHead(s: State, u: State, t: TxId)
    requires Ordered(s) && ClaimedFirst(s) && |s.claimed| < |s.enqueued| && t == s.enqueued[|s.claimed|]
    requires u.enqueued == s.enqueued && u.claimed == s.claimed + [t]
    requires t in s.txs && u.txs == SetStatus(s.txs, t, Submitting, None, "")
    ensures Ordered(u) && ClaimedFirst(u)
  {
  }

  /** Readers of rows that are still pending stay at the head. */
  lemma ReadersFrame(s: State, u: State, i: nat, w: Worker)
    requires ReadersAtHead(s) && ClaimedFirst(s) && ClaimedFirst(u)
    requires i < |s.workers| && u.workers == s.workers[i := w]
    requires s.enqueued == u.enqueued && s.claimed <= u.claimed
    requires forall t :: IsPending(u.txs, t) ==> IsPending(s.txs, t)
    requires w.Fetched? ==> |u.claimed| < |u.enqueued| && w.tx == u.enqueued[|u.claimed|]
    ensures ReadersAtHead(u)
  {
    assert forall j | 0 <= j < |s.workers| && j != i :: u.workers[j] == s.workers[j];
  }

  ghost predicate Claims(s: State, w: Worker, x: WorkerStep)
  {
    w.Fetched? && x.Mark? && x.reply != Refused && IsPending(s.txs, w.tx)
  }

  /** The step either claims the row that was read or leaves the pending rows as they are. */
  ghost predicate ClaimsOrKeeps(s: State, u: State, w: Worker, x: WorkerStep)
  {
    && u.enqueued == s.enqueued && u.txs.Keys == s.txs.Keys
    && (if Claims(s, w, x)
        then u.claimed == s.claimed + [w.tx] && u.txs == SetStatus(s.txs, w.tx, Submitting, None, "")
        else u.claimed == s.claimed && forall t :: t in s.txs ==>
               SameOrigin(s.txs[t], u.txs[t]) && (IsPending(u.txs, t) <==> IsPending(s.txs, t)))
  }

  lemma MarkClaims(c: Config, s: State, i: nat, x: WorkerStep)
    requires Enabled(c, s, Work(i, x)) && Claims(s, s.workers[i], x)
    ensures ClaimsOrKeeps(s, Apply(c, s, Work(i, x)), s.workers[i], x)
  {
  }

  lemma OtherKeeps(c: Config, s: State, i: nat, x: WorkerStep)
    requires Enabled(c, s, Work(i, x)) && !Claims(s, s.workers[i], x)
    requires !s.workers[i].Waiting? ==> UntouchedUntilBegun(s, s.workers[i].tx)
    ensures ClaimsOrKeeps(s, Apply(c, s, Work(i, x)), s.workers[i], x)
  {
  }

  lemma WorkClaims(c: Config, s: State, i: nat, x: WorkerStep)
    requires Enabled(c, s, Work(i, x))
    requires !s.workers[i].Waiting? ==> UntouchedUntilBegun(s, s.workers[i].tx)
    ensures ClaimsOrKeeps(s, Apply(c, s, Work(i, x)), s.workers[i], x)
  {
    if Claims(s, s.workers[i], x) {
      MarkClaims(c, s, i, x);
    } else {
      OtherKeeps(c, s, i, x);
    }
  }

  lemma WorkFifo(c: Config, s: State, i: nat, x: WorkerStep)
    requires Enabled(c, s, Work(i, x)) && Ordered(s) && ClaimedFirst(s) && ReadersAtHead(s)
    requires !s.workers[i].Waiting? ==> UntouchedUntilBegun(s, s.workers[i].tx)
    ensures var u := Apply(c, s, Work(i, x)); Ordered(u) && ClaimedFirst(u) && ReadersAtHead(u)
  {
    var w := s.workers[i];
    var w' := WorkerAfter(c, s, w, x);
    var u := Apply(c, s, Work(i, x));
    WorkClaims(c, s, i, x);
    if x.Fetch? {
      OldestIsHead(s, x.id);
    }
    assert w'.Fetched? ==> x.Fetch? && w'.tx == x.id;
    WorkFifoNext(s, u, i, w, w', x);
  }

  lemma WorkFifoNext(s: State, u: State, i: nat, w: Worker, w': Worker, x: WorkerStep)
    requires Ordered(s) && ClaimedFirst(s) && ReadersAtHead(s)
    requires i < |s.workers| && s.workers[i] == w && u.workers == s.workers[i := w']
    requires w'.Fetched? ==> x.Fetch? && |s.claimed| < |s.enqueued| && w'.tx == s.enqueued[|s.claimed|]
    requires ClaimsOrKeeps(s, u, w, x)
    ensures Ordered(u) && ClaimedFirst(u) && ReadersAtHead(u)
  {
    if Claims(s, w, x) {
      ClaimHead(s, u, w.tx);
    } else {
      FifoFrame(s, u);
    }
    ReadersFrame(s, u, i, w');
  }

  /** No pending row changes and nothing is claimed or enqueued. */
  ghost predicate KeepsPending(s: State, u: State)
  {
    && u.enqueued == s.enqueued && u.claimed == s.claimed && u.txs.Keys == s.txs.Keys
    && forall t :: t in s.txs ==> SameOrigin(s.txs[t], u.txs[t]) && (IsPending(u.txs, t) <==> IsPending(s.txs, t))
  }

  lemma RetryKeepsPending(c: Config, s: State, j: nat, x: RetryStep)
    requires Enabled(c, s, Retry(j, x))
    requires !s.retriers[j].Ready? ==> UntouchedUntilBegun(s, s.retriers[j].tx)
    ensures KeepsPending(s, Apply(c, s, Retry(j, x))) && Apply(c, s, Retry(j, x)).workers == s.workers
  {
  }

  lemma KeptFifo(s: State, u: State)
    requires Ordered(s) && ClaimedFirst(s) && ReadersAtHead(s) && KeepsPending(s, u) && u.workers == s.workers
    ensures Ordered(u) && ClaimedFirst(u) && ReadersAtHead(u)
  {
    FifoFrame(s, u);
  }

  lemma RetryFifo(c: Config, s: State, j: nat, x: RetryStep)
    requires Enabled(c, s, Retry(j, x)) && Ordered(s) && ClaimedFirst(s) && ReadersAtHead(s)
    requires !s.retriers[j].Ready? ==> UntouchedUntilBegun(s, s.retriers[j].tx)
    ensures var u := Apply(c, s, Retry(j, x)); Ordered(u) && ClaimedFirst(u) && ReadersAtHead(u)
  {
    RetryKeepsPending(c, s, j, x);
    KeptFifo(s, Apply(c, s, Retry(j, x)));
  }

  lemma EnqueueOrdered(s: State, u: State, id: TxId, envelope: Envelope, at: int)
    requires Ordered(s) && id !in s.txs && NewerThanAll(s.txs, at)
    requires u.txs == s.txs[id := NewRow(envelope, at)] && u.enqueued == s.enqueued + [id]
    ensures Ordered(u)
  {
    assert forall k | 0 <= k < |s.enqueued| :: s.enqueued[k] in s.txs && u.enqueued[k] == s.enqueued[k];
    assert forall t :: t in u.enqueued <==> t in s.enqueued || t == id;
  }

  /** A new row joins the queue at its tail. */
  lemma EnqueueFifo(s: State, u: State, id: TxId, envelope: Envelope, at: int)
    requires Ordered(s) && ClaimedFirst(s) && id !in s.txs && NewerThanAll(s.txs, at)
    requires u.txs == s.txs[id := NewRow(envelope, at)] && u.enqueued == s.enqueued + [id]
    requires u.claimed == s.claimed
    ensures Ordered(u) && ClaimedFirst(u)
  {
    EnqueueOrdered(s, u, id, envelope, at);
    assert forall k | 0 <= k < |s.enqueued| :: s.enqueued[k] in s.txs && u.enqueued[k] == s.enqueued[k];
  }

  lemma EnqueueReaders(c: Config, s: State, x: Action)
    requires Enabled(c, s, x) && x.Enqueue? && UntouchedUntilBegun(s, x.id) && ReadersAtHead(s)
    ensures ReadersAtHead(Apply(c, s, x))
  {
  }

  lemma OtherFifo(c: Config, s: State, x: Action)
    requires Enabled(c, s, x) && (x.Sync? || x.AddAccount?) && Ordered(s) && ClaimedFirst(s) && ReadersAtHead(s)
    ensures var u := Apply(c, s, x); Ordered(u) && ClaimedFirst(u) && ReadersAtHead(u)
  {
    var u := Apply(c, s, x);
    assert u.txs == s.txs && u.enqueued == s.enqueued && u.claimed == s.claimed;
    KeptFifo(s, u);
  }

  lemma StepFifo(c: Config, s: State, x: Action)
    requires Enabled(c, s, x) && InsertsTick(s, x) && Fifo(s)
    ensures Fifo(Apply(c, s, x))
  {
    StepNoneTouched(c, s, x);
    match x
    case Work(i, work) => WorkFifo(c, s, i, work);
    case Retry(j, retry) => RetryFifo(c, s, j, retry);
    case Enqueue(id, envelope, at) =>
      EnqueueFifo(s, Apply(c, s, x), id, envelope, at);
      EnqueueReaders(c, s, x);
    case _ => OtherFifo(c, s, x);
  }

  lemma {:induction false} RunFifo(c: Config, s: State, acts: seq<Action>, u: State)
    requires Run(c, s, acts, u) && Always(c, s, acts, InsertsTick) && Fifo(s)
    ensures Fifo(u)
    decreases |acts|
  {
    if acts == [] {
    } else {
      StepFifo(c, s, acts[0]);
      RunFifo(c, Apply(c, s, acts[0]), acts[1..], u);
    }
  }

  /** With any number of workers, in every interleaving, the log of claimed rows followed by the
      rows still pending is the log of enqueued rows: the table is a first-in first-out queue. */
  lemma TableIsQueue(c: Config, s: State, acts: seq<Action>, u: State)
    requires Initial(s) && Run(c, s, acts, u) && Always(c, s, acts, InsertsTick)
    ensures s.claimed <= u.claimed <= u.enqueued
    ensures forall k | 0 <= k < |u.enqueued| :: IsPending(u.txs, u.enqueued[k]) <==> |u.claimed| <= k
    ensures Distinct(u.enqueued) && forall t :: t in u.txs <==> t in u.enqueued
    ensures forall t :: OldestPending(u.txs, t) <==> |u.claimed| < |u.enqueued| && t == u.enqueued[|u.claimed|]
  {
    RunFifo(c, s, acts, u);
    forall t
      ensures OldestPending(u.txs, t) <==> |u.claimed| < |u.enqueued| && t == u.enqueued[|u.claimed|]
    {
      if OldestPending(u.txs, t) {
        OldestIsHead(u, t);
      } else if |u.claimed| < |u.enqueued| && t == u.enqueued[|u.claimed|] {
        HeadIsOldest(u);
      }
    }
  }

  lemma HeadIsOldest(s: State)
    requires Ordered(s) && ClaimedFirst(s) && |s.claimed| < |s.enqueued|
    ensures OldestPending(s.txs, s.enqueued[|s.claimed|])
  {
    var head := s.enqueued[|s.claimed|];
    forall other | IsPending(s.txs, other)
      ensures s.txs[head].createdAt <= s.txs[other].createdAt
    {
      var k :| 0 <= k < |s.enqueued| && s.enqueued[k] == other;
    }
  }
}
