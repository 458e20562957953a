/** The service as a state machine over the two shared tables. Any number of workers run
    `processBatch`, any number of retriers run `Retry` and any number of syncers run
    `SyncSequenceNumbers`. Each store or router call is one atomic step, a process may stop at any
    program counter, and steps of different processes interleave freely. */
module Protocol {
  import opened Base
  import opened Tables

  /** What becomes of one store call. `Lost` took effect although its caller was told it failed. */
  datatype Reply = Done | Refused | Lost

  datatype Backend = Horizon | Soroban

  /** What one call of the router returns: no error, an operation-level rejection, or an error. */
  datatype Outcome = Accepted | Rejected | Errored(message: string)

  /** Envelope parsing and fee bumping happen inside an SDK, so any functions may stand for them. */
  datatype Config = Config(
    route: Envelope -> Backend,
    feeBump: Envelope -> Option<Envelope>,
    maxRetries: nat,
    horizons: nat,                    // endpoints of each backend
    sorobans: nat)

  // ----- processes: one constructor per program counter, carrying the live local variables -----

  datatype Worker =
    | Waiting
    | Fetched(tx: TxId, envelope: Envelope)
    | Marked(tx: TxId, envelope: Envelope)
    | NoAccount(tx: TxId)
    | Holding(tx: TxId, envelope: Envelope, account: AccountId, sequence: int)
    | Sequenced(tx: TxId, envelope: Envelope, account: AccountId)
    | Answered(tx: TxId, account: AccountId, outcome: Outcome)
    | Stamped(tx: TxId, account: AccountId, outcome: Outcome, at: int)
    | Released(tx: TxId, account: AccountId, outcome: Outcome)

  datatype Retrier =
    | Ready
    | Gated(tx: TxId, envelope: Envelope)
    | Counted(tx: TxId, envelope: Envelope)
    | Remarked(tx: TxId, envelope: Envelope)
    | Judged(tx: TxId, outcome: Outcome)

  datatype Syncer =
    | Resting
    | Scanning(left: map<AccountId, int>, since: nat, wrote: nat)
    | Comparing(account: AccountId, network: int, listed: int, left: map<AccountId, int>, since: nat, wrote: nat)

  // ----- history -----

  /** One call of the router and how many submissions to endpoints it made. */
  datatype Call = Call(tx: TxId, envelope: Envelope, outcome: Outcome, sends: nat, retry: bool)

  /** A sequence write that took effect: by a worker, or by a syncer that moved the number. */
  datatype Write = ByWorker(account: AccountId) | BySyncer(account: AccountId, moved: int)

  /** A lease granted to a worker, the number computed for it, and how many sequence writes
      had taken effect by then. */
  datatype Grant = Grant(account: AccountId, number: int, writes: nat)

  datatype State = State(
    txs: TxTable,
    accounts: AccountTable,
    workers: seq<Worker>,
    retriers: seq<Retrier>,
    syncers: seq<Syncer>,
    calls: seq<Call>,                 // every router call
    picks: seq<AccountId>,            // every lease that committed
    grants: seq<Grant>,               // every lease whose worker was told about it
    writes: seq<Write>,               // every sequence write that took effect
    idleSince: map<AccountId, nat>,   // number of picks when an account last became idle
    leaked: set<AccountId>,           // leased, but no worker is left to release it
    orphans: set<TxId>,               // left by a retry whose router call errored, and not settled since
    enqueued: seq<TxId>,
    claimed: seq<TxId>)               // in the order the rows left `pending`

  // ----- steps -----

  datatype WorkerStep =
    | Fetch(id: TxId)
    | Mark(reply: Reply)
    | Lease(account: AccountId, reply: Reply)
    | NoneIdle
    | LeaseFails
    | FailUnleased(reply: Reply)
    | WriteSequence(reply: Reply)
    | Submit(outcome: Outcome, sends: nat)
    | Stamp(at: int)
    | Release(reply: Reply)
    | Finish(reply: Reply)
    | Crash

  datatype RetryStep =
    | Gate(id: TxId)
    | Abandon
    | Increment(reply: Reply)
    | Remark(reply: Reply)
    | Resubmit(outcome: Outcome, sends: nat)
    | Conclude(reply: Reply)
    | Quit

  datatype SyncStep =
    | List
    | Skip(account: AccountId)
    | Query(account: AccountId, network: int)
    | Overwrite(reply: Reply)
    | Stop

  datatype Action =
    | Work(i: nat, work: WorkerStep)
    | Retry(j: nat, retry: RetryStep)
    | Sync(k: nat, sync: SyncStep)
    | Enqueue(id: TxId, envelope: Envelope, at: int)
    | AddAccount(key: AccountId)

  /** How many endpoints the envelope's backend has. */
  function Endpoints(c: Config, envelope: Envelope): nat
  {
    match c.route(envelope)
    case Horizon => c.horizons
    case Soroban => c.sorobans
  }

  /** Only a Horizon endpoint can make the router return without an error. */
  predicate Reaches(c: Config, envelope: Envelope)
  {
    c.route(envelope) == Horizon && c.horizons > 0
  }

  /** A router call submits to each endpoint of its backend at most once per try, and ends in an
      error unless a Horizon endpoint answered. */
  predicate MayEnd(c: Config, envelope: Envelope, outcome: Outcome, sends: nat)
  {
    sends <= Endpoints(c, envelope) && (!outcome.Errored? ==> c.route(envelope) == Horizon && sends > 0)
  }

  ghost predicate WorkerCan(c: Config, s: State, w: Worker, x: WorkerStep)
  {
    match x
    case Fetch(id) => w.Waiting? && OldestPending(s.txs, id)
    case Mark(_) => w.Fetched?
    case Lease(account, reply) => w.Marked? && LeastRecentlyUsed(s.accounts, account) && reply != Refused
    case NoneIdle => w.Marked? && IdleIds(s.accounts) == {}
    case LeaseFails => w.Marked?
    case FailUnleased(_) => w.NoAccount?
    case WriteSequence(_) => w.Holding?
    case Submit(outcome, sends) => w.Sequenced? && MayEnd(c, w.envelope, outcome, sends)
    case Stamp(_) => w.Answered?
    case Release(_) => w.Stamped?
    case Finish(_) => w.Released?
    case Crash => !w.Waiting?
  }

  ghost predicate RetrierCan(c: Config, s: State, r: Retrier, x: RetryStep)
  {
    match x
    case Gate(id) =>
      r.Ready? && id in s.txs && s.txs[id].status == Failed && s.txs[id].retryCount < c.maxRetries
    case Abandon => r.Gated?
    case Increment(_) => r.Gated? && c.feeBump(r.envelope).Some?
    case Remark(_) => r.Counted?
    case Resubmit(outcome, sends) => r.Remarked? && MayEnd(c, r.envelope, outcome, sends)
    case Conclude(_) => r.Judged?
    case Quit => !r.Ready?
  }

  ghost predicate SyncerCan(s: State, y: Syncer, x: SyncStep)
  {
    match x
    case List => y.Resting?
    case Skip(account) => y.Scanning? && account in y.left
    case Query(account, network) => y.Scanning? && account in y.left && network > y.left[account]
    case Overwrite(_) => y.Comparing?
    case Stop => !y.Resting?
  }

  ghost predicate Enabled(c: Config, s: State, a: Action)
  {
    match a
    case Work(i, x) => i < |s.workers| && WorkerCan(c, s, s.workers[i], x)
    case Retry(j, x) => j < |s.retriers| && RetrierCan(c, s, s.retriers[j], x)
    case Sync(k, x) => k < |s.syncers| && SyncerCan(s, s.syncers[k], x)
    case Enqueue(id, _, _) => id !in s.txs
    case AddAccount(key) => key !in s.accounts
  }

  ghost function WorkerAfter(c: Config, s: State, w: Worker, x: WorkerStep): Worker
    requires WorkerCan(c, s, w, x)
  {
    match x
    case Fetch(id) => Fetched(id, s.txs[id].envelope)
    case Mark(reply) => if reply == Done && w.tx in s.txs then Marked(w.tx, w.envelope) else Waiting
    case Lease(account, reply) =>
      if reply == Done then Holding(w.tx, w.envelope, account, s.accounts[account].sequence)
      else NoAccount(w.tx)
    case NoneIdle => NoAccount(w.tx)
    case LeaseFails => NoAccount(w.tx)
    case FailUnleased(_) => Waiting
    case WriteSequence(_) => Sequenced(w.tx, w.envelope, w.account)
    case Submit(outcome, _) => Answered(w.tx, w.account, outcome)
    case Stamp(at) => Stamped(w.tx, w.account, w.outcome, at)
    case Release(_) => Released(w.tx, w.account, w.outcome)
    case Finish(_) => Waiting
    case Crash => Waiting
  }

  ghost function RetrierAfter(c: Config, s: State, r: Retrier, x: RetryStep): Retrier
    requires RetrierCan(c, s, r, x)
  {
    match x
    case Gate(id) => Gated(id, s.txs[id].envelope)
    case Abandon => Ready
    case Increment(reply) => if reply == Done then Counted(r.tx, c.feeBump(r.envelope).value) else Ready
    case Remark(reply) => if reply == Done && r.tx in s.txs then Remarked(r.tx, r.envelope) else Ready
    case Resubmit(outcome, _) => if outcome.Errored? then Ready else Judged(r.tx, outcome)
    case Conclude(_) => Ready
    case Quit => Ready
  }

  ghost function SyncerAfter(s: State, y: Syncer, x: SyncStep): Syncer
    requires SyncerCan(s, y, x)
  {
    match x
    case List => Scanning(IdleSequences(s.accounts), |s.picks|, |s.writes|)
    case Skip(account) => Scanning(y.left - {account}, y.since, y.wrote)
    case Query(account, network) =>
      Comparing(account, network, y.left[account], y.left - {account}, y.since, y.wrote)
    case Overwrite(_) => Scanning(y.left, y.since, y.wrote)
    case Stop => Resting
  }

  /** A status write, together with the record of rows leaving `pending`. */
  function WriteStatus(s: State, reply: Reply, id: TxId, status: TxStatus, channel: Option<AccountId>,
                       lastError: string): State
  {
    if reply == Refused then s
    else s.(txs := SetStatus(s.txs, id, status, channel, lastError),
            claimed := if IsPending(s.txs, id) then s.claimed + [id] else s.claimed,
            orphans := if status == Submitting then s.orphans else s.orphans - {id})
  }

  function TerminalStatus(outcome: Outcome): TxStatus
  {
    if outcome == Accepted then Confirmed else Failed
  }

  function BatchError(outcome: Outcome): string
  {
    match outcome
    case Accepted => ""
    case Rejected => "operation rejected by horizon"
    case Errored(message) => message
  }

  /** The effect of a worker's step on the tables and the history. */
  ghost function WorkerEffect(c: Config, s: State, w: Worker, x: WorkerStep): State
    requires WorkerCan(c, s, w, x)
  {
    match x
    case Fetch(_) => s
    case Mark(reply) => WriteStatus(s, reply, w.tx, Submitting, None, "")
    case Lease(account, reply) =>
      var t := s.(accounts := SetLeased(s.accounts, account), picks := s.picks + [account]);
      if reply == Done
      then t.(grants := s.grants + [Grant(account, s.accounts[account].sequence + 1, |s.writes|)])
      else t.(leaked := s.leaked + {account})
    case NoneIdle => s
    case LeaseFails => s
    case FailUnleased(reply) => WriteStatus(s, reply, w.tx, Failed, None, "no channel account")
    case WriteSequence(reply) =>
      if reply == Refused then s
      else s.(accounts := SetSequence(s.accounts, w.account, w.sequence + 1),
              writes := s.writes + [ByWorker(w.account)])
    case Submit(outcome, sends) => s.(calls := s.calls + [Call(w.tx, w.envelope, outcome, sends, false)])
    case Stamp(_) => s
    case Release(reply) =>
      if reply == Refused then s.(leaked := s.leaked + {w.account})
      else s.(accounts := SetIdle(s.accounts, w.account, w.at),
              idleSince := s.idleSince[w.account := |s.picks|])
    case Finish(reply) =>
      WriteStatus(s, reply, w.tx, TerminalStatus(w.outcome), Some(w.account), BatchError(w.outcome))
    case Crash =>
      match Held(w)
      case Some(account) => s.(leaked := s.leaked + {account})
      case None => s
  }

  ghost function RetryEffect(c: Config, s: State, r: Retrier, x: RetryStep): State
    requires RetrierCan(c, s, r, x)
  {
    match x
    case Increment(reply) => if reply == Refused then s else s.(txs := BumpRetry(s.txs, r.tx))
    case Remark(reply) => WriteStatus(s, reply, r.tx, Submitting, None, "")
    case Resubmit(outcome, sends) =>
      s.(calls := s.calls + [Call(r.tx, r.envelope, outcome, sends, true)],
         orphans := if outcome.Errored? then s.orphans + {r.tx} else s.orphans)
    case Conclude(reply) =>
      WriteStatus(s, reply, r.tx, TerminalStatus(r.outcome), None,
                  if r.outcome == Accepted then "" else "fee bump operation rejected")
    case _ => s
  }

  ghost function SyncEffect(s: State, y: Syncer, x: SyncStep): State
    requires SyncerCan(s, y, x)
  {
    match x
    case Overwrite(reply) =>
      if reply == Refused || !IsIdle(s.accounts, y.account) then s
      else s.(accounts := SetSequenceIfIdle(s.accounts, y.account, y.network),
              writes := s.writes + [BySyncer(y.account, y.network - s.accounts[y.account].sequence)])
    case _ => s
  }

  /** The account a worker has leased and not yet released. */
  function Held(w: Worker): Option<AccountId>
  {
    if w.Holding? || w.Sequenced? || w.Answered? || w.Stamped? then Some(w.account) else None
  }

  ghost function Apply(c: Config, s: State, a: Action): State
    requires Enabled(c, s, a)
  {
    match a
    case Work(i, x) =>
      WorkerEffect(c, s, s.workers[i], x).(workers := s.workers[i := WorkerAfter(c, s, s.workers[i], x)])
    case Retry(j, x) =>
      RetryEffect(c, s, s.retriers[j], x).(retriers := s.retriers[j := RetrierAfter(c, s, s.retriers[j], x)])
    case Sync(k, x) =>
      SyncEffect(s, s.syncers[k], x).(syncers := s.syncers[k := SyncerAfter(s, s.syncers[k], x)])
    case Enqueue(id, envelope, at) =>
      s.(txs := s.txs[id := NewRow(envelope, at)], enqueued := s.enqueued + [id])
    case AddAccount(key) =>
      s.(accounts := s.accounts[key := AccountRow(Idle, 0, None)],
         idleSince := s.idleSince[key := |s.picks|])
  }

  /** The store does what it is told in this step, and says so. */
  predicate Acknowledged(a: Action)
  {
    match a
    case Work(_, Mark(reply)) => reply == Done
    case Work(_, Lease(_, reply)) => reply == Done
    case Work(_, LeaseFails) => false
    case Work(_, FailUnleased(reply)) => reply == Done
    case Work(_, WriteSequence(reply)) => reply == Done
    case Work(_, Release(reply)) => reply == Done
    case Work(_, Finish(reply)) => reply == Done
    case Retry(_, Increment(reply)) => reply == Done
    case Retry(_, Remark(reply)) => reply == Done
    case Retry(_, Conclude(reply)) => reply == Done
    case Sync(_, Overwrite(reply)) => reply == Done
    case _ => true
  }

  // ----- runs -----

  /** A fresh database, any channel accounts, nothing in flight. */
  ghost predicate Initial(s: State)
  {
    && s.txs == map[]
    && (forall i :: 0 <= i < |s.workers| ==> s.workers[i].Waiting?)
    && (forall j :: 0 <= j < |s.retriers| ==> s.retriers[j].Ready?)
    && (forall k :: 0 <= k < |s.syncers| ==> s.syncers[k].Resting?)
    && s.calls == [] && s.picks == [] && s.grants == [] && s.writes == []
    && s.enqueued == [] && s.claimed == []
    && s.orphans == {}
    && s.leaked == (set a | a in s.accounts && s.accounts[a].status == Leased)
    && s.idleSince == (map a | a in s.accounts && s.accounts[a].status == Idle :: 0)
  }

  /** The actions lead from `s` to `t`. */
  ghost predicate Run(c: Config, s: State, acts: seq<Action>, t: State)
    decreases |acts|
  {
    if acts == [] then s == t
    else Enabled(c, s, acts[0]) && Run(c, Apply(c, s, acts[0]), acts[1..], t)
  }

  /** Every action of the run meets `ok` in the state where it happens. */
  ghost predicate Always(c: Config, s: State, acts: seq<Action>, ok: (State, Action) -> bool)
    decreases |acts|
  {
    acts != [] && Enabled(c, s, acts[0]) ==>
      ok(s, acts[0]) && Always(c, Apply(c, s, acts[0]), acts[1..], ok)
  }

  lemma {:induction false} RunConcat(c: Config, s: State, xs: seq<Action>, t: State, ys: seq<Action>, u: State)
    requires Run(c, s, xs, t) && Run(c, t, ys, u)
    ensures Run(c, s, xs + ys, u)
    decreases |xs|
  {
    if xs == [] {
      assert xs + ys == ys;
    } else {
      RunConcat(c, Apply(c, s, xs[0]), xs[1..], t, ys, u);
      assert (xs + ys)[1..] == xs[1..] + ys;
    }
  }

  /** A run that goes through `t` goes on from `t`. */
  lemma {:induction false} RunSplit(c: Config, s: State, xs: seq<Action>, t: State, ys: seq<Action>, u: State)
    requires Run(c, s, xs, t) && Run(c, s, xs + ys, u)
    ensures Run(c, t, ys, u)
    decreases |xs|
  {
    if xs == [] {
      assert xs + ys == ys;
    } else {
      assert (xs + ys)[1..] == xs[1..] + ys;
      RunSplit(c, Apply(c, s, xs[0]), xs[1..], t, ys, u);
    }
  }

  lemma RunThree(c: Config, s: State, xs: seq<Action>, t: State, ys: seq<Action>, u: State, zs: seq<Action>, v: State)
    requires Run(c, s, xs, t) && Run(c, t, ys, u) && Run(c, u, zs, v)
    ensures Run(c, s, xs + ys + zs, v)
  {
    RunConcat(c, s, xs, t, ys, u);
    RunConcat(c, s, xs + ys, u, zs, v);
  }

  lemma RunSnoc(c: Config, s: State, xs: seq<Action>, t: State, a: Action)
    requires Run(c, s, xs, t) && Enabled(c, t, a)
    ensures Run(c, s, xs + [a], Apply(c, t, a))
  {
    var u := Apply(c, t, a);
    assert Run(c, u, [a][1..], u);
    RunConcat(c, s, xs, t, [a], u);
  }
}
