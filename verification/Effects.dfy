/** What one step can do to one transaction, stated apart from how the step is defined. */
module Effects {
  import opened Base
  import opened Tables
  import opened Protocol

  /** Everything about a row that only its insertion decides. */
  predicate SameOrigin(r: TxRow, q: TxRow)
  {
    r.envelope == q.envelope && r.createdAt == q.createdAt
  }

  /** Worker `w` leaves the row of `t` alone or writes the status its program counter calls for. */
  ghost predicate WorkerTouches(s: State, u: State, w: Worker, x: WorkerStep, t: TxId)
  {
    && (t in u.txs <==> t in s.txs)
    && (t in s.txs ==>
          && SameOrigin(s.txs[t], u.txs[t]) && u.txs[t].retryCount == s.txs[t].retryCount
          && (w.Waiting? || w.tx != t ==> u.txs[t] == s.txs[t])
          && (u.txs[t].status != s.txs[t].status ==>
                && !w.Waiting? && w.tx == t
                && (|| (x.Mark? && w.Fetched? && u.txs[t].status == Submitting)
                    || (x.FailUnleased? && w.NoAccount? && u.txs[t].status == Failed)
                    || (x.Finish? && w.Released? && u.txs[t].status == TerminalStatus(w.outcome)))))
  }

  lemma WorkRow(c: Config, s: State, i: nat, x: WorkerStep, t: TxId)
    requires Enabled(c, s, Work(i, x))
    ensures WorkerTouches(s, Apply(c, s, Work(i, x)), s.workers[i], x, t)
  {
  }

  /** The step writes a terminal status to the worker's row. */
  predicate WorkerSettles(x: WorkerStep)
  {
    (x.FailUnleased? || x.Finish?) && x.reply != Refused
  }

  /** What a worker's step does apart from the tables. */
  ghost predicate WorkerMoves(s: State, u: State, i: nat, w: Worker, x: WorkerStep)
    requires i < |s.workers|
  {
    && u.workers == s.workers[i := w] && u.retriers == s.retriers
    && u.orphans ==
       (if WorkerSettles(x) && !s.workers[i].Waiting? then s.orphans - {s.workers[i].tx} else s.orphans)
  }

  lemma WorkMoves(c: Config, s: State, i: nat, x: WorkerStep)
    requires Enabled(c, s, Work(i, x))
    ensures WorkerMoves(s, Apply(c, s, Work(i, x)), i, WorkerAfter(c, s, s.workers[i], x), x)
  {
  }

  lemma WorkCalls(c: Config, s: State, i: nat, x: WorkerStep)
    requires Enabled(c, s, Work(i, x))
    ensures var w := s.workers[i];
      Apply(c, s, Work(i, x)).calls ==
      s.calls + if x.Submit? then [Call(w.tx, w.envelope, x.outcome, x.sends, false)] else []
  {
  }

  lemma WorkEffect(c: Config, s: State, i: nat, x: WorkerStep, t: TxId)
    requires Enabled(c, s, Work(i, x))
    ensures var w := s.workers[i]; var u := Apply(c, s, Work(i, x));
      && WorkerMoves(s, u, i, WorkerAfter(c, s, w, x), x) && WorkerTouches(s, u, w, x, t)
      && u.calls == s.calls + if x.Submit? then [Call(w.tx, w.envelope, x.outcome, x.sends, false)] else []
  {
    WorkRow(c, s, i, x, t);
    WorkMoves(c, s, i, x);
    WorkCalls(c, s, i, x);
  }

  ghost predicate RetrierTouches(s: State, u: State, r: Retrier, x: RetryStep, t: TxId)
  {
    && (t in u.txs <==> t in s.txs)
    && (t in s.txs ==>
          && SameOrigin(s.txs[t], u.txs[t])
          && (r.Ready? || r.tx != t ==> u.txs[t] == s.txs[t])
          && u.txs[t].retryCount ==
             s.txs[t].retryCount + Bit(x.Increment? && x.reply != Refused && !r.Ready? && r.tx == t)
          && (u.txs[t].status != s.txs[t].status ==>
                && !r.Ready? && r.tx == t
                && (|| (x.Remark? && r.Counted? && u.txs[t].status == Submitting)
                    || (x.Conclude? && r.Judged? && u.txs[t].status == TerminalStatus(r.outcome)))))
  }

  lemma RetryEffects(c: Config, s: State, j: nat, x: RetryStep, t: TxId)
    requires Enabled(c, s, Retry(j, x))
    ensures var r := s.retriers[j]; var u := Apply(c, s, Retry(j, x));
      && u.workers == s.workers && u.retriers == s.retriers[j := RetrierAfter(c, s, r, x)]
      && RetrierTouches(s, u, r, x, t)
      && u.calls == s.calls + (if x.Resubmit? then [Call(r.tx, r.envelope, x.outcome, x.sends, true)] else [])
      && u.orphans ==
         if x.Resubmit? && x.outcome.Errored? then s.orphans + {r.tx}
         else if x.Conclude? && x.reply != Refused then s.orphans - {r.tx}
         else s.orphans
  {
  }

  lemma OtherEffect(c: Config, s: State, x: Action, t: TxId)
    requires Enabled(c, s, x) && !x.Work? && !x.Retry?
    ensures var u := Apply(c, s, x);
      && u.workers == s.workers && u.retriers == s.retriers && u.calls == s.calls && u.orphans == s.orphans
      && (t in s.txs ==> t in u.txs && u.txs[t] == s.txs[t])
      && (t in u.txs && t !in s.txs ==> u.txs[t].status == Pending && u.txs[t].retryCount == 0)
  {
  }

  // ----- accounts -----

  /** The release of `a` by this step takes effect. */
  predicate Frees(w: Worker, x: WorkerStep, a: AccountId)
  {
    w.Stamped? && x.Release? && x.reply != Refused && w.account == a
  }

  /** The sequence write to `a` by this step takes effect. */
  predicate Numbers(w: Worker, x: WorkerStep, a: AccountId)
  {
    w.Holding? && x.WriteSequence? && x.reply != Refused && w.account == a
  }

  predicate Leases(x: WorkerStep, a: AccountId)
  {
    x.Lease? && x.account == a
  }

  /** What a worker's step does to the row of `a`, column by column. */
  ghost predicate AccountTouched(s: State, u: State, w: Worker, x: WorkerStep, a: AccountId)
  {
    && (a in u.accounts <==> a in s.accounts)
    && (a in s.accounts ==>
          && u.accounts[a].status ==
             (if Leases(x, a) then Leased else if Frees(w, x, a) then Idle else s.accounts[a].status)
          && u.accounts[a].lastUsed == (if Frees(w, x, a) then Some(w.at) else s.accounts[a].lastUsed)
          && u.accounts[a].sequence == (if Numbers(w, x, a) then w.sequence + 1 else s.accounts[a].sequence))
  }

  lemma WorkAccount(c: Config, s: State, i: nat, x: WorkerStep, a: AccountId)
    requires Enabled(c, s, Work(i, x))
    ensures AccountTouched(s, Apply(c, s, Work(i, x)), s.workers[i], x, a)
  {
  }

  /** What a worker's step adds to the history. */
  lemma WorkHistory(c: Config, s: State, i: nat, x: WorkerStep)
    requires Enabled(c, s, Work(i, x))
    ensures var w := s.workers[i]; var u := Apply(c, s, Work(i, x));
      && u.workers == s.workers[i := WorkerAfter(c, s, w, x)] && u.syncers == s.syncers
      && u.accounts.Keys == s.accounts.Keys
      && u.picks == (if x.Lease? then s.picks + [x.account] else s.picks)
      && u.idleSince ==
         (if x.Release? && x.reply != Refused then s.idleSince[w.account := |s.picks|] else s.idleSince)
      && u.grants == (if x.Lease? && x.reply == Done
                      then s.grants + [Grant(x.account, s.accounts[x.account].sequence + 1, |s.writes|)] else s.grants)
      && u.writes == (if x.WriteSequence? && x.reply != Refused then s.writes + [ByWorker(w.account)] else s.writes)
  {
  }

  /** The write of syncer `k` takes effect on an idle row. */
  predicate Overwrites(s: State, x: Action)
  {
    && x.Sync? && x.k < |s.syncers| && x.sync.Overwrite? && x.sync.reply != Refused
    && s.syncers[x.k].Comparing? && IsIdle(s.accounts, s.syncers[x.k].account)
  }

  /** The entry that a step of another process than a worker adds to the log of sequence writes. */
  function SyncWrite(s: State, x: Action): seq<Write>
  {
    if Overwrites(s, x)
    then var y := s.syncers[x.k]; [BySyncer(y.account, y.network - s.accounts[y.account].sequence)]
    else []
  }

  /** Steps of other processes: only a syncer's write to an idle row, or a new row. */
  ghost predicate OtherTouches(s: State, u: State, x: Action, a: AccountId)
  {
    && u.workers == s.workers && u.picks == s.picks && u.grants == s.grants
    && u.writes == s.writes + SyncWrite(s, x)
    && s.accounts.Keys <= u.accounts.Keys
    && (a in s.accounts ==>
          && u.accounts[a].status == s.accounts[a].status && u.accounts[a].lastUsed == s.accounts[a].lastUsed
          && u.accounts[a].sequence ==
             (if Overwrites(s, x) && s.syncers[x.k].account == a then s.syncers[x.k].network
              else s.accounts[a].sequence))
    && (a in u.accounts && a !in s.accounts ==> x == AddAccount(a) && u.accounts[a] == AccountRow(Idle, 0, None))
    && (a in s.idleSince ==> a in u.idleSince && (a in s.accounts ==> u.idleSince[a] == s.idleSince[a]))
  }

  lemma SyncAccount(c: Config, s: State, k: nat, x: SyncStep, a: AccountId)
    requires Enabled(c, s, Sync(k, x))
    ensures OtherTouches(s, Apply(c, s, Sync(k, x)), Sync(k, x), a)
  {
  }

  lemma RetryAccount(c: Config, s: State, j: nat, x: RetryStep, a: AccountId)
    requires Enabled(c, s, Retry(j, x))
    ensures OtherTouches(s, Apply(c, s, Retry(j, x)), Retry(j, x), a)
  {
  }

  lemma OtherAccount(c: Config, s: State, x: Action, a: AccountId)
    requires Enabled(c, s, x) && !x.Work?
    ensures OtherTouches(s, Apply(c, s, x), x, a)
  {
    match x
    case Sync(k, sync) => SyncAccount(c, s, k, sync, a);
    case Retry(j, retry) => RetryAccount(c, s, j, retry, a);
    case _ =>
  }
}
