/** Runs that show how far the guarantees reach: bounds that are attained, and stronger claims that
    fail once two workers race, a sequence write is refused, or a sync writes late. */
module Witnesses {
  import opened Base
  import opened Tables
  import opened Protocol
  import opened Effects
  import opened Submissions
  import opened Retries
  import opened Outcomes
  import opened Sequences
  import Division

  /** One account, idle. */
  ghost predicate SoleIdle(s: State, a: AccountId)
  {
    s.accounts.Keys == {a} && s.accounts[a].status == Idle
  }

  /** What one whole batch of worker `i`, run without interruption, leaves behind. */
  ghost predicate BatchDone(s: State, u: State, i: nat, a: AccountId, outcome: Outcome, sends: nat, reply: Reply)
    requires i < |s.workers| && s.workers[i].Fetched? && a in s.accounts
  {
    var w := s.workers[i];
    && u.workers == s.workers[i := Waiting] && u.retriers == s.retriers && u.syncers == s.syncers
    && u.calls == s.calls + [Call(w.tx, w.envelope, outcome, sends, false)]
    && u.grants == s.grants + [Grant(a, s.accounts[a].sequence + 1, |s.writes|)]
    && u.txs.Keys == s.txs.Keys && HasStatus(u, w.tx, TerminalStatus(outcome))
    && (forall t :: t in s.txs && t != w.tx ==> u.txs[t] == s.txs[t])
    && (w.tx in s.txs ==>
          u.txs[w.tx].retryCount == s.txs[w.tx].retryCount && SameOrigin(s.txs[w.tx], u.txs[w.tx]))
    && SoleIdle(u, a)
    && u.accounts[a].sequence == s.accounts[a].sequence + Bit(reply != Refused)
  }

  /** The step takes its ordinary course: the store does what it is told and says so, an account is
      found, and nobody stops or is interrupted. */
  predicate Smooth(a: Action)
  {
    && Acknowledged(a)
    && match a
       case Work(_, work) => !work.NoneIdle? && !work.FailUnleased? && !work.Crash?
       case Retry(_, retry) => !retry.Abandon? && !retry.Quit?
       case _ => true
  }

  ghost predicate AllSmooth(acts: seq<Action>)
  {
    forall k :: 0 <= k < |acts| ==> Smooth(acts[k])
  }

  /** The actions are smooth and no sync, but for the sequence write at `p`, whose reply is `reply`. */
  ghost predicate OneWrite(acts: seq<Action>, p: nat, i: nat, reply: Reply)
  {
    && p < |acts| && acts[p] == Work(i, WriteSequence(reply))
    && forall k :: 0 <= k < |acts| && k != p ==> Smooth(acts[k]) && !acts[k].Sync?
  }

  lemma OneWriteSmooth(acts: seq<Action>, p: nat, i: nat)
    requires OneWrite(acts, p, i, Done)
    ensures AllSmooth(acts) && forall k :: 0 <= k < |acts| ==> !acts[k].Sync?
  {
    assert Smooth(acts[p]);
  }

  lemma SmoothJoin(xs: seq<Action>, ys: seq<Action>)
    requires AllSmooth(xs) && AllSmooth(ys)
    ensures AllSmooth(xs + ys)
  {
  }

  /** A worker that read a row marks it and leases the account. */
  lemma LeaseSole(c: Config, s: State, i: nat, a: AccountId) returns (acts: seq<Action>, u: State)
    requires i < |s.workers| && s.workers[i].Fetched? && s.workers[i].tx in s.txs && SoleIdle(s, a)
    ensures Run(c, s, acts, u) && acts == [Work(i, Mark(Done)), Work(i, Lease(a, Done))]
    ensures var w := s.workers[i];
      u == s.(
        txs := SetStatus(s.txs, w.tx, Submitting, None, ""),
        claimed := u.claimed,
        workers := s.workers[i := Holding(w.tx, w.envelope, a, s.accounts[a].sequence)],
        accounts := SetLeased(s.accounts, a),
        picks := s.picks + [a],
        grants := s.grants + [Grant(a, s.accounts[a].sequence + 1, |s.writes|)])
  {
    var w := s.workers[i];
    var s1 := Apply(c, s, Work(i, Mark(Done)));
    assert LeastRecentlyUsed(s1.accounts, a);
    u := Apply(c, s1, Work(i, Lease(a, Done)));
    assert u.workers == s.workers[i := Holding(w.tx, w.envelope, a, s.accounts[a].sequence)];
    acts := [Work(i, Mark(Done)), Work(i, Lease(a, Done))];
    RunSnoc(c, s, [], s, acts[0]);
    RunSnoc(c, s, [acts[0]], s1, acts[1]);
    assert [acts[0]] + [acts[1]] == acts;
  }

  lemma FirstHalf(c: Config, s: State, i: nat, a: AccountId, reply: Reply) returns (acts: seq<Action>, u: State)
    requires i < |s.workers| && s.workers[i].Fetched? && s.workers[i].tx in s.txs && SoleIdle(s, a)
    ensures Run(c, s, acts, u) && OneWrite(acts, 2, i, reply)
    ensures var w := s.workers[i];
      && u == s.(
           txs := SetStatus(s.txs, w.tx, Submitting, None, ""),
           claimed := u.claimed,
           workers := s.workers[i := Sequenced(w.tx, w.envelope, a)],
           accounts := u.accounts,
           picks := s.picks + [a],
           grants := s.grants + [Grant(a, s.accounts[a].sequence + 1, |s.writes|)],
           writes := u.writes)
      && u.accounts.Keys == {a} && u.accounts[a].status == Leased
      && u.accounts[a].sequence == s.accounts[a].sequence + Bit(reply != Refused)
  {
    var w := s.workers[i];
    var xs, v := LeaseSole(c, s, i, a);
    u := Apply(c, v, Work(i, WriteSequence(reply)));
    assert u.workers == s.workers[i := Sequenced(w.tx, w.envelope, a)];
    RunSnoc(c, s, xs, v, Work(i, WriteSequence(reply)));
    acts := xs + [Work(i, WriteSequence(reply))];
  }

  lemma Answer(c: Config, s: State, i: nat, outcome: Outcome, sends: nat) returns (acts: seq<Action>, u: State)
    requires i < |s.workers| && s.workers[i].Sequenced? && MayEnd(c, s.workers[i].envelope, outcome, sends)
    ensures Run(c, s, acts, u) && acts == [Work(i, Submit(outcome, sends)), Work(i, Stamp(0))]
    ensures var w := s.workers[i];
      u == s.(workers := s.workers[i := Stamped(w.tx, w.account, outcome, 0)],
              calls := s.calls + [Call(w.tx, w.envelope, outcome, sends, false)])
  {
    var v := Apply(c, s, Work(i, Submit(outcome, sends)));
    u := Apply(c, v, Work(i, Stamp(0)));
    acts := [Work(i, Submit(outcome, sends)), Work(i, Stamp(0))];
    RunSnoc(c, s, [], s, acts[0]);
    RunSnoc(c, s, [acts[0]], v, acts[1]);
    assert [acts[0]] + [acts[1]] == acts;
  }

  lemma Settle(c: Config, s: State, i: nat) returns (acts: seq<Action>, u: State)
    requires i < |s.workers| && s.workers[i].Stamped? && s.workers[i].tx in s.txs
    requires s.accounts.Keys == {s.workers[i].account}
    ensures Run(c, s, acts, u) && acts == [Work(i, Release(Done)), Work(i, Finish(Done))]
    ensures var w := s.workers[i];
      && u == s.(workers := s.workers[i := Waiting], accounts := u.accounts, idleSince := u.idleSince,
                 orphans := u.orphans,
                 txs := SetStatus(s.txs, w.tx, TerminalStatus(w.outcome), Some(w.account), BatchError(w.outcome)),
                 claimed := u.claimed)
      && SoleIdle(u, w.account) && u.accounts[w.account].sequence == s.accounts[w.account].sequence
  {
    var v := Apply(c, s, Work(i, Release(Done)));
    u := Apply(c, v, Work(i, Finish(Done)));
    acts := [Work(i, Release(Done)), Work(i, Finish(Done))];
    RunSnoc(c, s, [], s, acts[0]);
    RunSnoc(c, s, [acts[0]], v, acts[1]);
    assert [acts[0]] + [acts[1]] == acts;
  }

  lemma SecondHalf(c: Config, s: State, i: nat, outcome: Outcome, sends: nat) returns (acts: seq<Action>, u: State)
    requires i < |s.workers| && s.workers[i].Sequenced? && s.workers[i].tx in s.txs
    requires s.accounts.Keys == {s.workers[i].account} && MayEnd(c, s.workers[i].envelope, outcome, sends)
    ensures Run(c, s, acts, u) && AllSmooth(acts) && forall k :: 0 <= k < |acts| ==> acts[k].Work?
    ensures var w := s.workers[i];
      && u.workers == s.workers[i := Waiting] && u.retriers == s.retriers && u.syncers == s.syncers
      && u.calls == s.calls + [Call(w.tx, w.envelope, outcome, sends, false)] && u.grants == s.grants
      && u.txs == SetStatus(s.txs, w.tx, TerminalStatus(outcome), Some(w.account), BatchError(outcome))
      && SoleIdle(u, w.account) && u.accounts[w.account].sequence == s.accounts[w.account].sequence
  {
    var xs, v := Answer(c, s, i, outcome, sends);
    var ys;
    ys, u := Settle(c, v, i);
    RunConcat(c, s, xs, v, ys, u);
    acts := xs + ys;
  }

  lemma RunBatch(c: Config, s: State, i: nat, a: AccountId, outcome: Outcome, sends: nat, reply: Reply)
    returns (acts: seq<Action>, u: State)
    requires i < |s.workers| && s.workers[i].Fetched? && s.workers[i].tx in s.txs && SoleIdle(s, a)
    requires MayEnd(c, s.workers[i].envelope, outcome, sends)
    ensures Run(c, s, acts, u) && OneWrite(acts, 2, i, reply)
    ensures BatchDone(s, u, i, a, outcome, sends, reply)
  {
    var xs, v := FirstHalf(c, s, i, a, reply);
    var ys;
    ys, u := SecondHalf(c, v, i, outcome, sends);
    RunConcat(c, s, xs, v, ys, u);
    acts := xs + ys;
  }

  // ----- W workers and R retries, W + R router calls -----

  /** Router calls for row 0 so far, and the submissions to endpoints they made. */
  ghost predicate Tally(calls: seq<Call>, batches: nat, retries: nat, sends: nat)
  {
    && Count(calls, CallFor(0, false)) == batches && Count(calls, CallFor(0, true)) == retries
    && Sends(calls, 0) == sends
  }

  lemma TallyCall(calls: seq<Call>, batches: nat, retries: nat, sends: nat, call: Call)
    requires Tally(calls, batches, retries, sends) && call.tx == 0
    ensures Tally(calls + [call], batches + Bit(!call.retry), retries + Bit(call.retry), sends + call.sends)
  {
    CallCounted(calls, [call], call.retry, 0);
    SendsAppend(calls, call, 0);
  }

  /** The workers below `k` are waiting, the others hold a read of row 0 from when it was pending. */
  ghost predicate Crowd(s: State, k: nat)
  {
    && 0 in s.txs
    && forall i | 0 <= i < |s.workers| ::
         if i < k then s.workers[i].Waiting? else s.workers[i] == Fetched(0, s.txs[0].envelope)
  }

  lemma {:induction false} FetchAll(c: Config, s: State, k: nat) returns (acts: seq<Action>, u: State)
    requires Crowd(s, k) && k <= |s.workers| && OldestPending(s.txs, 0)
    ensures Run(c, s, acts, u) && Crowd(u, 0) && |u.workers| == |s.workers|
    ensures u == s.(workers := u.workers)
    decreases k
  {
    if k == 0 {
      return [], s;
    }
    var a := Work(k - 1, Fetch(0));
    var v := Apply(c, s, a);
    var rest;
    rest, u := FetchAll(c, v, k - 1);
    acts := [a] + rest;
    assert acts[1..] == rest;
  }

  /** Row 0 carries `envelope`, was never retried, and `k` workers have submitted it to all endpoints. */
  ghost predicate Crowding(c: Config, s: State, k: nat, envelope: Envelope, a: AccountId)
  {
    && Crowd(s, k) && k <= |s.workers| && SoleIdle(s, a)
    && s.txs[0].envelope == envelope && s.txs[0].retryCount == 0 && (k > 0 ==> s.txs[0].status == Failed)
    && Tally(s.calls, k, 0, k * Endpoints(c, envelope))
  }

  lemma CrowdingNext(c: Config, s: State, u: State, k: nat, envelope: Envelope, a: AccountId)
    requires Crowding(c, s, k, envelope, a) && k < |s.workers|
    requires BatchDone(s, u, k, a, Errored(""), Endpoints(c, envelope), Done)
    ensures Crowding(c, u, k + 1, envelope, a)
  {
    var n := Endpoints(c, envelope);
    TallyCall(s.calls, k, 0, k * n, Call(0, envelope, Errored(""), n, false));
    Division.OneMore(k, n);
    assert forall i | 0 <= i < |s.workers| && i != k :: u.workers[i] == s.workers[i];
  }

  lemma SubmitNext(c: Config, s: State, k: nat, envelope: Envelope, a: AccountId)
    returns (acts: seq<Action>, u: State)
    requires Crowding(c, s, k, envelope, a) && k < |s.workers|
    ensures Run(c, s, acts, u) && Crowding(c, u, k + 1, envelope, a)
    ensures |u.workers| == |s.workers| && u.retriers == s.retriers
  {
    acts, u := RunBatch(c, s, k, a, Errored(""), Endpoints(c, envelope), Done);
    CrowdingNext(c, s, u, k, envelope, a);
  }

  lemma {:induction false} SubmitAll(c: Config, s: State, k: nat, envelope: Envelope, a: AccountId)
    returns (acts: seq<Action>, u: State)
    requires Crowding(c, s, k, envelope, a)
    ensures Run(c, s, acts, u) && Crowding(c, u, |s.workers|, envelope, a)
    ensures |u.workers| == |s.workers| && u.retriers == s.retriers
    decreases |s.workers| - k
  {
    if k == |s.workers| {
      return [], s;
    }
    var xs, v := SubmitNext(c, s, k, envelope, a);
    var ys;
    ys, u := SubmitAll(c, v, k + 1, envelope, a);
    RunConcat(c, s, xs, v, ys, u);
    acts := xs + ys;
  }

  /** The submissions of `w` batches and `r` retries that asked all endpoints. */
  function SentBy(c: Config, w: nat, r: nat, envelope: Envelope, bump: Envelope): nat
  {
    w * Endpoints(c, envelope) + r * Endpoints(c, bump)
  }

  lemma SentMore(c: Config, w: nat, r: nat, envelope: Envelope, bump: Envelope)
    ensures SentBy(c, w, r + 1, envelope, bump) == SentBy(c, w, r, envelope, bump) + Endpoints(c, bump)
  {
    Division.OneMore(r, Endpoints(c, bump));
  }

  /** Row 0 failed after `r` retries, each of which submitted the fee bump to all endpoints. */
  ghost predicate Retried(c: Config, s: State, w: nat, r: nat, envelope: Envelope, bump: Envelope)
  {
    && FailedAndCalm(s, 0, r) && s.txs[0].envelope == envelope && c.feeBump(envelope) == Some(bump)
    && Tally(s.calls, w, r, SentBy(c, w, r, envelope, bump))
  }

  /** A retrier past the gate counts its attempt and marks the row. */
  lemma CountAndMark(c: Config, s: State, j: nat, envelope: Envelope, bump: Envelope)
    returns (acts: seq<Action>, u: State)
    requires j < |s.retriers| && s.retriers[j] == Gated(0, envelope) && 0 in s.txs
    requires c.feeBump(envelope) == Some(bump)
    ensures Run(c, s, acts, u)
    ensures u == s.(txs := u.txs, retriers := s.retriers[j := Remarked(0, bump)], claimed := u.claimed)
    ensures 0 in u.txs && SameOrigin(s.txs[0], u.txs[0]) && u.txs[0].retryCount == s.txs[0].retryCount + 1
  {
    var v := Apply(c, s, Retry(j, Increment(Done)));
    u := Apply(c, v, Retry(j, Remark(Done)));
    RunSnoc(c, s, [], s, Retry(j, Increment(Done)));
    acts := [] + [Retry(j, Increment(Done))];
    RunSnoc(c, s, acts, v, Retry(j, Remark(Done)));
    acts := acts + [Retry(j, Remark(Done))];
    assert u.retriers == s.retriers[j := Remarked(0, bump)];
  }

  /** The last endpoint asked rejects the fee bump, and the row fails again. */
  lemma RejectBump(c: Config, s: State, j: nat, bump: Envelope) returns (acts: seq<Action>, u: State)
    requires j < |s.retriers| && s.retriers[j] == Remarked(0, bump) && 0 in s.txs && Reaches(c, bump)
    ensures Run(c, s, acts, u)
    ensures u == s.(txs := u.txs, retriers := s.retriers[j := Ready], claimed := u.claimed,
                    orphans := u.orphans, calls := u.calls)
    ensures u.calls == s.calls + [Call(0, bump, Rejected, Endpoints(c, bump), true)]
    ensures HasStatus(u, 0, Failed) && SameOrigin(s.txs[0], u.txs[0]) && u.txs[0].retryCount == s.txs[0].retryCount
  {
    var v := Apply(c, s, Retry(j, Resubmit(Rejected, Endpoints(c, bump))));
    u := Apply(c, v, Retry(j, Conclude(Done)));
    RunSnoc(c, s, [], s, Retry(j, Resubmit(Rejected, Endpoints(c, bump))));
    acts := [] + [Retry(j, Resubmit(Rejected, Endpoints(c, bump)))];
    RunSnoc(c, s, acts, v, Retry(j, Conclude(Done)));
    acts := acts + [Retry(j, Conclude(Done))];
    assert u.retriers == s.retriers[j := Ready];
  }

  lemma RetriedNext(c: Config, s: State, u: State, w: nat, r: nat, envelope: Envelope, bump: Envelope)
    requires Retried(c, s, w, r, envelope, bump) && FailedAndCalm(u, 0, r + 1) && u.txs[0].envelope == envelope
    requires exists outcome :: u.calls == s.calls + [Call(0, bump, outcome, Endpoints(c, bump), true)]
    ensures Retried(c, u, w, r + 1, envelope, bump)
  {
    var n := Endpoints(c, bump);
    var outcome :| u.calls == s.calls + [Call(0, bump, outcome, n, true)];
    TallyCall(s.calls, w, r, SentBy(c, w, r, envelope, bump), Call(0, bump, outcome, n, true));
    SentMore(c, w, r, envelope, bump);
  }

  /** One whole retry, rejected by the last endpoint asked. */
  lemma RetryOnce(c: Config, s: State, w: nat, r: nat, envelope: Envelope, bump: Envelope)
    returns (acts: seq<Action>, u: State)
    requires Retried(c, s, w, r, envelope, bump) && Reaches(c, bump) && r < c.maxRetries && |s.retriers| > 0
    ensures Run(c, s, acts, u) && Retried(c, u, w, r + 1, envelope, bump) && |u.retriers| == |s.retriers|
  {
    var s1 := Apply(c, s, Retry(0, Gate(0)));
    RunSnoc(c, s, [], s, Retry(0, Gate(0)));
    var xs, s2 := CountAndMark(c, s1, 0, envelope, bump);
    var ys;
    ys, u := RejectBump(c, s2, 0, bump);
    RunThree(c, s, [] + [Retry(0, Gate(0))], s1, xs, s2, ys, u);
    acts := [] + [Retry(0, Gate(0))] + xs + ys;
    RetriedNext(c, s, u, w, r, envelope, bump);
  }

  lemma {:induction false} RetryUpTo(c: Config, s: State, w: nat, r: nat, target: nat,
                                     envelope: Envelope, bump: Envelope)
    returns (acts: seq<Action>, u: State)
    requires Retried(c, s, w, r, envelope, bump) && Reaches(c, bump) && r <= target <= c.maxRetries
    requires target > 0 ==> |s.retriers| > 0
    ensures Run(c, s, acts, u) && Retried(c, u, w, target, envelope, bump) && |u.retriers| == |s.retriers|
    decreases target - r
  {
    if r == target {
      return [], s;
    }
    var xs, v := RetryOnce(c, s, w, r, envelope, bump);
    var ys;
    ys, u := RetryUpTo(c, v, w, r + 1, target, envelope, bump);
    RunConcat(c, s, xs, v, ys, u);
    acts := xs + ys;
  }

  /** `left` retriers are past the gate; `r` retries have submitted to all endpoints. */
  ghost predicate Racing(c: Config, s: State, w: nat, r: nat, left: nat, envelope: Envelope, bump: Envelope)
  {
    && 0 in s.txs && s.txs[0].retryCount == r && c.feeBump(envelope) == Some(bump) && left <= |s.retriers|
    && (forall j | 0 <= j < left :: s.retriers[j] == Gated(0, envelope))
    && Tally(s.calls, w, r, SentBy(c, w, r, envelope, bump))
  }

  lemma RacingNext(c: Config, s: State, u: State, w: nat, r: nat, left: nat, envelope: Envelope, bump: Envelope)
    requires Racing(c, s, w, r, left, envelope, bump) && left > 0
    requires 0 in u.txs && u.txs[0].retryCount == r + 1 && u.retriers == s.retriers[left - 1 := Ready]
    requires u.calls == s.calls + [Call(0, bump, Errored(""), Endpoints(c, bump), true)]
    ensures Racing(c, u, w, r + 1, left - 1, envelope, bump)
  {
    var n := Endpoints(c, bump);
    TallyCall(s.calls, w, r, SentBy(c, w, r, envelope, bump), Call(0, bump, Errored(""), n, true));
    SentMore(c, w, r, envelope, bump);
  }

  lemma RaceOnce(c: Config, s: State, w: nat, r: nat, left: nat, envelope: Envelope, bump: Envelope)
    returns (acts: seq<Action>, u: State)
    requires Racing(c, s, w, r, left, envelope, bump) && left > 0
    ensures Run(c, s, acts, u) && Racing(c, u, w, r + 1, left - 1, envelope, bump)
  {
    var j := left - 1;
    var resubmit := Retry(j, Resubmit(Errored(""), Endpoints(c, bump)));
    var xs, v := CountAndMark(c, s, j, envelope, bump);
    RunSnoc(c, s, xs, v, resubmit);
    acts, u := xs + [resubmit], Apply(c, v, resubmit);
    assert u.retriers == s.retriers[j := Ready];
    RacingNext(c, s, u, w, r, left, envelope, bump);
  }

  lemma {:induction false} RaceAll(c: Config, s: State, w: nat, r: nat, left: nat, envelope: Envelope, bump: Envelope)
    returns (acts: seq<Action>, u: State)
    requires Racing(c, s, w, r, left, envelope, bump)
    ensures Run(c, s, acts, u) && Racing(c, u, w, r + left, 0, envelope, bump)
    decreases left
  {
    if left == 0 {
      return [], s;
    }
    var xs, v := RaceOnce(c, s, w, r, left, envelope, bump);
    var ys;
    ys, u := RaceAll(c, v, w, r + 1, left - 1, envelope, bump);
    RunConcat(c, s, xs, v, ys, u);
    acts := xs + ys;
  }

  /** Retriers pass the gate together and resubmit one after the other. */
  lemma RaceFrom(c: Config, s: State, w: nat, r: nat, racers: nat, envelope: Envelope, bump: Envelope)
    returns (acts: seq<Action>, u: State)
    requires Retried(c, s, w, r, envelope, bump) && racers <= |s.retriers| && r < c.maxRetries
    ensures Run(c, s, acts, u) && Racing(c, u, w, r + racers, 0, envelope, bump)
  {
    var xs, v := GateUpTo(c, s, 0, 0, racers);
    var ys;
    ys, u := RaceAll(c, v, w, r, racers, envelope, bump);
    RunConcat(c, s, xs, v, ys, u);
    acts := xs + ys;
  }

  /** Retries one after the other while the maximum allows, the rest past the gate together. */
  lemma RetryAll(c: Config, s: State, w: nat, retries: nat, envelope: Envelope, bump: Envelope)
    returns (acts: seq<Action>, u: State)
    requires Retried(c, s, w, 0, envelope, bump) && Reaches(c, bump)
    requires c.maxRetries > 0 && |s.retriers| > 0 && retries <= c.maxRetries - 1 + |s.retriers|
    ensures Run(c, s, acts, u) && Racing(c, u, w, retries, 0, envelope, bump)
  {
    var calm := if retries < c.maxRetries then retries else c.maxRetries - 1;
    var xs, v := RetryUpTo(c, s, w, 0, calm, envelope, bump);
    var ys;
    ys, u := RaceFrom(c, v, w, calm, retries - calm, envelope, bump);
    RunConcat(c, s, xs, v, ys, u);
    acts := xs + ys;
  }

  lemma CrowdSubmits(c: Config, s: State, a: AccountId, envelope: Envelope) returns (acts: seq<Action>, u: State)
    requires Initial(s) && SoleIdle(s, a)
    ensures Run(c, s, acts, u) && Crowding(c, u, |s.workers|, envelope, a)
    ensures |u.workers| == |s.workers| && u.retriers == s.retriers
  {
    var start := Enqueue(0, envelope, 0);
    var s1 := Apply(c, s, start);
    RunSnoc(c, s, [], s, start);
    var xs, s2 := FetchAll(c, s1, |s.workers|);
    var ys, s3 := SubmitAll(c, s2, 0, envelope, a);
    RunThree(c, s, [start], s1, xs, s2, ys, s3);
    acts, u := [start] + xs + ys, s3;
  }

  /** The bound on duplicate submissions is exact: for every number of workers W and every count of
      retries R that the retry bound allows, there is a run in which a transaction with retry_count R
      reached the router W + R times, and every time all endpoints. */
  lemma DuplicateBoundAttained(c: Config, s: State, a: AccountId, envelope: Envelope, retries: nat)
    returns (acts: seq<Action>, u: State)
    requires Initial(s) && SoleIdle(s, a)
    requires retries > 0 ==>
      && |s.workers| > 0 && |s.retriers| > 0 && c.maxRetries > 0 && retries <= c.maxRetries - 1 + |s.retriers|
      && c.feeBump(envelope).Some? && Reaches(c, c.feeBump(envelope).value)
    ensures Run(c, s, acts, u) && 0 in u.txs && u.txs[0].retryCount == retries
    ensures Calls(u, 0) == |s.workers| + retries
    ensures Sends(u.calls, 0) == |s.workers| * Endpoints(c, envelope)
      + if retries == 0 then 0 else retries * Endpoints(c, c.feeBump(envelope).value)
  {
    acts, u := CrowdSubmits(c, s, a, envelope);
    if retries > 0 {
      var xs, v := acts, u;
      var ys;
      ys, u := RetryAll(c, v, |s.workers|, retries, envelope, c.feeBump(envelope).value);
      RunConcat(c, s, xs, v, ys, u);
      acts := xs + ys;
    }
  }

  /** Both workers read the row while it is pending. */
  lemma BothFetch(c: Config, s: State, envelope: Envelope) returns (acts: seq<Action>, u: State)
    requires Initial(s) && |s.workers| >= 2
    ensures Run(c, s, acts, u) && |u.workers| == |s.workers|
    ensures u.workers[0] == u.workers[1] == Fetched(0, envelope)
    ensures 0 in u.txs && u.accounts == s.accounts
  {
    var s1 := Apply(c, s, Enqueue(0, envelope, 0));
    assert OldestPending(s1.txs, 0);
    var s2 := Apply(c, s1, Work(0, Fetch(0)));
    u := Apply(c, s2, Work(1, Fetch(0)));
    RunSnoc(c, s, [], s, Enqueue(0, envelope, 0));
    acts := [] + [Enqueue(0, envelope, 0)];
    RunSnoc(c, s, acts, s1, Work(0, Fetch(0)));
    acts := acts + [Work(0, Fetch(0))];
    RunSnoc(c, s, acts, s2, Work(1, Fetch(0)));
    acts := acts + [Work(1, Fetch(0))];
  }

  /** With a second worker `confirmed` is not absorbing: both read the row while it was pending, one
      sees it confirmed, and the other is still free to submit it again and to write `failed`. */
  lemma TwoWorkersUnconfirm(c: Config, s: State, a: AccountId, envelope: Envelope)
    returns (acts: seq<Action>, u: State)
    requires Initial(s) && |s.workers| == 2 && SoleIdle(s, a) && Reaches(c, envelope)
    ensures Run(c, s, acts, u) && HasStatus(u, 0, Confirmed) && !Forever(c, u, 0, Confirmed)
  {
    var xs, v := BothFetch(c, s, envelope);
    var ys;
    ys, u := RunBatch(c, v, 0, a, Accepted, 1, Done);
    RunConcat(c, s, xs, v, ys, u);
    acts := xs + ys;
    assert u.workers[1] == Fetched(0, envelope);
    assert WorkerHolds(u.workers[1], 0) && !HasAccepted(u.workers[1]);
    ConfirmedFinalIff(c, u, 0);
  }

  // ----- repeated sequence numbers -----

  /** One idle worker; rows `k` and up are pending, oldest first, and no others are. */
  ghost predicate Waiters(s: State, k: nat, n: nat)
  {
    && |s.workers| == 1 && s.workers[0].Waiting?
    && (forall t :: t in s.txs <==> 0 <= t < n)
    && (forall t :: t in s.txs ==> s.txs[t].createdAt == t && (s.txs[t].status == Pending <==> k <= t))
  }

  lemma EnqueueUpTo(c: Config, s: State, k: nat, n: nat) returns (acts: seq<Action>, u: State)
    requires Waiters(s, 0, k) && k <= n
    ensures Run(c, s, acts, u) && Waiters(u, 0, n)
    ensures forall j :: 0 <= j < |acts| ==> acts[j].Enqueue?
    ensures u == s.(txs := u.txs, enqueued := u.enqueued)
    decreases n - k
  {
    if k == n {
      return [], s;
    }
    var a := Enqueue(k, "", k);
    var v := Apply(c, s, a);
    var rest;
    rest, u := EnqueueUpTo(c, v, k + 1, n);
    acts := [a] + rest;
    assert acts[1..] == rest;
  }

  /** The worker takes the oldest pending row through a whole batch. */
  lemma TakeNext(c: Config, s: State, k: nat, n: nat, a: AccountId, reply: Reply) returns (acts: seq<Action>, u: State)
    requires Waiters(s, k, n) && k < n && SoleIdle(s, a)
    ensures Run(c, s, acts, u) && Waiters(u, k + 1, n) && SoleIdle(u, a) && OneWrite(acts, 3, 0, reply)
    ensures u.grants == s.grants + [Grant(a, s.accounts[a].sequence + 1, |s.writes|)]
    ensures u.accounts[a].sequence == s.accounts[a].sequence + Bit(reply != Refused)
    ensures u.syncers == s.syncers
  {
    assert OldestPending(s.txs, k);
    var v := Apply(c, s, Work(0, Fetch(k)));
    RunSnoc(c, s, [], s, Work(0, Fetch(k)));
    var xs;
    xs, u := RunBatch(c, v, 0, a, Errored(""), 0, reply);
    RunConcat(c, s, [Work(0, Fetch(k))], v, xs, u);
    acts := [Work(0, Fetch(k))] + xs;
    assert BatchDone(v, u, 0, a, Errored(""), 0, reply);
    assert forall t :: t in s.txs && t != k ==> u.txs[t] == s.txs[t];
  }

  /** The syncer lists the account and learns of a number one above the stored one. */
  lemma Compare(c: Config, s: State, a: AccountId) returns (acts: seq<Action>, u: State)
    requires |s.syncers| == 1 && s.syncers[0].Resting? && SoleIdle(s, a)
    ensures Run(c, s, acts, u) && AllSmooth(acts) && u == s.(syncers := u.syncers)
    ensures |u.syncers| == 1 && u.syncers[0].Comparing?
    ensures u.syncers[0].account == a && u.syncers[0].network == s.accounts[a].sequence + 1
  {
    var n := s.accounts[a].sequence;
    var s1 := Apply(c, s, Sync(0, List));
    RunSnoc(c, s, [], s, Sync(0, List));
    assert s1.syncers[0].left[a] == n;
    u := Apply(c, s1, Sync(0, Query(a, n + 1)));
    RunSnoc(c, s, [Sync(0, List)], s1, Sync(0, Query(a, n + 1)));
    acts := [Sync(0, List)] + [Sync(0, Query(a, n + 1))];
  }

  lemma OneWriteWithin(xs: seq<Action>, ys: seq<Action>, zs: seq<Action>, p: nat, q: nat, i: nat, reply: Reply)
    requires forall k :: 0 <= k < |xs| ==> xs[k].Enqueue?
    requires OneWrite(ys, p, i, reply) && OneWrite(zs, q, i, Done)
    ensures OneWrite(xs + ys + zs, |xs| + p, i, reply)
  {
    assert Smooth(zs[q]);
  }

  /** `n` rows are enqueued and the first two go through whole batches; the sequence write of the
      first, at position `p`, gets `reply`. */
  lemma TwoBatches(c: Config, s: State, n: nat, a: AccountId, reply: Reply)
    returns (acts: seq<Action>, u: State, p: nat)
    requires Waiters(s, 0, 0) && SoleIdle(s, a) && s.grants == [] && 2 <= n
    ensures Run(c, s, acts, u) && Waiters(u, 2, n) && SoleIdle(u, a) && u.syncers == s.syncers
    ensures OneWrite(acts, p, 0, reply)
    ensures |u.grants| == 2 && u.grants[0].account == a && u.grants[0].number == s.accounts[a].sequence + 1
    ensures u.grants[1].account == a && u.grants[1].number == s.accounts[a].sequence + Bit(reply != Refused) + 1
    ensures u.accounts[a].sequence == s.accounts[a].sequence + Bit(reply != Refused) + 1
  {
    var xs, s1 := EnqueueUpTo(c, s, 0, n);
    var ys, s2 := TakeNext(c, s1, 0, n, a, reply);
    var zs;
    zs, u := TakeNext(c, s2, 1, n, a, Done);
    RunThree(c, s, xs, s1, ys, s2, zs, u);
    acts, p := xs + ys + zs, |xs| + 3;
    OneWriteWithin(xs, ys, zs, 3, 3, 0, reply);
  }

  /** One refused sequence write, with everything else going as it should and no sync at all, lets the
      next lease of the account compute the same number. */
  lemma RefusedWriteRepeats(c: Config, s: State, a: AccountId) returns (acts: seq<Action>, u: State, p: nat)
    requires Initial(s) && |s.workers| == 1 && SoleIdle(s, a)
    ensures Run(c, s, acts, u) && OneWrite(acts, p, 0, Refused)
    ensures |u.grants| == 2 && u.grants[0].account == u.grants[1].account && u.grants[0].number == u.grants[1].number
  {
    acts, u, p := TwoBatches(c, s, 2, a, Refused);
  }

  /** Two lease cycles between a sync's comparison and its write. */
  lemma BeforeLateWrite(c: Config, s: State, a: AccountId) returns (acts: seq<Action>, u: State)
    requires Initial(s) && |s.workers| == 1 && |s.syncers| == 1 && SoleIdle(s, a)
    ensures Run(c, s, acts, u) && AllSmooth(acts) && Waiters(u, 2, 3) && SoleIdle(u, a)
    ensures |u.syncers| == 1 && u.syncers[0].Comparing? && u.syncers[0].account == a
    ensures u.syncers[0].network == s.accounts[a].sequence + 1
    ensures |u.grants| == 2 && u.grants[1].account == a && u.grants[1].number == s.accounts[a].sequence + 2
    ensures u.accounts[a].sequence == s.accounts[a].sequence + 2
  {
    var ws, s1 := Compare(c, s, a);
    var xs, p;
    xs, u, p := TwoBatches(c, s1, 3, a, Done);
    RunConcat(c, s, ws, s1, xs, u);
    OneWriteSmooth(xs, p, 0);
    SmoothJoin(ws, xs);
    acts := ws + xs;
  }

  /** A run of smooth steps from `s` to `u`: in `v` the only syncer is about to write, that write takes
      effect and lowers the stored number, and no sync step follows. */
  ghost predicate LateWrite(c: Config, s: State, before: seq<Action>, v: State, after: seq<Action>, u: State)
  {
    && Run(c, s, before, v) && AllSmooth(before)
    && |v.syncers| == 1 && Lowers(v, v.syncers[0], Done)
    && Run(c, Apply(c, v, Sync(0, Overwrite(Done))), after, u) && AllSmooth(after)
    && forall k :: 0 <= k < |after| ==> !after[k].Sync?
  }

  /** The one lease granted between `v` and `u` repeats the number of the last one before. */
  predicate RepeatsLast(v: State, u: State)
  {
    && |v.grants| > 0 && |u.grants| == |v.grants| + 1 && v.grants <= u.grants
    && var last, next := v.grants[|v.grants| - 1], u.grants[|v.grants|];
       next.account == last.account && next.number == last.number
  }

  /** The sync's write takes effect on the idle account and leaves all else as it is. */
  lemma LateWriteLands(c: Config, v: State, a: AccountId) returns (w: State)
    requires Waiters(v, 2, 3) && SoleIdle(v, a) && |v.syncers| == 1 && v.syncers[0].Comparing?
    requires v.syncers[0].account == a
    ensures w == Apply(c, v, Sync(0, Overwrite(Done)))
    ensures Waiters(w, 2, 3) && SoleIdle(w, a) && w.grants == v.grants
    ensures w.accounts[a].sequence == v.syncers[0].network
  {
    w := Apply(c, v, Sync(0, Overwrite(Done)));
  }

  /** With every call succeeding, a sync that compared before two lease cycles and writes after them
      lowers the stored number, and the next lease repeats a number. */
  lemma LateSyncRepeats(c: Config, s: State, a: AccountId)
    returns (before: seq<Action>, v: State, after: seq<Action>, u: State)
    requires Initial(s) && |s.workers| == 1 && |s.syncers| == 1 && SoleIdle(s, a)
    ensures LateWrite(c, s, before, v, after, u) && RepeatsLast(v, u)
  {
    before, v := BeforeLateWrite(c, s, a);
    var w := LateWriteLands(c, v, a);
    after, u := TakeNext(c, w, 2, 3, a, Done);
    OneWriteSmooth(after, 3, 0);
  }
}
