/** When a transaction can be confirmed at all: a batch or a retry must reach a Horizon endpoint, since
    a successful Soroban send is reported as an error. */
module Confirming {
  import opened Base
  import opened Tables
  import opened Protocol
  import opened Submissions
  import opened Retries
  import opened Outcomes

  /** Some run from `s`, of any length and with any other transactions, confirms a row with `envelope`. */
  ghost predicate CanConfirm(c: Config, s: State, envelope: Envelope)
  {
    exists acts, u, t :: Run(c, s, acts, u) && HasStatus(u, t, Confirmed) && u.txs[t].envelope == envelope
  }

  /** Somebody may retry, and the fee bump reaches a Horizon endpoint. */
  predicate BumpReaches(c: Config, retriers: nat, envelope: Envelope)
  {
    retriers > 0 && c.maxRetries > 0 && c.feeBump(envelope).Some? && Reaches(c, c.feeBump(envelope).value)
  }

  // ----- only so -----

  lemma {:induction false} NoRetrierNoRetry(c: Config, s: State, acts: seq<Action>, u: State)
    requires Run(c, s, acts, u) && s.retriers == []
    requires forall k | 0 <= k < |s.calls| :: !s.calls[k].retry
    ensures forall k | 0 <= k < |u.calls| :: !u.calls[k].retry
    decreases |acts|
  {
    if acts == [] {
    } else {
      NoRetrierNoRetry(c, Apply(c, s, acts[0]), acts[1..], u);
    }
  }

  lemma ConfirmedReached(c: Config, s: State, acts: seq<Action>, u: State, t: TxId)
    requires Initial(s) && Run(c, s, acts, u) && HasStatus(u, t, Confirmed)
    ensures Reaches(c, u.txs[t].envelope) || BumpReaches(c, |s.retriers|, u.txs[t].envelope)
  {
    ConfirmedWasAccepted(c, s, acts, u, t);
    var k :| 0 <= k < |u.calls| && u.calls[k].tx == t && u.calls[k].outcome == Accepted &&
      CallGenuine(c, u, u.calls[k]);
    if u.calls[k].retry {
      DuplicateBound(c, s, acts, u, t);
      RetryBound(c, s, acts, u, t);
      CountNone(u.calls, CallFor(t, true));
      assert CallFor(t, true)(u.calls[k]);
      if s.retriers == [] {
        NoRetrierNoRetry(c, s, acts, u);
      }
    }
  }

  // ----- by a batch -----

  lemma {:induction false} FreshKey(keys: set<AccountId>) returns (key: AccountId)
    ensures forall k :: k in keys ==> k < key
    decreases |keys|
  {
    key := 0;
    if keys != {} {
      var k :| k in keys;
      var rest := FreshKey(keys - {k});
      key := if k < rest then rest else k + 1;
      assert forall j :: j in keys ==> j == k || j in keys - {k};
    }
  }

  /** A worker with a marked row can lease an account, if need be one added for it. */
  lemma CanLease(c: Config, s: State, i: nat) returns (acts: seq<Action>, u: State)
    requires i < |s.workers| && s.workers[i].Marked?
    ensures Run(c, s, acts, u) && u.txs == s.txs
    ensures |u.workers| == |s.workers| && u.workers == s.workers[i := u.workers[i]]
    ensures var w := u.workers[i]; w.Holding? && w.tx == s.workers[i].tx && w.envelope == s.workers[i].envelope
  {
    acts, u := [], s;
    if IdleIds(s.accounts) == {} {
      var key := FreshKey(s.accounts.Keys);
      RunSnoc(c, s, acts, u, AddAccount(key));
      acts, u := acts + [AddAccount(key)], Apply(c, u, AddAccount(key));
      assert key in IdleIds(u.accounts);
    }
    var a := SomeLeastUsed(u.accounts, IdleIds(u.accounts));
    assert LeastRecentlyUsed(u.accounts, a) by {
      assert forall b :: IsIdle(u.accounts, b) ==> b in IdleIds(u.accounts);
    }
    RunSnoc(c, s, acts, u, Work(i, Lease(a, Done)));
    acts, u := acts + [Work(i, Lease(a, Done))], Apply(c, u, Work(i, Lease(a, Done)));
  }

  /** The first row is fetched and marked. */
  lemma CanMark(c: Config, s: State, envelope: Envelope) returns (acts: seq<Action>, u: State)
    requires Initial(s) && |s.workers| > 0
    ensures Run(c, s, acts, u) && |u.workers| > 0 && u.workers[0] == Marked(0, envelope)
    ensures 0 in u.txs && u.txs[0].envelope == envelope
  {
    var s1 := Apply(c, s, Enqueue(0, envelope, 0));
    assert OldestPending(s1.txs, 0);
    var s2 := Apply(c, s1, Work(0, Fetch(0)));
    u := Apply(c, s2, Work(0, Mark(Done)));
    acts := [] + [Enqueue(0, envelope, 0)];
    RunSnoc(c, s, [], s, Enqueue(0, envelope, 0));
    RunSnoc(c, s, acts, s1, Work(0, Fetch(0)));
    acts := acts + [Work(0, Fetch(0))];
    RunSnoc(c, s, acts, s2, Work(0, Mark(Done)));
    acts := acts + [Work(0, Mark(Done))];
  }

  /** A worker that holds an account can have its envelope accepted and its row confirmed. */
  lemma CanAccept(c: Config, s: State, i: nat) returns (acts: seq<Action>, u: State)
    requires i < |s.workers| && s.workers[i].Holding? && s.workers[i].tx in s.txs && Reaches(c, s.workers[i].envelope)
    ensures Run(c, s, acts, u) && HasStatus(u, s.workers[i].tx, Confirmed)
    ensures u.txs[s.workers[i].tx].envelope == s.txs[s.workers[i].tx].envelope
    ensures u.workers == s.workers[i := Waiting]
  {
    var s1 := Apply(c, s, Work(i, WriteSequence(Done)));
    var s2 := Apply(c, s1, Work(i, Submit(Accepted, 1)));
    acts := [] + [Work(i, WriteSequence(Done))];
    RunSnoc(c, s, [], s, Work(i, WriteSequence(Done)));
    RunSnoc(c, s, acts, s1, Work(i, Submit(Accepted, 1)));
    acts := acts + [Work(i, Submit(Accepted, 1))];
    var rest;
    rest, u := WorkerCanSettle(c, s2, i);
    RunConcat(c, s, acts, s2, rest, u);
    acts := acts + rest;
  }

  lemma BatchConfirms(c: Config, s: State, envelope: Envelope) returns (acts: seq<Action>, u: State)
    requires Initial(s) && |s.workers| > 0 && Reaches(c, envelope)
    ensures Run(c, s, acts, u) && HasStatus(u, 0, Confirmed) && u.txs[0].envelope == envelope
  {
    var xs, s1 := CanMark(c, s, envelope);
    var ys, s2 := CanLease(c, s1, 0);
    var zs;
    zs, u := CanAccept(c, s2, 0);
    RunThree(c, s, xs, s1, ys, s2, zs, u);
    acts := xs + ys + zs;
  }

  // ----- by a retry -----

  /** A retrier past the gate can count its attempt and mark the row. */
  lemma GatedRemarks(c: Config, s: State, j: nat) returns (acts: seq<Action>, u: State)
    requires j < |s.retriers| && s.retriers[j].Gated? && s.retriers[j].tx in s.txs
    requires c.feeBump(s.retriers[j].envelope).Some?
    ensures Run(c, s, acts, u) && u.txs.Keys == s.txs.Keys
    ensures var r := s.retriers[j];
      && u.txs[r.tx].envelope == s.txs[r.tx].envelope
      && u.retriers == s.retriers[j := Remarked(r.tx, c.feeBump(r.envelope).value)]
  {
    var v := Apply(c, s, Retry(j, Increment(Done)));
    u := Apply(c, v, Retry(j, Remark(Done)));
    RunSnoc(c, s, [], s, Retry(j, Increment(Done)));
    acts := [] + [Retry(j, Increment(Done))];
    RunSnoc(c, s, acts, v, Retry(j, Remark(Done)));
    acts := acts + [Retry(j, Remark(Done))];
    assert u.retriers == s.retriers[j := u.retriers[j]];
  }

  /** Its fee bump can then be accepted and the row confirmed. */
  lemma RemarkedAccepted(c: Config, s: State, j: nat) returns (acts: seq<Action>, u: State)
    requires j < |s.retriers| && s.retriers[j].Remarked? && s.retriers[j].tx in s.txs
    requires Reaches(c, s.retriers[j].envelope)
    ensures Run(c, s, acts, u) && HasStatus(u, s.retriers[j].tx, Confirmed)
    ensures u.txs[s.retriers[j].tx].envelope == s.txs[s.retriers[j].tx].envelope
    ensures u.retriers == s.retriers[j := Ready]
  {
    var v := Apply(c, s, Retry(j, Resubmit(Accepted, 1)));
    u := Apply(c, v, Retry(j, Conclude(Done)));
    RunSnoc(c, s, [], s, Retry(j, Resubmit(Accepted, 1)));
    acts := [] + [Retry(j, Resubmit(Accepted, 1))];
    RunSnoc(c, s, acts, v, Retry(j, Conclude(Done)));
    acts := acts + [Retry(j, Conclude(Done))];
    assert u.retriers == s.retriers[j := Ready];
  }

  /** A retrier past the gate can have its fee bump accepted. */
  lemma GatedAccepted(c: Config, s: State, j: nat) returns (acts: seq<Action>, u: State)
    requires j < |s.retriers| && s.retriers[j].Gated? && s.retriers[j].tx in s.txs
    requires BumpReaches(c, |s.retriers|, s.retriers[j].envelope)
    ensures Run(c, s, acts, u) && HasStatus(u, s.retriers[j].tx, Confirmed)
    ensures u.txs[s.retriers[j].tx].envelope == s.txs[s.retriers[j].tx].envelope
    ensures u.retriers == s.retriers[j := Ready]
  {
    var xs, v := GatedRemarks(c, s, j);
    var ys;
    ys, u := RemarkedAccepted(c, v, j);
    RunConcat(c, s, xs, v, ys, u);
    acts := xs + ys;
  }

  /** A retry of a failed row can be accepted. */
  lemma RetryAccepted(c: Config, s: State, envelope: Envelope) returns (acts: seq<Action>, u: State)
    requires FailedAndCalm(s, 0, 0) && s.txs[0].envelope == envelope && BumpReaches(c, |s.retriers|, envelope)
    ensures Run(c, s, acts, u) && HasStatus(u, 0, Confirmed) && u.txs[0].envelope == envelope
  {
    var v := Apply(c, s, Retry(0, Gate(0)));
    RunSnoc(c, s, [], s, Retry(0, Gate(0)));
    var rest;
    rest, u := GatedAccepted(c, v, 0);
    RunConcat(c, s, [] + [Retry(0, Gate(0))], v, rest, u);
    acts := [] + [Retry(0, Gate(0))] + rest;
  }

  lemma RetryConfirms(c: Config, s: State, envelope: Envelope) returns (acts: seq<Action>, u: State)
    requires Initial(s) && |s.workers| > 0 && BumpReaches(c, |s.retriers|, envelope)
    ensures Run(c, s, acts, u) && HasStatus(u, 0, Confirmed) && u.txs[0].envelope == envelope
  {
    var xs, v := FailOne(c, s, envelope);
    var ys;
    ys, u := RetryAccepted(c, v, envelope);
    RunConcat(c, s, xs, v, ys, u);
    acts := xs + ys;
  }

  /** From any fresh start with a worker, a transaction can be confirmed if and only if its envelope
      reaches a Horizon endpoint, or retries are allowed and its fee bump reaches one. */
  lemma ConfirmableIff(c: Config, s: State, envelope: Envelope)
    requires Initial(s) && |s.workers| > 0
    ensures CanConfirm(c, s, envelope) <==> Reaches(c, envelope) || BumpReaches(c, |s.retriers|, envelope)
  {
    if CanConfirm(c, s, envelope) {
      var acts, u, t :| Run(c, s, acts, u) && HasStatus(u, t, Confirmed) && u.txs[t].envelope == envelope;
      ConfirmedReached(c, s, acts, u, t);
    }
    if Reaches(c, envelope) {
      var acts, u := BatchConfirms(c, s, envelope);
      assert Run(c, s, acts, u) && HasStatus(u, 0, Confirmed);
    } else if BumpReaches(c, |s.retriers|, envelope) {
      var acts, u := RetryConfirms(c, s, envelope);
      assert Run(c, s, acts, u) && HasStatus(u, 0, Confirmed);
    }
  }
}
