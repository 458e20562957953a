/** One worker and at most one retrier: the deployment in which `confirmed` is absorbing. */
module Deployment {
  import opened Tables
  import opened Protocol
  import opened Effects
  import opened Submissions
  import opened Outcomes

  predicate RetrierHolds(r: Retrier, t: TxId)
  {
    !r.Ready? && r.tx == t
  }

  ghost predicate NobodyHolds(s: State, t: TxId)
  {
    && (forall i | 0 <= i < |s.workers| :: !WorkerHolds(s.workers[i], t))
    && (forall j | 0 <= j < |s.retriers| :: !RetrierHolds(s.retriers[j], t))
  }

  /** With one process of each kind, the status tells which program counter its holder is at. */
  ghost predicate InTurn(s: State, t: TxId)
  {
    && |s.workers| == 1 && |s.retriers| <= 1
    && (WorkerHolds(s.workers[0], t) ==>
          HasStatus(s, t, if s.workers[0].Fetched? then Pending else Submitting))
    && (|s.retriers| == 1 && RetrierHolds(s.retriers[0], t) ==>
          && HasStatus(s, t, if s.retriers[0].Gated? || s.retriers[0].Counted? then Failed else Submitting)
          && !WorkerHolds(s.workers[0], t))
  }

  lemma StepInTurn(c: Config, s: State, x: Action, t: TxId)
    requires Enabled(c, s, x) && InTurn(s, t)
    ensures InTurn(Apply(c, s, x), t)
  {
    match x
    case Work(i, work) => WorkEffect(c, s, i, work, t);
    case Retry(j, retry) => RetryEffects(c, s, j, retry, t);
    case _ => OtherEffect(c, s, x, t);
  }

  lemma {:induction false} RunInTurn(c: Config, s: State, acts: seq<Action>, u: State, t: TxId)
    requires Run(c, s, acts, u) && InTurn(s, t)
    ensures InTurn(u, t)
    decreases |acts|
  {
    if acts == [] {
    } else {
      StepInTurn(c, s, acts[0], t);
      RunInTurn(c, Apply(c, s, acts[0]), acts[1..], u, t);
    }
  }

  lemma WorkElsewhere(c: Config, s: State, i: nat, x: WorkerStep, t: TxId)
    requires Enabled(c, s, Work(i, x)) && HasStatus(s, t, Confirmed) && NobodyHolds(s, t)
    ensures var u := Apply(c, s, Work(i, x));
      HasStatus(u, t, Confirmed) && NobodyHolds(u, t) && u.txs[t] == s.txs[t] && Calls(u, t) == Calls(s, t)
  {
    var w := s.workers[i];
    var u := Apply(c, s, Work(i, x));
    WorkEffect(c, s, i, x, t);
    assert !WorkerHolds(w, t);
    assert forall j | 0 <= j < |s.workers| && j != i :: u.workers[j] == s.workers[j];
    CallCounted(s.calls, if x.Submit? then [Call(w.tx, w.envelope, x.outcome, x.sends, false)] else [], false, t);
  }

  lemma RetryElsewhere(c: Config, s: State, j: nat, x: RetryStep, t: TxId)
    requires Enabled(c, s, Retry(j, x)) && HasStatus(s, t, Confirmed) && NobodyHolds(s, t)
    ensures var u := Apply(c, s, Retry(j, x));
      HasStatus(u, t, Confirmed) && NobodyHolds(u, t) && u.txs[t] == s.txs[t] && Calls(u, t) == Calls(s, t)
  {
    var r := s.retriers[j];
    var u := Apply(c, s, Retry(j, x));
    RetryEffects(c, s, j, x, t);
    assert !RetrierHolds(r, t);
    assert forall k | 0 <= k < |s.retriers| && k != j :: u.retriers[k] == s.retriers[k];
    CallCounted(s.calls, if x.Resubmit? then [Call(r.tx, r.envelope, x.outcome, x.sends, true)] else [], true, t);
  }

  /** Nobody picks up a confirmed row, so it is neither written nor submitted again. */
  lemma {:induction false} SettledForGood(c: Config, s: State, acts: seq<Action>, u: State, t: TxId)
    requires Run(c, s, acts, u) && HasStatus(s, t, Confirmed) && NobodyHolds(s, t)
    ensures HasStatus(u, t, Confirmed) && u.txs[t] == s.txs[t] && Calls(u, t) == Calls(s, t)
    decreases |acts|
  {
    if acts == [] {
    } else {
      match acts[0] {
        case Work(i, x) => WorkElsewhere(c, s, i, x, t);
        case Retry(j, x) => RetryElsewhere(c, s, j, x, t);
        case _ => OtherEffect(c, s, acts[0], t);
      }
      SettledForGood(c, Apply(c, s, acts[0]), acts[1..], u, t);
    }
  }

  lemma ConfirmedIsFree(s: State, t: TxId)
    requires InTurn(s, t) && HasStatus(s, t, Confirmed)
    ensures NobodyHolds(s, t)
  {
  }

  /** One worker and at most one retrier, any failures and crashes: once confirmed, a transaction
      stays confirmed and reaches the router no more, and it never does so more than
      1 + retry_count times. */
  lemma ConfirmedAbsorbs(c: Config, s: State, before: seq<Action>, u: State, after: seq<Action>, v: State, t: TxId)
    requires Initial(s) && |s.workers| == 1 && |s.retriers| <= 1
    requires Run(c, s, before, u) && HasStatus(u, t, Confirmed) && Run(c, u, after, v)
    ensures HasStatus(v, t, Confirmed) && v.txs[t] == u.txs[t] && Calls(v, t) == Calls(u, t)
    ensures Calls(u, t) <= 1 + u.txs[t].retryCount
  {
    RunInTurn(c, s, before, u, t);
    ConfirmedIsFree(u, t);
    SettledForGood(c, u, after, v, t);
    DuplicateBound(c, s, before, u, t);
  }
}
