/** How often one transaction can reach the router. The mark that is meant to keep other workers
    away is unconditional, so every worker that read the row while it was pending may submit it. */
module Submissions {
  import opened Base
  import opened Tables
  import opened Protocol
  import opened Effects
  import Division

  /** Workers that may still submit `t`. */
  function BeforeSubmit(t: TxId): Worker -> bool
  {
    (w: Worker) => (w.Fetched? || w.Marked? || w.Holding? || w.Sequenced?) && w.tx == t
  }

  /** Retriers that have counted their attempt on `t` and may still submit it. */
  function BeforeResubmit(t: TxId): Retrier -> bool
  {
    (r: Retrier) => (r.Counted? || r.Remarked?) && r.tx == t
  }

  function CallFor(t: TxId, retry: bool): Call -> bool
  {
    (call: Call) => call.tx == t && call.retry == retry
  }

  /** Router calls made for `t`, by workers and by retriers. */
  function Calls(s: State, t: TxId): nat
  {
    Count(s.calls, CallFor(t, false)) + Count(s.calls, CallFor(t, true))
  }

  /** The row exists and has left `pending`. */
  predicate Begun(s: State, t: TxId)
  {
    t in s.txs && s.txs[t].status != Pending
  }

  // ----- nothing happens to a pending row -----

  ghost predicate Untouched(s: State, t: TxId)
  {
    && (forall i | 0 <= i < |s.workers| ::
          s.workers[i].Waiting? || s.workers[i].tx != t || (s.workers[i].Fetched? && t in s.txs))
    && (forall j | 0 <= j < |s.retriers| :: s.retriers[j].Ready? || s.retriers[j].tx != t)
    && (forall k | 0 <= k < |s.calls| :: s.calls[k].tx != t)
    && (t in s.txs ==> s.txs[t].retryCount == 0)
  }

  ghost predicate UntouchedUntilBegun(s: State, t: TxId)
  {
    !Begun(s, t) ==> Untouched(s, t)
  }

  lemma WorkUntouched(c: Config, s: State, i: nat, x: WorkerStep, t: TxId)
    requires Enabled(c, s, Work(i, x)) && Untouched(s, t) && !Begun(s, t)
    ensures UntouchedUntilBegun(Apply(c, s, Work(i, x)), t)
  {
    WorkEffect(c, s, i, x, t);
    var u := Apply(c, s, Work(i, x));
    assert forall j | 0 <= j < |s.workers| && j != i :: u.workers[j] == s.workers[j];
  }

  lemma StepUntouched(c: Config, s: State, x: Action, t: TxId)
    requires Enabled(c, s, x) && UntouchedUntilBegun(s, t)
    ensures UntouchedUntilBegun(Apply(c, s, x), t)
    ensures Begun(s, t) ==> Begun(Apply(c, s, x), t)
  {
    match x
    case Work(i, work) =>
      WorkEffect(c, s, i, work, t);
      if !Begun(s, t) {
        WorkUntouched(c, s, i, work, t);
      }
    case Retry(j, retry) => RetryEffects(c, s, j, retry, t);
    case _ => OtherEffect(c, s, x, t);
  }

  // ----- the bound once the row has left `pending` -----

  ghost predicate Bounded(s: State, t: TxId)
  {
    && UntouchedUntilBegun(s, t)
    && (Begun(s, t) ==>
          && Count(s.calls, CallFor(t, false)) + Count(s.workers, BeforeSubmit(t)) <= |s.workers|
          && Count(s.calls, CallFor(t, true)) + Count(s.retriers, BeforeResubmit(t)) <= s.txs[t].retryCount)
  }

  /** A worker's step spends a permit to submit `t` for each call, and gains none. */
  lemma WorkSpends(c: Config, s: State, i: nat, x: WorkerStep, t: TxId)
    requires Enabled(c, s, Work(i, x)) && Begun(s, t)
    ensures var w := s.workers[i];
      Bit(BeforeSubmit(t)(WorkerAfter(c, s, w, x))) + Bit(x.Submit? && w.tx == t) <= Bit(BeforeSubmit(t)(w))
  {
  }

  /** One more router call adds to the count it belongs to and to no other. */
  lemma CallCounted(calls: seq<Call>, more: seq<Call>, retry: bool, t: TxId)
    requires |more| <= 1 && (more != [] ==> more[0].retry == retry)
    ensures Count(calls + more, CallFor(t, retry)) ==
      Count(calls, CallFor(t, retry)) + Bit(more != [] && more[0].tx == t)
    ensures Count(calls + more, CallFor(t, !retry)) == Count(calls, CallFor(t, !retry))
  {
    if more == [] {
      assert calls + more == calls;
    } else {
      assert more == [more[0]];
      CountAppend(calls, more[0], CallFor(t, retry));
      CountAppend(calls, more[0], CallFor(t, !retry));
    }
  }

  lemma WorkBounded(s: State, u: State, i: nat, w: Worker, calls: seq<Call>, t: TxId)
    requires i < |s.workers| && u.workers == s.workers[i := w] && u.calls == s.calls + calls
    requires |calls| <= 1 && (calls != [] ==> !calls[0].retry)
    requires Bit(BeforeSubmit(t)(w)) + Bit(calls != [] && calls[0].tx == t) <= Bit(BeforeSubmit(t)(s.workers[i]))
    ensures Count(u.calls, CallFor(t, false)) + Count(u.workers, BeforeSubmit(t))
         <= Count(s.calls, CallFor(t, false)) + Count(s.workers, BeforeSubmit(t))
    ensures Count(u.calls, CallFor(t, true)) == Count(s.calls, CallFor(t, true))
  {
    CountUpdate(s.workers, i, w, BeforeSubmit(t));
    CallCounted(s.calls, calls, false, t);
  }

  /** A retrier's step spends a permit for each call, and gains one only by counting an attempt. */
  lemma RetrySpends(c: Config, s: State, j: nat, x: RetryStep, t: TxId)
    requires Enabled(c, s, Retry(j, x)) && Begun(s, t)
    ensures var r := s.retriers[j]; var u := Apply(c, s, Retry(j, x));
      t in u.txs && Bit(BeforeResubmit(t)(RetrierAfter(c, s, r, x))) + Bit(x.Resubmit? && r.tx == t)
      <= Bit(BeforeResubmit(t)(r)) + u.txs[t].retryCount - s.txs[t].retryCount
  {
    RetryEffects(c, s, j, x, t);
  }

  lemma RetryBounded(s: State, u: State, j: nat, r: Retrier, calls: seq<Call>, t: TxId)
    requires j < |s.retriers| && u.retriers == s.retriers[j := r] && u.calls == s.calls + calls
    requires |calls| <= 1 && (calls != [] ==> calls[0].retry) && t in s.txs && t in u.txs
    requires Bit(BeforeResubmit(t)(r)) + Bit(calls != [] && calls[0].tx == t)
      <= Bit(BeforeResubmit(t)(s.retriers[j])) + u.txs[t].retryCount - s.txs[t].retryCount
    requires Count(s.calls, CallFor(t, true)) + Count(s.retriers, BeforeResubmit(t)) <= s.txs[t].retryCount
    ensures Count(u.calls, CallFor(t, true)) + Count(u.retriers, BeforeResubmit(t)) <= u.txs[t].retryCount
    ensures Count(u.calls, CallFor(t, false)) == Count(s.calls, CallFor(t, false))
  {
    CountUpdate(s.retriers, j, r, BeforeResubmit(t));
    CallCounted(s.calls, calls, true, t);
  }

  /** When the row leaves `pending` there are no calls, no retriers and at most W readers. */
  lemma BeginBounded(s: State, u: State, t: TxId)
    requires Untouched(s, t) && Begun(u, t) && u.calls == s.calls && u.retriers == s.retriers
    ensures Bounded(u, t)
  {
    CountNone(u.calls, CallFor(t, false));
    CountNone(u.calls, CallFor(t, true));
    CountNone(u.retriers, BeforeResubmit(t));
  }

  lemma StepBounded(c: Config, s: State, x: Action, t: TxId)
    requires Enabled(c, s, x) && Bounded(s, t)
    ensures Bounded(Apply(c, s, x), t)
  {
    var u := Apply(c, s, x);
    StepUntouched(c, s, x, t);
    match x
    case Work(i, work) =>
      WorkEffect(c, s, i, work, t);
      if Begun(s, t) {
        var w := s.workers[i];
        WorkSpends(c, s, i, work, t);
        var calls := if work.Submit? then [Call(w.tx, w.envelope, work.outcome, work.sends, false)] else [];
        WorkBounded(s, u, i, WorkerAfter(c, s, w, work), calls, t);
      } else if Begun(u, t) {
        BeginBounded(s, u, t);
      }
    case Retry(j, retry) =>
      RetryEffects(c, s, j, retry, t);
      if Begun(s, t) {
        var r := s.retriers[j];
        RetrySpends(c, s, j, retry, t);
        var calls := if retry.Resubmit? then [Call(r.tx, r.envelope, retry.outcome, retry.sends, true)] else [];
        RetryBounded(s, u, j, RetrierAfter(c, s, r, retry), calls, t);
      }
    case _ => OtherEffect(c, s, x, t);
  }

  lemma {:induction false} RunBounded(c: Config, s: State, acts: seq<Action>, u: State, t: TxId)
    requires Run(c, s, acts, u) && Bounded(s, t)
    ensures Bounded(u, t)
    ensures |u.workers| == |s.workers| && |u.retriers| == |s.retriers|
    decreases |acts|
  {
    if acts == [] {
    } else {
      StepBounded(c, s, acts[0], t);
      RunBounded(c, Apply(c, s, acts[0]), acts[1..], u, t);
    }
  }

  /** Under any interleaving with failures and crashes, a transaction reaches the router not at all
      while it is pending, and with W workers at most W + retry_count times ever. */
  lemma DuplicateBound(c: Config, s: State, acts: seq<Action>, u: State, t: TxId)
    requires Initial(s) && Run(c, s, acts, u)
    ensures IsPending(u.txs, t) || t !in u.txs ==> Calls(u, t) == 0
    ensures t in u.txs ==> Calls(u, t) <= |s.workers| + u.txs[t].retryCount
    ensures t in u.txs ==> Count(u.calls, CallFor(t, true)) <= u.txs[t].retryCount
    ensures Count(u.calls, CallFor(t, false)) <= |s.workers|
  {
    RunBounded(c, s, acts, u, t);
    CountNone(u.calls, CallFor(t, false));
    CountNone(u.calls, CallFor(t, true));
  }

  // ----- endpoint submissions -----

  /** Submissions to endpoints made for `t` by all its router calls together. */
  function Sends(calls: seq<Call>, t: TxId): nat
  {
    if calls == [] then 0
    else
      var last := calls[|calls| - 1];
      Sends(calls[..|calls| - 1], t) + if last.tx == t then last.sends else 0
  }

  lemma SendsAppend(calls: seq<Call>, call: Call, t: TxId)
    ensures Sends(calls + [call], t) == Sends(calls, t) + if call.tx == t then call.sends else 0
  {
    assert (calls + [call])[..|calls|] == calls;
  }

  /** The endpoints of the larger backend. */
  function Widest(c: Config): nat
  {
    if c.horizons < c.sorobans then c.sorobans else c.horizons
  }

  ghost predicate Capped(calls: seq<Call>, n: nat)
  {
    forall k :: 0 <= k < |calls| ==> calls[k].sends <= n
  }

  lemma {:induction false} RunCapped(c: Config, s: State, acts: seq<Action>, u: State)
    requires Run(c, s, acts, u) && Capped(s.calls, Widest(c))
    ensures Capped(u.calls, Widest(c))
    decreases |acts|
  {
    if acts == [] {
    } else {
      RunCapped(c, Apply(c, s, acts[0]), acts[1..], u);
    }
  }

  lemma {:induction false} SendsAtMost(calls: seq<Call>, t: TxId, n: nat)
    requires Capped(calls, n)
    ensures Sends(calls, t) <= (Count(calls, CallFor(t, false)) + Count(calls, CallFor(t, true))) * n
    decreases |calls|
  {
    if calls == [] {
    } else {
      var most, last := calls[..|calls| - 1], calls[|calls| - 1];
      SendsAtMost(most, t, n);
      Division.OneMore(Count(most, CallFor(t, false)) + Count(most, CallFor(t, true)), n);
      assert calls == most + [last];
      CallCounted(most, [last], last.retry, t);
    }
  }

  /** Under any interleaving with failures and crashes, the endpoints of n-endpoint backends receive a
      transaction not at all while it is pending, and at most (W + retry_count) * n times ever. */
  lemma SendBound(c: Config, s: State, acts: seq<Action>, u: State, t: TxId)
    requires Initial(s) && Run(c, s, acts, u)
    ensures IsPending(u.txs, t) || t !in u.txs ==> Sends(u.calls, t) == 0
    ensures t in u.txs ==> Sends(u.calls, t) <= (|s.workers| + u.txs[t].retryCount) * Widest(c)
  {
    DuplicateBound(c, s, acts, u, t);
    RunCapped(c, s, acts, u);
    SendsAtMost(u.calls, t, Widest(c));
    if t in u.txs {
      Division.TimesMonotone(Calls(u, t), |s.workers| + u.txs[t].retryCount, Widest(c));
    }
  }
}
