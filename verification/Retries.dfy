/** The retry bound under races. The gate reads the count outside any lock, so retriers that pass
    it together may carry the count past the maximum, by a margin that is exact. */
module Retries {
  import opened Base
  import opened Tables
  import opened Protocol
  import opened Effects

  /** Past the gate, count not yet incremented. */
  function GatedOn(t: TxId): Retrier -> bool
  {
    (r: Retrier) => r.Gated? && r.tx == t
  }

  function RetryCount(s: State, t: TxId): nat
  {
    if t in s.txs then s.txs[t].retryCount else 0
  }

  ghost predicate WithinBound(c: Config, s: State, t: TxId)
  {
    if c.maxRetries == 0
    then RetryCount(s, t) + Count(s.retriers, GatedOn(t)) == 0
    else RetryCount(s, t) + Count(s.retriers, GatedOn(t)) <= c.maxRetries - 1 + |s.retriers|
  }

  lemma StepWithinBound(c: Config, s: State, x: Action, t: TxId)
    requires Enabled(c, s, x) && WithinBound(c, s, t)
    ensures WithinBound(c, Apply(c, s, x), t)
  {
    match x
    case Work(i, work) => WorkEffect(c, s, i, work, t);
    case Retry(j, retry) =>
      RetryEffects(c, s, j, retry, t);
      CountUpdate(s.retriers, j, RetrierAfter(c, s, s.retriers[j], retry), GatedOn(t));
    case _ => OtherEffect(c, s, x, t);
  }

  lemma {:induction false} RunWithinBound(c: Config, s: State, acts: seq<Action>, u: State, t: TxId)
    requires Run(c, s, acts, u) && WithinBound(c, s, t)
    ensures WithinBound(c, u, t) && |u.retriers| == |s.retriers|
    decreases |acts|
  {
    if acts == [] {
    } else {
      StepWithinBound(c, s, acts[0], t);
      RunWithinBound(c, Apply(c, s, acts[0]), acts[1..], u, t);
    }
  }

  /** With N retriers racing, retry_count plus the retriers past the gate never exceeds
      MaxRetryAttempts - 1 + N; with one retrier the maximum is respected, and with a maximum of
      zero nothing is ever retried. */
  lemma RetryBound(c: Config, s: State, acts: seq<Action>, u: State, t: TxId)
    requires Initial(s) && Run(c, s, acts, u)
    ensures WithinBound(c, u, t)
    ensures c.maxRetries > 0 && |s.retriers| > 0 ==> RetryCount(u, t) <= c.maxRetries - 1 + |s.retriers|
    ensures |s.retriers| <= 1 ==> RetryCount(u, t) <= c.maxRetries
    ensures c.maxRetries == 0 ==> RetryCount(u, t) == 0
  {
    CountNone(s.retriers, GatedOn(t));
    RunWithinBound(c, s, acts, u, t);
  }

  // ----- the bound is attained -----

  /** Failed, counted `count` times, and no retrier busy. */
  ghost predicate FailedAndCalm(s: State, t: TxId, count: nat)
  {
    && t in s.txs && s.txs[t].status == Failed && s.txs[t].retryCount == count
    && forall j | 0 <= j < |s.retriers| :: s.retriers[j].Ready?
  }

  /** The retriers below `gated` have passed the gate on `t`, the others are ready. */
  ghost predicate GatedBelow(c: Config, s: State, t: TxId, gated: nat)
  {
    && t in s.txs && s.txs[t].status == Failed
    && forall j | 0 <= j < |s.retriers| ::
         if j < gated then s.retriers[j] == Gated(t, s.txs[t].envelope) && c.feeBump(s.txs[t].envelope).Some?
         else s.retriers[j].Ready?
  }

  /** A retry whose mark is refused counts its attempt and leaves the row as it was. */
  lemma {:induction false} CountUp(c: Config, s: State, t: TxId, count: nat, target: nat)
    returns (acts: seq<Action>, u: State)
    requires FailedAndCalm(s, t, count) && count <= target < c.maxRetries && |s.retriers| > 0
    requires c.feeBump(s.txs[t].envelope).Some?
    ensures Run(c, s, acts, u) && FailedAndCalm(u, t, target) && |u.retriers| == |s.retriers|
    ensures u.txs[t].envelope == s.txs[t].envelope
    decreases target - count
  {
    if count == target {
      return [], s;
    }
    var s1 := Apply(c, s, Retry(0, Gate(t)));
    var s2 := Apply(c, s1, Retry(0, Increment(Done)));
    var s3 := Apply(c, s2, Retry(0, Remark(Refused)));
    RunSnoc(c, s, [], s, Retry(0, Gate(t)));
    RunSnoc(c, s, [Retry(0, Gate(t))], s1, Retry(0, Increment(Done)));
    RunSnoc(c, s, [Retry(0, Gate(t)), Retry(0, Increment(Done))], s2, Retry(0, Remark(Refused)));
    var first := [Retry(0, Gate(t)), Retry(0, Increment(Done)), Retry(0, Remark(Refused))];
    var rest;
    rest, u := CountUp(c, s3, t, count + 1, target);
    RunConcat(c, s, first, s3, rest, u);
    acts := first + rest;
  }

  /** The retriers from `gated` up to `until` pass the gate. */
  lemma {:induction false} GateUpTo(c: Config, s: State, t: TxId, gated: nat, until: nat)
    returns (acts: seq<Action>, u: State)
    requires GatedBelow(c, s, t, gated) && gated <= until <= |s.retriers| && s.txs[t].retryCount < c.maxRetries
    requires c.feeBump(s.txs[t].envelope).Some?
    ensures Run(c, s, acts, u) && GatedBelow(c, u, t, until) && u == s.(retriers := u.retriers)
    ensures |u.retriers| == |s.retriers|
    decreases until - gated
  {
    if gated == until {
      return [], s;
    }
    var a := Retry(gated, Gate(t));
    var v := Apply(c, s, a);
    var rest;
    rest, u := GateUpTo(c, v, t, gated + 1, until);
    acts := [a] + rest;
    assert acts[1..] == rest;
  }

  lemma {:induction false} IncrementBelow(c: Config, s: State, t: TxId, gated: nat)
    returns (acts: seq<Action>, u: State)
    requires gated <= |s.retriers| && t in s.txs
    requires forall j | 0 <= j < gated ::
      s.retriers[j].Gated? && s.retriers[j].tx == t && c.feeBump(s.retriers[j].envelope).Some?
    ensures Run(c, s, acts, u) && RetryCount(u, t) == s.txs[t].retryCount + gated
    decreases gated
  {
    if gated == 0 {
      return [], s;
    }
    var a := Retry(gated - 1, Increment(Done));
    var v := Apply(c, s, a);
    var rest;
    rest, u := IncrementBelow(c, v, t, gated - 1);
    acts := [a] + rest;
    assert acts[1..] == rest;
  }

  /** One transaction is enqueued and fails for want of a channel account. */
  lemma FailOne(c: Config, s: State, envelope: Envelope) returns (acts: seq<Action>, u: State)
    requires Initial(s) && |s.workers| > 0
    ensures Run(c, s, acts, u) && FailedAndCalm(u, 0, 0) && |u.retriers| == |s.retriers|
    ensures u.txs[0].envelope == envelope
  {
    var s1 := Apply(c, s, Enqueue(0, envelope, 0));
    assert OldestPending(s1.txs, 0);
    var s2 := Apply(c, s1, Work(0, Fetch(0)));
    var s3 := Apply(c, s2, Work(0, Mark(Done)));
    var s4 := Apply(c, s3, Work(0, LeaseFails));
    u := Apply(c, s4, Work(0, FailUnleased(Done)));
    acts := [Enqueue(0, envelope, 0)];
    RunSnoc(c, s, [], s, Enqueue(0, envelope, 0));
    RunSnoc(c, s, acts, s1, Work(0, Fetch(0)));
    acts := acts + [Work(0, Fetch(0))];
    RunSnoc(c, s, acts, s2, Work(0, Mark(Done)));
    acts := acts + [Work(0, Mark(Done))];
    RunSnoc(c, s, acts, s3, Work(0, LeaseFails));
    acts := acts + [Work(0, LeaseFails)];
    RunSnoc(c, s, acts, s4, Work(0, FailUnleased(Done)));
    acts := acts + [Work(0, FailUnleased(Done))];
  }

  /** The bound is exact: N retriers can drive the count to MaxRetryAttempts - 1 + N, for every
      positive maximum and every N, from any fresh start with a worker. */
  lemma RetryBoundAttained(c: Config, s: State, envelope: Envelope) returns (acts: seq<Action>, u: State)
    requires Initial(s) && |s.workers| > 0 && |s.retriers| > 0 && c.maxRetries > 0
    requires c.feeBump(envelope).Some?
    ensures Run(c, s, acts, u) && RetryCount(u, 0) == c.maxRetries - 1 + |s.retriers|
  {
    var start, s0 := FailOne(c, s, envelope);
    var xs, s1 := CountUp(c, s0, 0, 0, c.maxRetries - 1);
    var ys, s2 := GateUpTo(c, s1, 0, 0, |s1.retriers|);
    var zs, s3 := IncrementBelow(c, s2, 0, |s2.retriers|);
    RunConcat(c, s, start, s0, xs, s1);
    RunConcat(c, s, start + xs, s1, ys, s2);
    RunConcat(c, s, start + xs + ys, s2, zs, s3);
    acts, u := start + xs + ys + zs, s3;
  }
}
