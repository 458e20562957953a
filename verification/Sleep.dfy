/** How long consecutive retries of one transaction sleep together. */
module Sleeps {
  import opened Tables
  import opened Protocol
  import opened Engines
  import opened Backoff
  import opened Division

  /** One undisturbed call of `Retry`: the states around it, its result and its sleep. */
  datatype Attempt = Attempt(before: State, after: State, result: RetryResult, slept: int)

  /** The call met the contract of `Retry`. */
  ghost predicate MeetsContract(c: Config, x: Attempt, id: TxId, base: int, m: real)
  {
    && RetryEffectOn(c, x.before, x.after, id, x.result)
    && MaySleep(x.before.txs, id, x.result, base, m, x.slept)
  }

  /** Between two calls anything may happen that leaves the count and the envelope of the row alone. */
  ghost predicate SameCount(s: State, t: State, id: TxId)
  {
    && id in s.txs && id in t.txs
    && t.txs[id].retryCount == s.txs[id].retryCount && t.txs[id].envelope == s.txs[id].envelope
  }

  /** Calls one after the other, the first of them in state `s`. */
  ghost predicate LogFrom(c: Config, s: State, log: seq<Attempt>, id: TxId, base: int, m: real)
  {
    && (forall k | 0 <= k < |log| :: MeetsContract(c, log[k], id, base, m))
    && (forall k | 0 < k < |log| :: SameCount(log[k - 1].after, log[k].before, id))
    && (log != [] ==> log[0].before == s)
  }

  predicate Uninterrupted(log: seq<Attempt>)
  {
    forall k | 0 <= k < |log| :: log[k].result != InterruptedError
  }

  /** The transaction has failed and was never retried. */
  predicate NeverRetried(s: State, id: TxId, envelope: Envelope)
  {
    id in s.txs && s.txs[id].status == Failed && s.txs[id].retryCount == 0 && s.txs[id].envelope == envelope
  }

  function Slept(log: seq<Attempt>): int
  {
    if log == [] then 0 else Slept(log[..|log| - 1]) + log[|log| - 1].slept
  }

  lemma LogPrefix(c: Config, s: State, log: seq<Attempt>, id: TxId, base: int, m: real, k: nat)
    requires LogFrom(c, s, log, id, base, m) && k <= |log|
    ensures LogFrom(c, s, log[..k], id, base, m)
  {
    assert forall j :: 0 <= j < k ==> log[..k][j] == log[j];
  }

  // ----- calls that run their course -----

  /** Every delay of a sequential run fits a duration. */
  predicate AllFit(max: nat, base: int, m: real)
  {
    max > 0 ==> base as real * Pow(m, max - 1) < TWO63 as real
  }

  /** A full wait is no longer than a delay that is not negative, and as long when the delay fits. */
  lemma FullWait(slept: int, max: nat, attempt: nat, base: int, m: real)
    requires base >= 0 && m >= 1.0 && attempt < max && Waits(slept, Delay(attempt, base, m))
    ensures slept <= Delay(attempt, base, m)
    ensures AllFit(max, base, m) ==> slept == Delay(attempt, base, m)
  {
    DelayGrows(attempt, base, m);
    if AllFit(max, base, m) {
      RunFits(max, attempt, base, m);
    }
  }

  /** One call sleeps for the attempt it counts, or neither sleeps nor counts. */
  lemma OneAttempt(c: Config, x: Attempt, id: TxId, base: int, m: real)
    requires MeetsContract(c, x, id, base, m) && id in x.before.txs && x.result != InterruptedError
    requires c.feeBump(x.before.txs[id].envelope).Some? && x.before.txs[id].retryCount <= c.maxRetries
    requires base >= 0 && m >= 1.0
    ensures id in x.after.txs && x.after.txs[id].envelope == x.before.txs[id].envelope
    ensures x.after.txs[id].retryCount <= c.maxRetries
    ensures var longest := TotalSleep(x.after.txs[id].retryCount, base, m)
                           - TotalSleep(x.before.txs[id].retryCount, base, m);
      x.slept <= longest && (AllFit(c.maxRetries, base, m) ==> x.slept == longest)
  {
    if Called(x.result) && x.before.txs[id].status == Failed && x.before.txs[id].retryCount < c.maxRetries {
      FullWait(x.slept, c.maxRetries, x.before.txs[id].retryCount, base, m);
    }
  }

  lemma {:induction false} SleepsAddUp(c: Config, s: State, log: seq<Attempt>, id: TxId, base: int, m: real)
    requires LogFrom(c, s, log, id, base, m) && Uninterrupted(log) && log != [] && base >= 0 && m >= 1.0
    requires id in s.txs && s.txs[id].retryCount == 0 && c.feeBump(s.txs[id].envelope).Some?
    ensures var last := log[|log| - 1].after;
      && id in last.txs && last.txs[id].retryCount <= c.maxRetries && last.txs[id].envelope == s.txs[id].envelope
      && Slept(log) <= TotalSleep(last.txs[id].retryCount, base, m)
      && (AllFit(c.maxRetries, base, m) ==> Slept(log) == TotalSleep(last.txs[id].retryCount, base, m))
    decreases |log|
  {
    var k := |log| - 1;
    assert MeetsContract(c, log[k], id, base, m);
    if k == 0 {
      assert Slept(log[..0]) == 0;
    } else {
      LogPrefix(c, s, log, id, base, m, k);
      SleepsAddUp(c, s, log[..k], id, base, m);
      assert SameCount(log[k - 1].after, log[k].before, id);
    }
    OneAttempt(c, log[k], id, base, m);
  }

  lemma {:induction false} TotalGrows(n: nat, max: nat, base: int, m: real)
    requires n <= max && base >= 0 && m >= 1.0
    ensures TotalSleep(n, base, m) <= TotalSleep(max, base, m)
    decreases max - n
  {
    if n == max {
    } else {
      TotalGrows(n, max - 1, base, m);
      DelayGrows(max - 1, base, m);
    }
  }

  /** At most base * (m^max - 1) / (m - 1), or max * base when the multiplier is one. */
  predicate Geometric(total: int, max: nat, base: int, m: real)
    requires m >= 1.0
  {
    if m > 1.0 then total as real <= base as real * (Pow(m, max) - 1.0) / (m - 1.0) else total <= max * base
  }

  lemma SleepAtMost(n: nat, max: nat, base: int, m: real)
    requires n <= max && base >= 0 && m >= 1.0
    ensures Geometric(TotalSleep(n, base, m), max, base, m)
  {
    TotalGrows(n, max, base, m);
    SleepBound(max, base, m);
  }

  /** Consecutive undisturbed calls that are not interrupted, however many, on a transaction that was
      never retried and can be fee bumped, sleep together no longer than the delays of the attempts
      they count, and so at most the geometric bound; exactly those delays when each fits a duration. */
  lemma RetriesSleepAtMost(c: Config, s: State, log: seq<Attempt>, id: TxId, base: int, m: real)
    requires LogFrom(c, s, log, id, base, m) && Uninterrupted(log) && log != [] && base >= 0 && m >= 1.0
    requires id in s.txs && s.txs[id].retryCount == 0 && c.feeBump(s.txs[id].envelope).Some?
    ensures var last := log[|log| - 1].after;
      && id in last.txs && last.txs[id].retryCount <= c.maxRetries
      && Slept(log) <= TotalSleep(last.txs[id].retryCount, base, m)
      && (AllFit(c.maxRetries, base, m) ==> Slept(log) == TotalSleep(last.txs[id].retryCount, base, m))
    ensures Geometric(Slept(log), c.maxRetries, base, m)
  {
    SleepsAddUp(c, s, log, id, base, m);
    var count := log[|log| - 1].after.txs[id].retryCount;
    SleepAtMost(count, c.maxRetries, base, m);
  }

  // ----- calls that sleep without counting -----

  /** The fee bump comes after the sleep and before the count: calls whose fee bump fails never use up
      an attempt, and each sleeps the same delay. */
  lemma {:induction false} FailedBumpsSleepOn(c: Config, s: State, log: seq<Attempt>, id: TxId, base: int, m: real)
    requires LogFrom(c, s, log, id, base, m) && id in s.txs
    requires forall k | 0 <= k < |log| :: log[k].result == FeeBumpError
    ensures var delay := Delay(s.txs[id].retryCount, base, m);
      IsDuration(delay) && delay >= 0 ==> Slept(log) == |log| * delay
    ensures log != [] ==>
      var last := log[|log| - 1].after; id in last.txs && last.txs[id].retryCount == s.txs[id].retryCount
    decreases |log|
  {
    if log == [] {
    } else {
      var k := |log| - 1;
      LogPrefix(c, s, log, id, base, m, k);
      FailedBumpsSleepOn(c, s, log[..k], id, base, m);
      assert MeetsContract(c, log[k], id, base, m);
      assert k > 0 ==> SameCount(log[k - 1].after, log[k].before, id);
      Distribute(k + 1, 1, Delay(s.txs[id].retryCount, base, m));
    }
  }

  /** `n` times the same call. */
  function Again(x: Attempt, n: nat): seq<Attempt>
  {
    if n == 0 then [] else Again(x, n - 1) + [x]
  }

  lemma {:induction false} AgainSleeps(x: Attempt, n: nat)
    ensures |Again(x, n)| == n && Slept(Again(x, n)) == n * x.slept
    ensures forall k :: 0 <= k < n ==> Again(x, n)[k] == x
  {
    if n == 0 {
    } else {
      AgainSleeps(x, n - 1);
      assert Again(x, n)[..n - 1] == Again(x, n - 1);
      Distribute(n, 1, x.slept);
    }
  }

  /** However large the bound, enough sleeps of `base` pass it. */
  lemma PassesGeometric(max: nat, base: int, m: real) returns (n: nat)
    requires base > 0 && m >= 1.0
    ensures !Geometric(n * base, max, base, m)
  {
    if m > 1.0 {
      var q := base as real * (Pow(m, max) - 1.0) / (m - 1.0);
      n := if q < 0.0 then 1 else q.Floor + 1;
      TimesMonotone(1, base, n);
      assert n * base == base * n;
    } else {
      n := max + 1;
      Distribute(n, max, base);
    }
  }

  /** A call that ends at the wait or at the fee bump, with the row as it was. */
  ghost predicate Idles(c: Config, s: State, id: TxId, result: RetryResult)
  {
    result == InterruptedError || (result == FeeBumpError && id in s.txs && c.feeBump(s.txs[id].envelope).None?)
  }

  /** Calls that idle can be repeated until their sleep passes the bound. */
  lemma IdlersPass(c: Config, s: State, id: TxId, envelope: Envelope, base: int, m: real, result: RetryResult)
    returns (log: seq<Attempt>)
    requires NeverRetried(s, id, envelope) && Idles(c, s, id, result) && c.maxRetries > 0
    requires 0 < base < TWO63 && m >= 1.0
    ensures LogFrom(c, s, log, id, base, m) && !Geometric(Slept(log), c.maxRetries, base, m)
    ensures forall k :: 0 <= k < |log| ==> log[k].result == result
  {
    var n := PassesGeometric(c.maxRetries, base, m);
    var x := Attempt(s, s, result, base);
    assert MeetsContract(c, x, id, base, m);
    AgainSleeps(x, n);
    log := Again(x, n);
  }

  // ----- calls that do not sleep -----

  lemma {:induction false} NeverSleep(c: Config, s: State, log: seq<Attempt>, id: TxId, base: int, m: real)
    requires LogFrom(c, s, log, id, base, m) && id in s.txs && (base == 0 || c.maxRetries == 0)
    ensures Slept(log) == 0
    decreases |log|
  {
    if log == [] {
    } else {
      var k := |log| - 1;
      LogPrefix(c, s, log, id, base, m, k);
      NeverSleep(c, s, log[..k], id, base, m);
      assert MeetsContract(c, log[k], id, base, m);
      assert k > 0 ==> SameCount(log[k - 1].after, log[k].before, id);
    }
  }

  lemma ZeroIsWithin(max: nat, base: int, m: real)
    requires base >= 0 && m >= 1.0
    ensures Geometric(0, max, base, m)
  {
    SleepAtMost(0, max, base, m);
  }

  // ----- exactly when the bound holds -----

  /** All logs from `s`, without interruptions unless they are allowed, keep within the bound. */
  ghost predicate Bounded(c: Config, s: State, id: TxId, base: int, m: real, interruptible: bool)
    requires m >= 1.0
  {
    forall log :: LogFrom(c, s, log, id, base, m) && (interruptible || Uninterrupted(log)) ==>
      Geometric(Slept(log), c.maxRetries, base, m)
  }

  lemma NeverSleepBounded(c: Config, s: State, id: TxId, base: int, m: real, interruptible: bool)
    requires id in s.txs && base >= 0 && m >= 1.0 && (base == 0 || c.maxRetries == 0)
    ensures Bounded(c, s, id, base, m, interruptible)
  {
    forall log | LogFrom(c, s, log, id, base, m)
      ensures Geometric(Slept(log), c.maxRetries, base, m)
    {
      NeverSleep(c, s, log, id, base, m);
      ZeroIsWithin(c.maxRetries, base, m);
    }
  }

  /** Without interruptions, however many calls are made on a failed transaction that was never
      retried, they sleep at most the geometric bound if and only if it can be fee bumped, the base is
      zero or retries are off. */
  lemma BoundedIff(c: Config, s: State, id: TxId, envelope: Envelope, base: int, m: real)
    requires NeverRetried(s, id, envelope) && 0 <= base < TWO63 && m >= 1.0
    ensures Bounded(c, s, id, base, m, false) <==> c.feeBump(envelope).Some? || base == 0 || c.maxRetries == 0
  {
    if base == 0 || c.maxRetries == 0 {
      NeverSleepBounded(c, s, id, base, m, false);
    } else if c.feeBump(envelope).Some? {
      forall log | LogFrom(c, s, log, id, base, m) && Uninterrupted(log)
        ensures Geometric(Slept(log), c.maxRetries, base, m)
      {
        if log == [] {
          ZeroIsWithin(c.maxRetries, base, m);
        } else {
          RetriesSleepAtMost(c, s, log, id, base, m);
        }
      }
    } else {
      var log := IdlersPass(c, s, id, envelope, base, m, FeeBumpError);
      assert LogFrom(c, s, log, id, base, m) && Uninterrupted(log);
    }
  }

  /** An interrupted call has slept for part of its delay and counts nothing, so with interruptions the
      bound holds if and only if the base is zero or retries are off. */
  lemma InterruptibleBoundedIff(c: Config, s: State, id: TxId, envelope: Envelope, base: int, m: real)
    requires NeverRetried(s, id, envelope) && 0 <= base < TWO63 && m >= 1.0
    ensures Bounded(c, s, id, base, m, true) <==> base == 0 || c.maxRetries == 0
  {
    if base == 0 || c.maxRetries == 0 {
      NeverSleepBounded(c, s, id, base, m, true);
    } else {
      var log := IdlersPass(c, s, id, envelope, base, m, InterruptedError);
      assert LogFrom(c, s, log, id, base, m);
    }
  }
}
