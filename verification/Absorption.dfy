/** In exactly which deployments `confirmed` is absorbing. */
module Absorption {
  import opened Tables
  import opened Protocol
  import opened Effects
  import opened Retries
  import opened Outcomes
  import opened Deployment
  import opened Confirming
  import Witnesses

  /** In every run, whatever is confirmed stays confirmed. */
  ghost predicate Absorbing(c: Config, s: State)
  {
    forall acts, u, t :: Run(c, s, acts, u) && HasStatus(u, t, Confirmed) ==> Forever(c, u, t, Confirmed)
  }

  /** Two workers race for one row, or two retriers, and one of them can have it confirmed. */
  ghost predicate Races(c: Config, workers: nat, retriers: nat)
  {
    || (workers >= 2 && exists envelope :: Reaches(c, envelope))
    || (workers == 1 && retriers >= 2 && exists envelope :: BumpReaches(c, retriers, envelope))
  }

  // ----- a race breaks it -----

  lemma Unsettled(c: Config, s: State, acts: seq<Action>, u: State, t: TxId)
    requires Run(c, s, acts, u) && HasStatus(u, t, Confirmed) && Threatened(c, u, t)
    ensures !Absorbing(c, s)
  {
    ConfirmedFinalIff(c, u, t);
  }

  /** Two workers read the row, and one of them marks it. */
  lemma TwoRead(c: Config, s: State, envelope: Envelope) returns (acts: seq<Action>, u: State)
    requires Initial(s) && |s.workers| >= 2
    ensures Run(c, s, acts, u) && 0 in u.txs && |u.workers| >= 2
    ensures u.workers[0] == Marked(0, envelope) && u.workers[1] == Fetched(0, envelope)
  {
    var xs, v := Witnesses.BothFetch(c, s, envelope);
    RunSnoc(c, s, xs, v, Work(0, Mark(Done)));
    acts, u := xs + [Work(0, Mark(Done))], Apply(c, v, Work(0, Mark(Done)));
  }

  lemma WorkersRace(c: Config, s: State, envelope: Envelope)
    requires Initial(s) && |s.workers| >= 2 && Reaches(c, envelope)
    ensures !Absorbing(c, s)
  {
    var xs, s1 := TwoRead(c, s, envelope);
    var ys, s2 := CanLease(c, s1, 0);
    var zs, u := CanAccept(c, s2, 0);
    RunThree(c, s, xs, s1, ys, s2, zs, u);
    assert u.workers[1] == Fetched(0, envelope);
    assert WorkerHolds(u.workers[1], 0) && !HasAccepted(u.workers[1]);
    Unsettled(c, s, xs + ys + zs, u, 0);
  }

  lemma RetriersRace(c: Config, s: State, envelope: Envelope)
    requires Initial(s) && |s.workers| > 0 && |s.retriers| >= 2 && BumpReaches(c, |s.retriers|, envelope)
    ensures !Absorbing(c, s)
  {
    var xs, s1 := FailOne(c, s, envelope);
    var ys, s2 := GateUpTo(c, s1, 0, 0, 2);
    var zs, u := GatedAccepted(c, s2, 0);
    RunThree(c, s, xs, s1, ys, s2, zs, u);
    assert u.retriers[1] == Gated(0, envelope);
    assert RetrierUnsettles(c, u.retriers[1], 0);
    Unsettled(c, s, xs + ys + zs, u, 0);
  }

  // ----- nothing else does -----

  ghost predicate NothingBegun(s: State)
  {
    && s.workers == [] && (forall t :: t in s.txs ==> s.txs[t].status == Pending)
    && (forall j | 0 <= j < |s.retriers| :: s.retriers[j].Ready?)
  }

  /** Without a worker no row ever leaves `pending`. */
  lemma {:induction false} NoWorkerNoStart(c: Config, s: State, acts: seq<Action>, u: State)
    requires Run(c, s, acts, u) && NothingBegun(s)
    ensures NothingBegun(u)
    decreases |acts|
  {
    if acts == [] {
    } else {
      NoWorkerNoStart(c, Apply(c, s, acts[0]), acts[1..], u);
    }
  }

  /** No retry can be accepted. */
  ghost predicate BumpsFail(c: Config)
  {
    c.maxRetries > 0 ==> forall e :: c.feeBump(e).Some? ==> !Reaches(c, c.feeBump(e).value)
  }

  /** A retrier that cannot get past an error. */
  predicate Vain(c: Config, r: Retrier)
  {
    match r
    case Ready => true
    case Gated(_, _) => c.maxRetries > 0
    case Counted(_, envelope) => !Reaches(c, envelope)
    case Remarked(_, envelope) => !Reaches(c, envelope)
    case Judged(_, _) => false
  }

  ghost predicate AllVain(c: Config, s: State)
  {
    forall j | 0 <= j < |s.retriers| :: Vain(c, s.retriers[j])
  }

  /** The only worker and the retriers are never at one row together, and retriers are at rows that are
      not confirmed. */
  ghost predicate Apart(s: State, t: TxId)
  {
    && |s.workers| == 1
    && (WorkerHolds(s.workers[0], t) ==>
          && HasStatus(s, t, if s.workers[0].Fetched? then Pending else Submitting)
          && forall j | 0 <= j < |s.retriers| :: !RetrierHolds(s.retriers[j], t))
    && (forall j | 0 <= j < |s.retriers| ::
          RetrierHolds(s.retriers[j], t) ==> HasStatus(s, t, Failed) || HasStatus(s, t, Submitting))
  }

  lemma StepVain(c: Config, s: State, x: Action)
    requires Enabled(c, s, x) && BumpsFail(c) && AllVain(c, s)
    ensures AllVain(c, Apply(c, s, x))
  {
    if x.Retry? {
      var u := Apply(c, s, x);
      assert Vain(c, s.retriers[x.j]);
      assert Vain(c, u.retriers[x.j]);
      assert forall k | 0 <= k < |s.retriers| && k != x.j :: u.retriers[k] == s.retriers[k];
    }
  }

  lemma RetryApart(c: Config, s: State, j: nat, x: RetryStep, t: TxId)
    requires Enabled(c, s, Retry(j, x)) && AllVain(c, s) && Apart(s, t)
    ensures Apart(Apply(c, s, Retry(j, x)), t)
  {
    var u := Apply(c, s, Retry(j, x));
    RetryEffects(c, s, j, x, t);
    assert Vain(c, s.retriers[j]);
    assert forall k | 0 <= k < |s.retriers| && k != j :: u.retriers[k] == s.retriers[k];
  }

  lemma StepApart(c: Config, s: State, x: Action, t: TxId)
    requires Enabled(c, s, x) && AllVain(c, s) && Apart(s, t)
    ensures Apart(Apply(c, s, x), t)
  {
    match x
    case Work(i, work) => WorkEffect(c, s, i, work, t);
    case Retry(j, retry) => RetryApart(c, s, j, retry, t);
    case _ => OtherEffect(c, s, x, t);
  }

  lemma {:induction false} RunApart(c: Config, s: State, acts: seq<Action>, u: State, t: TxId)
    requires Run(c, s, acts, u) && BumpsFail(c) && AllVain(c, s) && Apart(s, t)
    ensures Apart(u, t)
    decreases |acts|
  {
    if acts == [] {
    } else {
      StepVain(c, s, acts[0]);
      StepApart(c, s, acts[0], t);
      RunApart(c, Apply(c, s, acts[0]), acts[1..], u, t);
    }
  }

  /** With one worker and no hope for retries, a confirmed row is in nobody's hands. */
  lemma VainAbsorbs(c: Config, s: State, acts: seq<Action>, u: State, t: TxId)
    requires Initial(s) && |s.workers| == 1 && BumpsFail(c) && Run(c, s, acts, u) && HasStatus(u, t, Confirmed)
    ensures Forever(c, u, t, Confirmed)
  {
    RunApart(c, s, acts, u, t);
    forall after, v | Run(c, u, after, v)
      ensures HasStatus(v, t, Confirmed)
    {
      SettledForGood(c, u, after, v, t);
    }
  }

  lemma FewAbsorb(c: Config, s: State, acts: seq<Action>, u: State, t: TxId)
    requires Initial(s) && |s.workers| == 1 && |s.retriers| <= 1 && Run(c, s, acts, u) && HasStatus(u, t, Confirmed)
    ensures Forever(c, u, t, Confirmed)
  {
    forall after, v | Run(c, u, after, v)
      ensures HasStatus(v, t, Confirmed)
    {
      ConfirmedAbsorbs(c, s, acts, u, after, v, t);
    }
  }

  lemma NoRaceNoBumps(c: Config, workers: nat, retriers: nat)
    requires !Races(c, workers, retriers) && workers == 1 && retriers >= 2
    ensures BumpsFail(c)
  {
    forall e | c.maxRetries > 0 && c.feeBump(e).Some?
      ensures !Reaches(c, c.feeBump(e).value)
    {
      assert !BumpReaches(c, retriers, e);
    }
  }

  lemma NoRaceAbsorbs(c: Config, s: State, acts: seq<Action>, u: State, t: TxId)
    requires Initial(s) && !Races(c, |s.workers|, |s.retriers|) && Run(c, s, acts, u) && HasStatus(u, t, Confirmed)
    ensures Forever(c, u, t, Confirmed)
  {
    if s.workers == [] {
      NoWorkerNoStart(c, s, acts, u);
      assert false;
    } else if |s.workers| >= 2 {
      ConfirmedReached(c, s, acts, u, t);
      assert false;
    } else if |s.retriers| <= 1 {
      FewAbsorb(c, s, acts, u, t);
    } else {
      NoRaceNoBumps(c, |s.workers|, |s.retriers|);
      VainAbsorbs(c, s, acts, u, t);
    }
  }

  /** From a fresh start `confirmed` is absorbing if and only if neither two workers nor two retriers
      can race for a row that one of them may have confirmed. */
  lemma AbsorbingIff(c: Config, s: State)
    requires Initial(s)
    ensures Absorbing(c, s) <==> !Races(c, |s.workers|, |s.retriers|)
  {
    if |s.workers| >= 2 && exists envelope :: Reaches(c, envelope) {
      var envelope :| Reaches(c, envelope);
      WorkersRace(c, s, envelope);
    } else if |s.workers| == 1 && |s.retriers| >= 2 && exists envelope :: BumpReaches(c, |s.retriers|, envelope) {
      var envelope :| BumpReaches(c, |s.retriers|, envelope);
      RetriersRace(c, s, envelope);
    } else {
      forall acts, u, t | Run(c, s, acts, u) && HasStatus(u, t, Confirmed)
        ensures Forever(c, u, t, Confirmed)
      {
        NoRaceAbsorbs(c, s, acts, u, t);
      }
    }
  }
}
