/** Lease exclusion with exact accounting. Release checks no owner, so exclusion rests on every
    leased row being either in exactly one worker's hands or leaked for good. */
module Leasing {
  import opened Base
  import opened Tables
  import opened Protocol

  function Holds(a: AccountId): Worker -> bool
  {
    w => Held(w) == Some(a)
  }

  /** One account's books balance: a leased row is held by one worker or leaked, an idle row neither. */
  ghost predicate Accounted(s: State, a: AccountId)
  {
    Count(s.workers, Holds(a)) + Bit(a in s.leaked) == Bit(IsLeased(s.accounts, a))
  }

  /** What a worker's step takes from one side of the books it adds to the other. */
  lemma StepBalances(c: Config, s: State, w: Worker, x: WorkerStep, a: AccountId)
    requires WorkerCan(c, s, w, x)
    requires Held(w) == Some(a) ==> IsLeased(s.accounts, a) && a !in s.leaked
    requires a in s.leaked ==> IsLeased(s.accounts, a)
    ensures var t := WorkerEffect(c, s, w, x);
      Bit(Held(WorkerAfter(c, s, w, x)) == Some(a)) + Bit(a in t.leaked) + Bit(IsLeased(s.accounts, a))
      == Bit(Held(w) == Some(a)) + Bit(a in s.leaked) + Bit(IsLeased(t.accounts, a))
  {
  }

  lemma StepAccounted(c: Config, s: State, x: Action, a: AccountId)
    requires Enabled(c, s, x) && Accounted(s, a)
    ensures Accounted(Apply(c, s, x), a)
  {
    if x.Work? {
      var w := s.workers[x.i];
      CountUpdate(s.workers, x.i, WorkerAfter(c, s, w, x.work), Holds(a));
      if Held(w) == Some(a) {
        CountUpdate(s.workers, x.i, Waiting, Holds(a));
      }
      StepBalances(c, s, w, x.work, a);
    }
  }

  lemma {:induction false} RunAccounted(c: Config, s: State, acts: seq<Action>, t: State, a: AccountId)
    requires Run(c, s, acts, t) && Accounted(s, a)
    ensures Accounted(t, a)
    decreases |acts|
  {
    if acts == [] {
    } else {
      StepAccounted(c, s, acts[0], a);
      RunAccounted(c, Apply(c, s, acts[0]), acts[1..], t, a);
    }
  }

  lemma StartAccounted(s: State, a: AccountId)
    requires Initial(s)
    ensures Accounted(s, a)
  {
    CountNone(s.workers, Holds(a));
  }

  /** No account is in two workers' hands. */
  ghost predicate HeldOnce(s: State, a: AccountId)
  {
    forall i, j | 0 <= i < |s.workers| && 0 <= j < |s.workers| ::
      Held(s.workers[i]) == Some(a) && Held(s.workers[j]) == Some(a) ==> i == j
  }

  ghost predicate HeldBySomeone(s: State, a: AccountId)
  {
    exists i :: 0 <= i < |s.workers| && Held(s.workers[i]) == Some(a)
  }

  lemma AccountedMeans(s: State, a: AccountId)
    requires Accounted(s, a)
    ensures IsLeased(s.accounts, a) <==> HeldBySomeone(s, a) || a in s.leaked
    ensures !(HeldBySomeone(s, a) && a in s.leaked)
    ensures HeldOnce(s, a)
  {
    CountNone(s.workers, Holds(a));
    forall i, j | 0 <= i < |s.workers| && 0 <= j < |s.workers| && i != j &&
      Held(s.workers[i]) == Some(a) && Held(s.workers[j]) == Some(a)
      ensures false
    {
      CountTwo(s.workers, i, j, Holds(a), Waiting);
    }
  }

  /** In every reachable state, under any interleaving, failures and crashes: no account is held
      twice, and the leased rows are exactly the held accounts and the leaked ones, apart. */
  lemma LeaseExclusion(c: Config, s: State, acts: seq<Action>, t: State, a: AccountId)
    requires Initial(s) && Run(c, s, acts, t)
    ensures IsLeased(t.accounts, a) <==> HeldBySomeone(t, a) || a in t.leaked
    ensures !(HeldBySomeone(t, a) && a in t.leaked)
    ensures HeldOnce(t, a)
  {
    StartAccounted(s, a);
    RunAccounted(c, s, acts, t, a);
    AccountedMeans(t, a);
  }

  /** The steps that strand a lease: a worker stops while holding one, a release does not take
      effect, or a lease commits without its worker hearing of it. */
  ghost predicate KeepsLeases(s: State, x: Action)
  {
    x.Work? && x.i < |s.workers| ==>
      && !(x.work.Crash? && Held(s.workers[x.i]).Some?)
      && !(x.work.Release? && x.work.reply == Refused)
      && !(x.work.Lease? && x.work.reply == Lost)
  }

  lemma {:induction false} NothingLeaks(c: Config, s: State, acts: seq<Action>, t: State)
    requires Run(c, s, acts, t) && Always(c, s, acts, KeepsLeases)
    ensures t.leaked == s.leaked
    decreases |acts|
  {
    if acts == [] {
    } else {
      NothingLeaks(c, Apply(c, s, acts[0]), acts[1..], t);
    }
  }

  /** When no lease is stranded, every account is idle whenever no worker holds one. */
  lemma IdleBetweenBatches(c: Config, s: State, acts: seq<Action>, t: State)
    requires Initial(s) && Run(c, s, acts, t) && Always(c, s, acts, KeepsLeases)
    requires forall a :: a in s.accounts ==> s.accounts[a].status == Idle
    requires forall i :: 0 <= i < |t.workers| ==> t.workers[i].Waiting?
    ensures forall a :: a in t.accounts ==> t.accounts[a].status == Idle
  {
    NothingLeaks(c, s, acts, t);
    forall a | a in t.accounts
      ensures t.accounts[a].status == Idle
    {
      LeaseExclusion(c, s, acts, t, a);
    }
  }

  /** A leaked account is lost for good: no continuation makes it idle again. */
  lemma {:induction false} LeakedForever(c: Config, s: State, acts: seq<Action>, t: State, a: AccountId)
    requires Run(c, s, acts, t) && Accounted(s, a) && a in s.leaked
    ensures a in t.leaked && IsLeased(t.accounts, a)
    decreases |acts|
  {
    if acts == [] {
    } else {
      StepAccounted(c, s, acts[0], a);
      LeakedForever(c, Apply(c, s, acts[0]), acts[1..], t, a);
    }
  }
}
