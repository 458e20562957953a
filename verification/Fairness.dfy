/** Fairness of the least-recently-used choice. A release reads the clock before its write, so
    releases may be written out of the order of their stamps; the bound holds all the same. */
module Fairness {
  import opened Base
  import opened Tables
  import opened Protocol
  import opened Leasing
  import opened Effects

  /** Every stamp is strictly later than the stamps in the table. */
  ghost predicate Ticking(s: State, x: Action)
  {
    x.Work? && x.work.Stamp? ==> LaterThanStored(s.accounts, x.work.at)
  }

  ghost predicate LaterThanStored(t: AccountTable, at: int)
  {
    forall a :: a in t ==> UsedEarlier(t[a].lastUsed, Some(at))
  }

  /** `b` cannot be chosen again before `a`: its stamp is later, in the table or in a worker's hands. */
  ghost predicate Behind(s: State, b: AccountId, a: AccountId)
    requires a in s.accounts
  {
    && b in s.accounts
    && (IsIdle(s.accounts, b) ==> UsedEarlier(s.accounts[a].lastUsed, s.accounts[b].lastUsed))
    && (forall i | 0 <= i < |s.workers| :: s.workers[i].Stamped? && s.workers[i].account == b ==>
          UsedEarlier(s.accounts[a].lastUsed, Some(s.workers[i].at)))
  }

  /** The leases committed since `a` became idle. */
  function Bypasses(s: State, a: AccountId): seq<AccountId>
    requires a in s.idleSince && s.idleSince[a] <= |s.picks|
  {
    s.picks[s.idleSince[a]..]
  }

  ghost predicate FairTo(s: State, a: AccountId)
  {
    IsIdle(s.accounts, a) ==>
      && a in s.idleSince && s.idleSince[a] <= |s.picks|
      && a !in Bypasses(s, a) && Distinct(Bypasses(s, a))
      && forall b :: b in Bypasses(s, a) ==> Behind(s, b, a)
  }

  ghost predicate AllAccounted(s: State)
  {
    forall a :: Accounted(s, a)
  }

  lemma StepAllAccounted(c: Config, s: State, x: Action)
    requires Enabled(c, s, x) && AllAccounted(s)
    ensures AllAccounted(Apply(c, s, x))
  {
    forall a ensures Accounted(Apply(c, s, x), a) {
      StepAccounted(c, s, x, a);
    }
  }

  /** A lease of `key` while `a` stays idle: `key` joins those that have passed `a`. */
  lemma PassedOnce(s: State, t: State, i: nat, w: Worker, key: AccountId, a: AccountId)
    requires FairTo(s, a) && IsIdle(s.accounts, a) && key != a && i < |s.workers| && t.workers == s.workers[i := w]
    requires !w.Stamped? && LeastRecentlyUsed(s.accounts, key)
    requires forall j | 0 <= j < |s.workers| :: s.workers[j].Stamped? ==> s.workers[j].account != key
    requires t.accounts == SetLeased(s.accounts, key) && t.picks == s.picks + [key] && t.idleSince == s.idleSince
    ensures FairTo(t, a)
  {
    assert forall j | 0 <= j < |s.workers| && j != i :: t.workers[j] == s.workers[j];
    assert Bypasses(t, a) == Bypasses(s, a) + [key];
    assert key in Bypasses(s, a) ==> Behind(s, key, a);
    assert key !in Bypasses(s, a);
    forall b | b in Bypasses(t, a)
      ensures Behind(t, b, a)
    {
      assert b == key || Behind(s, b, a);
    }
  }

  lemma LeaseFair(c: Config, s: State, i: nat, x: WorkerStep, a: AccountId)
    requires Enabled(c, s, Work(i, x)) && x.Lease? && FairTo(s, a) && Accounted(s, x.account)
    ensures FairTo(Apply(c, s, Work(i, x)), a)
  {
    AccountedMeans(s, x.account);
    var t := Apply(c, s, Work(i, x));
    if IsIdle(t.accounts, a) {
      assert forall j | 0 <= j < |s.workers| ::
        s.workers[j].Stamped? ==> Held(s.workers[j]) == Some(s.workers[j].account);
      PassedOnce(s, t, i, WorkerAfter(c, s, s.workers[i], x), x.account, a);
    }
  }

  lemma ReleaseFair(c: Config, s: State, i: nat, x: WorkerStep, a: AccountId)
    requires Enabled(c, s, Work(i, x)) && x.Release? && x.reply != Refused && FairTo(s, a)
    requires Accounted(s, s.workers[i].account)
    ensures FairTo(Apply(c, s, Work(i, x)), a)
  {
    var w := s.workers[i];
    AccountedMeans(s, w.account);
    assert Held(w) == Some(w.account);
    var t := Apply(c, s, Work(i, x));
    assert forall j | 0 <= j < |s.workers| && j != i :: t.workers[j] == s.workers[j];
    if a != w.account && IsIdle(t.accounts, a) {
      assert Bypasses(t, a) == Bypasses(s, a);
      forall b | b in Bypasses(t, a)
        ensures Behind(t, b, a)
      {
        assert Behind(s, b, a);
      }
    }
  }

  /** Steps that neither lease, release nor stamp change nothing that fairness depends on. */
  lemma OtherFair(s: State, t: State, i: nat, w: Worker, a: AccountId)
    requires FairTo(s, a) && i < |s.workers| && t.workers == s.workers[i := w]
    requires t.picks == s.picks && a in s.accounts
    requires a in s.idleSince ==> a in t.idleSince && t.idleSince[a] == s.idleSince[a]
    requires s.accounts.Keys <= t.accounts.Keys
    requires forall b :: b in s.accounts ==> t.accounts[b].status == s.accounts[b].status
    requires forall b :: b in s.accounts ==> t.accounts[b].lastUsed == s.accounts[b].lastUsed
    requires w.Stamped? ==> w == s.workers[i] || LaterThanStored(s.accounts, w.at)
    ensures FairTo(t, a)
  {
    assert forall j | 0 <= j < |s.workers| && j != i :: t.workers[j] == s.workers[j];
    if IsIdle(t.accounts, a) {
      assert Bypasses(t, a) == Bypasses(s, a);
      forall b | b in Bypasses(t, a)
        ensures Behind(t, b, a)
      {
        assert Behind(s, b, a);
      }
    }
  }

  lemma WorkOtherFair(c: Config, s: State, i: nat, x: WorkerStep, a: AccountId)
    requires Enabled(c, s, Work(i, x)) && Ticking(s, Work(i, x)) && FairTo(s, a) && a in s.accounts
    requires !x.Lease? && !(x.Release? && x.reply != Refused)
    ensures FairTo(Apply(c, s, Work(i, x)), a)
  {
    var u := Apply(c, s, Work(i, x));
    WorkHistory(c, s, i, x);
    forall b | b in s.accounts
      ensures u.accounts[b].status == s.accounts[b].status && u.accounts[b].lastUsed == s.accounts[b].lastUsed
    {
      WorkAccount(c, s, i, x, b);
    }
    OtherFair(s, u, i, WorkerAfter(c, s, s.workers[i], x), a);
  }

  lemma OthersFair(c: Config, s: State, x: Action, a: AccountId)
    requires Enabled(c, s, x) && !x.Work? && FairTo(s, a)
    ensures FairTo(Apply(c, s, x), a)
  {
    var u := Apply(c, s, x);
    OtherAccount(c, s, x, a);
    if a in s.accounts && IsIdle(u.accounts, a) {
      assert Bypasses(u, a) == Bypasses(s, a);
      forall b | b in Bypasses(u, a)
        ensures Behind(u, b, a)
      {
        OtherAccount(c, s, x, b);
        assert Behind(s, b, a);
      }
    }
  }

  lemma StepFair(c: Config, s: State, x: Action, a: AccountId)
    requires Enabled(c, s, x) && Ticking(s, x) && AllAccounted(s) && FairTo(s, a)
    ensures FairTo(Apply(c, s, x), a)
  {
    if !x.Work? {
      OthersFair(c, s, x, a);
    } else if x.work.Lease? {
      LeaseFair(c, s, x.i, x.work, a);
    } else if x.work.Release? && x.work.reply != Refused {
      ReleaseFair(c, s, x.i, x.work, a);
    } else {
      WorkHistory(c, s, x.i, x.work);
      if a in s.accounts {
        WorkOtherFair(c, s, x.i, x.work, a);
      }
    }
  }

  ghost predicate Fair(s: State)
  {
    AllAccounted(s) && forall a :: FairTo(s, a)
  }

  lemma FairNext(c: Config, s: State, x: Action)
    requires Enabled(c, s, x) && Ticking(s, x) && Fair(s)
    ensures Fair(Apply(c, s, x))
  {
    StepAllAccounted(c, s, x);
    forall a ensures FairTo(Apply(c, s, x), a) {
      StepFair(c, s, x, a);
    }
  }

  lemma {:induction false} RunFair(c: Config, s: State, acts: seq<Action>, t: State)
    requires Run(c, s, acts, t) && Always(c, s, acts, Ticking) && Fair(s)
    ensures Fair(t)
    decreases |acts|
  {
    if acts == [] {
    } else {
      FairNext(c, s, acts[0]);
      RunFair(c, Apply(c, s, acts[0]), acts[1..], t);
    }
  }

  lemma StartFair(s: State)
    requires Initial(s)
    ensures Fair(s)
  {
    forall a ensures Accounted(s, a) {
      StartAccounted(s, a);
    }
  }

  /** In every reachable state, with any number of workers, crashes, lost replies and new accounts
      on the way: since an idle account became idle, each other account was leased at most once,
      so an idle account is passed over at most n - 1 times. */
  lemma BypassBound(c: Config, s: State, acts: seq<Action>, t: State, a: AccountId)
    requires Initial(s) && Run(c, s, acts, t) && Always(c, s, acts, Ticking)
    requires IsIdle(t.accounts, a)
    ensures a in t.idleSince && t.idleSince[a] <= |t.picks|
    ensures Distinct(Bypasses(t, a)) && a !in Bypasses(t, a)
    ensures |t.picks| - t.idleSince[a] <= |t.accounts| - 1
  {
    StartFair(s);
    RunFair(c, s, acts, t);
    assert FairTo(t, a);
    DistinctFits(Bypasses(t, a), t.accounts.Keys - {a});
    assert |t.accounts.Keys - {a}| == |t.accounts| - 1;
  }

  // ----- one worker: strict rotation -----

  /** One worker, no stranded lease, no added account, a ticking clock. */
  ghost predicate Orderly(s: State, x: Action)
  {
    Ticking(s, x) && KeepsLeases(s, x) && !x.AddAccount?
  }

  /** An account became idle at the start or right after its own lease. */
  ghost predicate IdleAfterOwn(s: State, a: AccountId)
  {
    IsIdle(s.accounts, a) ==>
      && a in s.idleSince && s.idleSince[a] <= |s.picks|
      && (s.idleSince[a] > 0 ==> s.picks[s.idleSince[a] - 1] == a)
  }

  ghost predicate Turns(s: State)
  {
    && |s.workers| == 1 && s.leaked == {}
    && (Held(s.workers[0]).Some? ==> s.picks != [] && s.picks[|s.picks| - 1] == Held(s.workers[0]).value)
    && (forall a :: IdleAfterOwn(s, a))
  }

  ghost predicate Rotating(s: State)
  {
    Fair(s) && Turns(s) && Windowed(s)
  }

  /** Any n consecutive leases go to n different accounts. */
  ghost predicate Windowed(s: State)
  {
    forall i, j | 0 <= i < j < |s.picks| :: j - i < |s.accounts| ==> s.picks[i] != s.picks[j]
  }

  lemma AllIdle(s: State, a: AccountId)
    requires Rotating(s) && a in s.accounts && Held(s.workers[0]).None?
    ensures IsIdle(s.accounts, a)
  {
    AccountedMeans(s, a);
  }

  /** An account that was not leased after position `i` would see `b` leased twice while idle. */
  lemma EveryoneBetween(c: Config, s: State, x: WorkerStep, i: nat, a: AccountId)
    requires Rotating(s) && Enabled(c, s, Work(0, x)) && x.Lease?
    requires i < |s.picks| && s.picks[i] == x.account && a in s.accounts && a != x.account
    requires a in s.idleSince && s.idleSince[a] <= |s.picks|
    ensures a in s.picks[i + 1..] || !Distinct(Bypasses(Apply(c, s, Work(0, x)), a))
  {
    AllIdle(s, a);
    assert IdleAfterOwn(s, a);
    var k := s.idleSince[a];
    if k > i {
      assert s.picks[k - 1] == a;
      assert s.picks[i + 1..][k - i - 2] == a;
    } else {
      var since := Bypasses(Apply(c, s, Work(0, x)), a);
      assert since[i - k] == x.account && since[|s.picks| - k] == x.account;
    }
  }

  lemma LeaseWindowed(c: Config, s: State, x: WorkerStep)
    requires Enabled(c, s, Work(0, x)) && x.Lease? && Rotating(s) && Fair(Apply(c, s, Work(0, x)))
    ensures Windowed(Apply(c, s, Work(0, x)))
  {
    var t := Apply(c, s, Work(0, x));
    var others := s.accounts.Keys - {x.account};
    assert |others| == |s.accounts| - 1;
    assert t.accounts.Keys == s.accounts.Keys;
    assert |t.accounts| == |s.accounts|;
    assert t.picks == s.picks + [x.account];
    forall i | 0 <= i < |s.picks| && |s.picks| - i < |s.accounts|
      ensures s.picks[i] != x.account
    {
      if s.picks[i] == x.account {
        forall a | a in others
          ensures a in s.picks[i + 1..]
        {
          AllIdle(s, a);
          assert FairTo(s, a) && FairTo(t, a);
          EveryoneBetween(c, s, x, i, a);
        }
        SetFits(others, s.picks[i + 1..]);
      }
    }
  }

  lemma StepTurnsFor(c: Config, s: State, x: Action, a: AccountId)
    requires Enabled(c, s, x) && Orderly(s, x) && Turns(s)
    ensures IdleAfterOwn(Apply(c, s, x), a)
  {
    var u := Apply(c, s, x);
    assert IdleAfterOwn(s, a);
    if x.Work? {
      WorkHistory(c, s, x.i, x.work);
      WorkAccount(c, s, x.i, x.work, a);
    } else {
      OtherAccount(c, s, x, a);
    }
  }

  lemma StepTurns(c: Config, s: State, x: Action)
    requires Enabled(c, s, x) && Orderly(s, x) && Turns(s)
    ensures Turns(Apply(c, s, x))
  {
    if x.Work? {
      WorkHistory(c, s, x.i, x.work);
    }
    forall a ensures IdleAfterOwn(Apply(c, s, x), a) {
      StepTurnsFor(c, s, x, a);
    }
  }

  lemma SameWindow(c: Config, s: State, x: Action)
    requires Enabled(c, s, x) && Windowed(s) && !x.AddAccount? && !(x.Work? && x.work.Lease?)
    ensures Windowed(Apply(c, s, x))
  {
    var u := Apply(c, s, x);
    if x.Work? {
      WorkHistory(c, s, x.i, x.work);
    } else {
      OtherAccount(c, s, x, 0);
      assert u.accounts.Keys == s.accounts.Keys;
    }
    assert |u.accounts| == |u.accounts.Keys| && |s.accounts| == |s.accounts.Keys|;
  }

  lemma StepRotating(c: Config, s: State, x: Action)
    requires Enabled(c, s, x) && Orderly(s, x) && Rotating(s)
    ensures Rotating(Apply(c, s, x))
  {
    FairNext(c, s, x);
    StepTurns(c, s, x);
    if x.Work? && x.work.Lease? {
      LeaseWindowed(c, s, x.work);
    } else {
      SameWindow(c, s, x);
    }
  }

  lemma {:induction false} RunRotating(c: Config, s: State, acts: seq<Action>, t: State)
    requires Run(c, s, acts, t) && Always(c, s, acts, Orderly) && Rotating(s)
    ensures Rotating(t)
    decreases |acts|
  {
    if acts == [] {
    } else {
      StepRotating(c, s, acts[0]);
      RunRotating(c, Apply(c, s, acts[0]), acts[1..], t);
    }
  }

  /** With one worker, a fixed set of n idle accounts and no stranded lease, any n consecutive
      leases of a run go to n different accounts. */
  lemma OneWorkerRotates(c: Config, s: State, acts: seq<Action>, t: State)
    requires Initial(s) && |s.workers| == 1 && Run(c, s, acts, t) && Always(c, s, acts, Orderly)
    requires forall a :: a in s.accounts ==> s.accounts[a].status == Idle
    ensures Windowed(t)
  {
    StartFair(s);
    RunRotating(c, s, acts, t);
  }
}
