/** Sequence numbers. Each worker reads a number with its lease, adds one locally and writes the
    result back by key alone, so fresh numbers rest on lease exclusion and on the write happening. */
module Sequences {
  import opened Base
  import opened Tables
  import opened Protocol
  import opened Leasing
  import opened Effects

  /** The number a worker still has to write is the one in the table plus one. */
  ghost predicate InStep(s: State, a: AccountId)
  {
    forall i | 0 <= i < |s.workers| ::
      s.workers[i].Holding? && s.workers[i].account == a ==>
        a in s.accounts && s.workers[i].sequence == s.accounts[a].sequence
  }

  lemma WorkInStep(s: State, u: State, i: nat, w: Worker, x: WorkerStep, a: AccountId)
    requires InStep(s, a) && HeldOnce(s, a) && i < |s.workers| && u.workers == s.workers[i := w]
    requires AccountTouched(s, u, s.workers[i], x, a)
    requires w.Holding? && w.account == a ==> a in s.accounts && w.sequence == s.accounts[a].sequence && x.Lease?
    ensures InStep(u, a)
  {
    assert forall j | 0 <= j < |s.workers| && j != i :: u.workers[j] == s.workers[j];
    if Numbers(s.workers[i], x, a) {
      assert Held(s.workers[i]) == Some(a);
      assert forall j | 0 <= j < |s.workers| && j != i :: Held(s.workers[j]) != Some(a);
    }
  }

  lemma OtherInStep(c: Config, s: State, x: Action, a: AccountId)
    requires Enabled(c, s, x) && !x.Work? && Accounted(s, a) && InStep(s, a)
    ensures InStep(Apply(c, s, x), a)
  {
    AccountedMeans(s, a);
    OtherAccount(c, s, x, a);
    forall i | 0 <= i < |s.workers| && s.workers[i].Holding? && s.workers[i].account == a
      ensures IsLeased(s.accounts, a)
    {
      assert Held(s.workers[i]) == Some(a);
    }
  }

  lemma StepInStep(c: Config, s: State, x: Action, a: AccountId)
    requires Enabled(c, s, x) && Accounted(s, a) && InStep(s, a)
    ensures InStep(Apply(c, s, x), a)
  {
    if x.Work? {
      AccountedMeans(s, a);
      WorkAccount(c, s, x.i, x.work, a);
      WorkHistory(c, s, x.i, x.work);
      WorkInStep(s, Apply(c, s, x), x.i, WorkerAfter(c, s, s.workers[x.i], x.work), x.work, a);
    } else {
      OtherInStep(c, s, x, a);
    }
  }

  // ----- strictly increasing numbers -----

  /** A lease of `a` has ended or its sequence write has happened. */
  ghost predicate Written(s: State, a: AccountId)
  {
    IsIdle(s.accounts, a) || exists i :: 0 <= i < |s.workers| && Held(s.workers[i]) == Some(a) && !s.workers[i].Holding?
  }

  ghost predicate Increasing(grants: seq<Grant>, a: AccountId)
  {
    forall i, j | 0 <= i < j < |grants| ::
      grants[i].account == a && grants[j].account == a ==> grants[i].number < grants[j].number
  }

  ghost predicate Fresh(s: State, a: AccountId)
  {
    Accounted(s, a) && InStep(s, a) && Numbered(s, a)
  }

  /** Every worker's sequence write takes effect, and no syncer's write lowers a number. */
  ghost predicate SoundWrites(s: State, x: Action)
  {
    && (x.Work? && x.work.WriteSequence? ==> x.work.reply != Refused)
    && (x.Sync? && x.k < |s.syncers| && x.sync.Overwrite? ==> !Lowers(s, s.syncers[x.k], x.sync.reply))
  }

  /** A syncer's write that takes effect and puts a smaller number in the table. */
  predicate Lowers(s: State, y: Syncer, reply: Reply)
  {
    reply != Refused && y.Comparing? && IsIdle(s.accounts, y.account) && y.network < s.accounts[y.account].sequence
  }

  /** The numbers of a state, apart from how they are accounted for. */
  ghost predicate Numbered(s: State, a: AccountId)
  {
    && Increasing(s.grants, a)
    && (forall k | 0 <= k < |s.grants| :: s.grants[k].account == a ==>
          && a in s.accounts
          && s.grants[k].number <= s.accounts[a].sequence + 1
          && (Written(s, a) ==> s.grants[k].number <= s.accounts[a].sequence))
  }

  /** Steps that write no number and grant no lease leave the numbers in order. */
  lemma NumberedFrame(s: State, t: State, i: nat, w: Worker, a: AccountId)
    requires Numbered(s, a) && i < |s.workers| && t.workers == s.workers[i := w]
    requires t.grants == s.grants
    requires a in s.accounts ==> a in t.accounts && t.accounts[a].sequence == s.accounts[a].sequence
    requires Held(w) == Some(a) && !w.Holding? ==> Held(s.workers[i]) == Some(a) && !s.workers[i].Holding?
    requires IsIdle(t.accounts, a) && a in s.accounts ==> Written(s, a)
    ensures Numbered(t, a)
  {
    assert forall j | 0 <= j < |s.workers| && j != i :: t.workers[j] == s.workers[j];
  }

  /** A grant of the stored number plus one, to a worker that still has to write it. */
  lemma GrantNumbered(s: State, t: State, i: nat, w: Worker, grant: Grant, a: AccountId)
    requires Fresh(s, a) && IsIdle(s.accounts, a) && i < |s.workers| && t.workers == s.workers[i := w]
    requires grant.account == a && grant.number == s.accounts[a].sequence + 1
    requires t.grants == s.grants + [grant] && Held(w) == Some(a) && w.Holding?
    requires IsLeased(t.accounts, a) && t.accounts[a].sequence == s.accounts[a].sequence
    ensures Numbered(t, a)
  {
    AccountedMeans(s, a);
    assert forall j | 0 <= j < |s.workers| && j != i :: t.workers[j] == s.workers[j] && Held(t.workers[j]) != Some(a);
    assert !Written(t, a) && Written(s, a);
  }

  /** A lease of another account, or one that nobody hears of. */
  lemma OtherGrant(s: State, t: State, i: nat, w: Worker, more: seq<Grant>, a: AccountId)
    requires Numbered(s, a) && i < |s.workers| && t.workers == s.workers[i := w] && Held(s.workers[i]).None?
    requires t.grants == s.grants + more && forall k | 0 <= k < |more| :: more[k].account != a
    requires a in s.accounts ==> a in t.accounts && t.accounts[a].sequence == s.accounts[a].sequence
    requires IsIdle(t.accounts, a) ==> IsIdle(s.accounts, a)
    requires Held(w).Some? ==> w.Holding?
    ensures Numbered(t, a)
  {
    assert forall j | 0 <= j < |s.workers| && j != i :: t.workers[j] == s.workers[j];
  }

  lemma LeaseNumbered(c: Config, s: State, i: nat, x: WorkerStep, a: AccountId)
    requires Enabled(c, s, Work(i, x)) && x.Lease? && Fresh(s, a)
    ensures Numbered(Apply(c, s, Work(i, x)), a)
  {
    var t := Apply(c, s, Work(i, x));
    var w := WorkerAfter(c, s, s.workers[i], x);
    WorkAccount(c, s, i, x, a);
    WorkHistory(c, s, i, x);
    var grant := Grant(x.account, s.accounts[x.account].sequence + 1, |s.writes|);
    if x.account == a && x.reply == Done {
      GrantNumbered(s, t, i, w, grant, a);
    } else {
      OtherGrant(s, t, i, w, if x.reply == Done then [grant] else [], a);
    }
  }

  lemma WriteNumbered(c: Config, s: State, i: nat, x: WorkerStep, a: AccountId)
    requires Enabled(c, s, Work(i, x)) && x.WriteSequence? && x.reply != Refused && Fresh(s, a)
    ensures Numbered(Apply(c, s, Work(i, x)), a)
  {
    AccountedMeans(s, a);
    var w := s.workers[i];
    var t := Apply(c, s, Work(i, x));
    if w.account == a {
      assert Held(w) == Some(a);
      assert forall j | 0 <= j < |s.workers| && j != i :: t.workers[j] == s.workers[j] && Held(s.workers[j]) != Some(a);
    } else {
      NumberedFrame(s, t, i, t.workers[i], a);
    }
  }

  lemma OtherNumbered(c: Config, s: State, i: nat, x: WorkerStep, a: AccountId)
    requires Enabled(c, s, Work(i, x)) && !x.Lease? && !x.WriteSequence? && Fresh(s, a)
    ensures Numbered(Apply(c, s, Work(i, x)), a)
  {
    var t := Apply(c, s, Work(i, x));
    NumberedFrame(s, t, i, WorkerAfter(c, s, s.workers[i], x), a);
  }

  lemma SyncNumbered(c: Config, s: State, x: Action, a: AccountId)
    requires Enabled(c, s, x) && x.Sync? && SoundWrites(s, x) && Fresh(s, a)
    ensures Numbered(Apply(c, s, x), a)
  {
    AccountedMeans(s, a);
  }

  lemma WorkNumbered(c: Config, s: State, i: nat, x: WorkerStep, a: AccountId)
    requires Enabled(c, s, Work(i, x)) && SoundWrites(s, Work(i, x)) && Fresh(s, a)
    ensures Numbered(Apply(c, s, Work(i, x)), a)
  {
    match x
    case Lease(_, _) => LeaseNumbered(c, s, i, x, a);
    case WriteSequence(_) => WriteNumbered(c, s, i, x, a);
    case _ => OtherNumbered(c, s, i, x, a);
  }

  /** Steps that touch neither workers nor numbers; an account that is new has none. */
  lemma NewNumbered(c: Config, s: State, x: Action, a: AccountId)
    requires Enabled(c, s, x) && !x.Work? && !x.Sync? && Fresh(s, a)
    ensures Numbered(Apply(c, s, x), a)
  {
    AccountedMeans(s, a);
    OtherAccount(c, s, x, a);
  }

  lemma StepFresh(c: Config, s: State, x: Action, a: AccountId)
    requires Enabled(c, s, x) && SoundWrites(s, x) && Fresh(s, a)
    ensures Fresh(Apply(c, s, x), a)
  {
    StepAccounted(c, s, x, a);
    StepInStep(c, s, x, a);
    match x
    case Work(i, work) => WorkNumbered(c, s, i, work, a);
    case Sync(_, _) => SyncNumbered(c, s, x, a);
    case _ => NewNumbered(c, s, x, a);
  }

  lemma {:induction false} RunFresh(c: Config, s: State, acts: seq<Action>, t: State, a: AccountId)
    requires Run(c, s, acts, t) && Always(c, s, acts, SoundWrites) && Fresh(s, a)
    ensures Fresh(t, a)
    decreases |acts|
  {
    if acts == [] {
    } else {
      StepFresh(c, s, acts[0], a);
      RunFresh(c, Apply(c, s, acts[0]), acts[1..], t, a);
    }
  }

  /** With any number of workers, the numbers computed for one account strictly increase, so no
      (account, number) pair is ever used twice, in every run where the writes are sound. */
  lemma NumbersIncrease(c: Config, s: State, acts: seq<Action>, t: State, a: AccountId)
    requires Initial(s) && Run(c, s, acts, t) && Always(c, s, acts, SoundWrites)
    ensures Increasing(t.grants, a)
  {
    StartAccounted(s, a);
    RunFresh(c, s, acts, t, a);
  }

  // ----- exact numbers -----

  /** By how much one sequence write moves the stored number. */
  function Shift(write: Write): int
  {
    match write
    case ByWorker(_) => 1
    case BySyncer(_, moved) => moved
  }

  /** By how much the writes to `a` move its stored number together. */
  function Moved(writes: seq<Write>, a: AccountId): int
  {
    if writes == [] then 0
    else
      var last := writes[|writes| - 1];
      Moved(writes[..|writes| - 1], a) + if last.account == a then Shift(last) else 0
  }

  lemma MovedAppend(writes: seq<Write>, write: Write, a: AccountId)
    ensures Moved(writes + [write], a) == Moved(writes, a) + if write.account == a then Shift(write) else 0
  {
    assert (writes + [write])[..|writes|] == writes;
  }

  lemma {:induction false} MovedSplit(xs: seq<Write>, ys: seq<Write>, a: AccountId)
    ensures Moved(xs + ys, a) == Moved(xs, a) + Moved(ys, a)
    decreases |ys|
  {
    if ys == [] {
      assert xs + ys == xs;
    } else {
      var k := |ys| - 1;
      assert (xs + ys)[..|xs + ys| - 1] == xs + ys[..k];
      MovedSplit(xs, ys[..k], a);
    }
  }

  function IsBy(a: AccountId): Write -> bool
  {
    write => write == ByWorker(a)
  }

  ghost predicate NoSyncer(writes: seq<Write>, a: AccountId)
  {
    forall k :: 0 <= k < |writes| ==> writes[k].account == a ==> writes[k].ByWorker?
  }

  /** Where only workers wrote, the stored number counts their writes. */
  lemma {:induction false} MovedCounts(writes: seq<Write>, a: AccountId)
    requires NoSyncer(writes, a)
    ensures Moved(writes, a) == Count(writes, IsBy(a))
    decreases |writes|
  {
    if writes == [] {
    } else {
      var k := |writes| - 1;
      assert forall j :: 0 <= j < k ==> writes[..k][j] == writes[j];
      MovedCounts(writes[..k], a);
      assert IsBy(a)(writes[k]) <==> writes[k].account == a;
    }
  }

  /** The number stored for `a` when the run began; accounts added later begin at zero. */
  function Origin(s: State, a: AccountId): int
  {
    if a in s.accounts then s.accounts[a].sequence else 0
  }

  /** Stored and computed numbers follow from the writes that took effect. */
  ghost predicate ExactNumbers(s: State, a: AccountId, base: int)
  {
    && (if a in s.accounts then s.accounts[a].sequence == base + Moved(s.writes, a)
        else base == 0 && Moved(s.writes, a) == 0)
    && (forall k | 0 <= k < |s.grants| :: s.grants[k].writes <= |s.writes|)
    && (forall j, k | 0 <= j < k < |s.grants| :: s.grants[j].writes <= s.grants[k].writes)
    && (forall k | 0 <= k < |s.grants| :: s.grants[k].account == a ==>
          s.grants[k].number == base + Moved(s.writes[..s.grants[k].writes], a) + 1)
  }

  ghost predicate Exact(s: State, a: AccountId, base: int)
  {
    Accounted(s, a) && InStep(s, a) && ExactNumbers(s, a, base)
  }

  /** A write that moves the number as it is logged keeps the numbers exact. */
  lemma WriteFrame(s: State, t: State, write: Write, a: AccountId, base: int)
    requires ExactNumbers(s, a, base) && t.grants == s.grants && t.writes == s.writes + [write]
    requires a in t.accounts <==> a in s.accounts
    requires write.account == a ==> a in s.accounts && t.accounts[a].sequence == s.accounts[a].sequence + Shift(write)
    requires write.account != a && a in s.accounts ==> t.accounts[a].sequence == s.accounts[a].sequence
    ensures ExactNumbers(t, a, base)
  {
    MovedAppend(s.writes, write, a);
    forall k | 0 <= k < |t.grants| && t.grants[k].account == a
      ensures t.grants[k].number == base + Moved(t.writes[..t.grants[k].writes], a) + 1
    {
      assert t.writes[..t.grants[k].writes] == s.writes[..s.grants[k].writes];
    }
  }

  lemma WriteExact(c: Config, s: State, i: nat, x: WorkerStep, a: AccountId, base: int)
    requires Enabled(c, s, Work(i, x)) && x.WriteSequence? && x.reply != Refused && Exact(s, a, base)
    ensures ExactNumbers(Apply(c, s, Work(i, x)), a, base)
  {
    AccountedMeans(s, a);
    WorkAccount(c, s, i, x, a);
    WorkHistory(c, s, i, x);
    var w := s.workers[i];
    assert Held(w) == Some(w.account);
    WriteFrame(s, Apply(c, s, Work(i, x)), ByWorker(w.account), a, base);
  }

  lemma SyncExact(c: Config, s: State, x: Action, a: AccountId, base: int)
    requires Enabled(c, s, x) && Overwrites(s, x) && ExactNumbers(s, a, base)
    ensures ExactNumbers(Apply(c, s, x), a, base)
  {
    OtherAccount(c, s, x, a);
    WriteFrame(s, Apply(c, s, x), SyncWrite(s, x)[0], a, base);
  }

  /** A lease granted for the account's stored number plus one. */
  lemma GrantFrame(s: State, t: State, grant: Grant, a: AccountId, base: int)
    requires ExactNumbers(s, a, base) && t.grants == s.grants + [grant] && t.writes == s.writes
    requires grant.account == a ==> a in s.accounts && grant.number == s.accounts[a].sequence + 1
    requires grant.writes == |s.writes|
    requires a in t.accounts <==> a in s.accounts
    requires a in s.accounts ==> t.accounts[a].sequence == s.accounts[a].sequence
    ensures ExactNumbers(t, a, base)
  {
    assert s.writes[..|s.writes|] == s.writes;
  }

  lemma LeaseExact(c: Config, s: State, i: nat, x: WorkerStep, a: AccountId, base: int)
    requires Enabled(c, s, Work(i, x)) && x.Lease? && ExactNumbers(s, a, base)
    ensures ExactNumbers(Apply(c, s, Work(i, x)), a, base)
  {
    WorkAccount(c, s, i, x, a);
    WorkHistory(c, s, i, x);
    var t := Apply(c, s, Work(i, x));
    if x.reply == Done {
      GrantFrame(s, t, Grant(x.account, s.accounts[x.account].sequence + 1, |s.writes|), a, base);
    } else {
    }
  }

  lemma QuietExact(c: Config, s: State, x: Action, a: AccountId, base: int)
    requires Enabled(c, s, x) && !Overwrites(s, x) && ExactNumbers(s, a, base)
    requires x.Work? ==> !x.work.Lease? && !(x.work.WriteSequence? && x.work.reply != Refused)
    ensures ExactNumbers(Apply(c, s, x), a, base)
  {
    if x.Work? {
      WorkHistory(c, s, x.i, x.work);
      WorkAccount(c, s, x.i, x.work, a);
    } else {
      OtherAccount(c, s, x, a);
    }
  }

  lemma StepExact(c: Config, s: State, x: Action, a: AccountId, base: int)
    requires Enabled(c, s, x) && Exact(s, a, base)
    ensures Exact(Apply(c, s, x), a, base)
  {
    StepAccounted(c, s, x, a);
    StepInStep(c, s, x, a);
    if x.Work? && x.work.Lease? {
      LeaseExact(c, s, x.i, x.work, a, base);
    } else if x.Work? && x.work.WriteSequence? && x.work.reply != Refused {
      WriteExact(c, s, x.i, x.work, a, base);
    } else if Overwrites(s, x) {
      SyncExact(c, s, x, a, base);
    } else {
      QuietExact(c, s, x, a, base);
    }
  }

  lemma {:induction false} RunExact(c: Config, s: State, acts: seq<Action>, t: State, a: AccountId, base: int)
    requires Run(c, s, acts, t) && Exact(s, a, base)
    ensures Exact(t, a, base)
    decreases |acts|
  {
    if acts == [] {
    } else {
      StepExact(c, s, acts[0], a, base);
      RunExact(c, Apply(c, s, acts[0]), acts[1..], t, a, base);
    }
  }

  /** The sequence writes that took effect between two leases. */
  function Between(s: State, g: Grant, h: Grant): seq<Write>
  {
    if g.writes <= h.writes <= |s.writes| then s.writes[g.writes..h.writes] else []
  }

  lemma Apart(s: State, a: AccountId, base: int, i: nat, j: nat)
    requires ExactNumbers(s, a, base) && i < j < |s.grants| && s.grants[i].account == a == s.grants[j].account
    ensures s.grants[i].writes <= s.grants[j].writes <= |s.writes|
    ensures s.grants[j].number - s.grants[i].number == Moved(Between(s, s.grants[i], s.grants[j]), a)
  {
    var p, q := s.grants[i].writes, s.grants[j].writes;
    assert s.writes[..q] == s.writes[..p] + s.writes[p..q];
    MovedSplit(s.writes[..p], s.writes[p..q], a);
  }

  /** The two leases of one account compute the same number if and only if the writes between them
      cancel out, and the later one a larger number if and only if they add up to more than zero. */
  ghost predicate NumbersFollow(s: State, a: AccountId, i: nat, j: nat)
    requires i < j < |s.grants|
  {
    var g, h := s.grants[i], s.grants[j];
    && g.writes <= h.writes <= |s.writes|
    && h.number - g.number == Moved(Between(s, g, h), a)
    && (g.number == h.number <==> Moved(Between(s, g, h), a) == 0)
    && (g.number < h.number <==> Moved(Between(s, g, h), a) > 0)
  }

  /** In every run, with any failures and any number of syncers: the stored number is the initial one
      moved by the writes that took effect, a worker's by one each, and whether two leases of an
      account compute the same number depends on nothing but the writes between them. */
  lemma NumbersFollowWrites(c: Config, s: State, acts: seq<Action>, t: State, a: AccountId)
    requires Initial(s) && Run(c, s, acts, t)
    ensures a in t.accounts ==> t.accounts[a].sequence == Origin(s, a) + Moved(t.writes, a)
    ensures forall i: nat, j: nat | i < j < |t.grants| && t.grants[i].account == a && t.grants[j].account == a ::
      NumbersFollow(t, a, i, j)
  {
    StartAccounted(s, a);
    RunExact(c, s, acts, t, a, Origin(s, a));
    forall i: nat, j: nat | i < j < |t.grants| && t.grants[i].account == a && t.grants[j].account == a
      ensures NumbersFollow(t, a, i, j)
    {
      Apart(t, a, Origin(s, a), i, j);
    }
  }

  // ----- counting writes when no sync runs -----

  ghost predicate NoSyncWrite(s: State, x: Action)
  {
    !(x.Sync? && x.sync.Overwrite?)
  }

  lemma {:induction false} RunNoSyncer(c: Config, s: State, acts: seq<Action>, t: State, a: AccountId)
    requires Run(c, s, acts, t) && Always(c, s, acts, NoSyncWrite) && NoSyncer(s.writes, a)
    ensures NoSyncer(t.writes, a)
    decreases |acts|
  {
    if acts == [] {
    } else {
      RunNoSyncer(c, Apply(c, s, acts[0]), acts[1..], t, a);
    }
  }

  /** Repeated exactly when no write to `a` fell between the leases. */
  ghost predicate NumbersCount(s: State, a: AccountId, i: nat, j: nat)
    requires i < j < |s.grants|
  {
    var g, h := s.grants[i], s.grants[j];
    && g.writes <= h.writes <= |s.writes|
    && h.number - g.number == Count(Between(s, g, h), IsBy(a))
    && (g.number == h.number <==> ByWorker(a) !in Between(s, g, h))
  }

  lemma CountApart(s: State, a: AccountId, i: nat, j: nat)
    requires i < j < |s.grants| && NumbersFollow(s, a, i, j) && NoSyncer(s.writes, a)
    ensures NumbersCount(s, a, i, j)
  {
    var between := Between(s, s.grants[i], s.grants[j]);
    MovedCounts(between, a);
    CountNone(between, IsBy(a));
  }

  /** Without sync the stored number is the initial one plus the number of sequence writes that
      took effect, and two leases of an account compute the same number if and only if no such
      write happened between them. */
  lemma NumbersCountWrites(c: Config, s: State, acts: seq<Action>, t: State, a: AccountId)
    requires Initial(s) && Run(c, s, acts, t) && Always(c, s, acts, NoSyncWrite)
    ensures a in t.accounts ==> t.accounts[a].sequence == Origin(s, a) + Count(t.writes, IsBy(a))
    ensures forall i: nat, j: nat | i < j < |t.grants| && t.grants[i].account == a && t.grants[j].account == a ::
      NumbersCount(t, a, i, j)
  {
    NumbersFollowWrites(c, s, acts, t, a);
    RunNoSyncer(c, s, acts, t, a);
    MovedCounts(t.writes, a);
    forall i: nat, j: nat | i < j < |t.grants| && t.grants[i].account == a && t.grants[j].account == a
      ensures NumbersCount(t, a, i, j)
    {
      CountApart(t, a, i, j);
    }
  }
}
