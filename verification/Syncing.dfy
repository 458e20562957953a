/** Sequence reconciliation inside the protocol: what a syncer's write can and cannot do. */
module Syncing {
  import opened Base
  import opened Tables
  import opened Protocol
  import opened Leasing
  import opened Effects
  import opened Sequences

  /** An account of the snapshot that was not leased since is as it was when it was listed. */
  ghost predicate SnapshotHolds(s: State, left: map<AccountId, int>, since: nat, a: AccountId)
  {
    && since <= |s.picks|
    && (a in left && a !in s.picks[since..] ==> IsIdle(s.accounts, a) && s.accounts[a].sequence == left[a])
  }

  ghost predicate SyncKnows(s: State, a: AccountId)
  {
    |s.syncers| == 1 &&
    match s.syncers[0]
    case Resting => true
    case Scanning(left, since, _) => SnapshotHolds(s, left, since, a)
    case Comparing(b, network, _, left, since, _) =>
      && SnapshotHolds(s, left, since, a) && b !in left
      && (a == b && a !in s.picks[since..] ==> IsIdle(s.accounts, a) && s.accounts[a].sequence < network)
  }

  /** A worker's step either leases `a` or leaves its idle row as it is. */
  lemma WorkKeepsSnapshot(s: State, u: State, w: Worker, x: WorkerStep, a: AccountId)
    requires SyncKnows(s, a) && u.syncers == s.syncers && AccountTouched(s, u, w, x, a)
    requires u.picks == if x.Lease? then s.picks + [x.account] else s.picks
    requires Held(w) == Some(a) ==> !IsIdle(s.accounts, a)
    ensures SyncKnows(u, a)
  {
    var y := s.syncers[0];
    if !y.Resting? && x.Lease? {
      assert u.picks[y.since..] == s.picks[y.since..] + [x.account];
    }
  }

  lemma SyncKeepsSnapshot(c: Config, s: State, x: Action, a: AccountId)
    requires Enabled(c, s, x) && x.Sync? && SyncKnows(s, a)
    ensures SyncKnows(Apply(c, s, x), a)
  {
  }

  lemma StepSyncKnows(c: Config, s: State, x: Action, a: AccountId)
    requires Enabled(c, s, x) && SyncKnows(s, a) && Accounted(s, a)
    ensures SyncKnows(Apply(c, s, x), a)
  {
    match x
    case Work(i, work) =>
      AccountedMeans(s, a);
      WorkAccount(c, s, i, work, a);
      WorkHistory(c, s, i, work);
      WorkKeepsSnapshot(s, Apply(c, s, x), s.workers[i], work, a);
    case Sync(_, _) => SyncKeepsSnapshot(c, s, x, a);
    case _ => OtherAccount(c, s, x, a);
  }

  lemma {:induction false} RunSyncKnows(c: Config, s: State, acts: seq<Action>, t: State, a: AccountId)
    requires Run(c, s, acts, t) && SyncKnows(s, a) && Accounted(s, a)
    ensures SyncKnows(t, a)
    decreases |acts|
  {
    if acts == [] {
    } else {
      StepAccounted(c, s, acts[0], a);
      StepSyncKnows(c, s, acts[0], a);
      RunSyncKnows(c, Apply(c, s, acts[0]), acts[1..], t, a);
    }
  }

  /** With one syncer, its write can lower a number only for an account that was leased after the
      syncer listed it: reconciliation at startup, before any lease, only raises numbers. */
  lemma LoweringNeedsLease(c: Config, s: State, acts: seq<Action>, t: State, reply: Reply)
    requires Initial(s) && |s.syncers| == 1 && Run(c, s, acts, t) && t.syncers != []
    requires Lowers(t, t.syncers[0], reply)
    ensures t.syncers[0].since <= |t.picks| && t.syncers[0].account in t.picks[t.syncers[0].since..]
  {
    var a := t.syncers[0].account;
    StartAccounted(s, a);
    RunSyncKnows(c, s, acts, t, a);
  }

  // ----- exactly when a sync lowers a number -----

  /** What syncer `y` knows of `a` is the number that the writes before its listing left behind. */
  ghost predicate ListedExactly(s: State, y: Syncer, a: AccountId, base: int)
  {
    match y
    case Resting => true
    case Scanning(left, _, wrote) =>
      wrote <= |s.writes| && (a in left ==> left[a] == base + Moved(s.writes[..wrote], a))
    case Comparing(b, _, listed, left, _, wrote) =>
      && wrote <= |s.writes|
      && (a in left ==> left[a] == base + Moved(s.writes[..wrote], a))
      && (a == b ==> listed == base + Moved(s.writes[..wrote], a))
  }

  ghost predicate AllListed(s: State, a: AccountId, base: int)
  {
    forall k | 0 <= k < |s.syncers| :: ListedExactly(s, s.syncers[k], a, base)
  }

  lemma ListedFrame(s: State, t: State, y: Syncer, a: AccountId, base: int)
    requires ListedExactly(s, y, a, base) && s.writes <= t.writes
    ensures ListedExactly(t, y, a, base)
  {
    if !y.Resting? {
      assert t.writes[..y.wrote] == s.writes[..y.wrote];
    }
  }

  lemma SyncListed(c: Config, s: State, k: nat, x: SyncStep, a: AccountId, base: int)
    requires Enabled(c, s, Sync(k, x)) && ExactNumbers(s, a, base) && ListedExactly(s, s.syncers[k], a, base)
    ensures ListedExactly(s, SyncerAfter(s, s.syncers[k], x), a, base)
  {
    assert s.writes[..|s.writes|] == s.writes;
  }

  lemma WritesGrow(c: Config, s: State, x: Action)
    requires Enabled(c, s, x)
    ensures var t := Apply(c, s, x); s.writes <= t.writes
    ensures var t := Apply(c, s, x);
      t.syncers == if x.Sync? then s.syncers[x.k := SyncerAfter(s, s.syncers[x.k], x.sync)] else s.syncers
  {
    if x.Work? {
      WorkHistory(c, s, x.i, x.work);
    } else {
      OtherAccount(c, s, x, 0);
      OtherSyncers(c, s, x);
    }
  }

  lemma OtherSyncers(c: Config, s: State, x: Action)
    requires Enabled(c, s, x) && !x.Work?
    ensures Apply(c, s, x).syncers ==
      if x.Sync? then s.syncers[x.k := SyncerAfter(s, s.syncers[x.k], x.sync)] else s.syncers
  {
  }

  lemma StepListed(c: Config, s: State, x: Action, a: AccountId, base: int)
    requires Enabled(c, s, x) && ExactNumbers(s, a, base) && AllListed(s, a, base)
    ensures AllListed(Apply(c, s, x), a, base)
  {
    var t := Apply(c, s, x);
    WritesGrow(c, s, x);
    forall k | 0 <= k < |t.syncers|
      ensures ListedExactly(t, t.syncers[k], a, base)
    {
      assert ListedExactly(s, s.syncers[k], a, base);
      if x.Sync? && x.k == k {
        SyncListed(c, s, k, x.sync, a, base);
      }
      ListedFrame(s, t, t.syncers[k], a, base);
    }
  }

  lemma {:induction false} RunListed(c: Config, s: State, acts: seq<Action>, t: State, a: AccountId, base: int)
    requires Run(c, s, acts, t) && Exact(s, a, base) && AllListed(s, a, base)
    ensures Exact(t, a, base) && AllListed(t, a, base)
    decreases |acts|
  {
    if acts == [] {
    } else {
      StepExact(c, s, acts[0], a, base);
      StepListed(c, s, acts[0], a, base);
      RunListed(c, Apply(c, s, acts[0]), acts[1..], t, a, base);
    }
  }

  /** In every run, with any number of syncers: a syncer's write that takes effect lowers the number
      if and only if the writes since the syncer listed the accounts moved the number further than the
      network was ahead of the number listed. */
  lemma LowersIff(c: Config, s: State, acts: seq<Action>, t: State, k: nat, reply: Reply)
    requires Initial(s) && Run(c, s, acts, t) && k < |t.syncers| && t.syncers[k].Comparing?
    requires IsIdle(t.accounts, t.syncers[k].account) && reply != Refused
    ensures var y := t.syncers[k];
      && y.wrote <= |t.writes|
      && (Lowers(t, y, reply) <==> Moved(t.writes[y.wrote..], y.account) > y.network - y.listed)
  {
    var y := t.syncers[k];
    var a := y.account;
    StartAccounted(s, a);
    RunListed(c, s, acts, t, a, Origin(s, a));
    assert ListedExactly(t, y, a, Origin(s, a));
    assert t.writes == t.writes[..y.wrote] + t.writes[y.wrote..];
    MovedSplit(t.writes[..y.wrote], t.writes[y.wrote..], a);
  }

  /** The only syncer has not written to the accounts that it listed and not yet written to. */
  ghost predicate NotYetWritten(s: State, a: AccountId)
  {
    |s.syncers| == 1 &&
    match s.syncers[0]
    case Resting => true
    case Scanning(left, _, wrote) => wrote <= |s.writes| && (a in left ==> NoSyncer(s.writes[wrote..], a))
    case Comparing(b, _, _, left, _, wrote) =>
      wrote <= |s.writes| && b !in left && (a in left || a == b ==> NoSyncer(s.writes[wrote..], a))
  }

  lemma StepNotYetWritten(c: Config, s: State, x: Action, a: AccountId)
    requires Enabled(c, s, x) && NotYetWritten(s, a)
    ensures NotYetWritten(Apply(c, s, x), a)
  {
    WritesGrow(c, s, x);
  }

  lemma {:induction false} RunNotYetWritten(c: Config, s: State, acts: seq<Action>, t: State, a: AccountId)
    requires Run(c, s, acts, t) && NotYetWritten(s, a)
    ensures NotYetWritten(t, a)
    decreases |acts|
  {
    if acts == [] {
    } else {
      StepNotYetWritten(c, s, acts[0], a);
      RunNotYetWritten(c, Apply(c, s, acts[0]), acts[1..], t, a);
    }
  }

  /** With one syncer, its write lowers the number if and only if, since it listed the accounts, more
      workers' writes to the account took effect than the network was ahead of the number listed. */
  lemma OneSyncerLowersIff(c: Config, s: State, acts: seq<Action>, t: State, reply: Reply)
    requires Initial(s) && |s.syncers| == 1 && Run(c, s, acts, t)
    requires t.syncers != [] && t.syncers[0].Comparing?
    requires IsIdle(t.accounts, t.syncers[0].account) && reply != Refused
    ensures var y := t.syncers[0];
      && y.wrote <= |t.writes|
      && (Lowers(t, y, reply) <==> Count(t.writes[y.wrote..], IsBy(y.account)) > y.network - y.listed)
  {
    var y := t.syncers[0];
    LowersIff(c, s, acts, t, 0, reply);
    RunNotYetWritten(c, s, acts, t, y.account);
    MovedCounts(t.writes[y.wrote..], y.account);
  }

  // ----- a held row belongs to its holder -----

  /** Worker `i` holds `a`, and the books of `a` balance. */
  ghost predicate Holder(s: State, i: nat, a: AccountId)
  {
    i < |s.workers| && Held(s.workers[i]) == Some(a) && Accounted(s, a)
  }

  /** No step of a syncer, a retrier or a worker that does not hold `a` changes the row of a leased
      account, held or leaked. */
  lemma OnlyHolderWrites(c: Config, s: State, x: Action, a: AccountId)
    requires Enabled(c, s, x) && IsLeased(s.accounts, a)
    requires x.Work? ==> Held(s.workers[x.i]) != Some(a)
    ensures var t := Apply(c, s, x); a in t.accounts && t.accounts[a] == s.accounts[a]
  {
    if x.Work? {
      WorkAccount(c, s, x.i, x.work, a);
    } else {
      OtherAccount(c, s, x, a);
    }
  }

  lemma OthersSpareHeld(c: Config, s: State, x: Action, i: nat, a: AccountId)
    requires Enabled(c, s, x) && Holder(s, i, a) && !(x.Work? && x.i == i)
    ensures var t := Apply(c, s, x);
      && Holder(t, i, a) && t.workers[i] == s.workers[i]
      && a in s.accounts && a in t.accounts && t.accounts[a] == s.accounts[a]
  {
    AccountedMeans(s, a);
    StepAccounted(c, s, x, a);
    OnlyHolderWrites(c, s, x, a);
  }

  /** While a worker holds an account, whatever the other workers, retriers and syncers do meanwhile,
      at any speed and with any failures, leaves its row exactly as it is. */
  lemma {:induction false} HolderOwnsRow(c: Config, s: State, acts: seq<Action>, t: State, i: nat, a: AccountId)
    requires Run(c, s, acts, t) && Holder(s, i, a)
    requires forall k :: 0 <= k < |acts| ==> !(acts[k].Work? && acts[k].i == i)
    ensures a in s.accounts && a in t.accounts && t.accounts[a] == s.accounts[a] && Holder(t, i, a)
    decreases |acts|
  {
    if acts == [] {
      AccountedMeans(s, a);
    } else {
      OthersSpareHeld(c, s, acts[0], i, a);
      HolderOwnsRow(c, Apply(c, s, acts[0]), acts[1..], t, i, a);
    }
  }
}
