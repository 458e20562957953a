/** Reconciliation of stored sequence numbers with the network. */
module Pools {
  import opened Base
  import opened Tables
  import opened Protocol
  import opened Stores
  import opened Worlds

  /** What the network answers for each account; None is an error. */
  type Answers = AccountId -> Option<int>

  /** One row after a sync in which its query and its write succeed. */
  function SyncedRow(row: AccountRow, answer: Option<int>): AccountRow
  {
    if row.status == Idle && answer.Some? && answer.value > row.sequence then row.(sequence := answer.value) else row
  }

  function Synced(t: AccountTable, network: Answers): AccountTable
  {
    map a | a in t :: SyncedRow(t[a], network(a))
  }

  class Pool {
    const world: World

    constructor (world: World)
      ensures this.world == world
    {
      this.world := world;
    }

    ghost predicate SyncerAt(k: nat, pc: Syncer)
      reads world
    {
      k < |world.m.syncers| && world.m.syncers[k] == pc
    }

    /** Queries one account of the snapshot and writes the network's number if and only if it is higher
        than the one in the snapshot, whatever has become of the row since. */
    method SyncOne(ghost k: nat, ghost pc: Syncer, acct: AccountRecord, network: Answers)
      returns (ghost steps: seq<Action>)
      requires world.Valid() && SyncerAt(k, pc) && pc.Scanning?
      requires acct.key in pc.left && pc.left[acct.key] == acct.row.sequence && acct.row.status == Idle
      modifies world, world.store
      ensures world.Valid() && SyncerAt(k, Scanning(pc.left - {acct.key}, pc.since, pc.wrote))
      ensures world.Did(SyncerRole(k), old(world.run), old(world.Own(SyncerRole(k))), steps)
      ensures OneSync(steps, k, acct, network)
      ensures world.alone && acct.key in old(world.m.accounts) && acct.row == old(world.m.accounts)[acct.key] ==>
        || world.m.accounts == old(world.m.accounts)[acct.key := SyncedRow(acct.row, network(acct.key))]
        || (!world.store.reliable && world.m.accounts == old(world.m.accounts))
    {
      world.Yield(SyncerRole(k));
      var answer := network(acct.key);
      if answer.None? || answer.value <= acct.row.sequence {
        world.Do(SyncerRole(k), Sync(k, Skip(acct.key)));
        return [Sync(k, Skip(acct.key))];
      }
      ghost var reply := QueryAndWrite(k, pc, acct, answer.value);
      steps := [Sync(k, Query(acct.key, answer.value))] + [Sync(k, Overwrite(reply))];
    }

    /** The network's number is higher than the one listed. */
    method QueryAndWrite(ghost k: nat, ghost pc: Syncer, acct: AccountRecord, number: int) returns (ghost reply: Reply)
      requires world.Valid() && SyncerAt(k, pc) && pc.Scanning?
      requires acct.key in pc.left && pc.left[acct.key] == acct.row.sequence < number
      modifies world, world.store
      ensures world.Valid() && SyncerAt(k, Scanning(pc.left - {acct.key}, pc.since, pc.wrote))
      ensures world.Did(SyncerRole(k), old(world.run), old(world.Own(SyncerRole(k))),
                        [Sync(k, Query(acct.key, number))] + [Sync(k, Overwrite(reply))])
      ensures world.alone ==>
        || world.m.accounts == SetSequenceIfIdle(old(world.m.accounts), acct.key, number)
        || (!world.store.reliable && world.m.accounts == old(world.m.accounts))
    {
      ghost var own := world.Own(SyncerRole(k));
      world.Do(SyncerRole(k), Sync(k, Query(acct.key, number)));
      reply := WriteNetwork(k, world.m.syncers[k], acct.key, number);
      StepsJoin(own, [Sync(k, Query(acct.key, number))], [Sync(k, Overwrite(reply))]);
    }

    /** The conditional write; its error is only logged. */
    method WriteNetwork(ghost k: nat, ghost pc: Syncer, key: AccountId, number: int) returns (ghost reply: Reply)
      requires world.Valid() && SyncerAt(k, pc) && pc.Comparing? && pc.account == key && pc.network == number
      modifies world, world.store
      ensures world.Valid() && SyncerAt(k, Scanning(pc.left, pc.since, pc.wrote))
      ensures world.Did(SyncerRole(k), old(world.run), old(world.Own(SyncerRole(k))), [Sync(k, Overwrite(reply))])
      ensures world.alone ==>
        || world.m.accounts == SetSequenceIfIdle(old(world.m.accounts), key, number)
        || (!world.store.reliable && world.m.accounts == old(world.m.accounts))
    {
      world.Yield(SyncerRole(k));
      var ok;
      ok, reply := world.store.UpdateSequenceNumberIfIdle(key, number);
      world.Do(SyncerRole(k), Sync(k, Overwrite(reply)));
    }

    /** The snapshot of all accounts, as a list ordered by key. */
    method ListAll(ghost k: nat) returns (ok: bool, accts: seq<AccountRecord>)
      requires world.Valid() && SyncerAt(k, Resting)
      modifies world, world.store
      ensures world.Valid() && k < |world.m.syncers|
      ensures world.Did(SyncerRole(k), old(world.run), old(world.Own(SyncerRole(k))),
                        if ok then [Sync(k, List)] else [])
      ensures if ok then Scans(world.m.syncers[k], accts, 0) else SyncerAt(k, Resting)
      ensures world.alone ==> world.m.accounts == old(world.m.accounts)
      ensures world.store.reliable ==> ok
      ensures ok ==> Listing(accts, world.m.accounts) && Ascending(accts)
      ensures ok ==> ListedIn(world.config, world.origin, world.run, |old(world.run)|, world.m, k)
    {
      world.Yield(SyncerRole(k));
      ok, accts := world.store.ListChannelAccounts(None);
      if ok {
        world.Do(SyncerRole(k), Sync(k, List));
        assert world.run[..|world.run|] == world.run;
        assert Lists(world.config, world.origin, world.run, |world.run|, world.m, k);
      }
    }

    /** One turn of the loop: a leased account is skipped, an idle one reconciled. */
    method SyncNext(ghost k: nat, ghost t: AccountTable, accts: seq<AccountRecord>, i: nat, network: Answers)
      returns (ghost steps: seq<Action>)
      requires world.Valid() && i < |accts|
      requires k < |world.m.syncers| && Scans(world.m.syncers[k], accts, i)
      requires world.alone ==> SyncedUpTo(accts, i, t, world.m.accounts, network, world.store.reliable)
      modifies world, world.store
      ensures world.Valid() && k < |world.m.syncers| && Scans(world.m.syncers[k], accts, i + 1)
      ensures world.Did(SyncerRole(k), old(world.run), old(world.Own(SyncerRole(k))), steps)
      ensures if accts[i].row.status == Idle then OneSync(steps, k, accts[i], network) else steps == []
      ensures world.alone ==> SyncedUpTo(accts, i + 1, t, world.m.accounts, network, world.store.reliable)
    {
      steps := [];
      ghost var was := world.m.accounts;
      if accts[i].row.status == Idle {
        steps := SyncOne(k, world.m.syncers[k], accts[i], network);
      }
      if world.alone {
        OneMore(accts, i, t, was, world.m.accounts, network, world.store.reliable);
      }
    }

    /** Every execution of a sync, under any interference, is a run of the machine in which syncer `k`
        lists the accounts once and then, account by account, writes the network's number for exactly
        the idle ones listed with a smaller number. With nobody else at work each row is left alone or
        reconciled; if the store is reliable too, exactly the rows whose query succeeds are. */
    method SyncSequenceNumbers(ghost k: nat, network: Answers)
      returns (ok: bool, ghost listed: seq<AccountRecord>, ghost at: State, ghost steps: seq<Action>)
      requires world.Valid() && SyncerAt(k, Resting)
      modifies world, world.store
      ensures world.Valid() && SyncerAt(k, Resting) && world.WentOn(old(world.m), old(world.run))
      ensures world.Did(SyncerRole(k), old(world.run), old(world.Own(SyncerRole(k))),
                  if ok then [Sync(k, List)] + steps + [Sync(k, Stop)] else [])
      ensures ok ==> Listing(listed, at.accounts) && Ascending(listed) && SyncSteps(steps, k, listed, network)
      ensures ok ==> ListedIn(world.config, world.origin, world.run, |old(world.run)|, at, k)
      ensures world.store.reliable ==> ok
      ensures world.alone ==> PartlySynced(old(world.m.accounts), world.m.accounts, network)
      ensures world.alone && !ok ==> world.m.accounts == old(world.m.accounts)
      ensures world.Calm() ==> world.m.accounts == Synced(old(world.m.accounts), network)
    {
      ghost var own := world.Own(SyncerRole(k));
      var accts;
      ok, accts := ListAll(k);
      listed, at, steps := accts, world.m, [];
      if ok {
        ghost var mid := world.run;
        steps := SyncAndStop(k, old(world.m.accounts), accts, network);
        ThreeParts(own, [Sync(k, List)], steps, [Sync(k, Stop)]);
        StillListed(world.config, world.origin, mid, world.run, |old(world.run)|, at, k);
      }
      world.GoneOn(old(world.m), old(world.run));
    }

    /** The loop, and the end of the sync. */
    method SyncAndStop(ghost k: nat, ghost t: AccountTable, accts: seq<AccountRecord>, network: Answers)
      returns (ghost steps: seq<Action>)
      requires world.Valid() && k < |world.m.syncers| && Scans(world.m.syncers[k], accts, 0)
      requires world.alone ==> Listing(accts, t) && world.m.accounts == t
      modifies world, world.store
      ensures world.Valid() && SyncerAt(k, Resting) && old(world.run) <= world.run
      ensures SyncSteps(steps, k, accts, network)
      ensures world.Own(SyncerRole(k)) == old(world.Own(SyncerRole(k))) + steps + [Sync(k, Stop)]
      ensures world.store.reliable ==> AllAcknowledged(steps)
      ensures world.alone ==> PartlySynced(t, world.m.accounts, network)
      ensures world.Calm() ==> world.m.accounts == Synced(t, network)
    {
      steps := SyncListed(k, t, accts, network);
      world.Do(SyncerRole(k), Sync(k, Stop));
      if world.Calm() {
        AllSynced(accts, t, world.m.accounts, network);
      }
    }

    /** The loop over the listed accounts. */
    method SyncListed(ghost k: nat, ghost t: AccountTable, accts: seq<AccountRecord>, network: Answers)
      returns (ghost steps: seq<Action>)
      requires world.Valid() && k < |world.m.syncers| && Scans(world.m.syncers[k], accts, 0)
      requires world.alone ==> SyncedUpTo(accts, 0, t, world.m.accounts, network, world.store.reliable)
      modifies world, world.store
      ensures world.Valid() && k < |world.m.syncers| && world.m.syncers[k].Scanning?
      ensures world.Did(SyncerRole(k), old(world.run), old(world.Own(SyncerRole(k))), steps)
      ensures SyncSteps(steps, k, accts, network)
      ensures world.alone ==> SyncedUpTo(accts, |accts|, t, world.m.accounts, network, world.store.reliable)
    {
      ghost var own := world.Own(SyncerRole(k));
      steps := [];
      for i := 0 to |accts|
        invariant world.Valid() && k < |world.m.syncers| && Scans(world.m.syncers[k], accts, i)
        invariant world.Did(SyncerRole(k), old(world.run), own, steps) && SyncSteps(steps, k, accts[..i], network)
        invariant world.alone ==> SyncedUpTo(accts, i, t, world.m.accounts, network, world.store.reliable)
      {
        ghost var more := SyncNext(k, t, accts, i, network);
        SyncStepsMore(steps, more, k, accts, i, network);
        StepsJoin(own, steps, more);
        steps := steps + more;
      }
      assert accts[..|accts|] == accts;
    }
  }

  lemma ThreeParts(own: seq<Action>, first: seq<Action>, mid: seq<Action>, last: seq<Action>)
    ensures own + first + mid + last == own + (first + mid + last)
    ensures AllAcknowledged(first) && AllAcknowledged(mid) && AllAcknowledged(last) ==>
      AllAcknowledged(first + mid + last)
  {
  }

  /** What a sync does for one idle account: compare, and write only a number higher than the listed. */
  predicate OneSync(steps: seq<Action>, k: nat, acct: AccountRecord, network: Answers)
  {
    var answer := network(acct.key);
    if answer.Some? && answer.value > acct.row.sequence
    then
      && |steps| == 2 && steps[0] == Sync(k, Query(acct.key, answer.value))
      && steps[1].Sync? && steps[1].k == k && steps[1].sync.Overwrite?
    else steps == [Sync(k, Skip(acct.key))]
  }

  /** How many steps a sync takes for an account. */
  function StepCount(acct: AccountRecord, network: Answers): nat
  {
    var answer := network(acct.key);
    if acct.row.status != Idle then 0 else if answer.Some? && answer.value > acct.row.sequence then 2 else 1
  }

  /** What a sync does for the accounts listed: one after the other, and nothing for leased ones. */
  predicate SyncSteps(steps: seq<Action>, k: nat, accts: seq<AccountRecord>, network: Answers)
    decreases |accts|
  {
    if accts == [] then steps == []
    else
      var last := accts[|accts| - 1];
      var n := StepCount(last, network);
      && n <= |steps| && SyncSteps(steps[..|steps| - n], k, accts[..|accts| - 1], network)
      && (last.row.status == Idle ==> OneSync(steps[|steps| - n..], k, last, network))
  }

  lemma SyncStepsMore(steps: seq<Action>, more: seq<Action>, k: nat, accts: seq<AccountRecord>, i: nat,
                      network: Answers)
    requires i < |accts| && SyncSteps(steps, k, accts[..i], network)
    requires if accts[i].row.status == Idle then OneSync(more, k, accts[i], network) else more == []
    ensures SyncSteps(steps + more, k, accts[..i + 1], network)
  {
    assert accts[..i + 1][..i] == accts[..i];
    assert |more| == StepCount(accts[i], network);
    assert (steps + more)[..|steps + more| - |more|] == steps && (steps + more)[|steps + more| - |more|..] == more;
  }

  /** The state `at` is the one in which syncer `k` listed the accounts, at or after position `from`. */
  ghost predicate ListedIn(c: Config, origin: State, run: seq<Action>, from: nat, at: State, k: nat)
  {
    exists p | from < p <= |run| :: Lists(c, origin, run, p, at, k)
  }

  ghost predicate Lists(c: Config, origin: State, run: seq<Action>, p: nat, at: State, k: nat)
    requires 0 < p <= |run|
  {
    run[p - 1] == Sync(k, List) && Run(c, origin, run[..p], at)
  }

  lemma StillListed(c: Config, origin: State, run: seq<Action>, longer: seq<Action>, from: nat, at: State, k: nat)
    requires ListedIn(c, origin, run, from, at, k) && run <= longer
    ensures ListedIn(c, origin, longer, from, at, k)
  {
    var p :| from < p <= |run| && Lists(c, origin, run, p, at, k);
    assert longer[..p] == run[..p];
    assert Lists(c, origin, longer, p, at, k);
  }

  predicate Ascending(accts: seq<AccountRecord>)
  {
    forall i, j :: 0 <= i < j < |accts| ==> accts[i].key < accts[j].key
  }

  /** The idle accounts from position `i` on are still in the snapshot. */
  predicate Unscanned(accts: seq<AccountRecord>, left: map<AccountId, int>, i: nat)
  {
    && Ascending(accts)
    && forall j :: i <= j < |accts| && accts[j].row.status == Idle ==>
         accts[j].key in left && left[accts[j].key] == accts[j].row.sequence
  }

  ghost predicate Scans(pc: Syncer, accts: seq<AccountRecord>, i: nat)
  {
    pc.Scanning? && Unscanned(accts, pc.left, i)
  }

  /** The list has every row of the table. */
  ghost predicate Listing(accts: seq<AccountRecord>, t: AccountTable)
  {
    && (forall j :: 0 <= j < |accts| ==> accts[j].key in t && accts[j].row == t[accts[j].key])
    && (forall a :: a in t ==> exists j :: 0 <= j < |accts| && accts[j].key == a)
  }

  predicate PartlySynced(t: AccountTable, u: AccountTable, network: Answers)
  {
    u.Keys == t.Keys && forall a :: a in t ==> u[a] == t[a] || u[a] == SyncedRow(t[a], network(a))
  }

  /** Rows before position `i` are done, the others untouched. */
  ghost predicate SyncedUpTo(accts: seq<AccountRecord>, i: nat, t: AccountTable, u: AccountTable, network: Answers,
                             reliable: bool)
  {
    && PartlySynced(t, u, network) && Listing(accts, t)
    && (forall j :: i <= j < |accts| ==> u[accts[j].key] == t[accts[j].key])
    && (reliable ==> forall j :: 0 <= j < |accts| && j < i ==>
          u[accts[j].key] == SyncedRow(t[accts[j].key], network(accts[j].key)))
  }

  lemma OneMore(accts: seq<AccountRecord>, i: nat, t: AccountTable, u: AccountTable, v: AccountTable,
                network: Answers, reliable: bool)
    requires i < |accts| && Ascending(accts) && SyncedUpTo(accts, i, t, u, network, reliable)
    requires
      || v == u[accts[i].key := SyncedRow(accts[i].row, network(accts[i].key))]
      || (v == u && (reliable ==> accts[i].row.status != Idle))
    ensures SyncedUpTo(accts, i + 1, t, v, network, reliable)
  {
  }

  lemma AllSynced(accts: seq<AccountRecord>, t: AccountTable, u: AccountTable, network: Answers)
    requires SyncedUpTo(accts, |accts|, t, u, network, true)
    ensures u == Synced(t, network)
  {
    forall a | a in t
      ensures u[a] == SyncedRow(t[a], network(a))
    {
      var j :| 0 <= j < |accts| && accts[j].key == a;
    }
  }

  /** A sync sets each idle account whose query succeeds to the larger of the stored and the network
      number, and changes nothing else. */
  lemma SyncTakesMax(t: AccountTable, network: Answers, a: AccountId)
    requires a in t
    ensures a in Synced(t, network)
    ensures var row := Synced(t, network)[a];
      && row == t[a].(sequence := row.sequence)
      && (t[a].status == Leased || network(a).None? ==> row.sequence == t[a].sequence)
      && (t[a].status == Idle && network(a).Some? ==>
            && row.sequence >= t[a].sequence && row.sequence >= network(a).value
            && row.sequence in {t[a].sequence, network(a).value})
  {
  }

  /** For fixed answers a second sync changes nothing. */
  lemma SyncIdempotent(t: AccountTable, network: Answers)
    ensures Synced(Synced(t, network), network) == Synced(t, network)
  {
    forall a | a in t
      ensures SyncedRow(SyncedRow(t[a], network(a)), network(a)) == SyncedRow(t[a], network(a))
    {
    }
  }
}
