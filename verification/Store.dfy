/** The Postgres store: two tables, updated in place by single statements. The caller of a method
    sees whether it got an error; whether the statement took effect all the same is only visible
    in the ghost reply. */
module Stores {
  import opened Base
  import opened Tables
  import opened Protocol

  datatype TxRecord = TxRecord(id: TxId, row: TxRow)
  datatype AccountRecord = AccountRecord(key: AccountId, row: AccountRow)

  class Store {
    var transactions: TxTable
    var accounts: AccountTable
    /** The database takes every statement and acknowledges it. */
    const reliable: bool

    constructor (reliable: bool)
      ensures this.reliable == reliable && transactions == map[] && accounts == map[]
    {
      this.reliable := reliable;
      transactions := map[];
      accounts := map[];
    }

    /** How the network and the database treat one call. */
    method Attempt() returns (reply: Reply)
      ensures reliable ==> reply == Done
    {
      reply := *;
      if reliable {
        reply := Done;
      }
    }

    // ----- transactions.go -----

    /** The primary key refuses a second row with the same id. */
    method SaveTransaction(id: TxId, envelope: Envelope, createdAt: int) returns (ok: bool, ghost reply: Reply)
      modifies this`transactions
      ensures ok <==> reply == Done
      ensures id in old(transactions) ==> reply == Refused
      ensures reliable && id !in old(transactions) ==> ok
      ensures transactions ==
        if reply == Refused then old(transactions)
        else old(transactions)[id := TxRow(envelope, Pending, None, 0, "", createdAt)]
    {
      var r := Attempt();
      if id in transactions {
        r := Refused;
      }
      if r != Refused {
        transactions := transactions[id := NewRow(envelope, createdAt)];
      }
      ok, reply := r == Done, r;
    }

    method UpdateTransactionStatus(id: TxId, status: TxStatus, channel: Option<AccountId>, lastError: string)
      returns (ok: bool, ghost reply: Reply)
      modifies this`transactions
      ensures ok <==> reply == Done && id in old(transactions)
      ensures reliable ==> reply == Done
      ensures transactions == if reply == Refused then old(transactions)
                              else SetStatus(old(transactions), id, status, channel, lastError)
      ensures reply != Refused && id in old(transactions) ==>
        var row := old(transactions)[id];
        transactions == old(transactions)[id :=
          TxRow(row.envelope, status, channel, row.retryCount, lastError, row.createdAt)]
      ensures id !in old(transactions) ==> transactions == old(transactions)
    {
      var r := Attempt();
      ok, reply := r == Done && id in transactions, r;
      if r != Refused {
        transactions := SetStatus(transactions, id, status, channel, lastError);
      }
    }

    method IncrementRetry(id: TxId) returns (ok: bool, ghost reply: Reply)
      modifies this`transactions
      ensures ok <==> reply == Done
      ensures reliable ==> ok
      ensures transactions == if reply == Refused then old(transactions) else BumpRetry(old(transactions), id)
      ensures reply != Refused && id in old(transactions) ==>
        var row := old(transactions)[id];
        transactions == old(transactions)[id :=
          TxRow(row.envelope, row.status, row.channel, row.retryCount + 1, row.lastError, row.createdAt)]
      ensures id !in old(transactions) ==> transactions == old(transactions)
    {
      var r := Attempt();
      ok, reply := r == Done, r;
      if r != Refused {
        transactions := BumpRetry(transactions, id);
      }
    }

    /** Up to `limit` pending rows, oldest first: no pending row that is left out is older than one
        that is returned, and rows are left out only when the limit is reached. */
    method GetPendingTransactions(limit: nat) returns (ok: bool, txs: seq<TxRecord>)
      ensures reliable ==> ok
      ensures forall k :: 0 <= k < |txs| ==> IsPending(transactions, txs[k].id) && txs[k].row == transactions[txs[k].id]
      ensures forall j, k :: 0 <= j < k < |txs| ==>
        txs[j].id != txs[k].id && txs[j].row.createdAt <= txs[k].row.createdAt
      ensures ok ==> forall id :: IsPending(transactions, id) ==>
        (exists k :: 0 <= k < |txs| && txs[k].id == id) ||
        (|txs| == limit && forall k :: 0 <= k < |txs| ==> txs[k].row.createdAt <= transactions[id].createdAt)
      ensures |txs| <= limit
    {
      var reply := Attempt();
      ok, txs := reply == Done, [];
      if !ok {
        return;
      }
      var left := PendingIds(transactions);
      while |txs| < limit && left != {}
        invariant OldestTaken(transactions, left, txs) && |txs| <= limit
        decreases |left|
      {
        ghost var oldest := SomeOldest(transactions, left);
        var id :| id in left &&
          forall other :: other in left ==> transactions[id].createdAt <= transactions[other].createdAt;
        TakeOldest(transactions, left, txs, id);
        txs := txs + [TxRecord(id, transactions[id])];
        left := left - {id};
      }
    }

    /** The row lock is gone when this statement ends, so it protects nothing afterwards. */
    method GetTransactionForRetry(id: TxId) returns (row: Option<TxRow>)
      ensures row.Some? ==> id in transactions && row.value == transactions[id]
      ensures reliable && id in transactions ==> row.Some?
    {
      var reply := Attempt();
      row := if reply == Done && id in transactions then Some(transactions[id]) else None;
    }

    // ----- channelaccounts.go -----

    method SaveChannelAccount(key: AccountId, row: AccountRow) returns (ok: bool, ghost reply: Reply)
      modifies this`accounts
      ensures ok <==> reply == Done
      ensures key in old(accounts) ==> reply == Refused
      ensures reliable && key !in old(accounts) ==> ok
      ensures accounts == if reply == Refused then old(accounts) else old(accounts)[key := row]
    {
      var r := Attempt();
      if key in accounts {
        r := Refused;
      }
      if r != Refused {
        accounts := accounts[key := row];
      }
      ok, reply := r == Done, r;
    }

    /** One transaction: pick the least recently used idle row and mark it leased. */
    method LeaseChannelAccount() returns (acct: Option<AccountRecord>, ghost picked: Option<AccountId>)
      modifies this`accounts
      ensures picked.None? ==> accounts == old(accounts) && acct.None?
      ensures picked.Some? ==>
        LeastRecentlyUsed(old(accounts), picked.value) && accounts == SetLeased(old(accounts), picked.value)
      ensures picked.Some? ==>
        LongestUnused(old(accounts), picked.value) && Leases(old(accounts), accounts, picked.value)
      ensures acct.Some? ==> picked == Some(acct.value.key) && acct.value.row == old(accounts)[acct.value.key]
      ensures reliable ==> (acct.Some? <==> picked.Some?) && (acct.None? <==> IdleIds(old(accounts)) == {})
    {
      acct, picked := None, None;
      var reply := Attempt();
      var idle := IdleIds(accounts);
      if idle == {} || reply == Refused {
        return;
      }
      ghost var least := SomeLeastUsed(accounts, idle);
      var key :| key in idle &&
        forall other :: other in idle ==> UsedNoLater(accounts[key].lastUsed, accounts[other].lastUsed);
      if reply == Done {
        acct := Some(AccountRecord(key, accounts[key]));
      }
      picked := Some(key);
      forall other | other in accounts && accounts[other].status == Idle
        ensures Before(accounts[key].lastUsed, accounts[other].lastUsed)
      {
        assert other in idle && UsedNoLater(accounts[key].lastUsed, accounts[other].lastUsed);
      }
      accounts := SetLeased(accounts, key);
    }

    method ReleaseChannelAccount(key: AccountId, lastUsed: int) returns (ok: bool, ghost reply: Reply)
      modifies this`accounts
      ensures ok <==> reply == Done && key in old(accounts)
      ensures reliable ==> reply == Done
      ensures accounts == if reply == Refused then old(accounts) else SetIdle(old(accounts), key, lastUsed)
      ensures reply != Refused && key in old(accounts) ==>
        accounts == old(accounts)[key := AccountRow(Idle, old(accounts)[key].sequence, Some(lastUsed))]
      ensures key !in old(accounts) ==> accounts == old(accounts)
    {
      var r := Attempt();
      ok, reply := r == Done && key in accounts, r;
      if r != Refused {
        accounts := SetIdle(accounts, key, lastUsed);
      }
    }

    method UpdateSequenceNumber(key: AccountId, sequence: int) returns (ok: bool, ghost reply: Reply)
      modifies this`accounts
      ensures ok <==> reply == Done
      ensures reliable ==> ok
      ensures accounts == if reply == Refused then old(accounts) else SetSequence(old(accounts), key, sequence)
      ensures reply != Refused && key in old(accounts) ==>
        var row := old(accounts)[key];
        accounts == old(accounts)[key := AccountRow(row.status, sequence, row.lastUsed)]
      ensures key !in old(accounts) ==> accounts == old(accounts)
    {
      var r := Attempt();
      ok, reply := r == Done, r;
      if r != Refused {
        accounts := SetSequence(accounts, key, sequence);
      }
    }

    method UpdateSequenceNumberIfIdle(key: AccountId, sequence: int) returns (ok: bool, ghost reply: Reply)
      modifies this`accounts
      ensures ok <==> reply == Done
      ensures reliable ==> ok
      ensures accounts == if reply == Refused then old(accounts) else SetSequenceIfIdle(old(accounts), key, sequence)
      ensures
        if reply != Refused && key in old(accounts) && old(accounts)[key].status == Idle
        then accounts == old(accounts)[key := AccountRow(Idle, sequence, old(accounts)[key].lastUsed)]
        else accounts == old(accounts)
    {
      var r := Attempt();
      ok, reply := r == Done, r;
      if r != Refused {
        accounts := SetSequenceIfIdle(accounts, key, sequence);
      }
    }

    /** Every row, or every row with the status asked for, once, ordered by public key. */
    method ListChannelAccounts(status: Option<AccountStatus>) returns (ok: bool, accts: seq<AccountRecord>)
      ensures reliable ==> ok
      ensures forall k :: 0 <= k < |accts| ==> accts[k].key in accounts && accts[k].row == accounts[accts[k].key]
      ensures forall k :: 0 <= k < |accts| ==> Selected(status, accts[k].row)
      ensures forall j, k :: 0 <= j < k < |accts| ==> accts[j].key < accts[k].key
      ensures ok ==> forall key :: key in accounts && Selected(status, accounts[key]) ==>
        exists k :: 0 <= k < |accts| && accts[k].key == key
    {
      var reply := Attempt();
      ok, accts := reply == Done, [];
      if !ok {
        return;
      }
      var rows := map key | key in accounts && Selected(status, accounts[key]) :: accounts[key];
      var left := rows.Keys;
      while left != {}
        invariant SmallestTaken(rows, left, accts)
        decreases |left|
      {
        ghost var least := SomeSmallest(left);
        var key :| key in left && forall other :: other in left ==> key <= other;
        TakeSmallest(rows, left, accts, key);
        accts := accts + [AccountRecord(key, rows[key])];
        left := left - {key};
      }
      AllListed(accounts, status, rows, accts);
    }
  }

  /** Never used, or used no later than the other. */
  predicate Before(x: Option<int>, y: Option<int>)
  {
    match (x, y)
    case (None, _) => true
    case (Some(_), None) => false
    case (Some(first), Some(second)) => first <= second
  }

  /** An idle account that no other idle account comes strictly before. */
  ghost predicate LongestUnused(t: AccountTable, key: AccountId)
  {
    && key in t && t[key].status == Idle
    && forall other :: other in t && t[other].status == Idle ==> Before(t[key].lastUsed, t[other].lastUsed)
  }

  /** The row is leased, with its number and its time as they were, and nothing else changes. */
  predicate Leases(t: AccountTable, u: AccountTable, key: AccountId)
  {
    key in t && u == t[key := AccountRow(Leased, t[key].sequence, t[key].lastUsed)]
  }

  /** The optional filter of a listing. */
  predicate Selected(status: Option<AccountStatus>, row: AccountRow)
  {
    status.None? || status.value == row.status
  }

  /** `txs` are pending rows in order of age, the others are `left` and no older. */
  ghost predicate OldestTaken(t: TxTable, left: set<TxId>, txs: seq<TxRecord>)
  {
    && left <= PendingIds(t)
    && (forall k :: 0 <= k < |txs| ==> IsPending(t, txs[k].id) && txs[k].row == t[txs[k].id] && txs[k].id !in left)
    && (forall j, k :: 0 <= j < k < |txs| ==> txs[j].id != txs[k].id && txs[j].row.createdAt <= txs[k].row.createdAt)
    && (forall id :: IsPending(t, id) ==> id in left || exists k :: 0 <= k < |txs| && txs[k].id == id)
    && (forall id, k :: id in left && 0 <= k < |txs| ==> txs[k].row.createdAt <= t[id].createdAt)
  }

  lemma TakeOldest(t: TxTable, left: set<TxId>, txs: seq<TxRecord>, id: TxId)
    requires OldestTaken(t, left, txs) && id in left
    requires forall other :: other in left ==> t[id].createdAt <= t[other].createdAt
    ensures OldestTaken(t, left - {id}, txs + [TxRecord(id, t[id])])
  {
    var more := txs + [TxRecord(id, t[id])];
    assert more[|txs|].id == id && forall k :: 0 <= k < |txs| ==> more[k] == txs[k];
    forall other | IsPending(t, other) && other !in left - {id}
      ensures exists k :: 0 <= k < |more| && more[k].id == other
    {
      if other == id {
        assert more[|txs|].id == other;
      } else {
        var k :| 0 <= k < |txs| && txs[k].id == other;
        assert more[k].id == other;
      }
    }
  }

  /** `accts` are rows in key order, the others are `left` and have larger keys. */
  ghost predicate SmallestTaken(t: AccountTable, left: set<AccountId>, accts: seq<AccountRecord>)
  {
    && left <= t.Keys && Ordered(t, accts)
    && (forall key :: key in t ==> key in left || Listed(accts, key))
    && (forall key, k :: key in left && 0 <= k < |accts| ==> accts[k].key < key)
  }

  predicate Ordered(t: AccountTable, accts: seq<AccountRecord>)
  {
    && (forall k :: 0 <= k < |accts| ==> accts[k].key in t && accts[k].row == t[accts[k].key])
    && (forall j, k :: 0 <= j < k < |accts| ==> accts[j].key < accts[k].key)
  }

  ghost predicate Listed(accts: seq<AccountRecord>, key: AccountId)
  {
    exists k :: 0 <= k < |accts| && accts[k].key == key
  }

  lemma AllListed(t: AccountTable, status: Option<AccountStatus>, rows: AccountTable, accts: seq<AccountRecord>)
    requires SmallestTaken(rows, {}, accts)
    requires forall key :: key in t && Selected(status, t[key]) ==> key in rows
    ensures forall key :: key in t && Selected(status, t[key]) ==> exists k :: 0 <= k < |accts| && accts[k].key == key
  {
    forall key | key in t && Selected(status, t[key])
      ensures exists k :: 0 <= k < |accts| && accts[k].key == key
    {
      assert Listed(accts, key);
    }
  }

  lemma ListedMore(accts: seq<AccountRecord>, acct: AccountRecord, key: AccountId)
    requires key == acct.key || Listed(accts, key)
    ensures Listed(accts + [acct], key)
  {
    var k := if key == acct.key then |accts| else var k :| 0 <= k < |accts| && accts[k].key == key; k;
    assert (accts + [acct])[k].key == key;
  }

  lemma TakeSmallest(t: AccountTable, left: set<AccountId>, accts: seq<AccountRecord>, key: AccountId)
    requires SmallestTaken(t, left, accts) && key in left
    requires forall other :: other in left ==> key <= other
    ensures SmallestTaken(t, left - {key}, accts + [AccountRecord(key, t[key])])
  {
    forall other | other in t && other !in left - {key}
      ensures Listed(accts + [AccountRecord(key, t[key])], other)
    {
      ListedMore(accts, AccountRecord(key, t[key]), other);
    }
  }

  lemma {:induction false} SomeSmallest(keys: set<AccountId>) returns (key: AccountId)
    requires keys != {}
    ensures key in keys && forall other :: other in keys ==> key <= other
    decreases |keys|
  {
    var first :| first in keys;
    key := first;
    var rest := keys - {first};
    assert forall other :: other in keys ==> other == first || other in rest;
    if rest != {} {
      var best := SomeSmallest(rest);
      if best < first {
        key := best;
      }
    }
  }
}
