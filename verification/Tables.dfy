/** The two shared tables and the SQL statements that the store issues on them, as functions of
    the table contents. One statement, or one Begin..Commit block, is one function application. */
module Tables {
  import opened Base

  type TxId = nat
  /** A public key. Keys are only compared, so numbers stand for them. */
  type AccountId = nat
  type Envelope = string

  datatype TxStatus = Pending | Submitting | Submitted | Failed | Confirmed

  datatype TxRow = TxRow(envelope: Envelope, status: TxStatus, channel: Option<AccountId>,
                         retryCount: nat, lastError: string, createdAt: int)

  datatype AccountStatus = Idle | Leased

  datatype AccountRow = AccountRow(status: AccountStatus, sequence: int, lastUsed: Option<int>)

  type TxTable = map<TxId, TxRow>
  type AccountTable = map<AccountId, AccountRow>

  // ----- transactions -----

  function NewRow(envelope: Envelope, createdAt: int): TxRow
  {
    TxRow(envelope, Pending, None, 0, "", createdAt)
  }

  /** The unconditional write keyed by id alone; a missing id is left missing. */
  function SetStatus(t: TxTable, id: TxId, status: TxStatus, channel: Option<AccountId>, lastError: string): TxTable
  {
    if id in t then t[id := t[id].(status := status, channel := channel, lastError := lastError)] else t
  }

  function BumpRetry(t: TxTable, id: TxId): TxTable
  {
    if id in t then t[id := t[id].(retryCount := t[id].retryCount + 1)] else t
  }

  predicate IsPending(t: TxTable, id: TxId)
  {
    id in t && t[id].status == Pending
  }

  function PendingIds(t: TxTable): set<TxId>
  {
    set id | id in t && t[id].status == Pending
  }

  /** What `ORDER BY created_at LIMIT 1` may return; equal times leave the choice open. */
  ghost predicate OldestPending(t: TxTable, id: TxId)
  {
    IsPending(t, id) && forall other :: IsPending(t, other) ==> t[id].createdAt <= t[other].createdAt
  }

  lemma {:induction false} SomeOldest(t: TxTable, ids: set<TxId>) returns (id: TxId)
    requires ids != {} && ids <= t.Keys
    ensures id in ids && forall other :: other in ids ==> t[id].createdAt <= t[other].createdAt
    decreases |ids|
  {
    var first :| first in ids;
    id := first;
    var rest := ids - {first};
    assert forall other :: other in ids ==> other == first || other in rest;
    if rest != {} {
      var best := SomeOldest(t, rest);
      if t[best].createdAt < t[first].createdAt {
        id := best;
      }
    }
  }

  // ----- channel accounts -----

  function SetLeased(t: AccountTable, id: AccountId): AccountTable
  {
    if id in t then t[id := t[id].(status := Leased)] else t
  }

  /** Release checks no owner: it is keyed by the public key alone. */
  function SetIdle(t: AccountTable, id: AccountId, at: int): AccountTable
  {
    if id in t then t[id := t[id].(status := Idle, lastUsed := Some(at))] else t
  }

  function SetSequence(t: AccountTable, id: AccountId, n: int): AccountTable
  {
    if id in t then t[id := t[id].(sequence := n)] else t
  }

  predicate IsIdle(t: AccountTable, id: AccountId)
  {
    id in t && t[id].status == Idle
  }

  predicate IsLeased(t: AccountTable, id: AccountId)
  {
    id in t && t[id].status == Leased
  }

  function SetSequenceIfIdle(t: AccountTable, id: AccountId, n: int): AccountTable
  {
    if IsIdle(t, id) then SetSequence(t, id, n) else t
  }

  /** `last_used_at ASC NULLS FIRST`. */
  predicate UsedNoLater(x: Option<int>, y: Option<int>)
  {
    x.None? || (y.Some? && x.value <= y.value)
  }

  predicate UsedEarlier(x: Option<int>, y: Option<int>)
  {
    !UsedNoLater(y, x)
  }

  ghost predicate LeastRecentlyUsed(t: AccountTable, id: AccountId)
  {
    IsIdle(t, id) && forall other :: IsIdle(t, other) ==> UsedNoLater(t[id].lastUsed, t[other].lastUsed)
  }

  /** The idle accounts with their numbers. */
  function IdleSequences(t: AccountTable): map<AccountId, int>
  {
    map a | a in t && t[a].status == Idle :: t[a].sequence
  }

  function IdleIds(t: AccountTable): set<AccountId>
  {
    set id | id in t && t[id].status == Idle
  }

  lemma {:induction false} SomeLeastUsed(t: AccountTable, ids: set<AccountId>) returns (id: AccountId)
    requires ids != {} && ids <= t.Keys
    ensures id in ids && forall other :: other in ids ==> UsedNoLater(t[id].lastUsed, t[other].lastUsed)
    decreases |ids|
  {
    var first :| first in ids;
    id := first;
    var rest := ids - {first};
    assert forall other :: other in ids ==> other == first || other in rest;
    if rest != {} {
      var best := SomeLeastUsed(t, rest);
      if !UsedNoLater(t[first].lastUsed, t[best].lastUsed) {
        id := best;
      }
    }
  }
}
