/** The transactions table: its rows, and the guarded statements that are the only protection
    between the processes racing on a row. */
module Transactions {
  import opened Common

  /** The hash of a signed envelope. */
  type Hash = nat
  type TxId = string

  datatype Status = Pending | Submitted | Confirmed | Failed | ReconciliationFailed | ComplianceHold

  datatype Row = Row(status: Status, hash: Option<Hash>, requeues: nat, createdAt: int)

  // ---- one row under each statement; None where no row is affected ----

  function Claimed(row: Row): Option<Row> {
    if row.status == Pending then Some(row.(status := Submitted)) else None
  }

  /** Submitted without a hash; `aged` is the age test on created_at. */
  function ResetToPending(row: Row, aged: bool): Option<Row> {
    if row.status == Submitted && row.hash.None? && aged then Some(row.(status := Pending)) else None
  }

  /** Sets status and hash together unless the row is confirmed. */
  function WithStatus(row: Row, status: Status, hash: Option<Hash>): Row {
    if row.status != Confirmed then row.(status := status, hash := hash) else row
  }

  predicate Unsettled(row: Row) {
    row.status == Pending || row.status == Submitted
  }

  function AsConfirmed(row: Row, hash: Hash): Option<Row> {
    if Unsettled(row) then Some(row.(status := Confirmed, hash := Some(hash))) else None
  }

  function AsFailed(row: Row): Option<Row> {
    if Unsettled(row) then Some(row.(status := Failed)) else None
  }

  /** No guard at all. */
  function Overwritten(row: Row, status: Status): Row {
    row.(status := status)
  }

  /** Selected by stuck recovery (age apart). */
  predicate Stuck(row: Row) {
    row.status == Pending || (row.status == Submitted && row.hash.None?)
  }

  /** Selected by pending reconciliation (age apart). */
  predicate AwaitingLookup(row: Row) {
    Unsettled(row) && row.hash.Some?
  }

  /** Selected by the audit of confirmed rows (last audit time apart). */
  predicate Auditable(row: Row) {
    row.status == Confirmed && row.hash.Some?
  }

  class TransactionRepo {
    var rows: map<TxId, Row>

    constructor ()
      ensures rows == map[]
    {
      rows := map[];
    }

    /** Fails on a duplicate primary key. */
    method Create(id: TxId, row: Row) returns (ok: bool)
      modifies this
      ensures ok <==> id !in old(rows)
      ensures rows == if ok then old(rows)[id := row] else old(rows)
    {
      ok := id !in rows;
      if ok { rows := rows[id := row]; }
    }

    method ClaimForSubmission(id: TxId) returns (ok: bool)
      modifies this
      ensures ok <==> id in old(rows) && old(rows)[id].status == Pending
      ensures rows == if ok then old(rows)[id := old(rows)[id].(status := Submitted)] else old(rows)
    {
      ok := id in rows && rows[id].status == Pending;
      if ok { rows := rows[id := rows[id].(status := Submitted)]; }
    }

    method ResetStuckSubmittedToPending(id: TxId, now: int, olderThan: int) returns (ok: bool)
      modifies this
      ensures ok <==>
              && id in old(rows) && old(rows)[id].status == Submitted && old(rows)[id].hash.None?
              && old(rows)[id].createdAt < now - olderThan
      ensures rows == if ok then old(rows)[id := old(rows)[id].(status := Pending)] else old(rows)
    {
      ok := id in rows && rows[id].status == Submitted && rows[id].hash == None && rows[id].createdAt < now - olderThan;
      if ok { rows := rows[id := rows[id].(status := Pending)]; }
    }

    method UpdateStatus(id: TxId, status: Status, hash: Option<Hash>)
      modifies this
      ensures rows == if id in old(rows) && old(rows)[id].status != Confirmed
                      then old(rows)[id := old(rows)[id].(status := status, hash := hash)] else old(rows)
    {
      if id in rows && rows[id].status != Confirmed {
        rows := rows[id := rows[id].(status := status, hash := hash)];
      }
    }

    method UpdateTxConfirmed(id: TxId, hash: Hash) returns (ok: bool)
      modifies this
      ensures ok <==> id in old(rows) && old(rows)[id].status in {Pending, Submitted}
      ensures rows == if ok then old(rows)[id := old(rows)[id].(status := Confirmed, hash := Some(hash))] else old(rows)
    {
      ok := id in rows && (rows[id].status == Pending || rows[id].status == Submitted);
      if ok { rows := rows[id := rows[id].(status := Confirmed, hash := Some(hash))]; }
    }

    method UpdateTxFailed(id: TxId) returns (ok: bool)
      modifies this
      ensures ok <==> id in old(rows) && old(rows)[id].status in {Pending, Submitted}
      ensures rows == if ok then old(rows)[id := old(rows)[id].(status := Failed)] else old(rows)
    {
      ok := id in rows && (rows[id].status == Pending || rows[id].status == Submitted);
      if ok { rows := rows[id := rows[id].(status := Failed)]; }
    }

    method UpdateReconciliationStatus(id: TxId, status: Status)
      modifies this
      ensures rows == if id in old(rows) then old(rows)[id := old(rows)[id].(status := status)] else old(rows)
    {
      if id in rows { rows := rows[id := rows[id].(status := status)]; }
    }

    /** Atomic increment; None when there is no such row. */
    method IncrementRequeueCount(id: TxId) returns (count: Option<nat>)
      modifies this
      ensures count == if id in old(rows) then Some(old(rows)[id].requeues + 1) else None
      ensures rows == if id in old(rows) then old(rows)[id := old(rows)[id].(requeues := old(rows)[id].requeues + 1)]
                      else old(rows)
    {
      if id !in rows { return None; }
      rows := rows[id := rows[id].(requeues := rows[id].requeues + 1)];
      count := Some(rows[id].requeues);
    }

    /** Exactly the old rows that a worker could claim now, or after a reset. */
    method GetStuckPendingTxes(now: int, olderThan: int) returns (found: map<TxId, Row>)
      ensures forall id :: id in found <==>
                && id in rows && rows[id].createdAt < now - olderThan
                && (rows[id].status == Pending || (rows[id].status == Submitted && rows[id].hash.None?))
      ensures forall id | id in found :: Claimed(rows[id]).Some? || ResetToPending(rows[id], true).Some?
      ensures forall id | id in found :: found[id] == rows[id]
    {
      found := map[];
      var left := rows.Keys;
      while left != {}
        invariant left <= rows.Keys
        invariant forall id :: id in found <==> id in rows && id !in left && Stuck(rows[id]) && rows[id].createdAt < now - olderThan
        invariant forall id | id in found :: found[id] == rows[id]
      {
        var id :| id in left;
        if (rows[id].status == Pending || (rows[id].status == Submitted && rows[id].hash == None)) && rows[id].createdAt < now - olderThan {
          found := found[id := rows[id]];
        }
        left := left - {id};
      }
    }
  }
}
