/** The transaction ledger (service/transactions/store.go): the `transactions`
    table keyed by the gateway's external_id, with the database's id sequence.
    Every database round trip may fail; its outcome is an input of type `Db`. */
module Ledger {

  import opened Types

  /** Outcome of one database round trip. */
  datatype Db = Up | Down(reason: string)

  /** What `QueryRow` hands to `Scan`: a row, no row, or the query's own error. */
  datatype Row = Found(tx: Transaction) | NoRow | QueryFailed(reason: string)

  /** ScanRowIntoTransaction: the scan error is passed through unchanged, so a
      missing row surfaces as ErrNoRows and never as a nil transaction. */
  function ScanRowIntoTransaction(row: Row): (r: Result<Transaction>)
    ensures r.Ok? <==> row.Found?
    ensures row.Found? ==> r.value == row.tx
    ensures row.NoRow? ==> r == Err(ErrNoRows)
    ensures row.QueryFailed? ==> r == Err(Database(row.reason))
  {
    match row
    case Found(t) => Ok(t)
    case NoRow => Err(ErrNoRows)
    case QueryFailed(why) => Err(Database(why))
  }

  /** A row matching `externalId`, if the query reached the database. */
  function SelectRow(rows: map<string, Transaction>, externalId: string, db: Db): Row
  {
    if db.Down? then QueryFailed(db.reason)
    else if externalId in rows then Found(rows[externalId])
    else NoRow
  }

  /** A row is Done-stable from `before` to `after`: no row disappears and no
      Done row goes back to another status. */
  ghost predicate NeverRegresses(before: map<string, Transaction>, after: map<string, Transaction>)
  {
    && before.Keys <= after.Keys
    && forall k | k in before && before[k].status == Done :: after[k].status == Done
  }

  /** The table as a value: the rows by external_id and the next serial id. */
  datatype Table = Table(rows: map<string, Transaction>, nextId: nat) {

    /** Each row sits under its own external_id (so at most one row per
        external_id) and carries a distinct serial id already handed out. */
    ghost predicate Valid()
    {
      && 1 <= nextId
      && (forall k | k in rows :: rows[k].externalId == k && 1 <= rows[k].id < nextId)
      && (forall k1, k2 | k1 in rows && k2 in rows && k1 != k2 :: rows[k1].id != rows[k2].id)
    }

    /** GetTransactionByExternalID (service/transactions/store.go:54-58). */
    function Get(externalId: string, db: Db): (r: Result<Transaction>)
      ensures db.Down? ==> r == Err(Database(db.reason))
      ensures db.Up? ==> (r.Ok? <==> externalId in rows)
      ensures db.Up? && externalId !in rows ==> r == Err(ErrNoRows)
      ensures r.Ok? ==> externalId in rows && r.value == rows[externalId]
      ensures r.Ok? && Valid() ==> r.value.externalId == externalId
    {
      ScanRowIntoTransaction(SelectRow(rows, externalId, db))
    }

    /** The row an INSERT ... RETURNING stores for a new payment. */
    function NewRow(externalId: string, payerId: int, payeeId: int, amount: Amount, description: string): Transaction
    {
      Transaction(nextId, externalId, payerId, payeeId, amount, Pending, description)
    }

    /** The INSERT of store.go:41-43: the statement either stores the new row and
        returns it, or fails and stores nothing. */
    function Insert(externalId: string, payerId: int, payeeId: int, amount: Amount, description: string, db: Db)
      : (res: (Table, Result<Transaction>))
    {
      if db.Down? then (this, ScanRowIntoTransaction(QueryFailed(db.reason)))
      else
        var t := NewRow(externalId, payerId, payeeId, amount, description);
        (Table(rows[externalId := t], nextId + 1), ScanRowIntoTransaction(Found(t)))
    }

    /** CreateTransaction (store.go:31-44): lookup first; an existing row gives
        `(nil, nil)`; a lookup error other than ErrNoRows is returned; otherwise insert. */
    function Create(externalId: string, payerId: int, payeeId: int, amount: Amount, description: string,
                    lookupDb: Db, insertDb: Db): (res: (Table, Result<Option<Transaction>>))
      ensures lookupDb.Down? ==> res == (this, Err(Database(lookupDb.reason)))
      ensures lookupDb.Up? && externalId in rows ==> res == (this, Ok(None))
      ensures insertDb.Down? ==> res.0 == this
      ensures lookupDb.Up? && insertDb.Down? && externalId !in rows ==> res.1 == Err(Database(insertDb.reason))
      ensures res.1.Ok? && res.1.value.Some? ==>
                && externalId !in rows
                && res.1.value.value == NewRow(externalId, payerId, payeeId, amount, description)
                && res.1.value.value.status == Pending
                && res.0.rows == rows[externalId := res.1.value.value]
      ensures lookupDb.Up? && insertDb.Up? && externalId !in rows ==> res.1.Ok? && res.1.value.Some?
      ensures res.0 == this || (externalId !in rows && res.0.rows.Keys == rows.Keys + {externalId})
      ensures Valid() ==> res.0.Valid()
      ensures NeverRegresses(rows, res.0.rows)
    {
      var found := Get(externalId, lookupDb);
      if found.Err? && found.error != ErrNoRows then (this, Err(found.error))
      else if found.Ok? then (this, Ok(None))
      else
        var (t, inserted) := Insert(externalId, payerId, payeeId, amount, description, insertDb);
        match inserted
        case Ok(row) => (t, Ok(Some(row)))
        case Err(e) => (t, Err(e))
    }

    /** UPDATE ... SET status (store.go:47-52); `amount` given as well for
        UpdateTransactionStatusAndAmount, which the payment store calls.  A missing
        row comes back as ErrNoRows and nothing changes. */
    function Update(externalId: string, status: TransactionStatus, amount: Option<Amount>, db: Db)
      : (res: (Table, Result<Transaction>))
      ensures res.1.Ok? <==> db.Up? && externalId in rows
      ensures db.Up? && externalId !in rows ==> res == (this, Err(ErrNoRows))
      ensures db.Down? ==> res == (this, Err(Database(db.reason)))
      ensures res.1.Err? ==> res.0 == this
      ensures res.1.Ok? ==>
                && res.0.nextId == nextId
                && res.0.rows.Keys == rows.Keys
                && res.1.value == res.0.rows[externalId]
                && res.1.value.status == status
                && res.1.value.amount == (if amount.Some? then amount.value else rows[externalId].amount)
                && res.1.value.(status := rows[externalId].status, amount := rows[externalId].amount)
                   == rows[externalId]
                && (forall k | k in rows && k != externalId :: res.0.rows[k] == rows[k])
      ensures Valid() ==> res.0.Valid()
    {
      match SelectRow(rows, externalId, db)
      case QueryFailed(why) => (this, ScanRowIntoTransaction(QueryFailed(why)))
      case NoRow => (this, ScanRowIntoTransaction(NoRow))
      case Found(old_) =>
        var t := old_.(status := status, amount := if amount.Some? then amount.value else old_.amount);
        (Table(rows[externalId := t], nextId), ScanRowIntoTransaction(Found(t)))
    }

    /** UpdateTransactionStatus (store.go:47-52). */
    function UpdateStatus(externalId: string, status: TransactionStatus, db: Db): (Table, Result<Transaction>)
    {
      Update(externalId, status, None, db)
    }

    /** UpdateTransactionStatusAndAmount, called at service/payment/store.go:106 and 152. */
    function UpdateStatusAndAmount(externalId: string, status: TransactionStatus, amount: Amount, db: Db)
      : (Table, Result<Transaction>)
    {
      Update(externalId, status, Some(amount), db)
    }
  }

  /** A second CreateTransaction for the same external_id inserts nothing and
      answers `(nil, nil)`, whatever the first call did. */
  lemma CreateTwiceInsertsOnce(t: Table, externalId: string, payer1: int, payee1: int, amount1: Amount,
                               payer2: int, payee2: int, amount2: Amount, description: string,
                               lookup1: Db, insert1: Db, insert2: Db)
    requires t.Valid()
    requires (t.Create(externalId, payer1, payee1, amount1, description, lookup1, insert1)).1.Ok?
    ensures var t1 := (t.Create(externalId, payer1, payee1, amount1, description, lookup1, insert1)).0;
            && externalId in t1.rows
            && t1.Create(externalId, payer2, payee2, amount2, description, Up, insert2) == (t1, Ok(None))
  {
  }

  /** The `transactions` table, owned by the store object and changed in place. */
  class Store {
    var rows: map<string, Transaction>
    var nextId: nat

    function Snapshot(): Table
      reads this
    {
      Table(rows, nextId)
    }

    ghost predicate Valid()
      reads this
    {
      Snapshot().Valid()
    }

    constructor ()
      ensures Valid() && rows == map[] && nextId == 1
    {
      rows := map[];
      nextId := 1;
    }

    method GetTransactionByExternalID(externalId: string, db: Db) returns (r: Result<Transaction>)
      ensures r == Snapshot().Get(externalId, db)
    {
      r := ScanRowIntoTransaction(SelectRow(rows, externalId, db));
    }

    method CreateTransaction(externalId: string, payerId: int, payeeId: int, amount: Amount, description: string,
                             lookupDb: Db, insertDb: Db) returns (r: Result<Option<Transaction>>)
      requires Valid()
      modifies this
      ensures Valid()
      ensures (Snapshot(), r) == old(Snapshot()).Create(externalId, payerId, payeeId, amount, description, lookupDb, insertDb)
    {
      var found := GetTransactionByExternalID(externalId, lookupDb);
      if found.Err? && found.error != ErrNoRows {
        return Err(found.error);
      }
      if found.Ok? {
        return Ok(None);
      }
      if insertDb.Down? {
        var scanned := ScanRowIntoTransaction(QueryFailed(insertDb.reason));
        return Err(scanned.error);
      }
      var t := Transaction(nextId, externalId, payerId, payeeId, amount, Pending, description);
      rows := rows[externalId := t];
      nextId := nextId + 1;
      r := Ok(Some(t));
    }

    method UpdateTransactionStatus(externalId: string, status: TransactionStatus, db: Db) returns (r: Result<Transaction>)
      requires Valid()
      modifies this
      ensures Valid()
      ensures (Snapshot(), r) == old(Snapshot()).UpdateStatus(externalId, status, db)
    {
      r := SetStatus(externalId, status, None, db);
    }

    method UpdateTransactionStatusAndAmount(externalId: string, status: TransactionStatus, amount: Amount, db: Db)
      returns (r: Result<Transaction>)
      requires Valid()
      modifies this
      ensures Valid()
      ensures (Snapshot(), r) == old(Snapshot()).UpdateStatusAndAmount(externalId, status, amount, db)
    {
      r := SetStatus(externalId, status, Some(amount), db);
    }

    /** The single UPDATE ... RETURNING statement both update queries run. */
    method SetStatus(externalId: string, status: TransactionStatus, amount: Option<Amount>, db: Db)
      returns (r: Result<Transaction>)
      requires Valid()
      modifies this
      ensures Valid()
      ensures (Snapshot(), r) == old(Snapshot()).Update(externalId, status, amount, db)
    {
      var row := SelectRow(rows, externalId, db);
      if !row.Found? {
        return ScanRowIntoTransaction(row);
      }
      var t := row.tx.(status := status, amount := if amount.Some? then amount.value else row.tx.amount);
      rows := rows[externalId := t];
      r := Ok(t);
    }
  }
}
