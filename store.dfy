/** The relational store under the gateways, as in-memory tables: the
    committed `accounts` and `payments` tables, and a unit of work (sql.Tx)
    that works on its own copy of them. Commit installs the copy in one step;
    rollback, or a commit that fails, discards it. The `log` records the store
    calls in the order they are made, which is what the service's tests assert
    on their test doubles. */
module Store {
  import opened Wrappers
  import opened Errors
  import Entities
  import Models

  /** One call on the store, as a test double would record it. */
  datatype Call =
    | Begin
    | GetByNameTx(name: string)
    | LockTx
    | UpdateBalanceTx(account: Entities.Account, amount: real)
    | AddTx(credit: Entities.Account, debit: Entities.Account, amount: real)
    | Commit
    | Rollback

  /** The prepared statements of the two gateways. */
  datatype Statement =
    | ListAccountQuery | UpdateBalanceQuery | FetchAccountQuery | LockQuery
    | ListLedgersQuery | CreateLedgerQuery

  /** A failure of rows.Scan on the row at index `row` of a result set. */
  datatype ScanFault = ScanFault(row: nat, err: Error)

  /** The failures a listing query may meet: the query itself, one scan, or
      the iteration, where `next == Some(k)` makes rows.Next report false
      instead of advancing to the row at index k (rows.Err is never read). */
  datatype QueryFaults = QueryFaults(query: Option<Error>, scan: Option<ScanFault>, next: Option<nat>)

  /** How many of n result rows rows.Next hands to the loop. */
  function RowsReached(f: QueryFaults, n: nat): (k: nat)
    ensures k <= n
    ensures k < n <==> f.next.Some? && f.next.value < n
    ensures k < n ==> k == f.next.value
  {
    if f.next.Some? && f.next.value < n then f.next.value else n
  }

  /** The scan fails on one of the first n rows. */
  predicate ScanFailsWithin(f: QueryFaults, n: nat)
  {
    f.scan.Some? && f.scan.value.row < n
  }

  /** Proof helper, not a property of the store: regrouping a log built by
      appending the calls of a transaction step by step. */
  lemma LogRegroup(log: seq<Call>, begin: Call, calls: seq<Call>, last: Call)
    ensures (log + [begin]) + calls == log + ([begin] + calls)
    ensures (log + [begin] + calls) + [last] == log + ([begin] + calls + [last])
  {
  }

  class Database {
    var accounts: seq<Models.Account>
    var payments: seq<Models.Payment>
    ghost var log: seq<Call>

    constructor (accounts: seq<Models.Account>, payments: seq<Models.Payment>)
      ensures this.accounts == accounts && this.payments == payments && log == []
    {
      this.accounts := accounts;
      this.payments := payments;
      log := [];
    }

    /** BeginTx: a fresh unit of work over a copy of the committed tables, or
        the driver's error and no unit of work. */
    method BeginTx(fault: Option<Error>) returns (tx: Tx?, err: Option<Error>)
      modifies this`log
      ensures log == old(log) + [Begin]
      ensures err == fault
      ensures fault.Some? ==> tx == null
      ensures fault.None? ==> tx != null && fresh(tx) && tx.db == this && !tx.finished
      ensures fault.None? ==> tx.accounts == accounts && tx.payments == payments
    {
      log := log + [Begin];
      err := fault;
      if fault.Some? {
        return null, err;
      }
      tx := new Tx(this);
    }
  }

  class Tx {
    const db: Database
    var accounts: seq<Models.Account>
    var payments: seq<Models.Payment>
    var finished: bool

    constructor (db: Database)
      ensures this.db == db && accounts == db.accounts && payments == db.payments && !finished
    {
      this.db := db;
      accounts := db.accounts;
      payments := db.payments;
      finished := false;
    }

    /** Commit: without a fault the working copy becomes the committed state;
        with one, the committed state is left as it was. */
    method Commit(fault: Option<Error>) returns (err: Option<Error>)
      requires !finished
      modifies this`finished, db
      ensures finished && err == fault
      ensures db.log == old(db.log) + [Call.Commit]
      ensures fault.None? ==> db.accounts == accounts && db.payments == payments
      ensures fault.Some? ==> db.accounts == old(db.accounts) && db.payments == old(db.payments)
    {
      db.log := db.log + [Call.Commit];
      err := fault;
      if fault.None? {
        db.accounts := accounts;
        db.payments := payments;
      }
      finished := true;
    }

    /** Rollback: the working copy is dropped; the committed state is untouched. */
    method Rollback()
      requires !finished
      modifies this`finished, db`log
      ensures finished
      ensures db.log == old(db.log) + [Call.Rollback]
    {
      db.log := db.log + [Call.Rollback];
      finished := true;
    }
  }
}
