/** The accounts gateway (infrastructure/gateways/accounts.go) over the
    in-memory accounts table. The SQL it prepares gives the semantics:
    a fetch by user_name, a signed balance update by surrogate id, a listing of
    every row, and a table lock that changes no data. */
module AccountsGateway {
  import opened Wrappers
  import opened Errors
  import Entities
  import Models
  import Store

  /** The first row whose user_name is `name`, as QueryRow sees it. */
  function FindByName(rows: seq<Models.Account>, name: string): (r: Option<nat>)
    ensures r.Some? ==> r.value < |rows| && rows[r.value].userName == name
    ensures r.Some? ==> forall j :: 0 <= j < r.value ==> rows[j].userName != name
    ensures r.None? ==> forall j :: 0 <= j < |rows| ==> rows[j].userName != name
  {
    if rows == [] then None
    else if rows[0].userName == name then Some(0)
    else match FindByName(rows[1..], name)
      case None => None
      case Some(i) => Some(i + 1)
  }

  /** What GetByNameTx returns: the injected driver error, else the first row
      named `name` converted by ToDomain, else sql.ErrNoRows. */
  function GetByName(rows: seq<Models.Account>, name: string, fault: Option<Error>): Result<Entities.Account, Error>
  {
    if fault.Some? then Failure(fault.value)
    else match FindByName(rows, name)
      case None => Failure(NoRows)
      case Some(i) => Success(Models.AccountToDomain(rows[i]))
  }

  /** A fetch by name fails with the driver's error, or with sql.ErrNoRows
      exactly when no row carries the name; a found account carries the name
      and is the ToDomain of one of the rows. */
  lemma GetByNameMeaning(rows: seq<Models.Account>, name: string, fault: Option<Error>)
    ensures var r := GetByName(rows, name, fault);
      (fault.Some? ==> r == Failure(fault.value)) &&
      (fault.None? ==> (r.Failure? <==> forall j :: 0 <= j < |rows| ==> rows[j].userName != name)) &&
      (fault.None? && r.Failure? ==> r.error == NoRows) &&
      (r.Success? ==> r.value.accountId == name) &&
      (r.Success? ==> exists j :: 0 <= j < |rows| && r.value == Models.AccountToDomain(rows[j]))
  {
  }

  /** `UPDATE accounts SET balance = balance + $1 WHERE id = $2`, row by row. */
  function AddToBalance(rows: seq<Models.Account>, id: int, delta: real): seq<Models.Account>
  {
    if rows == [] then []
    else
      var head := if rows[0].id == id then rows[0].(balance := rows[0].balance + delta) else rows[0];
      [head] + AddToBalance(rows[1..], id, delta)
  }

  /** A balance update keeps the rows in place: every row with that id gains
      delta; nothing else changes. */
  lemma {:induction false} AddToBalanceRows(rows: seq<Models.Account>, id: int, delta: real)
    ensures var r := AddToBalance(rows, id, delta);
      |r| == |rows| &&
      forall j :: 0 <= j < |rows| ==>
        r[j] == if rows[j].id == id then rows[j].(balance := rows[j].balance + delta) else rows[j]
  {
    if rows != [] {
      AddToBalanceRows(rows[1..], id, delta);
      var r := AddToBalance(rows, id, delta);
      forall j | 1 <= j < |rows|
        ensures r[j] == if rows[j].id == id then rows[j].(balance := rows[j].balance + delta) else rows[j]
      {
        assert r[j] == AddToBalance(rows[1..], id, delta)[j - 1];
        assert rows[1..][j - 1] == rows[j];
      }
    }
  }

  /** The total of all balances in the table. */
  function Sum(rows: seq<Models.Account>): real
  {
    if rows == [] then 0.0 else rows[0].balance + Sum(rows[1..])
  }

  /** The surrogate id is the primary key. */
  predicate UniqueIds(rows: seq<Models.Account>)
  {
    forall i, j :: 0 <= i < j < |rows| ==> rows[i].id != rows[j].id
  }

  predicate HasId(rows: seq<Models.Account>, id: int)
  {
    exists j :: 0 <= j < |rows| && rows[j].id == id
  }

  /** With unique ids, a balance update moves the table total by delta exactly
      when the id is present, and not at all otherwise. */
  lemma {:induction false} SumAddToBalance(rows: seq<Models.Account>, id: int, delta: real)
    requires UniqueIds(rows)
    ensures Sum(AddToBalance(rows, id, delta)) == Sum(rows) + (if HasId(rows, id) then delta else 0.0)
  {
    if rows != [] {
      var r := AddToBalance(rows, id, delta);
      assert r[1..] == AddToBalance(rows[1..], id, delta);
      SumAddToBalance(rows[1..], id, delta);
      if rows[0].id == id {
        assert !HasId(rows[1..], id) by {
          forall j | 0 <= j < |rows[1..]| ensures rows[1..][j].id != id {
            assert rows[1..][j] == rows[j + 1];
          }
        }
      } else {
        assert HasId(rows, id) == HasId(rows[1..], id) by {
          if HasId(rows, id) {
            var j :| 0 <= j < |rows| && rows[j].id == id;
            assert rows[1..][j - 1] == rows[j];
          }
          if HasId(rows[1..], id) {
            var j :| 0 <= j < |rows[1..]| && rows[1..][j].id == id;
            assert rows[j + 1] == rows[1..][j];
          }
        }
      }
    }
  }

  /** A balance update keeps the ids, names and currencies of every row. */
  lemma AddToBalanceKeepsKeys(rows: seq<Models.Account>, id: int, delta: real)
    ensures var r := AddToBalance(rows, id, delta);
      |r| == |rows| &&
      forall j :: 0 <= j < |rows| ==>
        r[j].id == rows[j].id && r[j].userName == rows[j].userName && r[j].currency == rows[j].currency
  {
    AddToBalanceRows(rows, id, delta);
  }

  /** A balance update keeps the ids unique and every id present. */
  lemma AddToBalanceKeepsIds(rows: seq<Models.Account>, id: int, delta: real, x: int)
    requires UniqueIds(rows)
    ensures UniqueIds(AddToBalance(rows, id, delta))
    ensures HasId(AddToBalance(rows, id, delta), x) == HasId(rows, x)
  {
    var r := AddToBalance(rows, id, delta);
    AddToBalanceKeepsKeys(rows, id, delta);
    if HasId(rows, x) {
      var j :| 0 <= j < |rows| && rows[j].id == x;
      assert r[j].id == x;
    }
    if HasId(r, x) {
      var j :| 0 <= j < |r| && r[j].id == x;
      assert rows[j].id == x;
    }
  }

  class Accounts {
    const db: Store.Database

    constructor (db: Store.Database)
      ensures this.db == db
    {
      this.db := db;
    }

    /** List: the rows in storage order, converted by ToDomain; a query or
        scan failure gives an empty list and a DBErrorWrapper. A failing
        rows.Next ends the loop early and, since rows.Err is not read, the
        rows read so far come back with no error. */
    method List(faults: Store.QueryFaults) returns (accs: seq<Entities.Account>, err: Option<Error>)
      ensures faults.query.Some? ==> accs == [] && err == Some(DBErrorWrapper(faults.query.value))
      ensures faults.query.None? && Store.ScanFailsWithin(faults, Store.RowsReached(faults, |db.accounts|)) ==>
                accs == [] && err == Some(DBErrorWrapper(faults.scan.value.err))
      ensures faults.query.None? && !Store.ScanFailsWithin(faults, Store.RowsReached(faults, |db.accounts|)) ==>
                err.None? && |accs| == Store.RowsReached(faults, |db.accounts|) &&
                forall i :: 0 <= i < |accs| ==> accs[i] == Models.AccountToDomain(db.accounts[i])
    {
      var acList: seq<Models.Account> := [];
      if faults.query.Some? {
        return [], Some(DBErrorWrapper(faults.query.value));
      }
      var rows := db.accounts;
      var i := 0;
      while i < |rows| && faults.next != Some(i)
        invariant 0 <= i <= Store.RowsReached(faults, |rows|)
        invariant acList == rows[..i]
        invariant !Store.ScanFailsWithin(faults, i)
      {
        if faults.scan.Some? && faults.scan.value.row == i {
          return [], Some(DBErrorWrapper(faults.scan.value.err));
        }
        acList := Models.AccountListAdd(acList, rows[i]);
        i := i + 1;
      }
      accs := Models.AccountListToDomain(acList);
      err := None;
    }

    /** GetByNameTx: the row with that user name, read inside the unit of work. */
    method GetByNameTx(tx: Store.Tx, name: string, fault: Option<Error>) returns (account: Option<Entities.Account>, err: Option<Error>)
      requires tx.db == db && !tx.finished
      modifies db`log
      ensures db.log == old(db.log) + [Store.GetByNameTx(name)]
      ensures var r := GetByName(tx.accounts, name, fault);
        (r.Success? ==> account == Some(r.value) && err.None?) &&
        (r.Failure? ==> account.None? && err == Some(r.error))
    {
      db.log := db.log + [Store.GetByNameTx(name)];
      if fault.Some? {
        return None, fault;
      }
      var i := FindByName(tx.accounts, name);
      if i.None? {
        return None, Some(NoRows);
      }
      account, err := Some(Models.AccountToDomain(tx.accounts[i.value])), None;
    }

    /** UpdateBalanceTx: adds the signed amount to the balance of the row
        whose id is the account's surrogate id, inside the unit of work. */
    method UpdateBalanceTx(tx: Store.Tx, account: Entities.Account, amount: real, fault: Option<Error>) returns (err: Option<Error>)
      requires tx.db == db && !tx.finished
      modifies tx`accounts, db`log
      ensures db.log == old(db.log) + [Store.UpdateBalanceTx(account, amount)]
      ensures err == fault
      ensures fault.None? ==> tx.accounts == AddToBalance(old(tx.accounts), Entities.GetId(account), amount)
      ensures fault.Some? ==> tx.accounts == old(tx.accounts)
    {
      db.log := db.log + [Store.UpdateBalanceTx(account, amount)];
      err := fault;
      if fault.None? {
        tx.accounts := AddToBalance(tx.accounts, Entities.GetId(account), amount);
      }
    }

    /** LockTx: takes the table lock; no data changes. */
    method LockTx(tx: Store.Tx, fault: Option<Error>) returns (err: Option<Error>)
      requires tx.db == db && !tx.finished
      modifies db`log
      ensures db.log == old(db.log) + [Store.LockTx]
      ensures err == fault
    {
      db.log := db.log + [Store.LockTx];
      err := fault;
    }
  }

  /** NewAccounts: prepares the list, balance, fetch and lock statements in
      that order and stops at the first that fails, wrapping its error. */
  method NewAccounts(d: Store.Database, prepare: map<Store.Statement, Error>) returns (table: Accounts?, err: Option<Error>)
    ensures err.None? <==>
              Store.ListAccountQuery !in prepare && Store.UpdateBalanceQuery !in prepare &&
              Store.FetchAccountQuery !in prepare && Store.LockQuery !in prepare
    ensures Store.ListAccountQuery in prepare ==>
              err == Some(Errorf("Error preparation listAccountQuery", prepare[Store.ListAccountQuery]))
    ensures Store.ListAccountQuery !in prepare && Store.UpdateBalanceQuery in prepare ==>
              err == Some(Errorf("Error preparation newUpdateBalanceQuery", prepare[Store.UpdateBalanceQuery]))
    ensures Store.ListAccountQuery !in prepare && Store.UpdateBalanceQuery !in prepare &&
            Store.FetchAccountQuery in prepare ==>
              err == Some(Errorf("Error preparation newFetchAccountQuery", prepare[Store.FetchAccountQuery]))
    ensures Store.ListAccountQuery !in prepare && Store.UpdateBalanceQuery !in prepare &&
            Store.FetchAccountQuery !in prepare && Store.LockQuery in prepare ==>
              err == Some(Errorf("Error preparation newLockQuery", prepare[Store.LockQuery]))
    ensures err.Some? ==> table == null
    ensures err.None? ==> table != null && fresh(table) && table.db == d
  {
    if Store.ListAccountQuery in prepare {
      return null, Some(Errorf("Error preparation listAccountQuery", prepare[Store.ListAccountQuery]));
    }
    if Store.UpdateBalanceQuery in prepare {
      return null, Some(Errorf("Error preparation newUpdateBalanceQuery", prepare[Store.UpdateBalanceQuery]));
    }
    if Store.FetchAccountQuery in prepare {
      return null, Some(Errorf("Error preparation newFetchAccountQuery", prepare[Store.FetchAccountQuery]));
    }
    if Store.LockQuery in prepare {
      return null, Some(Errorf("Error preparation newLockQuery", prepare[Store.LockQuery]));
    }
    table := new Accounts(d);
    err := None;
  }
}
