/** The wallet service (infrastructure/services/wallet.go): one transfer
    attempt (trySend) inside a unit of work, and the loop (Send) that repeats
    the attempt while it fails with a serialization failure.

    The failures the store calls may meet are injected per call site through
    an `Attempt`; the uuid of the ledger is part of the attempt too. `Send`
    consumes a sequence of attempts: running out of them while the loop would
    still retry is the outcome `Unfinished`. The type assertion on the
    unwrapped error (wallet.go:52), which panics when the direct cause is not a
    *pq.Error, is the outcome `Panicked`. */
module Wallet {
  import opened Wrappers
  import opened Errors
  import Entities
  import Models
  import Store
  import AccountsGateway
  import LedgersGateway

  /** The failure, if any, of each store call one attempt makes. */
  datatype Faults = Faults(begin: Option<Error>, fetchCredit: Option<Error>, fetchDebit: Option<Error>,
                           lock: Option<Error>, decrease: Option<Error>, increase: Option<Error>,
                           insert: Option<Error>, commit: Option<Error>)

  const NoFaults: Faults := Faults(None, None, None, None, None, None, None, None)

  /** What the environment decides for one attempt: the store failures and the ledger's guid. */
  datatype Attempt = Attempt(faults: Faults, guid: Models.Guid)

  /** The results of a run of store calls: the returned ledger and error, the
      tables afterwards and the calls made, in order. */
  datatype Outcome = Outcome(ledger: Option<Entities.Ledger>, err: Option<Error>,
                             accounts: seq<Models.Account>, payments: seq<Models.Payment>,
                             calls: seq<Store.Call>)

  const CurrencyMessage: string := "currencies for accounts is not equal"

  function LowBalanceMessage(id: Entities.AccountId): string
  {
    id + ": don't have enough balance"
  }

  function NotFoundMessage(name: string): string
  {
    "account " + name + " not found"
  }

  /** The error a failed account fetch turns into. */
  function FetchError(name: string, e: Error): Error
  {
    if ChainHas(e, NoRowsKind) then NotFoundWrapper(New(NotFoundMessage(name)))
    else Errorf("get by name error", e)
  }

  /** None of the calls opens or closes the unit of work. */
  predicate InsideUnitOfWork(calls: seq<Store.Call>)
  {
    Store.Begin !in calls && Store.Commit !in calls && Store.Rollback !in calls
  }

  /** The two balance updates of a transfer: the source row loses the
      amount, then the destination row gains it. */
  function Transferred(accts: seq<Models.Account>, from: int, to: int, amount: real): seq<Models.Account>
  {
    AccountsGateway.AddToBalance(AccountsGateway.AddToBalance(accts, from, -amount), to, amount)
  }

  /** trySend from the table lock to the ledger insert, once both accounts
      are known, over the unit of work's copy of the tables. */
  function Moves(accts: seq<Models.Account>, pays: seq<Models.Payment>, credit: Entities.Account,
                 debit: Entities.Account, amount: real, f: Faults, guid: Models.Guid): Outcome
  {
    var lock := Store.LockTx;
    var decrease := Store.UpdateBalanceTx(credit, -amount);
    var increase := Store.UpdateBalanceTx(debit, amount);
    if f.lock.Some? then
      Outcome(None, Some(Errorf("lock accounts table error", f.lock.value)), accts, pays, [lock])
    else if f.decrease.Some? then
      Outcome(None, Some(Errorf(credit.accountId + ": error during decrease balance", f.decrease.value)),
              accts, pays, [lock, decrease])
    else
      var a1 := AccountsGateway.AddToBalance(accts, Entities.GetId(credit), -amount);
      if f.increase.Some? then
        Outcome(None, Some(Errorf(credit.accountId + ": error during increase balance", f.increase.value)),
                a1, pays, [lock, decrease, increase])
      else
        var a2 := Transferred(accts, Entities.GetId(credit), Entities.GetId(debit), amount);
        var calls := [lock, decrease, increase, Store.AddTx(credit, debit, amount)];
        var pt := Models.NewLedgerFromAccount(credit, debit, amount, guid);
        if f.insert.Some? then
          Outcome(None, Some(Errorf("error during add ledger", DBErrorWrapper(f.insert.value))), a2, pays, calls)
        else
          Outcome(Some(Models.LedgerToDomain(pt)), None, a2, pays + [pt.pays.0, pt.pays.1], calls)
  }

  /** The body of trySend between BeginTx and the deferred rollback/commit,
      over the unit of work's copy of the tables. */
  function Steps(accts: seq<Models.Account>, pays: seq<Models.Payment>, creditId: string, debitId: string,
                 amount: real, f: Faults, guid: Models.Guid): Outcome
  {
    var c := AccountsGateway.GetByName(accts, creditId, f.fetchCredit);
    var d := AccountsGateway.GetByName(accts, debitId, f.fetchDebit);
    var fetches := [Store.GetByNameTx(creditId), Store.GetByNameTx(debitId)];
    if c.Failure? then
      Outcome(None, Some(FetchError(creditId, c.error)), accts, pays, [Store.GetByNameTx(creditId)])
    else if c.value.balance < amount then
      Outcome(None, Some(LowBalanceWrapper(New(LowBalanceMessage(c.value.accountId)))), accts, pays,
              [Store.GetByNameTx(creditId)])
    else if d.Failure? then
      Outcome(None, Some(FetchError(debitId, d.error)), accts, pays, fetches)
    else if c.value.currency != d.value.currency then
      Outcome(None, Some(New(CurrencyMessage)), accts, pays, fetches)
    else
      var m := Moves(accts, pays, c.value, d.value, amount, f, guid);
      m.(calls := fetches + m.calls)
  }

  /** One call of trySend against the committed tables: begin, the steps,
      then the deferred part: rollback after an error, otherwise commit. */
  function AttemptSpec(accts: seq<Models.Account>, pays: seq<Models.Payment>, creditId: string, debitId: string,
                       amount: real, at: Attempt): Outcome
  {
    var f := at.faults;
    if f.begin.Some? then
      Outcome(None, Some(Errorf("begin transaction error", f.begin.value)), accts, pays, [Store.Begin])
    else
      var s := Steps(accts, pays, creditId, debitId, amount, f, at.guid);
      if s.err.Some? then
        Outcome(s.ledger, s.err, accts, pays, [Store.Begin] + s.calls + [Store.Rollback])
      else if f.commit.Some? then
        Outcome(s.ledger, Some(Errorf("error during commit", f.commit.value)), accts, pays,
                [Store.Begin] + s.calls + [Store.Commit])
      else
        Outcome(s.ledger, None, s.accounts, s.payments, [Store.Begin] + s.calls + [Store.Commit])
  }

  /** The statements from the lock on stay inside the unit of work; an error
      comes without a ledger and before any payment row is written. */
  lemma MovesShape(accts: seq<Models.Account>, pays: seq<Models.Payment>, credit: Entities.Account,
                   debit: Entities.Account, amount: real, f: Faults, guid: Models.Guid)
    ensures var r := Moves(accts, pays, credit, debit, amount, f, guid);
      InsideUnitOfWork(r.calls) && (r.err.Some? <==> r.ledger.None?) && (r.err.Some? ==> r.payments == pays) &&
      |r.calls| >= 1 && r.calls[0] == Store.LockTx
  {
  }

  /** The same from the first fetch on, which is the first call. */
  lemma StepsShape(accts: seq<Models.Account>, pays: seq<Models.Payment>, creditId: string, debitId: string,
                   amount: real, f: Faults, guid: Models.Guid)
    ensures var r := Steps(accts, pays, creditId, debitId, amount, f, guid);
      InsideUnitOfWork(r.calls) && (r.err.Some? <==> r.ledger.None?) && (r.err.Some? ==> r.payments == pays) &&
      |r.calls| >= 1 && r.calls[0] == Store.GetByNameTx(creditId)
  {
    var c := AccountsGateway.GetByName(accts, creditId, f.fetchCredit);
    var d := AccountsGateway.GetByName(accts, debitId, f.fetchDebit);
    if c.Success? && c.value.balance >= amount && d.Success? && c.value.currency == d.value.currency {
      MovesShape(accts, pays, c.value, d.value, amount, f, guid);
    }
  }

  /** An attempt begins a unit of work; an error leaves the committed tables
      as they were; success returns a ledger and ends with the commit; an
      attempt that ends with a rollback failed and never committed. */
  lemma AttemptShape(accts: seq<Models.Account>, pays: seq<Models.Payment>, creditId: string, debitId: string,
                     amount: real, at: Attempt)
    ensures var r := AttemptSpec(accts, pays, creditId, debitId, amount, at);
      |r.calls| >= 1 && r.calls[0] == Store.Begin &&
      (r.err.Some? ==> r.accounts == accts && r.payments == pays) &&
      (r.err.None? ==> r.ledger.Some? && r.calls[|r.calls| - 1] == Store.Commit) &&
      (r.calls[|r.calls| - 1] == Store.Rollback ==> r.err.Some? && Store.Commit !in r.calls)
  {
    if at.faults.begin.None? {
      StepsShape(accts, pays, creditId, debitId, amount, at.faults, at.guid);
    }
  }

  /** What Send's loop does with the error of an attempt. */
  datatype Verdict = Stop | Retry | Panic

  /** The error's direct cause is a *pq.Error. */
  predicate DirectPq(e: Error)
  {
    Unwrap(e).Some? && Unwrap(e).value.PqError?
  }

  /** `xerrors.As(err, &pgError)` and then `xerrors.Unwrap(err).(*pq.Error)`:
      an error with no *pq.Error on its chain stops the loop; otherwise the
      direct cause must itself be a *pq.Error, or the assertion panics, and
      only the code 40001 retries. */
  function Classify(err: Option<Error>): (v: Verdict)
    ensures v == Retry <==> err.Some? && DirectPq(err.value) && Unwrap(err.value).value.code == SerializationFailure
    ensures v == Panic <==> err.Some? && ChainHas(err.value, PqKind) && !DirectPq(err.value)
  {
    if err.None? then Stop
    else
      CauseOnChain(err.value, PqKind);
      if !ChainHas(err.value, PqKind) then Stop
      else match Unwrap(err.value)
        case Some(PqError(code, _)) => if code == SerializationFailure then Retry else Stop
        case _ => Panic
  }

  /** How Send ends. */
  datatype SendOutcome =
    | Returned(ledger: Option<Entities.Ledger>, err: Option<Error>)
    | Panicked(cause: Error)
    | Unfinished

  /** The end of a run of Send: how it ended, the tables, and the store's call
      log (the log it started with, followed by every call made). */
  datatype SendRun = SendRun(out: SendOutcome, accounts: seq<Models.Account>, payments: seq<Models.Payment>,
                             log: seq<Store.Call>)

  /** Send over a sequence of attempts, from the tables and call log it
      starts with: each attempt whose verdict is Retry is followed by the
      next one. */
  function SendSpec(accts: seq<Models.Account>, pays: seq<Models.Payment>, creditId: string, debitId: string,
                    amount: real, attempts: seq<Attempt>, log: seq<Store.Call>): (r: SendRun)
    decreases |attempts|
  {
    if attempts == [] then SendRun(Unfinished, accts, pays, log)
    else
      var o := AttemptSpec(accts, pays, creditId, debitId, amount, attempts[0]);
      match Classify(o.err)
      case Retry => SendSpec(o.accounts, o.payments, creditId, debitId, amount, attempts[1..], log + o.calls)
      case Stop => SendRun(Returned(o.ledger, o.err), o.accounts, o.payments, log + o.calls)
      case Panic => SendRun(Panicked(o.err.value), o.accounts, o.payments, log + o.calls)
  }

  class WalletService {
    const db: Store.Database
    const accounts: AccountsGateway.Accounts
    const ledgers: LedgersGateway.Ledgers

    /** Both gateways work on the service's database. */
    predicate Valid()
    {
      accounts.db == db && ledgers.db == db
    }

    constructor (db: Store.Database, accounts: AccountsGateway.Accounts, ledgers: LedgersGateway.Ledgers)
      requires accounts.db == db && ledgers.db == db
      ensures Valid() && this.db == db && this.accounts == accounts && this.ledgers == ledgers
    {
      this.db := db;
      this.accounts := accounts;
      this.ledgers := ledgers;
    }

    /** AccountsList: the accounts gateway's result, unchanged. */
    method AccountsList(faults: Store.QueryFaults) returns (accs: seq<Entities.Account>, err: Option<Error>)
      requires Valid()
      ensures faults.query.Some? ==> accs == [] && err == Some(DBErrorWrapper(faults.query.value))
      ensures faults.query.None? && Store.ScanFailsWithin(faults, Store.RowsReached(faults, |db.accounts|)) ==>
                accs == [] && err == Some(DBErrorWrapper(faults.scan.value.err))
      ensures faults.query.None? && !Store.ScanFailsWithin(faults, Store.RowsReached(faults, |db.accounts|)) ==>
                err.None? && |accs| == Store.RowsReached(faults, |db.accounts|) &&
                forall i :: 0 <= i < |accs| ==> accs[i] == Models.AccountToDomain(db.accounts[i])
    {
      accs, err := accounts.List(faults);
    }

    /** LedgersList: the ledgers gateway's result, unchanged. */
    method LedgersList(faults: Store.QueryFaults) returns (ls: seq<Entities.Ledger>, err: Option<Error>)
      requires Valid()
      ensures faults.query.Some? ==> ls == [] && err == Some(DBErrorWrapper(faults.query.value))
      ensures var rows := LedgersGateway.ListRows(db.payments, db.accounts);
        faults.query.None? && Store.ScanFailsWithin(faults, Store.RowsReached(faults, |rows|)) ==>
          err == Some(DBErrorWrapper(faults.scan.value.err)) && |ls| == faults.scan.value.row &&
          forall i :: 0 <= i < |ls| ==> ls[i] == Models.LedgerToDomain(rows[i])
      ensures var rows := LedgersGateway.ListRows(db.payments, db.accounts);
        faults.query.None? && !Store.ScanFailsWithin(faults, Store.RowsReached(faults, |rows|)) ==>
          err.None? && |ls| == Store.RowsReached(faults, |rows|) && forall i :: 0 <= i < |ls| ==> ls[i] == Models.LedgerToDomain(rows[i])
    {
      ls, err := ledgers.List(faults);
    }

    /** The statements of trySend from the table lock to the ledger insert. */
    method MoveFunds(tx: Store.Tx, credit: Entities.Account, debit: Entities.Account, amount: real, at: Attempt)
      returns (l: Option<Entities.Ledger>, err: Option<Error>)
      requires Valid() && tx.db == db && !tx.finished
      modifies tx`accounts, tx`payments, db`log
      ensures var m := Moves(old(tx.accounts), old(tx.payments), credit, debit, amount, at.faults, at.guid);
        l == m.ledger && err == m.err && tx.accounts == m.accounts && tx.payments == m.payments &&
        db.log == old(db.log) + m.calls
    {
      var f := at.faults;
      ghost var log0 := db.log;
      err := accounts.LockTx(tx, f.lock);
      if err.Some? {
        return None, Some(Errorf("lock accounts table error", err.value));
      }
      err := accounts.UpdateBalanceTx(tx, credit, -amount, f.decrease);
      if err.Some? {
        return None, Some(Errorf(credit.accountId + ": error during decrease balance", err.value));
      }
      err := accounts.UpdateBalanceTx(tx, debit, amount, f.increase);
      if err.Some? {
        return None, Some(Errorf(credit.accountId + ": error during increase balance", err.value));
      }
      l, err := ledgers.AddTx(tx, credit, debit, amount, at.guid, f.insert);
      assert db.log == log0 + [Store.LockTx, Store.UpdateBalanceTx(credit, -amount), Store.UpdateBalanceTx(debit, amount),
                               Store.AddTx(credit, debit, amount)];
      if err.Some? {
        err := Some(Errorf("error during add ledger", err.value));
      }
    }

    /** The statements of trySend from the first fetch to the ledger insert,
        each returning at its own error. */
    method Transfer(tx: Store.Tx, creditId: string, debitId: string, amount: real, at: Attempt)
      returns (l: Option<Entities.Ledger>, err: Option<Error>)
      requires Valid() && tx.db == db && !tx.finished
      modifies tx`accounts, tx`payments, db`log
      ensures var s := Steps(old(tx.accounts), old(tx.payments), creditId, debitId, amount, at.faults, at.guid);
        l == s.ledger && err == s.err && tx.accounts == s.accounts && tx.payments == s.payments &&
        db.log == old(db.log) + s.calls
    {
      var f := at.faults;
      ghost var log0 := db.log;
      var found: Option<Entities.Account>;
      found, err := accounts.GetByNameTx(tx, creditId, f.fetchCredit);
      if err.Some? {
        return None, Some(FetchError(creditId, err.value));
      }
      var credit := found.value;
      if credit.balance < amount {
        return None, Some(LowBalanceWrapper(New(LowBalanceMessage(credit.accountId))));
      }
      found, err := accounts.GetByNameTx(tx, debitId, f.fetchDebit);
      ghost var fetches := [Store.GetByNameTx(creditId), Store.GetByNameTx(debitId)];
      assert db.log == log0 + fetches;
      if err.Some? {
        return None, Some(FetchError(debitId, err.value));
      }
      var debit := found.value;
      if credit.currency != debit.currency {
        return None, Some(New(CurrencyMessage));
      }
      ghost var m := Moves(tx.accounts, tx.payments, credit, debit, amount, f, at.guid);
      l, err := MoveFunds(tx, credit, debit, amount, at);
      assert (log0 + fetches) + m.calls == log0 + (fetches + m.calls);
    }

    /** trySend: one attempt in its own unit of work. */
    method TrySend(creditId: string, debitId: string, amount: real, at: Attempt)
      returns (l: Option<Entities.Ledger>, err: Option<Error>)
      requires Valid()
      modifies db
      ensures var o := AttemptSpec(old(db.accounts), old(db.payments), creditId, debitId, amount, at);
        l == o.ledger && err == o.err && db.accounts == o.accounts && db.payments == o.payments &&
        db.log == old(db.log) + o.calls
    {
      ghost var log0 := db.log;
      var tx: Store.Tx?;
      tx, err := db.BeginTx(at.faults.begin);
      if err.Some? {
        return None, Some(Errorf("begin transaction error", err.value));
      }
      ghost var s := Steps(tx.accounts, tx.payments, creditId, debitId, amount, at.faults, at.guid);
      l, err := Transfer(tx, creditId, debitId, amount, at);
      if err.Some? {
        tx.Rollback();
        Store.LogRegroup(log0, Store.Begin, s.calls, Store.Rollback);
        return;
      }
      err := tx.Commit(at.faults.commit);
      Store.LogRegroup(log0, Store.Begin, s.calls, Store.Commit);
      if err.Some? {
        err := Some(Errorf("error during commit", err.value));
      }
    }

    /** Send: repeats trySend while its verdict is Retry. */
    method Send(creditId: string, debitId: string, amount: real, attempts: seq<Attempt>) returns (out: SendOutcome)
      requires Valid()
      modifies db
      ensures var r := SendSpec(old(db.accounts), old(db.payments), creditId, debitId, amount, attempts, old(db.log));
        out == r.out && db.accounts == r.accounts && db.payments == r.payments && db.log == r.log
    {
      var i := 0;
      while i < |attempts|
        invariant 0 <= i <= |attempts|
        invariant SendSpec(old(db.accounts), old(db.payments), creditId, debitId, amount, attempts, old(db.log)) ==
                  SendSpec(db.accounts, db.payments, creditId, debitId, amount, attempts[i..], db.log)
      {
        assert attempts[i..][0] == attempts[i] && attempts[i..][1..] == attempts[i + 1..];
        var l, err := TrySend(creditId, debitId, amount, attempts[i]);
        var verdict := Classify(err);
        if verdict == Stop {
          return Returned(l, err);
        } else if verdict == Panic {
          return Panicked(err.value);
        }
        i := i + 1;
      }
      return Unfinished;
    }
  }

  /** Whether one of the accounts gateway's statements fails to prepare. */
  predicate AccountsPrepareFails(prepare: map<Store.Statement, Error>)
  {
    Store.ListAccountQuery in prepare || Store.UpdateBalanceQuery in prepare ||
    Store.FetchAccountQuery in prepare || Store.LockQuery in prepare
  }

  /** Whether one of the ledgers gateway's statements fails to prepare. */
  predicate LedgersPrepareFails(prepare: map<Store.Statement, Error>)
  {
    Store.ListLedgersQuery in prepare || Store.CreateLedgerQuery in prepare
  }

  /** NewWalletService: builds the accounts gateway, then the ledgers
      gateway, and wraps the first failure. */
  method NewWalletService(d: Store.Database, prepare: map<Store.Statement, Error>)
    returns (service: WalletService?, err: Option<Error>)
    ensures err.None? <==> !AccountsPrepareFails(prepare) && !LedgersPrepareFails(prepare)
    ensures AccountsPrepareFails(prepare) ==>
              err.Some? && err.value.Errorf? && err.value.context == "Error in accounts table"
    ensures !AccountsPrepareFails(prepare) && LedgersPrepareFails(prepare) ==>
              err.Some? && err.value.Errorf? && err.value.context == "Error in payments table"
    ensures err.Some? ==> service == null
    ensures err.None? ==> service != null && fresh(service) && service.Valid() && service.db == d
  {
    var accountsTable, e1 := AccountsGateway.NewAccounts(d, prepare);
    if e1.Some? {
      return null, Some(Errorf("Error in accounts table", e1.value));
    }
    var ledgersTable, e2 := LedgersGateway.NewLedgers(d, prepare);
    if e2.Some? {
      return null, Some(Errorf("Error in payments table", e2.value));
    }
    service := new WalletService(d, accountsTable, ledgersTable);
    err := None;
  }
}
