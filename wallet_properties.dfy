/** What one transfer attempt and the retry loop guarantee, stated over the
    specification functions of module Wallet. */
module WalletProperties {
  import opened Wrappers
  import opened Errors
  import Entities
  import Models
  import Store
  import AccountsGateway
  import LedgersGateway
  import opened Wallet

  /** The change a transfer makes to the balance of the row with id `id`,
      when the source account's id is `from` and the destination's `to`. */
  function Delta(id: int, from: int, to: int, amount: real): real
  {
    (if id == from then -amount else 0.0) + (if id == to then amount else 0.0)
  }

  /** The two balance updates change each row by its Delta and keep the rows in place. */
  lemma TransferRows(accts: seq<Models.Account>, from: int, to: int, amount: real)
    ensures var r := Transferred(accts, from, to, amount);
      |r| == |accts| &&
      forall k :: 0 <= k < |accts| ==> r[k] == accts[k].(balance := accts[k].balance + Delta(accts[k].id, from, to, amount))
  {
    var a1 := AccountsGateway.AddToBalance(accts, from, -amount);
    AccountsGateway.AddToBalanceRows(accts, from, -amount);
    AccountsGateway.AddToBalanceRows(a1, to, amount);
    var r := Transferred(accts, from, to, amount);
    forall k | 0 <= k < |accts|
      ensures r[k] == accts[k].(balance := accts[k].balance + Delta(accts[k].id, from, to, amount))
    {
      assert a1[k].id == accts[k].id;
    }
  }

  /** With unique ids and both ids present, the two updates keep the ids
      unique and the total of all balances unchanged. */
  lemma TransferConserves(accts: seq<Models.Account>, from: int, to: int, amount: real)
    requires AccountsGateway.UniqueIds(accts) && AccountsGateway.HasId(accts, from) && AccountsGateway.HasId(accts, to)
    ensures AccountsGateway.UniqueIds(Transferred(accts, from, to, amount))
    ensures AccountsGateway.Sum(Transferred(accts, from, to, amount)) == AccountsGateway.Sum(accts)
  {
    var a1 := AccountsGateway.AddToBalance(accts, from, -amount);
    AccountsGateway.SumAddToBalance(accts, from, -amount);
    AccountsGateway.AddToBalanceKeepsIds(accts, from, -amount, to);
    AccountsGateway.SumAddToBalance(a1, to, amount);
    AccountsGateway.AddToBalanceKeepsIds(a1, to, amount, to);
  }

  /** A balance update keeps the user name found for every id. */
  lemma {:induction false} NameByIdAfterUpdate(accts: seq<Models.Account>, id: int, delta: real, x: int)
    ensures LedgersGateway.NameById(AccountsGateway.AddToBalance(accts, id, delta), x) == LedgersGateway.NameById(accts, x)
  {
    if accts != [] {
      var r := AccountsGateway.AddToBalance(accts, id, delta);
      assert r[1..] == AccountsGateway.AddToBalance(accts[1..], id, delta);
      NameByIdAfterUpdate(accts[1..], id, delta, x);
    }
  }

  /** With unique ids, the name found for a row's id is that row's name. */
  lemma {:induction false} NameOfRow(accts: seq<Models.Account>, i: nat)
    requires AccountsGateway.UniqueIds(accts) && i < |accts|
    ensures LedgersGateway.NameById(accts, accts[i].id) == Some(accts[i].userName)
  {
    if i > 0 {
      assert accts[0].id != accts[i].id;
      assert AccountsGateway.UniqueIds(accts[1..]) by {
        forall a, b | 0 <= a < b < |accts[1..]| ensures accts[1..][a].id != accts[1..][b].id {
          assert accts[1..][a] == accts[a + 1] && accts[1..][b] == accts[b + 1];
        }
      }
      assert accts[1..][i - 1] == accts[i];
      NameOfRow(accts[1..], i - 1);
    }
  }

  /** Both accounts exist, the source has at least the amount and the
      currencies agree: the conditions trySend checks. */
  predicate Transferable(accts: seq<Models.Account>, creditId: string, debitId: string, amount: real)
  {
    var i := AccountsGateway.FindByName(accts, creditId);
    var j := AccountsGateway.FindByName(accts, debitId);
    i.Some? && j.Some? && accts[i.value].balance >= amount && accts[i.value].currency == accts[j.value].currency
  }

  /** What a committed transfer returns and leaves, written out: the ledger
      whose Outgoing leg names the receiving account with +amount; the two
      balance updates; the two new payment rows under the attempt's guid; and
      the calls in order (begin, the two fetches, the lock, the source's
      -amount, the destination's +amount, the ledger insert, commit). */
  function Committed(accts: seq<Models.Account>, pays: seq<Models.Payment>, creditId: string, debitId: string,
                     amount: real, guid: Models.Guid): Outcome
    requires Transferable(accts, creditId, debitId, amount)
  {
    var c := accts[AccountsGateway.FindByName(accts, creditId).value];
    var d := accts[AccountsGateway.FindByName(accts, debitId).value];
    var credit := Models.AccountToDomain(c);
    var debit := Models.AccountToDomain(d);
    Outcome(Some((Entities.Payment(debitId, amount, creditId, "", Entities.Outgoing),
                  Entities.Payment(creditId, -amount, "", debitId, Entities.Incoming))),
            None,
            Transferred(accts, c.id, d.id, amount),
            pays + [Models.Payment(guid, c.id, -amount), Models.Payment(guid, d.id, amount)],
            [Store.Begin, Store.GetByNameTx(creditId), Store.GetByNameTx(debitId), Store.LockTx,
             Store.UpdateBalanceTx(credit, -amount), Store.UpdateBalanceTx(debit, amount),
             Store.AddTx(credit, debit, amount), Store.Commit])
  }

  /** Past the lock and the two updates, the statements end with the ledger
      insert: its error, or the new ledger and payment rows. */
  lemma MovesReachInsert(accts: seq<Models.Account>, pays: seq<Models.Payment>, credit: Entities.Account,
                         debit: Entities.Account, amount: real, f: Faults, guid: Models.Guid)
    requires f.lock.None? && f.decrease.None? && f.increase.None?
    ensures var m := Moves(accts, pays, credit, debit, amount, f, guid);
      m.calls == [Store.LockTx, Store.UpdateBalanceTx(credit, -amount), Store.UpdateBalanceTx(debit, amount),
                  Store.AddTx(credit, debit, amount)] &&
      (f.insert.Some? ==> m.err == Some(Errorf("error during add ledger", DBErrorWrapper(f.insert.value)))) &&
      (f.insert.None? ==>
         m.err.None? &&
         m.ledger == Some(Models.LedgerToDomain(Models.NewLedgerFromAccount(credit, debit, amount, guid))) &&
         m.accounts == Transferred(accts, Entities.GetId(credit), Entities.GetId(debit), amount) &&
         m.payments == pays + [Models.Payment(guid, Entities.GetId(credit), -amount),
                               Models.Payment(guid, Entities.GetId(debit), amount)])
  {
  }

  /** When the checks pass and no call before the insert fails, the steps
      make all six calls and end as the insert does. */
  lemma StepsReachInsert(accts: seq<Models.Account>, pays: seq<Models.Payment>, creditId: string, debitId: string,
                         amount: real, f: Faults, guid: Models.Guid)
    requires Transferable(accts, creditId, debitId, amount)
    requires f.fetchCredit.None? && f.fetchDebit.None? && f.lock.None? && f.decrease.None? && f.increase.None?
    ensures var s := Steps(accts, pays, creditId, debitId, amount, f, guid);
      var o := Committed(accts, pays, creditId, debitId, amount, guid);
      [Store.Begin] + s.calls + [Store.Commit] == o.calls &&
      (f.insert.Some? ==> s.err == Some(Errorf("error during add ledger", DBErrorWrapper(f.insert.value)))) &&
      (f.insert.None? ==> s.err.None? && s.ledger == o.ledger && s.accounts == o.accounts && s.payments == o.payments)
  {
    var c := accts[AccountsGateway.FindByName(accts, creditId).value];
    var d := accts[AccountsGateway.FindByName(accts, debitId).value];
    var credit := Models.AccountToDomain(c);
    var debit := Models.AccountToDomain(d);
    assert AccountsGateway.GetByName(accts, creditId, f.fetchCredit) == Success(credit);
    assert AccountsGateway.GetByName(accts, debitId, f.fetchDebit) == Success(debit);
    MovesReachInsert(accts, pays, credit, debit, amount, f, guid);
    Models.NewLedgerToDomain(credit, debit, amount, guid);
  }

  /** With too little balance the attempt fails with a LowBalanceWrapper,
      rolls back and never fetches the destination. */
  lemma LowBalanceFailsFast(accts: seq<Models.Account>, pays: seq<Models.Payment>, creditId: string, debitId: string,
                            amount: real, at: Attempt)
    requires at.faults.begin.None? && at.faults.fetchCredit.None?
    requires AccountsGateway.FindByName(accts, creditId).Some?
    requires accts[AccountsGateway.FindByName(accts, creditId).value].balance < amount
    ensures var o := AttemptSpec(accts, pays, creditId, debitId, amount, at);
      o.err == Some(LowBalanceWrapper(New(creditId + ": don't have enough balance"))) &&
      o.calls == [Store.Begin, Store.GetByNameTx(creditId), Store.Rollback] &&
      o.accounts == accts && o.payments == pays
  {
  }

  /** The balance check comes before the destination fetch, and a balance
      equal to the amount passes it: the destination is fetched next. */
  lemma EnoughBalanceFetchesDebit(accts: seq<Models.Account>, pays: seq<Models.Payment>, creditId: string,
                                  debitId: string, amount: real, at: Attempt)
    requires at.faults.begin.None? && at.faults.fetchCredit.None?
    requires AccountsGateway.FindByName(accts, creditId).Some?
    requires accts[AccountsGateway.FindByName(accts, creditId).value].balance >= amount
    ensures var o := AttemptSpec(accts, pays, creditId, debitId, amount, at);
      |o.calls| >= 3 && o.calls[1] == Store.GetByNameTx(creditId) && o.calls[2] == Store.GetByNameTx(debitId)
  {
    var s := Steps(accts, pays, creditId, debitId, amount, at.faults, at.guid);
    assert |s.calls| >= 2 && s.calls[0] == Store.GetByNameTx(creditId) && s.calls[1] == Store.GetByNameTx(debitId) by {
      var c := AccountsGateway.GetByName(accts, creditId, at.faults.fetchCredit);
      var d := AccountsGateway.GetByName(accts, debitId, at.faults.fetchDebit);
      if d.Success? && c.value.currency == d.value.currency {
        var m := Moves(accts, pays, c.value, d.value, amount, at.faults, at.guid);
        assert s.calls == [Store.GetByNameTx(creditId), Store.GetByNameTx(debitId)] + m.calls;
      }
    }
    var o := AttemptSpec(accts, pays, creditId, debitId, amount, at);
    assert o.calls[1..|s.calls| + 1] == s.calls;
  }

  /** A source account that is not there (no row, or a fetch error with
      sql.ErrNoRows on its chain) is reported as not found; any other fetch
      error is wrapped. Either way the attempt rolls back after the one fetch. */
  lemma MissingCreditAccount(accts: seq<Models.Account>, pays: seq<Models.Payment>, creditId: string, debitId: string,
                             amount: real, at: Attempt)
    requires at.faults.begin.None?
    ensures var o := AttemptSpec(accts, pays, creditId, debitId, amount, at);
      var fault := at.faults.fetchCredit;
      ((fault.None? && AccountsGateway.FindByName(accts, creditId).None?) ||
       (fault.Some? && ChainHas(fault.value, NoRowsKind))) ==>
        o.err == Some(NotFoundWrapper(New("account " + creditId + " not found"))) &&
        ErrorString(o.err.value) == "account " + creditId + " not found" &&
        o.calls == [Store.Begin, Store.GetByNameTx(creditId), Store.Rollback] &&
        o.accounts == accts && o.payments == pays
    ensures var o := AttemptSpec(accts, pays, creditId, debitId, amount, at);
      var fault := at.faults.fetchCredit;
      fault.Some? && !ChainHas(fault.value, NoRowsKind) ==>
        o.err == Some(Errorf("get by name error", fault.value)) &&
        o.calls == [Store.Begin, Store.GetByNameTx(creditId), Store.Rollback]
  {
  }

  /** The same for the destination account, once the source passed the balance check. */
  lemma MissingDebitAccount(accts: seq<Models.Account>, pays: seq<Models.Payment>, creditId: string, debitId: string,
                            amount: real, at: Attempt)
    requires at.faults.begin.None? && at.faults.fetchCredit.None?
    requires AccountsGateway.FindByName(accts, creditId).Some?
    requires accts[AccountsGateway.FindByName(accts, creditId).value].balance >= amount
    ensures var o := AttemptSpec(accts, pays, creditId, debitId, amount, at);
      var fault := at.faults.fetchDebit;
      ((fault.None? && AccountsGateway.FindByName(accts, debitId).None?) ||
       (fault.Some? && ChainHas(fault.value, NoRowsKind))) ==>
        o.err == Some(NotFoundWrapper(New("account " + debitId + " not found"))) &&
        o.calls == [Store.Begin, Store.GetByNameTx(creditId), Store.GetByNameTx(debitId), Store.Rollback] &&
        o.accounts == accts && o.payments == pays
    ensures var o := AttemptSpec(accts, pays, creditId, debitId, amount, at);
      var fault := at.faults.fetchDebit;
      fault.Some? && !ChainHas(fault.value, NoRowsKind) ==>
        o.err == Some(Errorf("get by name error", fault.value)) &&
        o.calls == [Store.Begin, Store.GetByNameTx(creditId), Store.GetByNameTx(debitId), Store.Rollback]
  {
  }

  /** Accounts in different currencies: the attempt fails after the two
      fetches; no lock, no balance update and no ledger insert follow. */
  lemma CurrencyMismatch(accts: seq<Models.Account>, pays: seq<Models.Payment>, creditId: string, debitId: string,
                         amount: real, at: Attempt)
    requires at.faults.begin.None? && at.faults.fetchCredit.None? && at.faults.fetchDebit.None?
    requires AccountsGateway.FindByName(accts, creditId).Some? && AccountsGateway.FindByName(accts, debitId).Some?
    requires accts[AccountsGateway.FindByName(accts, creditId).value].balance >= amount
    requires accts[AccountsGateway.FindByName(accts, creditId).value].currency !=
             accts[AccountsGateway.FindByName(accts, debitId).value].currency
    ensures var o := AttemptSpec(accts, pays, creditId, debitId, amount, at);
      o.err == Some(New("currencies for accounts is not equal")) &&
      o.calls == [Store.Begin, Store.GetByNameTx(creditId), Store.GetByNameTx(debitId), Store.Rollback] &&
      o.accounts == accts && o.payments == pays
  {
  }

  /** An attempt succeeds exactly when no store call fails and the checks
      pass. Nothing checks the sign of the amount or that the two accounts
      differ. */
  lemma SucceedsExactlyWhen(accts: seq<Models.Account>, pays: seq<Models.Payment>, creditId: string, debitId: string,
                            amount: real, at: Attempt)
    ensures AttemptSpec(accts, pays, creditId, debitId, amount, at).err.None? <==>
      at.faults == NoFaults && Transferable(accts, creditId, debitId, amount)
  {
    var f := at.faults;
    var o := AttemptSpec(accts, pays, creditId, debitId, amount, at);
    if f.begin.None? {
      var s := Steps(accts, pays, creditId, debitId, amount, f, at.guid);
      var c := AccountsGateway.GetByName(accts, creditId, f.fetchCredit);
      var d := AccountsGateway.GetByName(accts, debitId, f.fetchDebit);
      if c.Success? && c.value.balance >= amount && d.Success? && c.value.currency == d.value.currency {
        assert f.fetchCredit.None? && f.fetchDebit.None?;
        var m := Moves(accts, pays, c.value, d.value, amount, f, at.guid);
        assert s.err == m.err;
        assert Transferable(accts, creditId, debitId, amount);
      } else {
        assert s.err.Some?;
        assert f.fetchCredit.None? && f.fetchDebit.None? ==> !Transferable(accts, creditId, debitId, amount);
      }
    }
  }

  /** A successful attempt is the committed transfer written out. */
  lemma SuccessfulAttempt(accts: seq<Models.Account>, pays: seq<Models.Payment>, creditId: string, debitId: string,
                          amount: real, at: Attempt)
    requires AttemptSpec(accts, pays, creditId, debitId, amount, at).err.None?
    ensures Transferable(accts, creditId, debitId, amount)
    ensures AttemptSpec(accts, pays, creditId, debitId, amount, at) == Committed(accts, pays, creditId, debitId, amount, at.guid)
  {
    SucceedsExactlyWhen(accts, pays, creditId, debitId, amount, at);
    StepsReachInsert(accts, pays, creditId, debitId, amount, at.faults, at.guid);
  }

  /** A successful attempt moves the amount from the source row to the
      destination row and changes no other balance. */
  lemma SuccessfulAttemptBalances(accts: seq<Models.Account>, pays: seq<Models.Payment>, creditId: string,
                                  debitId: string, amount: real, at: Attempt)
    requires AttemptSpec(accts, pays, creditId, debitId, amount, at).err.None?
    ensures AccountsGateway.FindByName(accts, creditId).Some? && AccountsGateway.FindByName(accts, debitId).Some?
    ensures var o := AttemptSpec(accts, pays, creditId, debitId, amount, at);
      var from := accts[AccountsGateway.FindByName(accts, creditId).value].id;
      var to := accts[AccountsGateway.FindByName(accts, debitId).value].id;
      |o.accounts| == |accts| &&
      forall k :: 0 <= k < |accts| ==>
        o.accounts[k] == accts[k].(balance := accts[k].balance + Delta(accts[k].id, from, to, amount))
  {
    SuccessfulAttempt(accts, pays, creditId, debitId, amount, at);
    TransferRows(accts, accts[AccountsGateway.FindByName(accts, creditId).value].id,
                 accts[AccountsGateway.FindByName(accts, debitId).value].id, amount);
  }

  /** With unique ids, an attempt keeps the ids unique and the sum of all
      balances unchanged, whether it succeeds or fails. */
  lemma AttemptConservesTotal(accts: seq<Models.Account>, pays: seq<Models.Payment>, creditId: string, debitId: string,
                              amount: real, at: Attempt)
    requires AccountsGateway.UniqueIds(accts)
    ensures var o := AttemptSpec(accts, pays, creditId, debitId, amount, at);
      AccountsGateway.UniqueIds(o.accounts) && AccountsGateway.Sum(o.accounts) == AccountsGateway.Sum(accts)
  {
    AttemptShape(accts, pays, creditId, debitId, amount, at);
    if AttemptSpec(accts, pays, creditId, debitId, amount, at).err.None? {
      SuccessfulAttempt(accts, pays, creditId, debitId, amount, at);
      var i := AccountsGateway.FindByName(accts, creditId).value;
      var j := AccountsGateway.FindByName(accts, debitId).value;
      TransferConserves(accts, accts[i].id, accts[j].id, amount);
    }
  }

  /** A commit that fails becomes the returned error, wrapped as "error during
      commit", and the ledger built in the unit of work is returned with it,
      though nothing was committed. */
  lemma CommitFailureKeepsLedger(accts: seq<Models.Account>, pays: seq<Models.Payment>, creditId: string, debitId: string,
                                 amount: real, at: Attempt, e: Error)
    requires at.faults == NoFaults.(commit := Some(e))
    requires Transferable(accts, creditId, debitId, amount)
    ensures var o := AttemptSpec(accts, pays, creditId, debitId, amount, at);
      var committed := Committed(accts, pays, creditId, debitId, amount, at.guid);
      o.err == Some(Errorf("error during commit", e)) && o.ledger == committed.ledger &&
      o.accounts == accts && o.payments == pays && o.calls == committed.calls
  {
    StepsReachInsert(accts, pays, creditId, debitId, amount, at.faults, at.guid);
  }

  /** Any error before the commit rolls the unit of work back, with no commit,
      and leaves both tables as they were. */
  lemma ErrorBeforeCommitRollsBack(accts: seq<Models.Account>, pays: seq<Models.Payment>, creditId: string,
                                   debitId: string, amount: real, at: Attempt)
    requires at.faults.begin.None?
    requires Steps(accts, pays, creditId, debitId, amount, at.faults, at.guid).err.Some?
    ensures var o := AttemptSpec(accts, pays, creditId, debitId, amount, at);
      o.calls[|o.calls| - 1] == Store.Rollback && Store.Commit !in o.calls && o.ledger.None? &&
      o.err == Steps(accts, pays, creditId, debitId, amount, at.faults, at.guid).err &&
      o.accounts == accts && o.payments == pays
  {
    StepsShape(accts, pays, creditId, debitId, amount, at.faults, at.guid);
  }

  /** A transfer from an account to itself succeeds like any other and nets
      to zero: every balance is as before. */
  lemma SelfTransferNetsZero(accts: seq<Models.Account>, pays: seq<Models.Payment>, name: string, amount: real, at: Attempt)
    requires AttemptSpec(accts, pays, name, name, amount, at).err.None?
    ensures AttemptSpec(accts, pays, name, name, amount, at).accounts == accts
  {
    var o := AttemptSpec(accts, pays, name, name, amount, at);
    SuccessfulAttemptBalances(accts, pays, name, name, amount, at);
    forall k | 0 <= k < |accts| ensures o.accounts[k] == accts[k] {
      assert accts[k].(balance := accts[k].balance + 0.0) == accts[k];
    }
  }

  /** A committed transfer of a positive amount between two different
      accounts, under a guid no earlier payment carries, is listed exactly
      once: as the receiving row paired with the paying row, with NameA the
      receiver's name. Through ToDomain its Outgoing leg names the sender with
      -amount. (A successful attempt is Committed, by SuccessfulAttempt.) */
  lemma CommittedTransferListedOnce(accts: seq<Models.Account>, pays: seq<Models.Payment>, creditId: string,
                                    debitId: string, amount: real, guid: Models.Guid)
    requires AccountsGateway.UniqueIds(accts) && Transferable(accts, creditId, debitId, amount)
    requires creditId != debitId && amount > 0.0
    requires forall p :: p in pays ==> p.guid != guid
    ensures var o := Committed(accts, pays, creditId, debitId, amount, guid);
      var from := accts[AccountsGateway.FindByName(accts, creditId).value].id;
      var to := accts[AccountsGateway.FindByName(accts, debitId).value].id;
      var l := Models.Ledger((Models.Payment(guid, to, amount), Models.Payment(guid, from, -amount)), debitId, creditId);
      LedgersGateway.WithGuid(LedgersGateway.ListRows(o.payments, o.accounts), guid) == [l] &&
      Models.LedgerToDomain(l) == (Entities.Payment(creditId, -amount, debitId, "", Entities.Outgoing),
                                   Entities.Payment(debitId, amount, "", creditId, Entities.Incoming))
  {
    var i := AccountsGateway.FindByName(accts, creditId).value;
    var j := AccountsGateway.FindByName(accts, debitId).value;
    var accounts := Transferred(accts, accts[i].id, accts[j].id, amount);
    NameOfRow(accts, i);
    NameOfRow(accts, j);
    TransferKeepsNames(accts, accts[i].id, accts[j].id, amount, accts[i].id);
    TransferKeepsNames(accts, accts[i].id, accts[j].id, amount, accts[j].id);
    LedgersGateway.AddedPairListedOnce(pays, accounts, Models.Payment(guid, accts[i].id, -amount),
                                       Models.Payment(guid, accts[j].id, amount));
  }

  /** The two updates keep the name found for every id. */
  lemma TransferKeepsNames(accts: seq<Models.Account>, from: int, to: int, amount: real, x: int)
    ensures LedgersGateway.NameById(Transferred(accts, from, to, amount), x) == LedgersGateway.NameById(accts, x)
  {
    NameByIdAfterUpdate(accts, from, -amount, x);
    NameByIdAfterUpdate(AccountsGateway.AddToBalance(accts, from, -amount), to, amount, x);
  }

  /** A self-transfer's two rows never appear in the listing. */
  lemma SelfTransferNotListed(accts: seq<Models.Account>, pays: seq<Models.Payment>, name: string, amount: real,
                              at: Attempt)
    requires AttemptSpec(accts, pays, name, name, amount, at).err.None?
    requires forall p :: p in pays ==> p.guid != at.guid
    ensures var o := AttemptSpec(accts, pays, name, name, amount, at);
      LedgersGateway.WithGuid(LedgersGateway.ListRows(o.payments, o.accounts), at.guid) == []
  {
    SuccessfulAttempt(accts, pays, name, name, amount, at);
    var i := AccountsGateway.FindByName(accts, name).value;
    LedgersGateway.SelfPairNeverListed(pays, Transferred(accts, accts[i].id, accts[i].id, amount),
                                       Models.Payment(at.guid, accts[i].id, -amount),
                                       Models.Payment(at.guid, accts[i].id, amount));
  }

  /** An attempt whose verdict is Retry failed, so it left the tables as they were. */
  lemma RetryKeepsTables(accts: seq<Models.Account>, pays: seq<Models.Payment>, creditId: string, debitId: string,
                         amount: real, at: Attempt)
    ensures var o := AttemptSpec(accts, pays, creditId, debitId, amount, at);
      Classify(o.err) == Retry ==> o.accounts == accts && o.payments == pays
  {
    AttemptShape(accts, pays, creditId, debitId, amount, at);
  }

  /** A *pq.Error of any code on the ledger insert (two levels down, inside a
      DBErrorWrapper) makes Send panic, even a serialization failure; the
      insert was rolled back. */
  lemma InsertConflictPanics(accts: seq<Models.Account>, pays: seq<Models.Payment>, creditId: string, debitId: string,
                             amount: real, at: Attempt, rest: seq<Attempt>, log: seq<Store.Call>, e: Error)
    requires at.faults == NoFaults.(insert := Some(e)) && ChainHas(e, PqKind)
    requires Transferable(accts, creditId, debitId, amount)
    ensures var r := SendSpec(accts, pays, creditId, debitId, amount, [at] + rest, log);
      r.out == Panicked(Errorf("error during add ledger", DBErrorWrapper(e))) &&
      r.accounts == accts && r.payments == pays
  {
    StepsReachInsert(accts, pays, creditId, debitId, amount, at.faults, at.guid);
    var err := Errorf("error during add ledger", DBErrorWrapper(e));
    assert ChainHas(err, PqKind);
    assert Classify(Some(err)) == Panic;
    assert ([at] + rest)[0] == at;
  }

  /** A serialization failure on commit is retried: Send goes on with the
      next attempt from the same tables, after the calls of a full attempt. */
  lemma CommitConflictRetries(accts: seq<Models.Account>, pays: seq<Models.Payment>, creditId: string, debitId: string,
                              amount: real, at: Attempt, rest: seq<Attempt>, log: seq<Store.Call>, message: string)
    requires at.faults == NoFaults.(commit := Some(PqError(SerializationFailure, message)))
    requires Transferable(accts, creditId, debitId, amount)
    ensures SendSpec(accts, pays, creditId, debitId, amount, [at] + rest, log) ==
            SendSpec(accts, pays, creditId, debitId, amount, rest,
                     log + Committed(accts, pays, creditId, debitId, amount, at.guid).calls)
  {
    CommitFailureKeepsLedger(accts, pays, creditId, debitId, amount, at, PqError(SerializationFailure, message));
    assert ([at] + rest)[0] == at && ([at] + rest)[1..] == rest;
  }

  /** Any other code on commit, the empty one included, is not retried:
      Send returns the commit error and the uncommitted ledger. */
  lemma CommitOtherCodeReturned(accts: seq<Models.Account>, pays: seq<Models.Payment>, creditId: string, debitId: string,
                                amount: real, at: Attempt, rest: seq<Attempt>, log: seq<Store.Call>,
                                code: string, message: string)
    requires code != SerializationFailure
    requires at.faults == NoFaults.(commit := Some(PqError(code, message)))
    requires Transferable(accts, creditId, debitId, amount)
    ensures var r := SendSpec(accts, pays, creditId, debitId, amount, [at] + rest, log);
      r.out == Returned(Committed(accts, pays, creditId, debitId, amount, at.guid).ledger,
                        Some(Errorf("error during commit", PqError(code, message)))) &&
      r.accounts == accts && r.payments == pays
  {
    CommitFailureKeepsLedger(accts, pays, creditId, debitId, amount, at, PqError(code, message));
    assert ([at] + rest)[0] == at;
  }

  /** Send ends at the first attempt whose verdict is not Retry, with that
      attempt's result; the attempts before it changed nothing. */
  lemma {:induction false} SendSettlesAtFirstNonRetry(accts: seq<Models.Account>, pays: seq<Models.Payment>,
                                                      creditId: string, debitId: string, amount: real,
                                                      attempts: seq<Attempt>, log: seq<Store.Call>, k: nat)
    requires k < |attempts|
    requires forall j :: 0 <= j < k ==>
               Classify(AttemptSpec(accts, pays, creditId, debitId, amount, attempts[j]).err) == Retry
    requires Classify(AttemptSpec(accts, pays, creditId, debitId, amount, attempts[k]).err) != Retry
    ensures var o := AttemptSpec(accts, pays, creditId, debitId, amount, attempts[k]);
      var r := SendSpec(accts, pays, creditId, debitId, amount, attempts, log);
      r.accounts == o.accounts && r.payments == o.payments &&
      (Classify(o.err) == Stop ==> r.out == Returned(o.ledger, o.err)) &&
      (Classify(o.err) == Panic ==> r.out == Panicked(o.err.value))
  {
    if k > 0 {
      var o0 := AttemptSpec(accts, pays, creditId, debitId, amount, attempts[0]);
      RetryKeepsTables(accts, pays, creditId, debitId, amount, attempts[0]);
      forall j | 0 <= j < k - 1
        ensures Classify(AttemptSpec(accts, pays, creditId, debitId, amount, attempts[1..][j]).err) == Retry
      {
        assert attempts[1..][j] == attempts[j + 1];
      }
      assert attempts[1..][k - 1] == attempts[k];
      SendSettlesAtFirstNonRetry(accts, pays, creditId, debitId, amount, attempts[1..], log + o0.calls, k - 1);
    }
  }

  /** Send never returns an error it would have retried. */
  lemma {:induction false} SendNeverReturnsRetryable(accts: seq<Models.Account>, pays: seq<Models.Payment>,
                                                     creditId: string, debitId: string, amount: real,
                                                     attempts: seq<Attempt>, log: seq<Store.Call>)
    ensures var r := SendSpec(accts, pays, creditId, debitId, amount, attempts, log);
      r.out.Returned? ==> Classify(r.out.err) == Stop
    decreases |attempts|
  {
    if attempts != [] {
      var o := AttemptSpec(accts, pays, creditId, debitId, amount, attempts[0]);
      if Classify(o.err) == Retry {
        SendNeverReturnsRetryable(o.accounts, o.payments, creditId, debitId, amount, attempts[1..], log + o.calls);
      }
    }
  }

  /** Send gives up unfinished only when every attempt asked for a retry,
      and then the tables are as they were. */
  lemma {:induction false} UnfinishedOnlyAfterRetries(accts: seq<Models.Account>, pays: seq<Models.Payment>,
                                                      creditId: string, debitId: string, amount: real,
                                                      attempts: seq<Attempt>, log: seq<Store.Call>)
    ensures var r := SendSpec(accts, pays, creditId, debitId, amount, attempts, log);
      r.out.Unfinished? ==>
        r.accounts == accts && r.payments == pays &&
        forall j :: 0 <= j < |attempts| ==>
          Classify(AttemptSpec(accts, pays, creditId, debitId, amount, attempts[j]).err) == Retry
    decreases |attempts|
  {
    if attempts != [] {
      var o := AttemptSpec(accts, pays, creditId, debitId, amount, attempts[0]);
      RetryKeepsTables(accts, pays, creditId, debitId, amount, attempts[0]);
      if Classify(o.err) == Retry {
        UnfinishedOnlyAfterRetries(accts, pays, creditId, debitId, amount, attempts[1..], log + o.calls);
        forall j | 1 <= j < |attempts|
          ensures attempts[j] == attempts[1..][j - 1]
        {
        }
      }
    }
  }

  /** With unique ids, however Send ends, the sum of all balances is what it was. */
  lemma {:induction false} SendConservesTotal(accts: seq<Models.Account>, pays: seq<Models.Payment>, creditId: string,
                                              debitId: string, amount: real, attempts: seq<Attempt>,
                                              log: seq<Store.Call>)
    requires AccountsGateway.UniqueIds(accts)
    ensures var r := SendSpec(accts, pays, creditId, debitId, amount, attempts, log);
      AccountsGateway.Sum(r.accounts) == AccountsGateway.Sum(accts)
    decreases |attempts|
  {
    if attempts != [] {
      var o := AttemptSpec(accts, pays, creditId, debitId, amount, attempts[0]);
      AttemptConservesTotal(accts, pays, creditId, debitId, amount, attempts[0]);
      if Classify(o.err) == Retry {
        SendConservesTotal(o.accounts, o.payments, creditId, debitId, amount, attempts[1..], log + o.calls);
      }
    }
  }
}
