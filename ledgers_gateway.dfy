/** The ledgers gateway (infrastructure/gateways/ledgers.go) over the
    in-memory payments and accounts tables. AddTx writes the two rows of a
    transfer in one insert. List is the self-join of the payments table:
    one result row for each ordered pair (p1, p2) of payments with the same
    guid, different account ids and a positive p1 amount, joined with the
    user names of both accounts. The SQL fixes no order; the model takes the
    nested-loop order (p1 outer, p2 inner, both in storage order). */
module LedgersGateway {
  import opened Wrappers
  import opened Errors
  import Entities
  import Models
  import Store

  /** The user name of the account row with that id (JOIN accounts ON account_id = id). */
  function NameById(accts: seq<Models.Account>, id: int): Option<string>
  {
    if accts == [] then None
    else if accts[0].id == id then Some(accts[0].userName)
    else NameById(accts[1..], id)
  }

  /** A name is found exactly when some row has the id, and it is that row's name. */
  lemma {:induction false} NameByIdMeaning(accts: seq<Models.Account>, id: int)
    ensures var r := NameById(accts, id);
      (r.Some? ==> exists j :: 0 <= j < |accts| && accts[j].id == id && accts[j].userName == r.value) &&
      (r.None? <==> forall j :: 0 <= j < |accts| ==> accts[j].id != id)
  {
    if accts != [] && accts[0].id != id {
      NameByIdMeaning(accts[1..], id);
      var r := NameById(accts[1..], id);
      if r.Some? {
        var j :| 0 <= j < |accts[1..]| && accts[1..][j].id == id && accts[1..][j].userName == r.value;
        assert accts[j + 1] == accts[1..][j];
      } else {
        forall j | 1 <= j < |accts| ensures accts[j].id != id {
          assert accts[j] == accts[1..][j - 1];
        }
      }
    }
  }

  /** `p1.guid = p2.guid AND p1.account_id != p2.account_id ... WHERE p1.amount > 0` */
  predicate Joins(p1: Models.Payment, p2: Models.Payment)
  {
    p1.guid == p2.guid && p1.accountId != p2.accountId && p1.amount > 0.0
  }

  /** The result row for the pair (p1, p2), if the pair joins and both accounts exist. */
  function Row(p1: Models.Payment, p2: Models.Payment, accts: seq<Models.Account>): seq<Models.Ledger>
  {
    var a1 := NameById(accts, p1.accountId);
    var a2 := NameById(accts, p2.accountId);
    if Joins(p1, p2) && a1.Some? && a2.Some? then [Models.Ledger((p1, p2), a1.value, a2.value)] else []
  }

  /** Every result row of the join, with a soundness guarantee for each. */
  predicate Sound(l: Models.Ledger, accts: seq<Models.Account>)
  {
    Joins(l.pays.0, l.pays.1) &&
    NameById(accts, l.pays.0.accountId) == Some(l.nameA) &&
    NameById(accts, l.pays.1.accountId) == Some(l.nameB)
  }

  /** The rows that one outer payment p1 contributes, in the order of ps. */
  function PairsWith(p1: Models.Payment, ps: seq<Models.Payment>, accts: seq<Models.Account>): (r: seq<Models.Ledger>)
    ensures forall k :: 0 <= k < |r| ==> r[k].pays.0 == p1 && r[k].pays.1 in ps && Sound(r[k], accts)
  {
    if ps == [] then [] else Row(p1, ps[0], accts) + PairsWith(p1, ps[1..], accts)
  }

  /** The join of the outer rows ps1 with the inner rows ps. */
  function JoinRows(ps1: seq<Models.Payment>, ps: seq<Models.Payment>, accts: seq<Models.Account>): (r: seq<Models.Ledger>)
    ensures forall k :: 0 <= k < |r| ==> r[k].pays.0 in ps1 && r[k].pays.1 in ps && Sound(r[k], accts)
  {
    if ps1 == [] then [] else PairsWith(ps1[0], ps, accts) + JoinRows(ps1[1..], ps, accts)
  }

  /** Every inner payment that joins p1, with both names found, gives a row. */
  lemma {:induction false} PairsWithComplete(p1: Models.Payment, ps: seq<Models.Payment>, accts: seq<Models.Account>, b: nat)
    requires b < |ps| && Joins(p1, ps[b])
    requires NameById(accts, p1.accountId).Some? && NameById(accts, ps[b].accountId).Some?
    ensures Models.Ledger((p1, ps[b]), NameById(accts, p1.accountId).value, NameById(accts, ps[b].accountId).value)
              in PairsWith(p1, ps, accts)
  {
    if b > 0 {
      assert ps[1..][b - 1] == ps[b];
      PairsWithComplete(p1, ps[1..], accts, b - 1);
    }
  }

  /** Completeness of the join: every ordered pair of an outer and an inner
      payment that joins, with both account names found, is a result row. */
  lemma {:induction false} JoinRowsComplete(ps1: seq<Models.Payment>, ps: seq<Models.Payment>, accts: seq<Models.Account>,
                                            a: nat, b: nat)
    requires a < |ps1| && b < |ps| && Joins(ps1[a], ps[b])
    requires NameById(accts, ps1[a].accountId).Some? && NameById(accts, ps[b].accountId).Some?
    ensures Models.Ledger((ps1[a], ps[b]), NameById(accts, ps1[a].accountId).value,
                          NameById(accts, ps[b].accountId).value) in JoinRows(ps1, ps, accts)
  {
    if a == 0 {
      PairsWithComplete(ps1[0], ps, accts, b);
    } else {
      assert ps1[1..][a - 1] == ps1[a];
      JoinRowsComplete(ps1[1..], ps, accts, a - 1, b);
    }
  }

  /** The listing holds exactly the sound rows over pairs of payments of the
      table: every joining pair with both names found, and nothing else. */
  lemma ListRowsExactly(payments: seq<Models.Payment>, accts: seq<Models.Account>, l: Models.Ledger)
    ensures l in ListRows(payments, accts) <==>
              l.pays.0 in payments && l.pays.1 in payments && Sound(l, accts)
  {
    var r := ListRows(payments, accts);
    if l in r {
      var k :| 0 <= k < |r| && r[k] == l;
    }
    if l.pays.0 in payments && l.pays.1 in payments && Sound(l, accts) {
      var a :| 0 <= a < |payments| && payments[a] == l.pays.0;
      var b :| 0 <= b < |payments| && payments[b] == l.pays.1;
      JoinRowsComplete(payments, payments, accts, a, b);
    }
  }

  /** The result set of the list query. */
  function ListRows(payments: seq<Models.Payment>, accts: seq<Models.Account>): seq<Models.Ledger>
  {
    JoinRows(payments, payments, accts)
  }

  /** The result rows whose first payment carries guid g. */
  function WithGuid(rows: seq<Models.Ledger>, g: Models.Guid): seq<Models.Ledger>
  {
    if rows == [] then []
    else (if rows[0].pays.0.guid == g then [rows[0]] else []) + WithGuid(rows[1..], g)
  }

  lemma {:induction false} WithGuidAppend(a: seq<Models.Ledger>, b: seq<Models.Ledger>, g: Models.Guid)
    ensures WithGuid(a + b, g) == WithGuid(a, g) + WithGuid(b, g)
  {
    if a == [] {
      assert a + b == b;
    } else {
      assert (a + b)[0] == a[0];
      assert (a + b)[1..] == a[1..] + b;
      WithGuidAppend(a[1..], b, g);
    }
  }

  /** Rows that all carry another guid are filtered out completely. */
  lemma {:induction false} WithGuidNone(rows: seq<Models.Ledger>, g: Models.Guid)
    requires forall k :: 0 <= k < |rows| ==> rows[k].pays.0.guid != g
    ensures WithGuid(rows, g) == []
  {
    if rows != [] {
      WithGuidNone(rows[1..], g);
    }
  }

  lemma {:induction false} PairsWithAppend(p1: Models.Payment, xs: seq<Models.Payment>, ys: seq<Models.Payment>, accts: seq<Models.Account>)
    ensures PairsWith(p1, xs + ys, accts) == PairsWith(p1, xs, accts) + PairsWith(p1, ys, accts)
  {
    if xs == [] {
      assert xs + ys == ys;
    } else {
      assert (xs + ys)[0] == xs[0];
      assert (xs + ys)[1..] == xs[1..] + ys;
      PairsWithAppend(p1, xs[1..], ys, accts);
    }
  }

  lemma {:induction false} JoinRowsAppend(xs: seq<Models.Payment>, ys: seq<Models.Payment>, ps: seq<Models.Payment>, accts: seq<Models.Account>)
    ensures JoinRows(xs + ys, ps, accts) == JoinRows(xs, ps, accts) + JoinRows(ys, ps, accts)
  {
    if xs == [] {
      assert xs + ys == ys;
    } else {
      assert (xs + ys)[0] == xs[0];
      assert (xs + ys)[1..] == xs[1..] + ys;
      JoinRowsAppend(xs[1..], ys, ps, accts);
    }
  }

  /** Two inner rows appended at the end add their two candidate rows at the end. */
  lemma PairsWithTwoMore(p1: Models.Payment, xs: seq<Models.Payment>, c: Models.Payment, d: Models.Payment, accts: seq<Models.Account>)
    ensures PairsWith(p1, xs + [c, d], accts) == PairsWith(p1, xs, accts) + Row(p1, c, accts) + Row(p1, d, accts)
  {
    assert xs + [c, d] == xs + [c] + [d];
    PairsWithAppend(p1, xs + [c], [d], accts);
    PairsWithAppend(p1, xs, [c], accts);
    assert PairsWith(p1, [c], accts) == Row(p1, c, accts) + PairsWith(p1, [], accts);
    assert PairsWith(p1, [d], accts) == Row(p1, d, accts) + PairsWith(p1, [], accts);
  }

  /** Two outer rows appended at the end add what each of them contributes. */
  lemma JoinRowsTwoMore(xs: seq<Models.Payment>, c: Models.Payment, d: Models.Payment, ps: seq<Models.Payment>, accts: seq<Models.Account>)
    ensures JoinRows(xs + [c, d], ps, accts) == JoinRows(xs, ps, accts) + PairsWith(c, ps, accts) + PairsWith(d, ps, accts)
  {
    assert xs + [c, d] == xs + [c] + [d];
    JoinRowsAppend(xs + [c], [d], ps, accts);
    JoinRowsAppend(xs, [c], ps, accts);
    assert JoinRows([c], ps, accts) == PairsWith(c, ps, accts) + JoinRows([], ps, accts);
    assert JoinRows([d], ps, accts) == PairsWith(d, ps, accts) + JoinRows([], ps, accts);
  }

  /** No inner payment shares p1's guid: p1 contributes nothing. */
  lemma {:induction false} PairsWithNoPartner(p1: Models.Payment, ps: seq<Models.Payment>, accts: seq<Models.Account>)
    requires forall p :: p in ps ==> p.guid != p1.guid
    ensures PairsWith(p1, ps, accts) == []
  {
    if ps != [] {
      PairsWithNoPartner(p1, ps[1..], accts);
    }
  }

  /** An outer payment whose amount is not positive contributes nothing. */
  lemma {:induction false} PairsWithNotPositive(p1: Models.Payment, ps: seq<Models.Payment>, accts: seq<Models.Account>)
    requires p1.amount <= 0.0
    ensures PairsWith(p1, ps, accts) == []
  {
    if ps != [] {
      PairsWithNotPositive(p1, ps[1..], accts);
    }
  }

  /** Outer payments that do not carry g contribute no row with guid g. */
  lemma OtherGuidsOnly(ps1: seq<Models.Payment>, ps: seq<Models.Payment>, accts: seq<Models.Account>, g: Models.Guid)
    requires forall p :: p in ps1 ==> p.guid != g
    ensures WithGuid(JoinRows(ps1, ps, accts), g) == []
  {
    var r := JoinRows(ps1, ps, accts);
    forall k | 0 <= k < |r| ensures r[k].pays.0.guid != g {
      assert r[k].pays.0 in ps1;
    }
    WithGuidNone(r, g);
  }

  /** The two rows AddTx writes for a positive amount between two different
      existing accounts, under a guid no other payment carries, show up in
      the listing exactly once: as the pair (receiving row, paying row), with
      NameA the receiver's and NameB the payer's user name. */
  lemma AddedPairListedOnce(payments: seq<Models.Payment>, accts: seq<Models.Account>, credit: Models.Payment, debit: Models.Payment)
    requires credit.guid == debit.guid && credit.amount == -debit.amount && debit.amount > 0.0
    requires credit.accountId != debit.accountId
    requires forall p :: p in payments ==> p.guid != debit.guid
    requires NameById(accts, credit.accountId).Some? && NameById(accts, debit.accountId).Some?
    ensures WithGuid(ListRows(payments + [credit, debit], accts), debit.guid) ==
              [Models.Ledger((debit, credit), NameById(accts, debit.accountId).value, NameById(accts, credit.accountId).value)]
  {
    var g := debit.guid;
    var all := payments + [credit, debit];
    var only := Models.Ledger((debit, credit), NameById(accts, debit.accountId).value, NameById(accts, credit.accountId).value);
    var outer := JoinRows(payments, all, accts);
    AddedPairRows(payments, accts, credit, debit);
    WithGuidAppend(outer, [only], g);
    OtherGuidsOnly(payments, all, accts, g);
    assert WithGuid([only], g) == [only] + WithGuid([], g);
  }

  /** The two new rows contribute one result row, after those of the earlier payments. */
  lemma AddedPairRows(payments: seq<Models.Payment>, accts: seq<Models.Account>, credit: Models.Payment, debit: Models.Payment)
    requires credit.guid == debit.guid && credit.amount == -debit.amount && debit.amount > 0.0
    requires credit.accountId != debit.accountId
    requires forall p :: p in payments ==> p.guid != debit.guid
    requires NameById(accts, credit.accountId).Some? && NameById(accts, debit.accountId).Some?
    ensures ListRows(payments + [credit, debit], accts) ==
              JoinRows(payments, payments + [credit, debit], accts) +
              [Models.Ledger((debit, credit), NameById(accts, debit.accountId).value, NameById(accts, credit.accountId).value)]
  {
    var all := payments + [credit, debit];
    JoinRowsTwoMore(payments, credit, debit, all, accts);
    PairsWithNotPositive(credit, all, accts);
    ReceivingRowPairs(payments, accts, credit, debit);
  }

  /** As the outer row, the receiving payment pairs with the paying one only. */
  lemma ReceivingRowPairs(payments: seq<Models.Payment>, accts: seq<Models.Account>, credit: Models.Payment, debit: Models.Payment)
    requires credit.guid == debit.guid && debit.amount > 0.0
    requires credit.accountId != debit.accountId
    requires forall p :: p in payments ==> p.guid != debit.guid
    requires NameById(accts, credit.accountId).Some? && NameById(accts, debit.accountId).Some?
    ensures PairsWith(debit, payments + [credit, debit], accts) ==
              [Models.Ledger((debit, credit), NameById(accts, debit.accountId).value, NameById(accts, credit.accountId).value)]
  {
    PairsWithTwoMore(debit, payments, credit, debit, accts);
    PairsWithNoPartner(debit, payments, accts);
  }

  /** A transfer whose two rows carry the same account id is never listed. */
  lemma SelfPairNeverListed(payments: seq<Models.Payment>, accts: seq<Models.Account>, credit: Models.Payment, debit: Models.Payment)
    requires credit.guid == debit.guid
    requires credit.accountId == debit.accountId
    requires forall p :: p in payments ==> p.guid != debit.guid
    ensures WithGuid(ListRows(payments + [credit, debit], accts), debit.guid) == []
  {
    var g := debit.guid;
    var all := payments + [credit, debit];
    var r := ListRows(all, accts);
    forall k | 0 <= k < |r| ensures r[k].pays.0.guid != g {
      SelfPairRow(payments, accts, credit, debit, r[k]);
    }
    WithGuidNone(r, g);
  }

  /** A joined pair of rows of such a table never carries the self-transfer's guid. */
  lemma SelfPairRow(payments: seq<Models.Payment>, accts: seq<Models.Account>, credit: Models.Payment,
                    debit: Models.Payment, l: Models.Ledger)
    requires credit.guid == debit.guid
    requires credit.accountId == debit.accountId
    requires forall p :: p in payments ==> p.guid != debit.guid
    requires Sound(l, accts) && l.pays.0 in payments + [credit, debit] && l.pays.1 in payments + [credit, debit]
    ensures l.pays.0.guid != debit.guid
  {
    var p1 := l.pays.0;
    var p2 := l.pays.1;
    assert p1 in payments || p1 == credit || p1 == debit;
    assert p2 in payments || p2 == credit || p2 == debit;
  }

  class Ledgers {
    const db: Store.Database

    constructor (db: Store.Database)
      ensures this.db == db
    {
      this.db := db;
    }

    /** AddTx: inserts the two rows of NewLedgerFromAccount in one statement
        and returns the ledger's ToDomain; a failed insert writes nothing and
        returns no ledger and a DBErrorWrapper. */
    method AddTx(tx: Store.Tx, credit: Entities.Account, debit: Entities.Account, amount: real, guid: Models.Guid, fault: Option<Error>)
      returns (l: Option<Entities.Ledger>, err: Option<Error>)
      requires tx.db == db && !tx.finished
      modifies tx`payments, db`log
      ensures db.log == old(db.log) + [Store.AddTx(credit, debit, amount)]
      ensures var pt := Models.NewLedgerFromAccount(credit, debit, amount, guid);
        fault.None? ==> tx.payments == old(tx.payments) + [pt.pays.0, pt.pays.1] &&
                        l == Some(Models.LedgerToDomain(pt)) && err.None?
      ensures fault.Some? ==> tx.payments == old(tx.payments) && l.None? && err == Some(DBErrorWrapper(fault.value))
    {
      db.log := db.log + [Store.AddTx(credit, debit, amount)];
      var pt := Models.NewLedgerFromAccount(credit, debit, amount, guid);
      if fault.Some? {
        return None, Some(DBErrorWrapper(fault.value));
      }
      tx.payments := tx.payments + [pt.pays.0, pt.pays.1];
      l, err := Some(Models.LedgerToDomain(pt)), None;
    }

    /** List: the result rows of the join, converted by ToDomain. A query
        failure gives an empty list; a scan failure gives the ledgers read so
        far; both with a DBErrorWrapper. A failing rows.Next ends the loop
        early and, since rows.Err is not read, the ledgers read so far come
        back with no error. */
    method List(faults: Store.QueryFaults) returns (ls: seq<Entities.Ledger>, err: Option<Error>)
      ensures faults.query.Some? ==> ls == [] && err == Some(DBErrorWrapper(faults.query.value))
      ensures var rows := ListRows(db.payments, db.accounts);
        faults.query.None? && Store.ScanFailsWithin(faults, Store.RowsReached(faults, |rows|)) ==>
          err == Some(DBErrorWrapper(faults.scan.value.err)) && |ls| == faults.scan.value.row &&
          forall i :: 0 <= i < |ls| ==> ls[i] == Models.LedgerToDomain(rows[i])
      ensures var rows := ListRows(db.payments, db.accounts);
        faults.query.None? && !Store.ScanFailsWithin(faults, Store.RowsReached(faults, |rows|)) ==>
          err.None? && |ls| == Store.RowsReached(faults, |rows|) && forall i :: 0 <= i < |ls| ==> ls[i] == Models.LedgerToDomain(rows[i])
    {
      if faults.query.Some? {
        ls := Models.LedgerListToDomain([]);
        return ls, Some(DBErrorWrapper(faults.query.value));
      }
      ls, err := ScanLedgers(ListRows(db.payments, db.accounts), faults);
    }
  }

  /** The `for rows.Next()` loop of List over the result rows: a scan failure
      stops it with the ledgers read so far and a DBErrorWrapper; a failing
      rows.Next stops it with no error. */
  method ScanLedgers(rows: seq<Models.Ledger>, faults: Store.QueryFaults) returns (ls: seq<Entities.Ledger>, err: Option<Error>)
    ensures Store.ScanFailsWithin(faults, Store.RowsReached(faults, |rows|)) ==>
              err == Some(DBErrorWrapper(faults.scan.value.err)) && |ls| == faults.scan.value.row &&
              forall i :: 0 <= i < |ls| ==> ls[i] == Models.LedgerToDomain(rows[i])
    ensures !Store.ScanFailsWithin(faults, Store.RowsReached(faults, |rows|)) ==>
              err.None? && |ls| == Store.RowsReached(faults, |rows|) &&
              forall i :: 0 <= i < |ls| ==> ls[i] == Models.LedgerToDomain(rows[i])
  {
    var acList: seq<Models.Ledger> := [];
    var i := 0;
    while i < |rows| && faults.next != Some(i)
      invariant 0 <= i <= Store.RowsReached(faults, |rows|)
      invariant acList == rows[..i]
      invariant !Store.ScanFailsWithin(faults, i)
    {
      if faults.scan.Some? && faults.scan.value.row == i {
        ls := Models.LedgerListToDomain(acList);
        return ls, Some(DBErrorWrapper(faults.scan.value.err));
      }
      acList := Models.LedgerListAdd(acList, rows[i]);
      i := i + 1;
    }
    ls := Models.LedgerListToDomain(acList);
    err := None;
  }

  /** NewLedgers: prepares the list statement, then the create statement, and
      stops at the first that fails, wrapping its error. */
  method NewLedgers(d: Store.Database, prepare: map<Store.Statement, Error>) returns (table: Ledgers?, err: Option<Error>)
    ensures err.None? <==> Store.ListLedgersQuery !in prepare && Store.CreateLedgerQuery !in prepare
    ensures Store.ListLedgersQuery in prepare ==>
              err == Some(Errorf("Error preparation listLedgersQuery", prepare[Store.ListLedgersQuery]))
    ensures Store.ListLedgersQuery !in prepare && Store.CreateLedgerQuery in prepare ==>
              err == Some(Errorf("Error preparation createPaymentQuery", prepare[Store.CreateLedgerQuery]))
    ensures err.Some? ==> table == null
    ensures err.None? ==> table != null && fresh(table) && table.db == d
  {
    if Store.ListLedgersQuery in prepare {
      return null, Some(Errorf("Error preparation listLedgersQuery", prepare[Store.ListLedgersQuery]));
    }
    if Store.CreateLedgerQuery in prepare {
      return null, Some(Errorf("Error preparation createPaymentQuery", prepare[Store.CreateLedgerQuery]));
    }
    table := new Ledgers(d);
    err := None;
  }
}
