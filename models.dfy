/** The storage-side records of db/models: a row of the accounts table, a row
    of the payments table, and a ledger as the pair of payment rows that one
    transfer writes, with the user names of the two accounts. Each converts to
    its domain entity with ToDomain. Timestamps and the payments table's own
    serial id are left out. */
module Models {
  import Entities

  /** Stands for the uuid that correlates the two payment rows of one transfer. */
  type Guid = nat

  /** models.Account: one row of the accounts table. */
  datatype Account = Account(id: int, userName: string, balance: real, currency: string)

  /** models.Payment: one row of the payments table. */
  datatype Payment = Payment(guid: Guid, accountId: int, amount: real)

  /** models.Ledger: two payment rows and the user names NameA, NameB. */
  datatype Ledger = Ledger(pays: (Payment, Payment), nameA: string, nameB: string)

  /** Account.ToDomain: the name becomes the AccountId, balance and currency are
      copied, and the row id becomes the surrogate id. */
  function AccountToDomain(a: Account): (r: Entities.Account)
    ensures r.accountId == a.userName && r.balance == a.balance && r.currency == a.currency
    ensures Entities.GetId(r) == a.id
  {
    Entities.SetId(Entities.Account(0, a.userName, a.balance, a.currency), a.id)
  }

  /** AccountList.Add: one more element, at the end; the others are kept. */
  function AccountListAdd(al: seq<Account>, a: Account): (r: seq<Account>)
    ensures |r| == |al| + 1 && r[|al|] == a && r[..|al|] == al
  {
    al + [a]
  }

  /** AccountList.ToDomain: the rows converted one by one, in order. */
  method AccountListToDomain(al: seq<Account>) returns (accs: seq<Entities.Account>)
    ensures |accs| == |al|
    ensures forall i :: 0 <= i < |al| ==> accs[i] == AccountToDomain(al[i])
  {
    accs := [];
    for i := 0 to |al|
      invariant |accs| == i
      invariant forall j :: 0 <= j < i ==> accs[j] == AccountToDomain(al[j])
    {
      accs := Entities.AccountsAdd(accs, AccountToDomain(al[i]));
    }
  }

  /** NewLedgerFromAccount: the credit (paying) account's row first with the
      negated amount, the debit (receiving) account's row second with the
      amount, both under one guid; NameA is the credit account's name and
      NameB the debit account's. The guid is a parameter: uuid.NewV4 is not
      modelled. */
  function NewLedgerFromAccount(credit: Entities.Account, debit: Entities.Account, amount: real, guid: Guid): (l: Ledger)
    ensures l.pays.0.guid == guid && l.pays.1.guid == guid
    ensures l.pays.0.accountId == Entities.GetId(credit) && l.pays.0.amount == -amount
    ensures l.pays.1.accountId == Entities.GetId(debit) && l.pays.1.amount == amount
    ensures l.pays.0.amount + l.pays.1.amount == 0.0
    ensures l.nameA == credit.accountId && l.nameB == debit.accountId
  {
    Ledger((Payment(guid, Entities.GetId(credit), -amount), Payment(guid, Entities.GetId(debit), amount)),
           credit.accountId, debit.accountId)
  }

  /** Ledger.ToDomain: the first leg is Outgoing for NameB towards NameA with
      the amount of the second row; the second leg is Incoming for NameA from
      NameB with the amount of the first row. */
  function LedgerToDomain(l: Ledger): (r: Entities.Ledger)
    ensures r.0.direction == Entities.Outgoing && r.1.direction == Entities.Incoming
    ensures r.0.account == l.nameB && r.0.toAccount == l.nameA && r.0.fromAccount == ""
    ensures r.1.account == l.nameA && r.1.fromAccount == l.nameB && r.1.toAccount == ""
    ensures r.0.amount == l.pays.1.amount && r.1.amount == l.pays.0.amount
  {
    (Entities.Payment(l.nameB, l.pays.1.amount, l.nameA, "", Entities.Outgoing),
     Entities.Payment(l.nameA, l.pays.0.amount, "", l.nameB, Entities.Incoming))
  }

  /** The ledger a transfer records, seen through ToDomain: the Outgoing leg
      names the receiving (debit) account with +amount and the Incoming leg
      names the paying (credit) account with -amount. */
  lemma NewLedgerToDomain(credit: Entities.Account, debit: Entities.Account, amount: real, guid: Guid)
    ensures LedgerToDomain(NewLedgerFromAccount(credit, debit, amount, guid)) ==
              (Entities.Payment(debit.accountId, amount, credit.accountId, "", Entities.Outgoing),
               Entities.Payment(credit.accountId, -amount, "", debit.accountId, Entities.Incoming))
  {
  }

  /** LedgerList.Add: one more element, at the end; the others are kept. */
  function LedgerListAdd(ls: seq<Ledger>, l: Ledger): (r: seq<Ledger>)
    ensures |r| == |ls| + 1 && r[|ls|] == l && r[..|ls|] == ls
  {
    ls + [l]
  }

  /** LedgerList.ToDomain: the ledgers converted one by one, in order. */
  method LedgerListToDomain(ls: seq<Ledger>) returns (v: seq<Entities.Ledger>)
    ensures |v| == |ls|
    ensures forall i :: 0 <= i < |ls| ==> v[i] == LedgerToDomain(ls[i])
  {
    v := [];
    for i := 0 to |ls|
      invariant |v| == i
      invariant forall j :: 0 <= j < i ==> v[j] == LedgerToDomain(ls[j])
    {
      v := Entities.LedgersAdd(v, LedgerToDomain(ls[i]));
    }
  }
}
