/** The domain entities of domain/entities: accounts addressed by name with a
    hidden surrogate id, payments seen from one side of a transfer, ledgers
    (exactly two payments) and the slices of them the service returns.
    Go's slice types are sequences; `Add`/`Append` through a `*T` receiver
    return the new slice value, which the caller assigns back. */
module Entities {

  type AccountId = string
  type Currency = string

  /** `type Direction int`: any int, of which two are named. */
  type Direction = int
  const Outgoing: Direction := 0
  const Incoming: Direction := 1

  /** entities.Account; `id` is the unexported surrogate key set by SetId. */
  datatype Account = Account(id: int, accountId: AccountId, balance: real, currency: Currency)

  function GetId(a: Account): int
  {
    a.id
  }

  function SetId(a: Account, id: int): Account
  {
    a.(id := id)
  }

  /** SetId changes the surrogate id, which GetId then returns, and nothing else. */
  lemma GetIdAfterSetId(a: Account, x: int)
    ensures GetId(SetId(a, x)) == x
    ensures SetId(a, x).accountId == a.accountId && SetId(a, x).balance == a.balance
    ensures SetId(a, x).currency == a.currency
  {
  }

  /** Account.Equal compares the surrogate ids only. */
  predicate AccountEqual(a: Account, v: Account)
  {
    a.id == v.id
  }

  /** Equality of accounts ignores name, balance and currency. */
  lemma AccountEqualIgnoresData(a: Account, v: Account, name: AccountId, balance: real, currency: Currency)
    ensures AccountEqual(a, v) <==> GetId(a) == GetId(v)
    ensures AccountEqual(a, v) <==> AccountEqual(a.(accountId := name, balance := balance, currency := currency), v)
  {
  }

  /** Accounts.Add: one more element, at the end; the others are kept. */
  function AccountsAdd(accs: seq<Account>, a: Account): (r: seq<Account>)
    ensures |r| == |accs| + 1 && r[|accs|] == a && r[..|accs|] == accs
  {
    accs + [a]
  }

  /** Accounts.Equal: false on a length mismatch, otherwise position-wise Account.Equal. */
  method AccountsEqual(accs: seq<Account>, v: seq<Account>) returns (eq: bool)
    ensures eq <==> |accs| == |v| && forall i :: 0 <= i < |accs| ==> AccountEqual(accs[i], v[i])
  {
    if |accs| != |v| {
      return false;
    }
    for i := 0 to |accs|
      invariant forall j :: 0 <= j < i ==> AccountEqual(accs[j], v[j])
    {
      if !AccountEqual(accs[i], v[i]) {
        return false;
      }
    }
    return true;
  }

  /** entities.Payment. An unset ToAccount or FromAccount is the empty name. */
  datatype Payment = Payment(account: AccountId, amount: real, toAccount: AccountId,
                             fromAccount: AccountId, direction: Direction)

  /** Payment.Equal compares the Account field only. */
  predicate PaymentEqual(p: Payment, v: Payment)
  {
    p.account == v.account
  }

  /** Equality of payments ignores amount, counterparts and direction. */
  lemma PaymentEqualIgnoresData(p: Payment, v: Payment, amount: real, to: AccountId, from: AccountId, d: Direction)
    ensures PaymentEqual(p, v) <==> p.account == v.account
    ensures PaymentEqual(p, v) <==>
              PaymentEqual(p.(amount := amount, toAccount := to, fromAccount := from, direction := d), v)
  {
  }

  /** Payments.Add: one more element, at the end; the others are kept. */
  function PaymentsAdd(ps: seq<Payment>, p: Payment): (r: seq<Payment>)
    ensures |r| == |ps| + 1 && r[|ps|] == p && r[..|ps|] == ps
  {
    ps + [p]
  }

  /** Payments.Append: the old list followed by the argument, in order. */
  function PaymentsAppend(ps: seq<Payment>, v: seq<Payment>): (r: seq<Payment>)
    ensures |r| == |ps| + |v| && r[..|ps|] == ps && r[|ps|..] == v
  {
    ps + v
  }

  /** Payments.Equal: false on a length mismatch, otherwise position-wise Payment.Equal. */
  method PaymentsEqual(ps: seq<Payment>, v: seq<Payment>) returns (eq: bool)
    ensures eq <==> |ps| == |v| && forall i :: 0 <= i < |ps| ==> PaymentEqual(ps[i], v[i])
  {
    if |ps| != |v| {
      return false;
    }
    for i := 0 to |ps|
      invariant forall j :: 0 <= j < i ==> PaymentEqual(ps[j], v[j])
    {
      if !PaymentEqual(ps[i], v[i]) {
        return false;
      }
    }
    return true;
  }

  /** `type Ledger [2]*Payment`: always exactly two payments, l.0 and l.1. */
  type Ledger = (Payment, Payment)

  /** Ledgers.Add: one more element, at the end; the others are kept. */
  function LedgersAdd(ls: seq<Ledger>, l: Ledger): (r: seq<Ledger>)
    ensures |r| == |ls| + 1 && r[|ls|] == l && r[..|ls|] == ls
  {
    ls + [l]
  }

  /** Ledgers.Append: the old list followed by the argument, in order. */
  function LedgersAppend(ls: seq<Ledger>, v: seq<Ledger>): (r: seq<Ledger>)
    ensures |r| == |ls| + |v| && r[..|ls|] == ls && r[|ls|..] == v
  {
    ls + v
  }

  /** Appending an empty list changes nothing. */
  lemma LedgersAppendEmpty(ls: seq<Ledger>)
    ensures LedgersAppend(ls, []) == ls
  {
  }
}
