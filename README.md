# Wallet transfer core

A model of the money-transfer core of a small wallet service written in Go. The service keeps
accounts (a user name, a balance and a currency) and an append-only table of payment rows.
One transfer moves an amount from a source ("credit") account to a destination ("debit") account.
It runs as one unit of work:

1. fetch the source account;
2. check its balance;
3. fetch the destination account;
4. check that the currencies agree;
5. lock the accounts table;
6. debit the source;
7. credit the destination;
8. insert the two payment rows that make up the ledger;
9. commit, or roll back after any error.

`Send` repeats that attempt while it fails with a PostgreSQL serialization failure (SQLSTATE 40001).

The model is split into modules:

- `Errors`: the Go errors the core builds and inspects, with `xerrors.Is`/`As` as a walk along the `Unwrap` chain.
- `Entities` and `DirectionJson`: the domain entities and the JSON codec of the transfer direction.
- `Models`: the storage records and their conversion to entities.
- `Store`: the two tables and the unit of work (`sql.Tx`). The unit of work is a working copy of the tables; commit installs it and rollback drops it.
- `AccountsGateway` and `LedgersGateway`: the two gateways, each over the in-memory tables.
- `Wallet`: the service (`trySend` and `Send`) as imperative methods. Each method is proved equal to a specification function (`Moves`, `Steps`, `AttemptSpec`, `SendSpec`).
- `WalletProperties`: what those functions guarantee.
- `Endpoints`: the HTTP status and the response envelope for an error.

Faults are parameters of the model. Every store call of an attempt may fail with an error chosen by the environment (`Wallet.Attempt`). That includes a serialization failure, which stands for a concurrent transfer winning the race. The uuid of the new ledger is part of the attempt too. The store keeps a ghost log of its calls, so the order of the calls can be stated.

Behaviour of the code that a reader might not expect, modelled as written:

- The amount is not checked for sign inside the service, and the two account names are not required to differ (wallet.go:64-133).
- The ledger that `AddTx` returns names the receiving account as the Outgoing leg with `+amount`, and the paying account as the Incoming leg with `-amount` (db/models/ledger.go:16-68).
- The error of a failed increase of the destination balance carries the source account's name (wallet.go:123-126).
- A failed commit still returns the ledger built in the unit of work (wallet.go:77-79).
- Both listings loop on `rows.Next()` and never read `rows.Err()`. A failure of the iteration itself ends the loop, and the rows read so far come back with a nil error (accounts.go:56-64, ledgers.go:55-63). The fault `next` of `Store.QueryFaults` models it.
- A `*pq.Error` that sits two levels down the chain does not propagate unchanged; the service panics on it. This happens on the ledger insert, where the driver error is wrapped in `DBErrorWrapper` and then by `Errorf` (wallet.go:50-53, ledgers.go:41, wallet.go:130).

## Model

| member | source | states |
|---|---|---|
| Errors.ChainFollowsUnwrap | db/models/errors.go:7-49 | The chain starts at the error, each link is the `Unwrap` of the one before, and the last link wraps nothing |
| Errors.ChainHasIsSomeLink | infrastructure/services/wallet.go:84 | `xerrors.Is`/`As` holds exactly when some link of the `Unwrap` chain has the kind looked for |
| Errors.CauseOnChain | infrastructure/services/wallet.go:51-52 | A directly wrapped error of a kind means `As` finds that kind, so a direct `*pq.Error` is always found by the `As` check |
| Errors.WrappersDelegate | db/models/errors.go:7-49 | Each of the four wrappers reports the wrapped error's text and unwraps to it |
| Entities.GetIdAfterSetId | domain/entities/account.go:30-36 | After `SetId(x)`, `GetId` returns x; name, balance and currency are unchanged |
| Entities.AccountEqualIgnoresData | domain/entities/account.go:38-40 | `Account.Equal` holds exactly when the surrogate ids agree; name, balance and currency play no part |
| Entities.AccountsAdd | domain/entities/account.go:44-46 | One element more, the new one last, the earlier ones unchanged |
| Entities.AccountsEqual | domain/entities/account.go:48-60 | True exactly when the lengths agree and every position is `Equal` |
| Entities.PaymentEqualIgnoresData | domain/entities/payment.go:13-15 | `Payment.Equal` holds exactly when the `Account` fields agree; the other fields play no part |
| Entities.PaymentsAdd | domain/entities/payment.go:19-21 | One element more, the new one last, the earlier ones unchanged |
| Entities.PaymentsAppend | domain/entities/payment.go:23-25 | The old list followed by the argument, in order |
| Entities.PaymentsEqual | domain/entities/payment.go:27-39 | True exactly when the lengths agree and every position is `Equal` |
| Entities.LedgersAdd | domain/entities/ledger.go:7-9 | One ledger more, the new one last, the earlier ones unchanged |
| Entities.LedgersAppend | domain/entities/ledger.go:11-13 | The old list followed by the argument, in order |
| Entities.LedgersAppendEmpty | domain/entities/ledger.go:11-13 | Appending an empty list leaves the list unchanged |
| DirectionJson.MarshalJSON | domain/entities/direction.go:17-26 | Outgoing gives `"outgoing"`, Incoming gives `"incoming"`, any other value gives `null` |
| DirectionJson.UnmarshalJSON | domain/entities/direction.go:28-44 | A nil input is the "direction can't be nil" error; a non-nil input shorter than two bytes panics on the slice; an interior equal to one of the two names sets the receiver to that direction without error, and any other interior is the "wrong type" error; on an error the receiver is unchanged |
| DirectionJson.RoundTrip | domain/entities/direction.go:17-44 | Decoding the encoding of Outgoing or Incoming gives it back without error, whatever the receiver held |
| DirectionJson.NullDoesNotDecode | domain/entities/direction.go:24-43 | The `null` written for an unnamed value decodes to the "wrong type" error and leaves the receiver unchanged |
| DirectionJson.DelimitersIgnored | domain/entities/direction.go:33-41 | The first and last byte are never examined: any two delimiters decode like quotes |
| Models.AccountToDomain | db/models/account.go:33-41 | The user name becomes the AccountId, balance and currency are copied, and `GetId` of the result is the row id |
| Models.AccountListAdd | db/models/account.go:45-47 | One element more, the new one last, the earlier ones unchanged |
| Models.AccountListToDomain | db/models/account.go:50-55 | Same length and order, each element mapped by `ToDomain` |
| Models.NewLedgerFromAccount | db/models/ledger.go:16-35 | Both rows share the guid; the first is (credit id, -amount), the second (debit id, +amount), so they sum to zero; NameA is the credit name and NameB the debit name |
| Models.LedgerToDomain | db/models/ledger.go:53-68 | The first leg is Outgoing for NameB towards NameA with the second row's amount; the second leg is Incoming for NameA from NameB with the first row's amount |
| Models.NewLedgerToDomain | db/models/ledger.go:16-68 | A ledger built for a transfer reads, through `ToDomain`, as Outgoing on the receiving account with +amount and Incoming on the paying account with -amount |
| Models.LedgerListAdd | db/models/ledger.go:72-74 | One element more, the new one last, the earlier ones unchanged |
| Models.LedgerListToDomain | db/models/ledger.go:76-82 | Same length and order, each element mapped by `ToDomain` |
| Store.Database.BeginTx | infrastructure/services/wallet.go:67-70 | A fresh unit of work over a copy of the committed tables, or the driver's error and none |
| Store.Tx.Commit | infrastructure/services/wallet.go:77-79 | Without a fault the working copy becomes the committed state; with one the committed state is as before |
| Store.Tx.Rollback | infrastructure/services/wallet.go:72-76 | The working copy is dropped and the committed tables are untouched |
| Store.RowsReached | infrastructure/gateways/accounts.go:56 | `rows.Next` hands the loop every row, or stops at the failing index and no later |
| AccountsGateway.FindByName | infrastructure/gateways/accounts.go:119 | The index of the first row whose `user_name` is the name, or none exactly when no row has it |
| AccountsGateway.GetByNameMeaning | infrastructure/gateways/accounts.go:67-76 | A fetch fails with the driver's error, or with `sql.ErrNoRows` exactly when no row has the name; a found account carries the name and is the `ToDomain` of a row |
| AccountsGateway.AddToBalanceRows | infrastructure/gateways/accounts.go:93 | The update keeps the rows in place: each row whose id matches gains the delta and every other row is unchanged |
| AccountsGateway.SumAddToBalance | infrastructure/gateways/accounts.go:93 | With unique ids the table total moves by the delta when the id is present, and not at all otherwise |
| AccountsGateway.AddToBalanceKeepsKeys | infrastructure/gateways/accounts.go:93 | Ids, user names and currencies of all rows are unchanged |
| AccountsGateway.AddToBalanceKeepsIds | infrastructure/gateways/accounts.go:93 | Ids stay unique and the set of present ids is unchanged |
| AccountsGateway.Accounts.List | infrastructure/gateways/accounts.go:48-65 | The rows `rows.Next` reaches, in storage order through `ToDomain`; a query or scan failure gives an empty list and a `DBErrorWrapper`; a failing `rows.Next` silently truncates the list with no error, because `rows.Err` is never read |
| AccountsGateway.Accounts.GetByNameTx | infrastructure/gateways/accounts.go:67-76 | Reads the working copy as `GetByName` describes and records the call |
| AccountsGateway.Accounts.UpdateBalanceTx | infrastructure/gateways/accounts.go:78-81 | Adds the signed amount to the row with the account's surrogate id in the working copy; a fault changes nothing |
| AccountsGateway.Accounts.LockTx | infrastructure/gateways/accounts.go:83-86 | Records the lock and changes no data |
| AccountsGateway.NewAccounts | infrastructure/gateways/accounts.go:21-46 | Prepares list, balance, fetch and lock in that order; fails with the wrapped error of the first that fails, and succeeds exactly when none does |
| LedgersGateway.NameByIdMeaning | infrastructure/gateways/ledgers.go:74-75 | A name is found for an id exactly when some account row has that id, and it is that row's name |
| LedgersGateway.PairsWith | infrastructure/gateways/ledgers.go:71-76 | Every row that one outer payment contributes pairs it with a payment of the table, and both join on guid, different account and positive first amount, with both names found; the converse, that no joining pair is missing, is `PairsWithComplete` |
| LedgersGateway.JoinRows | infrastructure/gateways/ledgers.go:71-76 | Every result row pairs two payments of the table that satisfy the join and carries the two accounts' names; the converse, that no joining pair is missing, is `JoinRowsComplete` |
| LedgersGateway.PairsWithComplete | infrastructure/gateways/ledgers.go:71-76 | Every inner payment that joins the outer one, with both account names found, gives a row of that outer payment |
| LedgersGateway.JoinRowsComplete | infrastructure/gateways/ledgers.go:71-76 | Every ordered pair of payments that joins, with both account names found, is a result row carrying the two names |
| LedgersGateway.ListRowsExactly | infrastructure/gateways/ledgers.go:71-76 | A ledger is in the listing exactly when both its rows are payments of the table, they join, and its names are those of their accounts |
| LedgersGateway.PairsWithNoPartner | infrastructure/gateways/ledgers.go:73 | A payment that shares its guid with no other contributes no row |
| LedgersGateway.PairsWithNotPositive | infrastructure/gateways/ledgers.go:76 | A payment whose amount is not positive is never the first of a row |
| LedgersGateway.AddedPairListedOnce | infrastructure/gateways/ledgers.go:71-76 | The two rows of one positive transfer between different accounts, under a fresh guid, are listed exactly once, as (receiving row, paying row) with the receiver's name first |
| LedgersGateway.SelfPairNeverListed | infrastructure/gateways/ledgers.go:73 | Two rows on the same account id are never listed |
| LedgersGateway.Ledgers.AddTx | infrastructure/gateways/ledgers.go:36-45 | Appends exactly the two rows of `NewLedgerFromAccount` under the guid and returns its `ToDomain`; a failed insert writes nothing and returns no ledger and a `DBErrorWrapper` |
| LedgersGateway.Ledgers.List | infrastructure/gateways/ledgers.go:47-64 | The join's rows that `rows.Next` reaches, through `ToDomain`; a query failure gives an empty list, a scan failure the ledgers read before it, both with a `DBErrorWrapper`; a failing `rows.Next` silently truncates the list with no error, because `rows.Err` is never read |
| LedgersGateway.ScanLedgers | infrastructure/gateways/ledgers.go:55-63 | The loop over the result rows: the rows `rows.Next` reaches through `ToDomain`, cut at a failing scan with a `DBErrorWrapper`, or cut at a failing `rows.Next` with no error |
| LedgersGateway.NewLedgers | infrastructure/gateways/ledgers.go:19-34 | Prepares list, then create; fails with the wrapped error of the first that fails, and succeeds exactly when neither does |
| Wallet.MovesShape | infrastructure/services/wallet.go:113-132 | From the lock on, calls stay inside the unit of work, the lock comes first, and an error comes without a ledger and before any payment row is written |
| Wallet.StepsShape | infrastructure/services/wallet.go:82-132 | The same from the source fetch on, which is the first call |
| Wallet.AttemptShape | infrastructure/services/wallet.go:64-133 | An attempt begins a unit of work; an error leaves the committed tables as they were; success returns a ledger and ends with commit; a rollback means an error and no commit |
| Wallet.Classify | infrastructure/services/wallet.go:49-58 | Retry exactly when the direct cause is a `*pq.Error` with code 40001; panic exactly when a `*pq.Error` is on the chain but the direct cause is not one |
| Wallet.WalletService.AccountsList | infrastructure/services/wallet.go:42-44 | The accounts gateway's result and error, unchanged |
| Wallet.WalletService.LedgersList | infrastructure/services/wallet.go:38-40 | The ledgers gateway's result and error, unchanged |
| Wallet.WalletService.MoveFunds | infrastructure/services/wallet.go:113-132 | The lock, the two updates and the insert, equal to `Moves` in result, working copy and calls |
| Wallet.WalletService.Transfer | infrastructure/services/wallet.go:82-132 | The fetches, the checks and the moves, equal to `Steps` in result, working copy and calls |
| Wallet.WalletService.TrySend | infrastructure/services/wallet.go:64-133 | One attempt with its deferred rollback or commit, equal to `AttemptSpec` in result, committed tables and calls |
| Wallet.WalletService.Send | infrastructure/services/wallet.go:46-62 | The retry loop, equal to `SendSpec` in outcome, tables and call log |
| Wallet.NewWalletService | infrastructure/services/wallet.go:23-36 | Builds the accounts gateway, then the ledgers gateway; succeeds exactly when no statement fails to prepare, and wraps the first failure with the table's context |
| WalletProperties.TransferRows | infrastructure/services/wallet.go:118-126 | The two updates change each row's balance by -amount if it is the source, +amount if it is the destination, and leave everything else |
| WalletProperties.TransferConserves | infrastructure/services/wallet.go:118-126 | With unique ids and both accounts present, the total of all balances is unchanged |
| WalletProperties.NameByIdAfterUpdate | infrastructure/gateways/accounts.go:93 | A balance update keeps the user name found for every id |
| WalletProperties.NameOfRow | infrastructure/gateways/ledgers.go:74-75 | With unique ids the name joined to a row's id is that row's name |
| WalletProperties.TransferKeepsNames | infrastructure/services/wallet.go:118-126 | The two updates keep the user name found for every id |
| WalletProperties.MovesReachInsert | infrastructure/services/wallet.go:113-132 | Past the lock and the two updates, the four calls in order, then the insert error wrapped in `DBErrorWrapper` and `Errorf`, or the new ledger, balances and rows |
| WalletProperties.StepsReachInsert | infrastructure/services/wallet.go:82-132 | When the checks pass and no earlier call fails, the attempt makes the eight calls of a committed transfer and ends as the insert does |
| WalletProperties.LowBalanceFailsFast | infrastructure/services/wallet.go:93-96 | A balance below the amount is a `LowBalanceWrapper` "<id>: don't have enough balance"; the destination is never fetched; rollback follows and the tables are unchanged |
| WalletProperties.EnoughBalanceFetchesDebit | infrastructure/services/wallet.go:93-98 | A balance equal to or above the amount passes, and the destination fetch is the next call |
| WalletProperties.MissingCreditAccount | infrastructure/services/wallet.go:82-91 | A missing source (no row, or `sql.ErrNoRows` on the fault's chain) is `NotFoundWrapper` "account <name> not found"; any other fetch error is wrapped; rollback follows the one fetch |
| WalletProperties.MissingDebitAccount | infrastructure/services/wallet.go:98-106 | The same for the destination, after both fetches |
| WalletProperties.CurrencyMismatch | infrastructure/services/wallet.go:108-111 | Different currencies give "currencies for accounts is not equal" after the two fetches; no lock, update or insert follows and the tables are unchanged |
| WalletProperties.SucceedsExactlyWhen | infrastructure/services/wallet.go:64-133 | An attempt succeeds exactly when no store call fails, both accounts exist, the balance suffices and the currencies agree; neither the sign of the amount nor distinct accounts are checked |
| WalletProperties.SuccessfulAttempt | infrastructure/services/wallet.go:64-133 | A successful attempt returns the ledger, leaves the balances and payment rows, and makes the calls of `Committed`: begin, both fetches, lock, -amount, +amount, insert, commit |
| WalletProperties.SuccessfulAttemptBalances | infrastructure/services/wallet.go:118-126 | After success the source row lost the amount, the destination row gained it, and no other row changed |
| WalletProperties.AttemptConservesTotal | infrastructure/services/wallet.go:64-133 | Success or failure, ids stay unique and the total of all balances is unchanged |
| WalletProperties.CommitFailureKeepsLedger | infrastructure/services/wallet.go:72-80 | A failed commit returns "error during commit" with the ledger built in the unit of work; the committed tables are unchanged |
| WalletProperties.ErrorBeforeCommitRollsBack | infrastructure/services/wallet.go:72-76 | An error before commit ends the attempt with a rollback, no commit and no ledger, returns that error, and leaves both tables as they were |
| WalletProperties.SelfTransferNetsZero | infrastructure/services/wallet.go:118-126 | A transfer from an account to itself succeeds like any other and leaves every balance as it was |
| WalletProperties.CommittedTransferListedOnce | infrastructure/gateways/ledgers.go:71-76 | After a committed transfer of a positive amount between different accounts under a fresh guid, the listing holds exactly one ledger with that guid; its Outgoing leg names the sender with -amount |
| WalletProperties.SelfTransferNotListed | infrastructure/gateways/ledgers.go:73 | The rows of a successful self-transfer never appear in the listing |
| WalletProperties.RetryKeepsTables | infrastructure/services/wallet.go:50-55 | An attempt that is retried failed, so it left the tables as they were |
| WalletProperties.InsertConflictPanics | infrastructure/services/wallet.go:50-53 | A `*pq.Error` of any code on the ledger insert, even 40001, makes `Send` panic, with the insert rolled back |
| WalletProperties.CommitConflictRetries | infrastructure/services/wallet.go:46-62 | A serialization failure on commit is retried from the same tables, after the calls of a full attempt |
| WalletProperties.CommitOtherCodeReturned | infrastructure/services/wallet.go:46-62 | Any other commit code, the empty one included, is returned with the uncommitted ledger and unchanged tables |
| WalletProperties.SendSettlesAtFirstNonRetry | infrastructure/services/wallet.go:46-62 | `Send` ends at the first attempt that is not retried, with that attempt's result and tables |
| WalletProperties.SendNeverReturnsRetryable | infrastructure/services/wallet.go:46-62 | An error that `Send` returns is never one it would retry |
| WalletProperties.UnfinishedOnlyAfterRetries | infrastructure/services/wallet.go:46-62 | Running out of attempts happens only when each attempt was retried, and the tables are as they were |
| WalletProperties.SendConservesTotal | infrastructure/services/wallet.go:46-62 | However `Send` ends, with unique ids the total of all balances is unchanged |
| Endpoints.EncodeResponse | transport/endpoints/common.go:33-36 | The envelope carries a null error and the data |
| Endpoints.ErrorEncoder | transport/endpoints/common.go:38-67 | The status is `Status` of the error, and the envelope carries the error's text and no data |
| Endpoints.StatusByChain | transport/endpoints/common.go:38-67 | 404 exactly when a `NotFoundWrapper` is on the chain; 402 exactly when a `LowBalanceWrapper` is and neither of the two before it is; 400 likewise for `ValidationError`; 500 otherwise |
| Endpoints.StatusThroughErrorf | transport/endpoints/common.go:38-67 | Wrapping with `Errorf` and `%w` does not change the status |
| Endpoints.MarshalErrorText | transport/endpoints/common.go:21-27 | The error field is `null` exactly when there is no error; the wrappers do not change its text |
| Endpoints.TransferErrorStatuses | transport/endpoints/common.go:38-67 | A missing account is 404 with "account <name> not found"; too little balance is 402 with its text; a currency mismatch is 500; a failed ledger insert is 500 unless its driver error carries a `NotFoundWrapper` |
| Endpoints.FetchErrorStatus | transport/endpoints/common.go:41-45 | A failed account fetch with `sql.ErrNoRows` on its chain is 404 with "account <name> not found"; any other fetch error keeps the status of the driver's error |
| Endpoints.LowBalanceStatus | transport/endpoints/common.go:53-57 | Too little balance is 402 with "<id>: don't have enough balance" |
| Endpoints.InsertErrorStatus | transport/endpoints/common.go:47-51 | A currency mismatch is 500, and a failed ledger insert is 500 unless its driver error carries a `NotFoundWrapper` |

## Left out

- SQL and the database driver. Prepared statements, `SERIALIZABLE` isolation, the `LOCK TABLE` statement's effect on other sessions and rows.Close are not modelled. The tables are sequences, and the lock only records its call.
- Concurrency. The outcome of a concurrent transfer enters only as an injected serialization failure on a call of the attempt.
- Timestamps and the payments table's own serial id. They are not read by the core.
- `uuid.NewV4` randomness. The guid is a parameter of each attempt, and freshness is a hypothesis of the lemmas that need it.
- The JSON and HTTP encoders, `strconv.Quote`, the ResponseWriter and the `NopDecoder`. A response is the value they would serialise.
- The `Bind`/`BindScan` column lists and the `Null*` column types. They are scanner glue. The floating-point `NullFloat64` is not modelled either.
- Transport plumbing, routing, startup, configuration and the interface-only repository and service files.
- Width of money: balances and amounts are exact `real`s, as the decimal library is exact; no overflow is modelled.
- Slice aliasing and `*T` method receivers. `Add`/`Append` and `SetId` are modelled on values that the caller assigns back.
- The order of the ledger listing. The query has no `ORDER BY`; the model takes the nested-loop order (outer payment, then inner payment, both in storage order).
- Wallet.WalletService.Send: `Send` loops without bound. The model runs it over a finite sequence of attempts and ends as `Unfinished` when they run out while it would still retry; termination is not claimed.
- Wallet.NewWalletService: states only the context string of the wrapping error ("Error in accounts table" / "Error in payments table"), not which statement's error is inside.
- WalletProperties.CommittedTransferListedOnce: stated over the specification function `Committed`. `WalletProperties.SuccessfulAttempt` shows that every successful attempt is that function's value.
- The context-cancellation signal. Contexts are not modelled.
