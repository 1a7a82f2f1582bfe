# payment_engine in Dafny

A model of the core of `payment_engine`, a toy payment engine written in Rust.
The engine reads transaction records (deposit, withdrawal, dispute, resolve,
chargeback) one at a time and keeps one account per client. An account has
`available`, `held` and `total` funds and a `locked` flag. The model covers:

- `Account` (src/account.rs): `new`, `commit` and the five private adjustments.
  It appears as the value `Accounts.AccountState` with the function
  `Accounts.Committed`, and as the class `Accounts.Account`. The class
  mutates its fields in place and is proved to compute `Committed`.
- `Balance` (src/balance.rs): the same funds state without a client. Its five
  adjustments are public and do not look at the lock flag. It is the class
  `Balances.Balance`.
- The record loop of the command-line binary (src/bin/cli/main.rs, lines 30-66).
  It keeps the map from client to account and the index from transaction id to
  the last deposit or withdrawal with that id applied to an existing, unlocked
  account. It is the specification
  functions `Engine.LedgerStep` / `Engine.LedgerRun` over the value
  `Engine.Ledger`, and the class `Engine.Engine`. The class's `Step` and `Run`
  methods update the two maps in place and are proved to compute those functions.

The funds arithmetic that `Account` and `Balance` share is defined once, in
module `Adjustments`. Amounts are `rust_decimal::Decimal` values with four
fractional digits; here they are exact integers counting units of 10^-4.
Client ids are `u16` and transaction ids `u32`, so both are bounded subset types.

Files:

- `transaction.dfy`: record types.
- `adjustments.dfy`: funds and the five adjustments.
- `account.dfy`: `Account`, plus the module `AccountTests` that replays the unit
  tests of src/account.rs.
- `balance.dfy`: `Balance`.
- `engine.dfy`: the record loop.
- `engine_example.dfy`: a seven-row trace run through the loop as written.

### Behaviour of the loop as written

The loop enforces fewer rules than a payment engine usually would. The
lemmas named here prove each of these behaviours:

- **First record of a client.** The loop uses
  `entry(client).and_modify(..).or_insert(Account::new(client))`. A client's
  first record therefore only creates an empty account: the record is not
  applied and not indexed (`Engine.LedgerStep`, `EngineExample.OpeningRows`).
- **No dispute status.** The loop does not track whether an entry is under
  dispute, so resolve and chargeback apply to any indexed entry, and
  disputing twice moves the amount twice (`Engine.RepeatedDisputeAppliesTwice`).
- **No client check.** The client stored in an index entry is never compared
  with the client of the dispute, resolve or chargeback
  (`Engine.IndexedClientIgnored`).
- **Duplicate ids.** On an existing, unlocked account, a deposit or
  withdrawal whose id is already indexed replaces the earlier entry, and a
  withdrawal rejected for insufficient funds is still indexed
  (`Engine.RejectedWithdrawalIsIndexed`).
- **Chargeback of an unknown id.** On an existing, unlocked account it moves
  no funds but still locks the account (`Engine.UnknownChargebackLocks`).
- **Negative and missing amounts.** Negative amounts are accepted. On an
  existing, unlocked account a deposit or withdrawal without an amount
  commits zero and is still indexed, and a dispute can drive
  `available` below zero (`Adjustments.Dispute`, `Engine.MissingAmountCommitsZero`).

A seven-row trace shows several of these at once.

- **The first five rows.** For the rows `deposit,1,1,10.0`,
  `deposit,2,2,5.0`, `deposit,1,3,4.0`, `withdrawal,1,4,2.0` and
  `dispute,1,1`, the loop yields client 1 with 2.0 available, 0 held and 2.0
  total, unlocked, and client 2 with an empty account. The first rows of both
  clients only open their accounts, and id 1 is never indexed, so the dispute
  changes nothing (`EngineExample.ExampleOutcome`).
- **Two more rows.** `chargeback,1,1` then locks client 1 without moving
  funds, and the `deposit,1,5,100.0` after it is ignored
  (`EngineExample.ExampleContinued`, `EngineExample.ExampleSevenRows`).

src/transaction.rs spells the type `TranscationType` with variants `Withdrawl`
and `Resolution`, and names the id field `tx`. src/account.rs and
src/bin/cli/main.rs use `TransactionType::Withdrawal`, `Resolve` and
`transaction.id`. The model uses the names those two files use.

## Model

| member | source | states |
|---|---|---|
| Adjustments.Withdraw | src/account.rs:44-50 | an amount above `available` changes nothing; otherwise `available` and `total` drop by the amount and `held` is unchanged, so an applied withdrawal never leaves `available` negative |
| Adjustments.Deposit | src/account.rs:54-57 | `available` and `total` rise by the amount and `held` is unchanged; a withdrawal of the same amount undoes it whenever `available` was not negative |
| Adjustments.Dispute | src/account.rs:62-65 | the amount moves from `available` to `held` with `total` unchanged; disputing more than is available leaves `available` negative |
| Adjustments.Resolve | src/account.rs:70-73 | the amount moves from `held` back to `available` with `total` unchanged; it is the exact inverse of `Dispute` |
| Adjustments.Chargeback | src/account.rs:78-81 | `held` and `total` drop by the amount and `available` is unchanged |
| Adjustments.Adjust | src/account.rs:31-38 | the dispatch on the record type keeps `total - held - available` fixed, and a zero amount changes nothing |
| Adjustments.AdjustPreservesConsistency | src/account.rs:39 | each of the five adjustments keeps `total - held == available`, the identity asserted after every commit |
| Adjustments.DisputeThenResolve | src/account.rs:59-73 | disputing then resolving the same amount restores the funds exactly |
| Adjustments.DisputeThenChargeback | src/account.rs:75-81 | disputing then charging back the same amount leaves `held` where it was and takes the amount out of `available` and `total` |
| Accounts.NewAccount | src/account.rs:18-23 | a new account belongs to its client, holds zero in all three fields and is unlocked |
| Accounts.Committed | src/account.rs:27-40 | a locked account is returned unchanged; otherwise only the funds change, by the adjustment the record type names; client and lock flag are never changed; a zero amount changes nothing |
| Accounts.CommitDisputeThenResolve | src/account.rs:27-40 | on any account, a dispute commit followed by a resolve commit of the same amount returns the account unchanged |
| Accounts.CommitChargebackDoesNotLock | src/account.rs:75-81 | a chargeback commit lowers `held` and `total` but does not lock the account; the lock is set by the caller |
| Accounts.Account.constructor | src/account.rs:18-23 | the new object's state is `NewAccount(client)` |
| Accounts.Account.Commit | src/account.rs:27-40 | the object's new state is `Committed` of its old state; only the three funds fields may change; `total - held == available` is preserved |
| Accounts.Account.Withdraw | src/account.rs:44-50 | the funds fields become `Adjustments.Withdraw` of the old ones, and only `available` and `total` are written |
| Accounts.Account.Deposit | src/account.rs:54-57 | the funds fields become `Adjustments.Deposit` of the old ones |
| Accounts.Account.Dispute | src/account.rs:62-65 | the funds fields become `Adjustments.Dispute` of the old ones |
| Accounts.Account.Resolve | src/account.rs:70-73 | the funds fields become `Adjustments.Resolve` of the old ones |
| Accounts.Account.Chargeback | src/account.rs:78-81 | the funds fields become `Adjustments.Chargeback` of the old ones |
| AccountTests.TestDeposit | src/account.rs:101-108 | depositing 100.5 into a new account gives 100.5 available and total, nothing held |
| AccountTests.TestWithdrawalSufficientFunds | src/account.rs:111-119 | 100 deposited then 50 withdrawn leaves 50 available and total |
| AccountTests.TestWithdrawalInsufficientFunds | src/account.rs:122-131 | withdrawing 100 from 50 is ignored |
| AccountTests.TestDispute | src/account.rs:134-142 | disputing 30 of 100 leaves 70 available, 30 held, 100 total |
| AccountTests.TestResolve | src/account.rs:145-154 | resolving the 30 disputed restores 100 available and nothing held |
| AccountTests.TestChargeback | src/account.rs:157-166 | charging back the 30 disputed leaves 70 available and total, nothing held |
| AccountTests.LockedAccountIgnoresCommits | src/account.rs:169-191 | on a locked account, deposit, withdrawal, dispute and resolve commits of any amounts leave the account unchanged |
| AccountTests.TestMultipleTransactions | src/account.rs:194-217 | deposits of 50, 25 and 25, a withdrawal of 15 and a dispute of 20 pass through 100, 85 and 65 available with 20 held |
| AccountTests.TestPrecisionHandling | src/account.rs:262-275 | 12.3456 deposited then 0.3456 withdrawn leaves exactly 12 |
| Balances.Balance.constructor | src/balance.rs:5-11 | a default balance has zero funds and is unlocked |
| Balances.Balance.Commit | src/balance.rs:15-27 | a locked balance is unchanged; otherwise the funds become `Adjustments.Adjust` of the old funds; only the funds fields may change |
| Balances.Balance.Withdraw | src/balance.rs:30-37 | the funds become `Adjustments.Withdraw` of the old ones whatever the lock flag says; the identity `total - held == available` is kept |
| Balances.Balance.Deposit | src/balance.rs:40-44 | the funds become `Adjustments.Deposit` of the old ones; the identity is kept |
| Balances.Balance.Dispute | src/balance.rs:47-51 | the funds become `Adjustments.Dispute` of the old ones; the identity is kept |
| Balances.Balance.Resolve | src/balance.rs:54-58 | the funds become `Adjustments.Resolve` of the old ones; the identity is kept |
| Balances.Balance.Chargeback | src/balance.rs:61-65 | the funds become `Adjustments.Chargeback` of the old ones; the identity is kept |
| Balances.DisputeThenResolve | src/balance.rs:47-58 | calling `dispute` then `resolve` with the same amount leaves the balance's funds and lock flag as they were |
| Engine.RecordAmount | src/bin/cli/main.rs:47-57 | a deposit or withdrawal commits its own amount, zero when it has none; a dispute, resolve or chargeback ignores its own amount and commits the amount of the indexed entry with its id, zero when the id is not indexed or the entry has no amount |
| Engine.LedgerRecord | src/bin/cli/main.rs:37-39 | a row that failed to decode leaves the book unchanged; a decoded row is one `LedgerStep` |
| Engine.LedgerStep | src/bin/cli/main.rs:40-65 | the step defines the client's account if it had none, and no other client's account is added. A first record only opens an empty account, and the index is unchanged. On a locked account nothing changes. Otherwise a deposit or withdrawal is indexed under its id, overwriting any earlier entry; the funds change by the adjustment with the amount the record resolves to; the account is locked exactly on a chargeback |
| Engine.StepOnOpenAccount | src/bin/cli/main.rs:47-63 | on an existing unlocked account the step's result is the committed account (locked on a chargeback) and the updated index, as one ledger value |
| Engine.StepLeavesOtherClients | src/bin/cli/main.rs:40-42 | a step never changes the account of a client other than the record's own |
| Engine.StepKeepsValid | src/bin/cli/main.rs:40-65 | every account stays under its own client and keeps `total - held == available`; every index entry is a deposit or withdrawal under its own id |
| Engine.LedgerRun | src/bin/cli/main.rs:36-66 | running the records in order never removes an account |
| Engine.RunKeepsValid | src/bin/cli/main.rs:36-66 | the book's invariants hold after any sequence of records |
| Engine.RunKeepsLocked | src/bin/cli/main.rs:43-46 | once locked, an account stays present and identical whatever records follow |
| Engine.RunAppend | src/bin/cli/main.rs:36 | running two chunks of records one after the other is running their concatenation |
| Engine.Parsed | src/bin/cli/main.rs:37-39 | the decoded records of an input are at most as many as its rows, and every one of them decoded |
| Engine.ParsedKeepsDecoded | src/bin/cli/main.rs:37-39 | a row is among the decoded records exactly when it is a row of the input and decoded: no decoded row is dropped |
| Engine.RunSkipsUnparsed | src/bin/cli/main.rs:37-39 | rows that fail to decode have no effect: the run equals the run over the decoded records only |
| Engine.RunLeavesOtherClients | src/bin/cli/main.rs:40-42 | records of other clients neither create nor change an account |
| Engine.MissingAmountCommitsZero | src/bin/cli/main.rs:48-50 | on an existing, unlocked account, a deposit or withdrawal with no amount changes no funds but is still indexed |
| Engine.RejectedWithdrawalIsIndexed | src/bin/cli/main.rs:48-50 | on an existing, unlocked account, a withdrawal above `available` leaves every account unchanged but still replaces the index entry under its id |
| Engine.UnknownReferenceIgnored | src/bin/cli/main.rs:53-56 | on an existing account, a dispute or resolve of an id that is not indexed leaves the whole ledger unchanged |
| Engine.UnknownChargebackLocks | src/bin/cli/main.rs:53-63 | on an existing, unlocked account, a chargeback of an id that is not indexed moves no funds but locks the account |
| Engine.IndexedClientIgnored | src/bin/cli/main.rs:53-56 | the client of an index entry does not affect any account when the entry is referenced |
| Engine.RepeatedDisputeAppliesTwice | src/bin/cli/main.rs:53-59 | two disputes of the same indexed id move its amount from `available` to `held` twice |
| Engine.DisputeThenResolveRestores | src/bin/cli/main.rs:53-59 | on an open account, a dispute then a resolve of the same id leave the whole ledger as it was |
| Engine.DepositDisputeChargeback | src/bin/cli/main.rs:47-63 | on an open account, depositing, disputing and charging back the same id returns the funds to what they were, locks the account and leaves the deposit indexed |
| Engine.Engine.constructor | src/bin/cli/main.rs:30-31 | both maps start empty |
| Engine.Engine.Step | src/bin/cli/main.rs:40-65 | one iteration updates the two maps in place to exactly `LedgerStep` of their old contents |
| Engine.Engine.Run | src/bin/cli/main.rs:36-66 | the loop leaves the two maps at `LedgerRun` of their old contents over the rows; a `for` loop with the prefix invariant |
| Engine.Process | src/bin/cli/main.rs:30-66 | a fresh engine run over the rows yields `LedgerRun` from the empty book, with every account under its own client and satisfying `total - held == available` |
| EngineExample.ExampleOutcome | src/bin/cli/main.rs:36-66 | the run of the five rows `deposit,1,1,10.0` … `dispute,1,1` from an empty book is exactly the book with client 1 at 2.0 available and total, nothing held, unlocked, client 2 empty, and ids 3 and 4 indexed |
| EngineExample.ExampleContinued | src/bin/cli/main.rs:53-63 | after those five rows, the chargeback of the unindexed id 1 locks client 1 without moving funds, and the deposit of 100.0 after it leaves the book unchanged |
| EngineExample.ExampleSevenRows | src/bin/cli/main.rs:36-66 | the run of all seven rows from an empty book leaves client 1 locked at 2.0 available and total and client 2 empty, with ids 3 and 4 indexed |

## Left out

- Reading the CSV file and decoding rows (src/bin/cli/main.rs:33-39, serde, `csv::Reader`) is not modelled. A row that fails to decode is the value `None`.
- Command-line argument handling and the `Error` type (src/bin/cli/main.rs:6-28) are not modelled: they are I/O.
- Writing the accounts to standard output (src/bin/cli/main.rs:68-72) is not modelled, and neither is the order of `HashMap` iteration.
- src/main.rs, src/bin/create_random_csv and examples/random.rs are not part of this model. They are another front end and random input generators.
- `rust_decimal::Decimal` is modelled as exact integers in 10^-4 units. Amounts with more than four fractional digits, Decimal's 96-bit overflow and its panics are not modelled.
- `debug_assert_eq!` (src/account.rs:39, src/balance.rs:36-64) is a run-time check in debug builds only. It becomes an implication in the postconditions: if the identity held before the operation, it holds after. No precondition demands it.
- Accounts.Account: the five adjustments are private in Rust. Dafny has no private methods, so they are ordinary methods of the class.
- Engine.Engine: the account map holds `AccountState` values, not `Account` objects. The Rust `Account` is `Copy` and is stored by value in the `HashMap`, so there is no aliasing to model. The step commits through `Committed`, which `Accounts.Account.Commit` is proved to compute.
- AccountTests: the unit tests of src/account.rs are replayed on account values through `Committed`, not on `Account` objects. `Account.Commit` is proved equal to `Committed`. `test_new_account`, `test_account_invariants` and `test_zero_amount_transactions` are covered by the contracts of `Accounts.NewAccount`, `Adjustments.AdjustPreservesConsistency` and `Accounts.Committed`.
- `Balance` is not reachable from the engine: src/lib.rs does not export it. It is modelled on its own.
