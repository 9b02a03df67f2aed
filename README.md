# crabbux ledger core in Dafny

This project models the ledger engine of crabbux, a small account ledger written in Rust. An
`Accounts` value owns a map from account names to `u64` balances. It changes that map through
three operations:

- `deposit` creates a missing account, or adds to an existing one with an overflow check.
- `withdraw` subtracts with an underflow check, and fails on a missing account.
- `send` runs withdraw and then deposit.

A successful call returns `Tx` records (`Deposit` or `Withdraw`). A failed call returns one of
three `AccountingError`s: `NotFound`, `UnderFunded` or `OverFunded`.

Modules, one per source file or concern:

- `Uint64` (`uint64.dfy`) holds Rust's `u64` as a newtype over `[0, 2^64 - 1]`. It also has
  `checked_add` and `checked_sub`. Every balance and amount has this type, so no balance can
  leave the range.
- `Errors` (`errors.dfy`) holds `AccountingError` and the `Result` returned by the ledger.
- `Transactions` (`tx.dfy`) holds the two-variant `Tx` record.
- `Ledger` (`accounts.dfy`) has two parts:
  - Pure step functions. Each says what one call returns and which balances it leaves behind.
  - The class `Accounts`. Its field `accounts: map<string, u64>` is updated in place by
    methods proved equal to those step functions.
- `Supply` (`supply.dfy`) holds the sum of all balances and how each operation moves it.
- `Replay` (`replay.dfy`) replays a `Tx` log, runs a sequence of calls while collecting their
  records, and proves the replay claim made in `src/tx.rs`.
- `AccountsTests` (`accounts_tests.dfy`) holds the crate's unit tests as client methods. They
  are proved against the class's contracts.

The send follows the code. The test names at src/accounts.rs:147-153 (`..._fails_and_rolls_back`)
and the replay claim at src/tx.rs:1-2 expect a failed send to restore the sender.
`Accounts::send` uses `?` and undoes nothing. `Ledger.SendStep` and `Accounts.Send` model the
code as written. `Ledger.SendAtomicStep` and `Accounts.SendAtomic` are separate members that
add the rollback. The comparison between the two is under "Findings".

## Model

| member | source | states |
|---|---|---|
| `Uint64.CheckedAdd` | src/accounts.rs:44-47 | the sum exists exactly when it is at most 2^64 - 1, and then it is the exact integer sum |
| `Uint64.CheckedSub` | src/accounts.rs:67-70 | the difference exists exactly when the amount is at most the balance, and then it is the exact integer difference |
| `Ledger.DepositStep` | src/accounts.rs:42-60 | succeeds exactly when the account is missing or balance + amount does not overflow; on success it returns `Deposit{signer, amount}`, sets the balance to old balance (0 if missing) + amount, adds only `signer` to the key set and leaves every other account as it was; on failure it returns `OverFunded(signer, amount)` and leaves the map unchanged; it never yields `NotFound` or `UnderFunded` |
| `Ledger.WithdrawStep` | src/accounts.rs:65-78 | succeeds exactly when the account exists and amount <= balance; on success it returns `Withdraw{signer, amount}`, sets the balance to balance - amount, keeps the key set and leaves every other account as it was; on failure it returns `NotFound(signer)` for a missing account (never creating it) or `UnderFunded(signer, amount)`, and leaves the map unchanged |
| `Ledger.SendStep` | src/accounts.rs:84-94 | if the withdraw fails it returns that `NotFound`/`UnderFunded` and nothing changes; it succeeds exactly when the withdraw passes and the recipient can take the amount (always so when sender = recipient); success returns `(Withdraw{sender,a}, Deposit{recipient,a})`, debits the sender, credits the recipient (created if missing), changes no other account, and changes nothing at all when sender = recipient; when the deposit overflows it returns `OverFunded(recipient, a)` with the sender still debited by a |
| `Ledger.SendAtomicStep` | src/accounts.rs:146-153 | returns the same result as the send as written and, on success, the same balances; on every failure the balances are exactly the old ones |
| `Ledger.Accounts.constructor` | src/accounts.rs:33-37 | a new ledger has no accounts |
| `Ledger.Accounts.Deposit` | src/accounts.rs:42-60 | the in-place deposit returns what `DepositStep` returns and leaves the map it describes |
| `Ledger.Accounts.Withdraw` | src/accounts.rs:65-78 | the in-place withdraw returns what `WithdrawStep` returns and leaves the map it describes |
| `Ledger.Accounts.Send` | src/accounts.rs:84-94 | two in-place calls, withdraw then deposit, with early return on error; the result and new map are those of `SendStep` |
| `Ledger.Accounts.SendAtomic` | src/accounts.rs:146-153 | snapshots the sender and restores it when the deposit fails; the result and new map are those of `SendAtomicStep`, and a failed call leaves the map unchanged |
| `Supply.DepositTotal` | src/accounts.rs:42-60 | a successful deposit raises the sum of all balances by exactly its amount; a failed one leaves the sum unchanged |
| `Supply.WithdrawTotal` | src/accounts.rs:65-78 | a successful withdraw lowers the sum of all balances by exactly its amount; a failed one leaves the sum unchanged |
| `Supply.SendTotal` | src/accounts.rs:84-94 | the send as written keeps the sum of all balances, except that when it fails with `OverFunded` the sum drops by the amount: the debited money is lost |
| `Supply.SendAtomicTotal` | src/accounts.rs:146-153 | the rolling-back send never changes the sum of all balances |
| `Replay.ApplyTx` | src/tx.rs:1-8 | re-applying a record as deposit or withdraw succeeds exactly when that deposit's overflow check or that withdraw's existence and underflow checks pass; on success it returns that same record, moves the named account's balance by exactly the recorded amount, adds at most that account to the key set and leaves every other account as it was; when it fails, nothing changes |
| `Replay.ExecReplays` | src/tx.rs:1-2 | the records one call returned (none on failure), replayed from the state before the call, give the state after it, for every call except a send whose deposit overflowed |
| `Replay.RunReplays` | src/tx.rs:1-2 | the records a whole sequence of calls returned, replayed in order from its starting state, give its final state with every replayed step succeeding, provided no send in it failed after its withdraw or sends roll back |
| `Replay.ReplayRebuildsLedger` | src/tx.rs:1-2 | replaying from an empty ledger the log of any sequence of deposits and withdraws rebuilds the same map |
| `Replay.ReplayRebuildsLedgerWithRollback` | src/tx.rs:1-2 | with the rolling-back send, replaying from an empty ledger the log of ANY sequence of calls rebuilds the same map |
| `Replay.SendRecordsReplay` | src/accounts.rs:90-93 | the two records of a successful send, replayed in order, reproduce that send's new map |
| `Replay.TornSendBreaksReplay` | src/accounts.rs:84-94 | a concrete run (deposit alice 50, deposit bob 2^64 - 1, send alice to bob 50) ends with alice at 0 while its log replays to alice at 50 |
| `AccountsTests.WithdrawUnderfunded` | src/accounts.rs:102-118 | withdrawing 100 from a balance of 50 returns `UnderFunded("test_account", 100)` and the balance stays 50 |
| `AccountsTests.DepositWorks` | src/accounts.rs:124-134 | depositing 100 into a balance of 0 succeeds and leaves 100 |
| `AccountsTests.SendOverfundedDoesNotRollBack` | src/accounts.rs:151-153 | as written, a send of 50 from alice (50) to bob (2^64 - 1) returns `OverFunded("bob", 50)` and leaves alice at 0 |
| `AccountsTests.SendAtomicOverfundedRollsBack` | src/accounts.rs:151-153 | with rollback the same send returns the same error and leaves alice at 50 |

## Left out

- The `Display` and `Error` implementations of `AccountingError` (src/accounts.rs:5-23) are left out. They only format messages.
- The `Debug` derive, and the hashing and iteration order of `HashMap`, are left out. Balances are a Dafny `map<string, u64>`, and no operation depends on order.
- The interactive shell in src/main.rs is left out: stdin prompts, parsing of numbers, printing, and the `tx_log` vector. `Replay.Run` collects records the same way the shell appends them, but it is not a model of the shell.
- The tests whose bodies are `todo!()` have no behaviour to model. Only the intent given by two of their names is used: the rollback of a send into a full account.
- Concurrency, persistence and authentication are not modelled. The code has none of them.

## Findings

| source | as written | input that shows it | evidently intended | confidence | as-written member | corrected member |
|---|---|---|---|---|---|---|
| src/accounts.rs:84-94 | `send` returns the deposit's `OverFunded` via `?` without undoing the withdraw that already succeeded, so the sender stays debited, no record is returned, and the money leaves the ledger | alice = 50, bob = 2^64 - 1, `send("alice", "bob", 50)`: returns `OverFunded("bob", 50)` and leaves alice = 0; the log replays to alice = 50 | the sender is restored before the error is returned (test names at src/accounts.rs:146-153; the replay claim at src/tx.rs:1-2) | high, not executed | `Replay.TornSendBreaksReplay` | `Ledger.SendAtomicStep` |
