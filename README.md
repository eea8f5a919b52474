# Account system: account lifecycle and balance ledger

This project models the two services of a small bank-account back end and
proves properties of the model.

**Account lifecycle (`AccountService`).**
- `createAccount` looks the user up and refuses a user who already holds ten accounts.
- It derives the new account number from the newest account, the one with the highest id: that number is parsed as a Java `int`, one is added, and the sum is printed. With no account yet, the number is `1000000000`.
- It appends the new account with status `IN_USE`.
- `deleteAccount` checks, in order: the user exists, the account exists, the account belongs to the user, it is not already closed, its balance is not positive. It then soft-closes the account by setting its status to `UNREGISTERED` and its closing time.
- `getAccount` and `getAccountsByUserId` read accounts back.

**Balance ledger (`TransactionService`).**
- `useBalance` checks user, account, owner, status and balance, in that order. It debits the account and records one `USE`/`S` transaction whose snapshot is the new balance.
- `saveFailedTransaction` records one `USE`/`F` transaction whose snapshot is the unchanged balance.
- `cancelBalance` checks transaction, account, that the transaction is on that account, that the amount is the full original amount, and that the transaction is at most a year old. It credits the account and records a new `CANCEL`/`S` transaction.
- `queryTransaction` returns a stored transaction as it was recorded.

TransactionService.java is not part of this model. The ledger's rules are taken from the assertions of `TransactionServiceTest.java`.

## Layout

- `types.dfy` (`Types`): the entities, the data-transfer records, `ErrorCode`, and `Fault`. `Fault` is a business rejection or a Java runtime exception.
- `java_int.dfy` (`JavaInt`): `Integer.parseInt`, `Integer.toString` and 32-bit wrap-around, with their round trip.
- `repository.dfy` (`Repository`): the shared store as a class `Store` with three fields. `users` is a map from user id to name. `accounts` is a sequence in which an account's id is its position. `transactions` is a map keyed by transaction id. The module also holds the derived queries `findByAccountNumber`, `findByAccountUser` and `countByAccountUser`.
- `accounts.dfy` (`Accounts`): the lifecycle. Its validation rules are pure functions. `AccountService` is a class whose methods update the store.
- `transactions.dfy` (`Transactions`): the ledger, built the same way.
- `scenarios.dfy` (`Scenarios`): client methods that replay the tests' situations against the method contracts alone.

Each `…Check` function is the validation prefix of one operation. Its contract states the error precedence: each error code is reported exactly when its own check fails and every earlier check passed. Each state-changing method states its exact post-state in terms of that function.

Modelling decisions that follow the code:
- The owner check at `AccountService.java:79` compares boxed `Long` ids with `!=`. It is modelled as a comparison of values, which is what the tests assume.
- One might expect the next number to be the highest existing number plus one. The code takes the account with the highest id instead, and the model follows the code. `NumberFromNewestNotHighest` shows the two differ. `NewNumberIsFresh` shows that numbers stay unique while they ascend with the id, which repeated opening preserves.
- Numbers are parsed and incremented as Java `int`s. A newest number that does not parse, or that lies outside the `int` range, is a `NumberFormatException`. `2147483647` is followed by `-2147483648`.
- Closed accounts still count toward the ten-account cap, because `countByAccountUser` does not look at status.

## Model

| member | source | states |
|---|---|---|
| `JavaInt.Wrap32` | src/main/java/com/example/account/service/AccountService.java:35 | the `+ 1` on an `int` lands in the 32-bit range, is exact inside it, and differs from the exact sum by a multiple of 2^32 |
| `JavaInt.ParseInt` | src/main/java/com/example/account/service/AccountService.java:35 | `Integer.parseInt` yields only values in the `int` range, and only for non-empty text |
| `JavaInt.DecimalString` | src/main/java/com/example/account/service/AccountService.java:35 | the decimal text of a natural number: non-empty, all digits, and without a leading zero; `DecimalRoundTrip` shows `ParseDigits` inverts it |
| `JavaInt.ToString` | src/main/java/com/example/account/service/AccountService.java:35 | the `+ ""` on an `int`: a non-negative value gives exactly its canonical decimal text; a negative one gives `-` followed by the canonical digits of `-i`; `IntRoundTrip` shows `ParseInt` inverts it |
| `JavaInt.DecimalRoundTrip` | src/main/java/com/example/account/service/AccountService.java:35 | reading back the decimal digits of any natural number gives that number |
| `JavaInt.IntRoundTrip` | src/main/java/com/example/account/service/AccountService.java:35 | parsing the printed form of any `int` gives that `int` back |
| `JavaInt.NegativeRoundTrip` | src/main/java/com/example/account/service/AccountService.java:35 | the negative half of `IntRoundTrip`: a `-` and the digits of `-i` parse back to `i`, `INT_MIN` included |
| `JavaInt.TooLargeIsRejected` | src/main/java/com/example/account/service/AccountService.java:35 | well-formed digits worth more than `INT_MAX` are rejected by `parseInt` |
| `Repository.FindByNumber` | src/main/java/com/example/account/service/AccountService.java:65-66 | the account found carries the requested number and no earlier account does; nothing is found exactly when no account carries it |
| `Repository.OwnedBy` | src/main/java/com/example/account/service/AccountService.java:106 | the ids returned are exactly the user's accounts, each once, in increasing id order |
| `Repository.CountByUser` | src/main/java/com/example/account/service/AccountService.java:56 | `countByAccountUser` is zero exactly when no account, whatever its status, belongs to the user |
| `Repository.CountAppend` | src/main/java/com/example/account/service/AccountService.java:56 | appending an account raises its owner's count by one and leaves every other user's count unchanged |
| `Accounts.GetAccountUser` | src/main/java/com/example/account/service/AccountService.java:49-53 | the user is found exactly when the id is known, with that id and name; otherwise `USER_NOT_FOUND` |
| `Accounts.ValidateCreateAccount` | src/main/java/com/example/account/service/AccountService.java:55-59 | passes exactly when the user holds fewer than 10 accounts, closed ones included; the only failure is `MAX_COUNT_PER_USER_10` |
| `Accounts.NextAccountNumber` | src/main/java/com/example/account/service/AccountService.java:34-36 | deriving the number can fail only with a `NumberFormatException` |
| `Accounts.SeedValue` | src/main/java/com/example/account/service/AccountService.java:36 | the seed `"1000000000"` parses to one billion |
| `Accounts.NextAccountNumberFirst` | src/test/java/com/example/account/service/AccountServiceTest.java:79-96 | with no account in the store the new number is `"1000000000"` |
| `Accounts.NextAccountNumberValue` | src/main/java/com/example/account/service/AccountService.java:34-35 | the new number is worth the newest account's number plus one; it wraps from `INT_MAX` to `INT_MIN`; an unparsable newest number fails |
| `Accounts.NextAfter1000000012` | src/test/java/com/example/account/service/AccountServiceTest.java:40-67 | after the newest account `"1000000012"` the new account number is exactly the text `"1000000013"` |
| `Accounts.NewNumberIsFresh` | src/main/java/com/example/account/service/AccountService.java:34-46 | while numbers ascend with the id and the newest is below `INT_MAX`, the new number differs from every existing one and keeps the numbers ascending |
| `Accounts.NumberFromNewestNotHighest` | src/main/java/com/example/account/service/AccountService.java:34 | when an older account has the higher number, the derived number duplicates that older number |
| `Accounts.NewNumberAboveAll` | src/main/java/com/example/account/service/AccountService.java:34-36 | under the same hypotheses as `NewNumberIsFresh`, the derived number parses to more than every existing number |
| `Accounts.NewNumberFollowsNewest` | src/main/java/com/example/account/service/AccountService.java:34-35 | when the newest number parses below `INT_MAX`, the derived number parses to exactly one more |
| `Accounts.NewAccount` | src/main/java/com/example/account/service/AccountService.java:38-45 | the built account carries the user, the derived number, the initial balance and the opening time, is `IN_USE` and has no closing time |
| `Accounts.CreateAccountCheck` | src/main/java/com/example/account/service/AccountService.java:29-58 | `USER_NOT_FOUND` exactly when the user is unknown; otherwise `MAX_COUNT_PER_USER_10` exactly when the user has 10 or more accounts; otherwise the outcome of the number derivation |
| `Accounts.CreateRespectsCap` | src/main/java/com/example/account/service/AccountService.java:55-58 | a successful open raises the user's count by one, to at most 10, and changes no other user's count |
| `Accounts.ValidateDeleteAccount` | src/main/java/com/example/account/service/AccountService.java:78-90 | each code exactly when its own check fails after the earlier ones pass: owner, then not already `UNREGISTERED`, then balance not positive; passes exactly when all three hold |
| `Accounts.DeleteAccountCheck` | src/main/java/com/example/account/service/AccountService.java:62-90 | the first failing check wins, in the order `USER_NOT_FOUND`, `ACCOUNT_NOT_FOUND`, `USER_ACCOUNT_UN_MATCH`, `ACCOUNT_ALREADY_UNREGISTERED`, `BALANCE_NOT_EMPTY` (balance > 0); success exactly when all pass, naming the account with that number |
| `Accounts.Closed` | src/main/java/com/example/account/service/AccountService.java:70-71 | the closed account is `UNREGISTERED` with closing time `now`, and every other field is as before |
| `Accounts.CloseKeepsCounts` | src/main/java/com/example/account/service/AccountService.java:70-73 | closing an account changes no user's account count |
| `Accounts.CloseTwiceRejected` | src/main/java/com/example/account/service/AccountService.java:83-85 | an account just closed is refused with `ACCOUNT_ALREADY_UNREGISTERED` if closed again |
| `Accounts.AccountService.CreateAccount` | src/main/java/com/example/account/service/AccountService.java:28-47 | on a failed check the store is unchanged and the fault returned; on success exactly one account is appended: the user's, `IN_USE`, the derived number, the initial balance |
| `Accounts.AccountService.DeleteAccount` | src/main/java/com/example/account/service/AccountService.java:61-76 | on a failed check the store is unchanged; on success only the found account changes: its status becomes `UNREGISTERED` and its closing time is set, with number, owner and balance kept |
| `Accounts.AccountService.GetAccount` | src/main/java/com/example/account/service/AccountService.java:93-100 | a negative id fails with `Minus`; an id past the store fails in `Optional.get`; otherwise the stored account |
| `Accounts.AccountService.GetAccountsByUserId` | src/main/java/com/example/account/service/AccountService.java:102-109 | `USER_NOT_FOUND` exactly when the user is unknown; otherwise one entry per account of the user, in id order, with its number and balance |
| `Transactions.TooOld` | src/test/java/com/example/account/service/TransactionServiceTest.java:404-433 | a transaction is too old when it was made before `now` minus one year; its effect is stated by the `TOO_OLD_ORDER_TO_CANCEL` clause of `CancelBalanceCheck` |
| `Transactions.Debited` | src/test/java/com/example/account/service/TransactionServiceTest.java:49-91 | only account `i` changes, and only its balance, which drops by the amount |
| `Transactions.Credited` | src/test/java/com/example/account/service/TransactionServiceTest.java:252-291 | only account `i` changes, and only its balance, which grows by the amount; `UseThenCancelRestores` shows it undoes `Debited` |
| `Transactions.ValidateUseBalance` | src/test/java/com/example/account/service/TransactionServiceTest.java:130-210 | each code exactly when its own check fails after the earlier ones pass: owner, then status `IN_USE`, then amount within the balance; passes exactly when all three hold |
| `Transactions.UseBalanceCheck` | src/test/java/com/example/account/service/TransactionServiceTest.java:93-210 | the first failing check wins, in the order `USER_NOT_FOUND`, `ACCOUNT_NOT_FOUND`, `USER_ACCOUNT_UN_MATCH`, `ACCOUNT_ALREADY_UNREGISTERED`, `AMOUNT_EXCEED_BALANCE` (amount > balance); success exactly when all pass |
| `Transactions.ValidateCancelBalance` | src/test/java/com/example/account/service/TransactionServiceTest.java:342-433 | each code exactly when its own check fails after the earlier ones pass: same account id, then the full amount, then at most a year old; passes exactly when all three hold |
| `Transactions.CancelBalanceCheck` | src/test/java/com/example/account/service/TransactionServiceTest.java:293-433 | the first failing check wins, in the order `TRANSACTION_NOT_FOUND`, `ACCOUNT_NOT_FOUND`, `TRANSACTION_ACCOUNT_UN_MATCH` (account ids differ), `CANCEL_MUST_FULLY` (any amount other than the original), `TOO_OLD_ORDER_TO_CANCEL` (made before a year ago); success exactly when all pass |
| `Transactions.UseThenCancelRestores` | src/test/java/com/example/account/service/TransactionServiceTest.java:252-291 | cancelling, within a year, the transaction a use just recorded passes every check and restores the account exactly |
| `Transactions.CancelCanRepeat` | src/test/java/com/example/account/service/TransactionServiceTest.java:252-291 | the cancel checks do not look at earlier cancels, so a cancel that succeeded passes the checks again |
| `Transactions.NegativeUseRaisesBalance` | src/test/java/com/example/account/service/TransactionServiceTest.java:93-210 | the use checks do not look at the sign of the amount: a negative use on an owned `IN_USE` account with a non-negative balance passes, and the debit raises the balance |
| `Transactions.FailedUseIsCancellable` | src/test/java/com/example/account/service/TransactionServiceTest.java:252-291 | the cancel checks do not look at the result type: a `USE`/`F` record within a year passes every check for its full amount |
| `Transactions.CancelIgnoresKindAndResult` | src/test/java/com/example/account/service/TransactionServiceTest.java:252-291 | the cancel outcome does not depend on the cancelled record's type or result: relabelling it gives the same outcome, so a `CANCEL`/`S` record passes as a `USE`/`S` one would |
| `Transactions.TransactionService.UseBalance` | src/test/java/com/example/account/service/TransactionServiceTest.java:49-91 | on a failed check nothing changes; on success the balance drops by the amount and stays non-negative, and exactly one `USE`/`S` record with the amount and snapshot = new balance is added (10000 − 2800 = 7200) |
| `Transactions.TransactionService.SaveFailedTransaction` | src/test/java/com/example/account/service/TransactionServiceTest.java:212-250 | accounts unchanged; exactly one `USE`/`F` record with the amount and snapshot = current balance is added; an unknown number is refused and nothing is added |
| `Transactions.TransactionService.CancelBalance` | src/test/java/com/example/account/service/TransactionServiceTest.java:252-291 | on a failed check nothing changes; on success the balance grows by the original amount and exactly one new `CANCEL`/`S` record with a new id and snapshot = new balance is added |
| `Transactions.TransactionService.QueryTransaction` | src/test/java/com/example/account/service/TransactionServiceTest.java:435-483 | `TRANSACTION_NOT_FOUND` exactly when the id is unknown; otherwise the stored id, type, result, amount, time and own snapshot, whatever its age |

## Left out

- `Transactions.TransactionService.UseBalance`: the service tests do not show who records a failed use. `useBalance_amountExceedBalance` (`TransactionServiceTest.java:184-210`) asserts only the error code and makes no `verify` call on `save`. The model's `UseBalance` records nothing on a failed check. `Scenarios.UseRefusals` replays such a failure followed by a separate `SaveFailedTransaction`.
- Nothing in `AccountService` or the service tests bounds the amounts. The model therefore does not require them to be positive, and a negative use raises the balance (`NegativeUseRaisesBalance`).
- Cancelling a failed use credits money that was never debited, because the cancel checks ignore the result type (`FailedUseIsCancellable`). This matches the typeless transaction that the cancel test at `TransactionServiceTest.java:264-268` cancels. The checks ignore the record's type as well (`CancelIgnoresKindAndResult`), so a `CANCEL`/`S` record can itself be cancelled, crediting its amount a second time. A repeated cancel is likewise not refused (`CancelCanRepeat`).
- HTTP and JSON mapping (`AccountController`, `TransactionControllerTest`): they hold no rules of their own.
- `@Transactional` rollback, isolation and concurrent updates: each method is one atomic step on the store.
- The clock: `LocalDateTime.now()` is the `now` parameter, in seconds. `minusYears(1)` is approximated by 365 days, and nothing is proved at the one-year boundary.
- Transaction-id generation is not visible in the service tests, which use fixed ids. The caller passes the new id, which must not already be in the store.
- Java `Long` range for balances, amounts and user ids: these are unbounded integers, so 64-bit overflow is not modelled.
- `Integer.parseInt` also accepts non-ASCII Unicode digits. The model accepts ASCII digits only.
- A derived `findByAccountNumber` query throws when two rows match. The model returns the first match.
- Account ids are positions from 0. The database assigns its own ids.
- The entity and DTO classes are not part of this model. Their fields are those the services and tests use.
- A `null` account status, which a test builder can produce, is not modelled. An account is either `IN_USE` or `UNREGISTERED`.
- A call to `saveFailedTransaction` for an unknown account number is not pinned down by the tests. The model refuses it with `ACCOUNT_NOT_FOUND` and saves nothing.
- Stubbed repository replies in the tests, such as the snapshot 4000 echoed by a stubbed `save`, are not engine behaviour. The model returns the record it saved.
- Non-negative balances are not a store invariant, because `createAccount` accepts any initial balance.
