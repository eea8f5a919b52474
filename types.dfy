/**
 * The entities of the account system: users, accounts, transactions, the
 * data-transfer records the services return, and the failures they raise.
 */
module Types {

  /** `AccountUser.id`, a Java `Long`. */
  type UserId = int
  /** The JPA id of an account; the store keeps accounts in id order, so it is a position. */
  type AccountId = nat
  /** The opaque `transactionId` string a transaction is looked up by. */
  type TransactionId = string
  /** Amounts and balances, Java `Long` minor currency units (64-bit range not modelled). */
  type Money = int
  /** A point in time, in seconds; stands for `LocalDateTime`. */
  type Time = int

  datatype Option<+T> = None | Some(value: T)

  /** The `ErrorCode` carried by an `AccountException`. */
  datatype ErrorCode =
    | UserNotFound
    | AccountNotFound
    | UserAccountUnMatch
    | AccountAlreadyUnregistered
    | BalanceNotEmpty
    | MaxCountPerUser10
    | AmountExceedBalance
    | TransactionNotFound
    | TransactionAccountUnMatch
    | CancelMustFully
    | TooOldOrderToCancel

  /** What an operation throws: a business rejection or one of the Java runtime exceptions. */
  datatype Fault =
    | Rejected(code: ErrorCode)  // AccountException(code)
    | NumberFormat               // NumberFormatException from Integer.parseInt
    | Minus                      // RuntimeException("Minus") from getAccount
    | NoSuchElement              // Optional.get() on an empty Optional

  datatype Result<+T> = Ok(value: T) | Err(fault: Fault) {
    predicate IsFailure() {
      Err?
    }

    function PropagateFailure<U>(): Result<U>
      requires Err?
    {
      Err(fault)
    }

    function Extract(): T
      requires Ok?
    {
      value
    }
  }

  /** The outcome of a `validate…` helper: it returns normally or throws. */
  datatype Outcome = Pass | Fail(code: ErrorCode)

  datatype AccountStatus = InUse | Unregistered

  datatype TransactionType = Use | Cancel

  /** `TransactionResultType`: S is success, F is failure. */
  datatype TransactionResultType = S | F

  datatype AccountUser = AccountUser(id: UserId, name: string)

  datatype Account = Account(
    user: UserId,
    number: string,
    status: AccountStatus,
    balance: Money,
    registeredAt: Time,
    unRegisteredAt: Option<Time>)

  /** A ledger entry; `account` is the id of the account it was made against. */
  datatype Transaction = Transaction(
    account: AccountId,
    kind: TransactionType,
    result: TransactionResultType,
    amount: Money,
    balanceSnapshot: Money,
    transactedAt: Time)

  datatype AccountDto = AccountDto(
    userId: UserId,
    accountNumber: string,
    balance: Money,
    registeredAt: Time,
    unRegisteredAt: Option<Time>)

  datatype TransactionDto = TransactionDto(
    accountNumber: string,
    transactionType: TransactionType,
    transactionResultType: TransactionResultType,
    transactionId: TransactionId,
    amount: Money,
    balanceSnapshot: Money,
    transactedAt: Time)

  /** `AccountDto.from(account)`. */
  function AccountDtoFrom(a: Account): AccountDto {
    AccountDto(a.user, a.number, a.balance, a.registeredAt, a.unRegisteredAt)
  }

  /** `TransactionDto.from(transaction)`; `number` is the number of the transaction's account. */
  function TransactionDtoFrom(id: TransactionId, number: string, t: Transaction): TransactionDto {
    TransactionDto(number, t.kind, t.result, id, t.amount, t.balanceSnapshot, t.transactedAt)
  }
}
