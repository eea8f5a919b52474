/**
 * The balance ledger (`TransactionService`): using part of a balance,
 * recording a failed use, cancelling a use in full, and looking a
 * transaction up. Every operation that succeeds writes one new transaction
 * and never touches the ones already recorded.
 */
module Transactions {
  import opened Types
  import opened Repository
  import Accounts

  /** One year, in the seconds `Time` counts (a calendar year is approximated by 365 days). */
  const ONE_YEAR: int := 365 * 24 * 60 * 60

  /** `transactedAt.isBefore(now.minusYears(1))`. */
  predicate TooOld(transactedAt: Time, now: Time) {
    transactedAt < now - ONE_YEAR
  }

  /** The accounts after `account.useBalance(amount)` on account `i`. */
  function Debited(accounts: seq<Account>, i: AccountId, amount: Money): (r: seq<Account>)
    requires i < |accounts|
    ensures |r| == |accounts| && r[i].balance == accounts[i].balance - amount
    ensures r[i].(balance := accounts[i].balance) == accounts[i]
    ensures forall j :: 0 <= j < |r| && j != i ==> r[j] == accounts[j]
  {
    accounts[i := accounts[i].(balance := accounts[i].balance - amount)]
  }

  /** The accounts after `account.cancelBalance(amount)` on account `i`. */
  function Credited(accounts: seq<Account>, i: AccountId, amount: Money): (r: seq<Account>)
    requires i < |accounts|
    ensures |r| == |accounts| && r[i].balance == accounts[i].balance + amount
    ensures r[i].(balance := accounts[i].balance) == accounts[i]
    ensures forall j :: 0 <= j < |r| && j != i ==> r[j] == accounts[j]
  {
    accounts[i := accounts[i].(balance := accounts[i].balance + amount)]
  }

  /** `validateUseBalance`, in order: owner, status, balance covers the amount. */
  function ValidateUseBalance(user: AccountUser, account: Account, amount: Money): (r: Outcome)
    ensures r == Fail(UserAccountUnMatch) <==> account.user != user.id
    ensures r == Fail(AccountAlreadyUnregistered) <==> account.user == user.id && account.status != InUse
    ensures r == Fail(AmountExceedBalance) <==>
              account.user == user.id && account.status == InUse && amount > account.balance
    ensures r == Pass <==> account.user == user.id && account.status == InUse && amount <= account.balance
  {
    if account.user != user.id then Fail(UserAccountUnMatch)
    else if account.status != InUse then Fail(AccountAlreadyUnregistered)
    else if account.balance < amount then Fail(AmountExceedBalance)
    else Pass
  }

  /**
   * The checks of `useBalance`: the first that fails decides the error. The
   * result is the id of the account to debit.
   */
  function UseBalanceCheck(users: map<UserId, string>, accounts: seq<Account>, userId: UserId,
                           accountNumber: string, amount: Money): (r: Result<AccountId>)
    ensures r == Err(Rejected(UserNotFound)) <==> userId !in users
    ensures r == Err(Rejected(AccountNotFound)) <==>
              userId in users && FindByNumber(accounts, accountNumber).None?
    ensures var f := FindByNumber(accounts, accountNumber);
              r == Err(Rejected(UserAccountUnMatch)) <==>
              userId in users && f.Some? && accounts[f.value].user != userId
    ensures var f := FindByNumber(accounts, accountNumber);
              r == Err(Rejected(AccountAlreadyUnregistered)) <==>
              userId in users && f.Some? && accounts[f.value].user == userId
              && accounts[f.value].status == Unregistered
    ensures var f := FindByNumber(accounts, accountNumber);
              r == Err(Rejected(AmountExceedBalance)) <==>
              userId in users && f.Some? && accounts[f.value].user == userId
              && accounts[f.value].status == InUse && amount > accounts[f.value].balance
    ensures var f := FindByNumber(accounts, accountNumber);
              r.Ok? <==>
              userId in users && f.Some? && accounts[f.value].user == userId
              && accounts[f.value].status == InUse && amount <= accounts[f.value].balance
    ensures r.Ok? ==> r.value < |accounts| && accounts[r.value].number == accountNumber
  {
    var user :- Accounts.GetAccountUser(users, userId);
    match FindByNumber(accounts, accountNumber)
    case None => Err(Rejected(AccountNotFound))
    case Some(i) =>
      var v := ValidateUseBalance(user, accounts[i], amount);
      if v.Fail? then Err(Rejected(v.code)) else Ok(i)
  }

  /**
   * `validateCancelBalance`, in order: the transaction belongs to the
   * account (compared by account id), the amount is the whole original
   * amount, the transaction is at most a year old.
   */
  function ValidateCancelBalance(t: Transaction, accountId: AccountId, amount: Money, now: Time): (r: Outcome)
    ensures r == Fail(TransactionAccountUnMatch) <==> t.account != accountId
    ensures r == Fail(CancelMustFully) <==> t.account == accountId && t.amount != amount
    ensures r == Fail(TooOldOrderToCancel) <==>
              t.account == accountId && t.amount == amount && TooOld(t.transactedAt, now)
    ensures r == Pass <==> t.account == accountId && t.amount == amount && !TooOld(t.transactedAt, now)
  {
    if t.account != accountId then Fail(TransactionAccountUnMatch)
    else if t.amount != amount then Fail(CancelMustFully)
    else if TooOld(t.transactedAt, now) then Fail(TooOldOrderToCancel)
    else Pass
  }

  /**
   * The checks of `cancelBalance`: the first that fails decides the error.
   * The result is the id of the account to credit.
   */
  function CancelBalanceCheck(transactions: map<TransactionId, Transaction>, accounts: seq<Account>,
                              transactionId: TransactionId, accountNumber: string, amount: Money,
                              now: Time): (r: Result<AccountId>)
    ensures r == Err(Rejected(TransactionNotFound)) <==> transactionId !in transactions
    ensures r == Err(Rejected(AccountNotFound)) <==>
              transactionId in transactions && FindByNumber(accounts, accountNumber).None?
    ensures var f := FindByNumber(accounts, accountNumber);
              r == Err(Rejected(TransactionAccountUnMatch)) <==>
              transactionId in transactions && f.Some? && transactions[transactionId].account != f.value
    ensures var f := FindByNumber(accounts, accountNumber);
              r == Err(Rejected(CancelMustFully)) <==>
              transactionId in transactions && f.Some? && transactions[transactionId].account == f.value
              && transactions[transactionId].amount != amount
    ensures var f := FindByNumber(accounts, accountNumber);
              r == Err(Rejected(TooOldOrderToCancel)) <==>
              transactionId in transactions && f.Some? && transactions[transactionId].account == f.value
              && transactions[transactionId].amount == amount
              && TooOld(transactions[transactionId].transactedAt, now)
    ensures var f := FindByNumber(accounts, accountNumber);
              r.Ok? <==>
              transactionId in transactions && f.Some? && transactions[transactionId].account == f.value
              && transactions[transactionId].amount == amount
              && !TooOld(transactions[transactionId].transactedAt, now)
    ensures r.Ok? ==> r.value < |accounts| && accounts[r.value].number == accountNumber
  {
    if transactionId !in transactions then Err(Rejected(TransactionNotFound))
    else
      match FindByNumber(accounts, accountNumber)
      case None => Err(Rejected(AccountNotFound))
      case Some(i) =>
        var v := ValidateCancelBalance(transactions[transactionId], i, amount, now);
        if v.Fail? then Err(Rejected(v.code)) else Ok(i)
  }

  /**
   * A use followed, within a year, by the full cancel of the transaction it
   * recorded passes every cancel check and gives the account back exactly
   * the balance it had.
   */
  lemma UseThenCancelRestores(users: map<UserId, string>, accounts: seq<Account>,
                              transactions: map<TransactionId, Transaction>, userId: UserId,
                              accountNumber: string, amount: Money, now: Time,
                              id: TransactionId, later: Time)
    requires UseBalanceCheck(users, accounts, userId, accountNumber, amount).Ok?
    requires now <= later <= now + ONE_YEAR
    ensures var i := UseBalanceCheck(users, accounts, userId, accountNumber, amount).value;
      var used := Debited(accounts, i, amount);
      var recorded := transactions[id := Transaction(i, Use, S, amount, used[i].balance, now)];
      && CancelBalanceCheck(recorded, used, id, accountNumber, amount, later) == Ok(i)
      && Credited(used, i, amount) == accounts
  {
    var i := UseBalanceCheck(users, accounts, userId, accountNumber, amount).value;
    var used := Debited(accounts, i, amount);
    FindByNumberSameNumbers(used, accounts, accountNumber);
    assert Credited(used, i, amount)[i] == accounts[i];
  }

  /**
   * Nothing in the cancel checks looks at earlier cancels: after a
   * successful cancel the same cancel passes the checks again and would
   * credit the amount a second time.
   */
  lemma CancelCanRepeat(transactions: map<TransactionId, Transaction>, accounts: seq<Account>,
                        transactionId: TransactionId, accountNumber: string, amount: Money,
                        now: Time, freshId: TransactionId)
    requires CancelBalanceCheck(transactions, accounts, transactionId, accountNumber, amount, now).Ok?
    requires freshId !in transactions
    ensures var i := CancelBalanceCheck(transactions, accounts, transactionId, accountNumber, amount, now).value;
      var credited := Credited(accounts, i, amount);
      var recorded := transactions[freshId := Transaction(i, Cancel, S, amount, credited[i].balance, now)];
      CancelBalanceCheck(recorded, credited, transactionId, accountNumber, amount, now) == Ok(i)
  {
    var i := CancelBalanceCheck(transactions, accounts, transactionId, accountNumber, amount, now).value;
    FindByNumberSameNumbers(Credited(accounts, i, amount), accounts, accountNumber);
  }

  /**
   * Nothing in the use checks looks at the sign of the amount: a negative
   * use on an account with a non-negative balance passes every check, and
   * the debit then raises the balance.
   */
  lemma NegativeUseRaisesBalance(users: map<UserId, string>, accounts: seq<Account>, userId: UserId,
                                 accountNumber: string, amount: Money)
    requires userId in users && FindByNumber(accounts, accountNumber).Some?
    requires var i := FindByNumber(accounts, accountNumber).value;
      accounts[i].user == userId && accounts[i].status == InUse && accounts[i].balance >= 0
    requires amount < 0
    ensures var i := FindByNumber(accounts, accountNumber).value;
      && UseBalanceCheck(users, accounts, userId, accountNumber, amount) == Ok(i)
      && Debited(accounts, i, amount)[i].balance > accounts[i].balance
  {
  }

  /**
   * Nothing in the cancel checks looks at the result type: a `USE`/`F`
   * record, which debited nothing, passes every cancel check for its full
   * amount, so its cancel credits money that was never taken.
   */
  lemma FailedUseIsCancellable(transactions: map<TransactionId, Transaction>, accounts: seq<Account>,
                               transactionId: TransactionId, accountNumber: string, now: Time)
    requires transactionId in transactions && transactions[transactionId].result == F
    requires FindByNumber(accounts, accountNumber) == Some(transactions[transactionId].account)
    requires !TooOld(transactions[transactionId].transactedAt, now)
    ensures var t := transactions[transactionId];
      CancelBalanceCheck(transactions, accounts, transactionId, accountNumber, t.amount, now) == Ok(t.account)
  {
  }

  /**
   * The cancel checks look neither at the type nor at the result of the
   * record being cancelled: relabelling it, say as a `CANCEL`/`S` record,
   * gives the same outcome, so a cancel can itself be cancelled and credit
   * its amount a second time.
   */
  lemma CancelIgnoresKindAndResult(transactions: map<TransactionId, Transaction>, accounts: seq<Account>,
                                   transactionId: TransactionId, accountNumber: string, amount: Money,
                                   now: Time, kind: TransactionType, result: TransactionResultType)
    requires transactionId in transactions
    ensures var t := transactions[transactionId];
      CancelBalanceCheck(transactions[transactionId := t.(kind := kind, result := result)], accounts,
                         transactionId, accountNumber, amount, now)
      == CancelBalanceCheck(transactions, accounts, transactionId, accountNumber, amount, now)
  {
  }

  /** `TransactionService`, over the shared store. */
  class TransactionService {
    const db: Store

    constructor (db: Store)
      ensures this.db == db
    {
      this.db := db;
    }

    /**
     * `useBalance`: on success the balance drops by the amount and exactly one
     * `USE`/`S` transaction with the new balance as its snapshot is saved;
     * on any failure nothing is saved.
     */
    method UseBalance(userId: UserId, accountNumber: string, amount: Money, now: Time,
                      transactionId: TransactionId) returns (r: Result<TransactionDto>)
      requires db.Valid()
      requires transactionId !in db.transactions
      modifies db
      ensures db.Valid()
      ensures db.users == old(db.users)
      ensures var c := UseBalanceCheck(old(db.users), old(db.accounts), userId, accountNumber, amount);
        && (c.Err? ==> r == Err(c.fault) && db.accounts == old(db.accounts)
                       && db.transactions == old(db.transactions))
        && (c.Ok? ==>
              && db.accounts == Debited(old(db.accounts), c.value, amount)
              && db.accounts[c.value].balance == old(db.accounts)[c.value].balance - amount
              && db.accounts[c.value].balance >= 0
              && db.transactions == old(db.transactions)[transactionId :=
                   Transaction(c.value, Use, S, amount, db.accounts[c.value].balance, now)]
              && r == Ok(TransactionDto(accountNumber, Use, S, transactionId, amount,
                                        db.accounts[c.value].balance, now)))
    {
      var c := UseBalanceCheck(db.users, db.accounts, userId, accountNumber, amount);
      if c.Err? {
        return Err(c.fault);
      }
      var i := c.value;
      db.accounts := Debited(db.accounts, i, amount);
      var t := Transaction(i, Use, S, amount, db.accounts[i].balance, now);
      db.transactions := db.transactions[transactionId := t];
      r := Ok(TransactionDtoFrom(transactionId, db.accounts[i].number, t));
    }

    /**
     * `saveFailedTransaction`: records a `USE`/`F` transaction whose snapshot
     * is the balance as it is, which stays unchanged; an unknown account
     * number is refused with `ACCOUNT_NOT_FOUND` and nothing is saved.
     */
    method SaveFailedTransaction(accountNumber: string, amount: Money, now: Time,
                                 transactionId: TransactionId) returns (r: Result<()>)
      requires db.Valid()
      requires transactionId !in db.transactions
      modifies db
      ensures db.Valid()
      ensures db.users == old(db.users) && db.accounts == old(db.accounts)
      ensures var f := FindByNumber(old(db.accounts), accountNumber);
        && (f.None? ==> r == Err(Rejected(AccountNotFound)) && db.transactions == old(db.transactions))
        && (f.Some? ==>
              && r == Ok(())
              && db.transactions == old(db.transactions)[transactionId :=
                   Transaction(f.value, Use, F, amount, db.accounts[f.value].balance, now)])
    {
      var f := FindByNumber(db.accounts, accountNumber);
      if f.None? {
        return Err(Rejected(AccountNotFound));
      }
      var t := Transaction(f.value, Use, F, amount, db.accounts[f.value].balance, now);
      db.transactions := db.transactions[transactionId := t];
      r := Ok(());
    }

    /**
     * `cancelBalance`: on success the balance grows by the (whole original)
     * amount and exactly one new `CANCEL`/`S` transaction with the new
     * balance as its snapshot is saved; the original stays as it was.
     */
    method CancelBalance(transactionId: TransactionId, accountNumber: string, amount: Money,
                         now: Time, newId: TransactionId) returns (r: Result<TransactionDto>)
      requires db.Valid()
      requires newId !in db.transactions
      modifies db
      ensures db.Valid()
      ensures db.users == old(db.users)
      ensures var c := CancelBalanceCheck(old(db.transactions), old(db.accounts), transactionId,
                                          accountNumber, amount, now);
        && (c.Err? ==> r == Err(c.fault) && db.accounts == old(db.accounts)
                       && db.transactions == old(db.transactions))
        && (c.Ok? ==>
              && db.accounts == Credited(old(db.accounts), c.value, amount)
              && db.accounts[c.value].balance == old(db.accounts)[c.value].balance + amount
              && amount == old(db.transactions)[transactionId].amount
              && newId != transactionId
              && db.transactions == old(db.transactions)[newId :=
                   Transaction(c.value, Cancel, S, amount, db.accounts[c.value].balance, now)]
              && r == Ok(TransactionDto(accountNumber, Cancel, S, newId, amount,
                                        db.accounts[c.value].balance, now)))
    {
      var c := CancelBalanceCheck(db.transactions, db.accounts, transactionId, accountNumber, amount, now);
      if c.Err? {
        return Err(c.fault);
      }
      var i := c.value;
      db.accounts := Credited(db.accounts, i, amount);
      var t := Transaction(i, Cancel, S, amount, db.accounts[i].balance, now);
      db.transactions := db.transactions[newId := t];
      r := Ok(TransactionDtoFrom(newId, db.accounts[i].number, t));
    }

    /**
     * `queryTransaction`: the stored transaction as it was recorded, however
     * old, with its own snapshot rather than the account's current balance.
     */
    method QueryTransaction(transactionId: TransactionId) returns (r: Result<TransactionDto>)
      requires db.Valid()
      ensures r.Err? <==> transactionId !in db.transactions
      ensures r.Err? ==> r.fault == Rejected(TransactionNotFound)
      ensures r.Ok? ==>
        var t := db.transactions[transactionId];
        && r.value.transactionId == transactionId
        && r.value.transactionType == t.kind
        && r.value.transactionResultType == t.result
        && r.value.amount == t.amount
        && r.value.balanceSnapshot == t.balanceSnapshot
        && r.value.transactedAt == t.transactedAt
        && r.value.accountNumber == db.accounts[t.account].number
    {
      if transactionId !in db.transactions {
        return Err(Rejected(TransactionNotFound));
      }
      var t := db.transactions[transactionId];
      r := Ok(TransactionDtoFrom(transactionId, db.accounts[t.account].number, t));
    }
  }
}
