/**
 * The account lifecycle (`AccountService`): opening an account under the
 * per-user cap with a number derived from the newest account, soft-closing
 * it, and reading accounts back.
 */
module Accounts {
  import opened Types
  import opened JavaInt
  import opened Repository

  /** The number given to the first account ever opened. */
  const SEED: string := "1000000000"
  const MAX_ACCOUNTS_PER_USER: nat := 10

  /** `getAccountUser`: the user, or `USER_NOT_FOUND`. */
  function GetAccountUser(users: map<UserId, string>, userId: UserId): (r: Result<AccountUser>)
    ensures r.Ok? <==> userId in users
    ensures r.Ok? ==> r.value.id == userId && r.value.name == users[userId]
    ensures r.Err? ==> r.fault == Rejected(UserNotFound)
  {
    if userId in users then Ok(AccountUser(userId, users[userId])) else Err(Rejected(UserNotFound))
  }

  /** `validateCreateAccount`: every account of the user counts, closed ones included. */
  function ValidateCreateAccount(accounts: seq<Account>, user: AccountUser): (r: Outcome)
    ensures r == Pass <==> |OwnedBy(accounts, user.id)| < MAX_ACCOUNTS_PER_USER
    ensures r.Fail? ==> r.code == MaxCountPerUser10
  {
    if CountByUser(accounts, user.id) >= MAX_ACCOUNTS_PER_USER then Fail(MaxCountPerUser10) else Pass
  }

  /**
   * The new account number: the number of the account with the highest id
   * (the newest, not the one with the highest number) parsed as an `int`,
   * plus one in `int` arithmetic, printed; the seed when there is none.
   */
  function NextAccountNumber(accounts: seq<Account>): (r: Result<string>)
    ensures r.Err? ==> r.fault == NumberFormat
  {
    if |accounts| == 0 then Ok(SEED)
    else
      match ParseInt(accounts[|accounts| - 1].number)
      case None => Err(NumberFormat)
      case Some(v) => Ok(ToString(Wrap32(v + 1)))
  }

  lemma SeedValue()
    ensures ParseInt(SEED) == Some(1_000_000_000)
  {
    assert DecimalString(1) == "1";
    assert DecimalString(100_000) == "100000";
    assert SEED == DecimalString(1_000_000_000);
    DecimalRoundTrip(1_000_000_000);
  }

  /** With no account yet, the number is the seed, worth one billion. */
  lemma NextAccountNumberFirst(accounts: seq<Account>)
    requires |accounts| == 0
    ensures NextAccountNumber(accounts) == Ok(SEED) && ParseInt(SEED) == Some(1_000_000_000)
  {
    SeedValue();
  }

  /**
   * Otherwise the number is worth the newest account's number plus one, in
   * `int` arithmetic: past `INT_MAX` it wraps to `INT_MIN`; a newest number
   * that does not parse is a `NumberFormatException`.
   */
  lemma NextAccountNumberValue(accounts: seq<Account>)
    requires |accounts| > 0
    ensures ParseInt(accounts[|accounts| - 1].number).None? <==> NextAccountNumber(accounts) == Err(NumberFormat)
    ensures ParseInt(accounts[|accounts| - 1].number).Some? ==>
              && NextAccountNumber(accounts).Ok?
              && ParseInt(NextAccountNumber(accounts).value)
                 == Some(Wrap32(ParseInt(accounts[|accounts| - 1].number).value + 1))
    ensures ParseInt(accounts[|accounts| - 1].number).Some?
            && ParseInt(accounts[|accounts| - 1].number).value < INT_MAX ==>
              ParseInt(NextAccountNumber(accounts).value)
              == Some(ParseInt(accounts[|accounts| - 1].number).value + 1)
    ensures ParseInt(accounts[|accounts| - 1].number) == Some(INT_MAX) ==>
              ParseInt(NextAccountNumber(accounts).value) == Some(INT_MIN)
  {
    var newest := ParseInt(accounts[|accounts| - 1].number);
    if newest.Some? {
      var next := Wrap32(newest.value + 1);
      assert NextAccountNumber(accounts) == Ok(ToString(next));
      IntRoundTrip(next);
      assert newest.value == INT_MAX ==> next == INT_MIN;
    } else {
      assert NextAccountNumber(accounts) == Err(NumberFormat);
    }
  }

  /** The newest account numbered `"1000000012"` gives the new account `"1000000013"`. */
  lemma NextAfter1000000012(a: Account)
    requires a.number == "1000000012"
    ensures NextAccountNumber([a]) == Ok("1000000013")
  {
    LeadingDigits();
    assert DecimalString(1_000_000_012) == "1000000012";
    assert DecimalString(1_000_000_013) == "1000000013";
    DecimalRoundTrip(1_000_000_012);
    assert ParseInt(a.number) == Some(1_000_000_012);
    assert ToString(Wrap32(1_000_000_013)) == "1000000013";
  }

  /** The decimal text of one hundred million and one, digit by digit. */
  lemma LeadingDigits()
    ensures DecimalString(100_000_001) == "100000001"
  {
    assert DecimalString(1) == "1";
    assert DecimalString(10) == "10";
    assert DecimalString(100) == "100";
    assert DecimalString(1_000) == "1000";
    assert DecimalString(10_000) == "10000";
    assert DecimalString(100_000) == "100000";
    assert DecimalString(1_000_000) == "1000000";
    assert DecimalString(10_000_000) == "10000000";
  }

  /** Account numbers that parse and grow with the id, as repeated opening produces them. */
  predicate Ascending(accounts: seq<Account>) {
    && (forall i :: 0 <= i < |accounts| ==> ParseInt(accounts[i].number).Some?)
    && (forall i, j :: 0 <= i < j < |accounts| ==>
          ParseInt(accounts[i].number).value < ParseInt(accounts[j].number).value)
  }

  /**
   * While the numbers ascend and the newest is below the `int` maximum, the
   * derived number is new and keeps them ascending, so numbers stay unique.
   */
  lemma NewNumberIsFresh(accounts: seq<Account>, a: Account)
    requires Ascending(accounts)
    requires |accounts| > 0 ==> ParseInt(accounts[|accounts| - 1].number).value < INT_MAX
    requires NextAccountNumber(accounts) == Ok(a.number)
    ensures forall i :: 0 <= i < |accounts| ==> accounts[i].number != a.number
    ensures Ascending(accounts + [a])
  {
    NewNumberAboveAll(accounts, a);
    var s := accounts + [a];
    assert s[|accounts|] == a;
    assert forall i :: 0 <= i < |accounts| ==> s[i] == accounts[i];
    forall i | 0 <= i < |accounts|
      ensures accounts[i].number != a.number
    {
      assert ParseInt(accounts[i].number).value < ParseInt(a.number).value;
    }
    forall i, j | 0 <= i < j < |s|
      ensures ParseInt(s[i].number).value < ParseInt(s[j].number).value
    {
      if j == |accounts| {
        assert s[i] == accounts[i] && s[j] == a;
      } else {
        assert s[i] == accounts[i] && s[j] == accounts[j];
      }
    }
  }

  /** The derived number parses, and to more than every existing number. */
  lemma NewNumberAboveAll(accounts: seq<Account>, a: Account)
    requires Ascending(accounts)
    requires |accounts| > 0 ==> ParseInt(accounts[|accounts| - 1].number).value < INT_MAX
    requires NextAccountNumber(accounts) == Ok(a.number)
    ensures ParseInt(a.number).Some?
    ensures forall i :: 0 <= i < |accounts| ==> ParseInt(accounts[i].number).value < ParseInt(a.number).value
  {
    if |accounts| == 0 {
      NextAccountNumberFirst(accounts);
    } else {
      var last := |accounts| - 1;
      var v := ParseInt(accounts[last].number).value;
      NewNumberFollowsNewest(accounts, a);
      forall i | 0 <= i < |accounts|
        ensures ParseInt(accounts[i].number).value < ParseInt(a.number).value
      {
        if i < last {
          assert ParseInt(accounts[i].number).value < v;
        }
      }
    }
  }

  /** Below the `int` maximum, the derived number is worth the newest number plus one. */
  lemma NewNumberFollowsNewest(accounts: seq<Account>, a: Account)
    requires |accounts| > 0 && ParseInt(accounts[|accounts| - 1].number).Some?
    requires ParseInt(accounts[|accounts| - 1].number).value < INT_MAX
    requires NextAccountNumber(accounts) == Ok(a.number)
    ensures ParseInt(a.number) == Some(ParseInt(accounts[|accounts| - 1].number).value + 1)
  {
    NextAccountNumberValue(accounts);
  }

  /**
   * The number comes from the newest account, not the highest number: when
   * an older account carries the higher number, the derived number
   * duplicates it.
   */
  lemma NumberFromNewestNotHighest(older: Account, newer: Account, v: int)
    requires 0 <= v && v + 1 <= INT_MAX
    requires older.number == ToString(v + 1) && newer.number == ToString(v)
    ensures NextAccountNumber([older, newer]) == Ok(older.number)
  {
    IntRoundTrip(v);
  }

  /** The account `createAccount` builds. */
  function NewAccount(userId: UserId, number: string, initialBalance: Money, now: Time): (a: Account)
    ensures a.user == userId && a.number == number && a.balance == initialBalance
    ensures a.status == InUse && a.registeredAt == now && a.unRegisteredAt.None?
  {
    Account(userId, number, InUse, initialBalance, now, None)
  }

  /**
   * The checks of `createAccount`, in order: the user exists, the cap is not
   * reached, the number can be derived. The result is the new number.
   */
  function CreateAccountCheck(users: map<UserId, string>, accounts: seq<Account>, userId: UserId)
    : (r: Result<string>)
    ensures r == Err(Rejected(UserNotFound)) <==> userId !in users
    ensures r == Err(Rejected(MaxCountPerUser10)) <==>
              userId in users && CountByUser(accounts, userId) >= MAX_ACCOUNTS_PER_USER
    ensures userId in users && CountByUser(accounts, userId) < MAX_ACCOUNTS_PER_USER ==>
              r == NextAccountNumber(accounts)
  {
    var user :- GetAccountUser(users, userId);
    var v := ValidateCreateAccount(accounts, user);
    if v.Fail? then Err(Rejected(v.code)) else NextAccountNumber(accounts)
  }

  /** A successful open takes its user to at most ten accounts and changes no other user's count. */
  lemma CreateRespectsCap(users: map<UserId, string>, accounts: seq<Account>, userId: UserId,
                          initialBalance: Money, now: Time)
    requires CreateAccountCheck(users, accounts, userId).Ok?
    ensures var after := accounts + [NewAccount(userId, CreateAccountCheck(users, accounts, userId).value, initialBalance, now)];
      && CountByUser(after, userId) == CountByUser(accounts, userId) + 1
      && CountByUser(after, userId) <= MAX_ACCOUNTS_PER_USER
      && forall other :: other != userId ==> CountByUser(after, other) == CountByUser(accounts, other)
  {
    var a := NewAccount(userId, CreateAccountCheck(users, accounts, userId).value, initialBalance, now);
    CountAppend(accounts, a, userId);
    forall other | other != userId
      ensures CountByUser(accounts + [a], other) == CountByUser(accounts, other)
    {
      CountAppend(accounts, a, other);
    }
  }

  /**
   * `validateDeleteAccount`, in order: the owner matches (the source compares
   * boxed `Long` ids with `!=`; modelled as comparing their values), the
   * account is not already closed, the balance is not positive.
   */
  function ValidateDeleteAccount(account: Account, user: AccountUser): (r: Outcome)
    ensures r == Fail(UserAccountUnMatch) <==> account.user != user.id
    ensures r == Fail(AccountAlreadyUnregistered) <==> account.user == user.id && account.status == Unregistered
    ensures r == Fail(BalanceNotEmpty) <==>
              account.user == user.id && account.status == InUse && account.balance > 0
    ensures r == Pass <==> account.user == user.id && account.status == InUse && account.balance <= 0
  {
    if account.user != user.id then Fail(UserAccountUnMatch)
    else
      match account.status
      case Unregistered => Fail(AccountAlreadyUnregistered)
      case InUse => if account.balance > 0 then Fail(BalanceNotEmpty) else Pass
  }

  /**
   * The checks of `deleteAccount`: the first that fails decides the error.
   * The result is the id of the account to close.
   */
  function DeleteAccountCheck(users: map<UserId, string>, accounts: seq<Account>, userId: UserId,
                              accountNumber: string): (r: Result<AccountId>)
    ensures r == Err(Rejected(UserNotFound)) <==> userId !in users
    ensures r == Err(Rejected(AccountNotFound)) <==>
              userId in users && FindByNumber(accounts, accountNumber).None?
    ensures var f := FindByNumber(accounts, accountNumber);
              r == Err(Rejected(UserAccountUnMatch)) <==>
              userId in users && f.Some? && accounts[f.value].user != userId
    ensures var f := FindByNumber(accounts, accountNumber);
              r == Err(Rejected(AccountAlreadyUnregistered)) <==>
              userId in users && f.Some? && accounts[f.value].user == userId
              && accounts[f.value].status == Unregistered
    ensures var f := FindByNumber(accounts, accountNumber);
              r == Err(Rejected(BalanceNotEmpty)) <==>
              userId in users && f.Some? && accounts[f.value].user == userId
              && accounts[f.value].status == InUse && accounts[f.value].balance > 0
    ensures var f := FindByNumber(accounts, accountNumber);
              r.Ok? <==>
              userId in users && f.Some? && accounts[f.value].user == userId
              && accounts[f.value].status == InUse && accounts[f.value].balance <= 0
    ensures r.Ok? ==> r.value < |accounts| && accounts[r.value].number == accountNumber
  {
    var user :- GetAccountUser(users, userId);
    match FindByNumber(accounts, accountNumber)
    case None => Err(Rejected(AccountNotFound))
    case Some(i) =>
      var v := ValidateDeleteAccount(accounts[i], user);
      if v.Fail? then Err(Rejected(v.code)) else Ok(i)
  }

  /** The account after `setAccountStatus(UNREGISTERED)` and `setUnRegisteredAt(now)`. */
  function Closed(a: Account, now: Time): (c: Account)
    ensures c.status == Unregistered && c.unRegisteredAt == Some(now)
    ensures c.(status := a.status, unRegisteredAt := a.unRegisteredAt) == a
  {
    a.(status := Unregistered, unRegisteredAt := Some(now))
  }

  /** Closing is a soft delete: closed accounts still count toward the cap. */
  lemma CloseKeepsCounts(accounts: seq<Account>, i: AccountId, now: Time, user: UserId)
    requires i < |accounts|
    ensures CountByUser(accounts[i := Closed(accounts[i], now)], user) == CountByUser(accounts, user)
  {
    OwnedBySameOwners(accounts[i := Closed(accounts[i], now)], accounts, user);
  }

  /** An account that was just closed cannot be closed again. */
  lemma CloseTwiceRejected(users: map<UserId, string>, accounts: seq<Account>, userId: UserId,
                           accountNumber: string, now: Time)
    requires DeleteAccountCheck(users, accounts, userId, accountNumber).Ok?
    ensures var i := DeleteAccountCheck(users, accounts, userId, accountNumber).value;
      DeleteAccountCheck(users, accounts[i := Closed(accounts[i], now)], userId, accountNumber)
      == Err(Rejected(AccountAlreadyUnregistered))
  {
    var i := DeleteAccountCheck(users, accounts, userId, accountNumber).value;
    FindByNumberSameNumbers(accounts[i := Closed(accounts[i], now)], accounts, accountNumber);
  }

  /** `AccountService`, over the shared store. */
  class AccountService {
    const db: Store

    constructor (db: Store)
      ensures this.db == db
    {
      this.db := db;
    }

    /** `createAccount`: on success exactly one `IN_USE` account is appended. */
    method CreateAccount(userId: UserId, initialBalance: Money, now: Time) returns (r: Result<AccountDto>)
      requires db.Valid()
      modifies db
      ensures db.Valid()
      ensures db.users == old(db.users) && db.transactions == old(db.transactions)
      ensures var c := CreateAccountCheck(old(db.users), old(db.accounts), userId);
        && (c.Err? ==> r == Err(c.fault) && db.accounts == old(db.accounts))
        && (c.Ok? ==>
              && db.accounts == old(db.accounts) + [NewAccount(userId, c.value, initialBalance, now)]
              && r == Ok(AccountDto(userId, c.value, initialBalance, now, None)))
    {
      var c := CreateAccountCheck(db.users, db.accounts, userId);
      if c.Err? {
        return Err(c.fault);
      }
      var account := NewAccount(userId, c.value, initialBalance, now);
      db.accounts := db.accounts + [account];
      r := Ok(AccountDtoFrom(account));
    }

    /** `deleteAccount`: on success only that account changes, and only its status and closing time. */
    method DeleteAccount(userId: UserId, accountNumber: string, now: Time) returns (r: Result<AccountDto>)
      requires db.Valid()
      modifies db
      ensures db.Valid()
      ensures db.users == old(db.users) && db.transactions == old(db.transactions)
      ensures var c := DeleteAccountCheck(old(db.users), old(db.accounts), userId, accountNumber);
        && (c.Err? ==> r == Err(c.fault) && db.accounts == old(db.accounts))
        && (c.Ok? ==>
              && db.accounts == old(db.accounts)[c.value := Closed(old(db.accounts)[c.value], now)]
              && db.accounts[c.value].status == Unregistered
              && db.accounts[c.value].number == accountNumber
              && db.accounts[c.value].user == old(db.accounts)[c.value].user
              && db.accounts[c.value].balance == old(db.accounts)[c.value].balance
              && r == Ok(AccountDtoFrom(db.accounts[c.value])))
    {
      var c := DeleteAccountCheck(db.users, db.accounts, userId, accountNumber);
      if c.Err? {
        return Err(c.fault);
      }
      var account := Closed(db.accounts[c.value], now);
      db.accounts := db.accounts[c.value := account];
      r := Ok(AccountDtoFrom(account));
    }

    /** `getAccount`: a negative id is refused before the lookup; a missing id fails in `Optional.get`. */
    method GetAccount(id: int) returns (r: Result<Account>)
      ensures r == Err(Minus) <==> id < 0
      ensures r == Err(NoSuchElement) <==> id >= |db.accounts|
      ensures r.Ok? <==> 0 <= id < |db.accounts|
      ensures r.Ok? ==> r.value == db.accounts[id]
    {
      if id < 0 {
        return Err(Minus);
      }
      if id < |db.accounts| {
        r := Ok(db.accounts[id]);
      } else {
        r := Err(NoSuchElement);
      }
    }

    /** `getAccountsByUserId`: one entry per account of the user, in id order. */
    method GetAccountsByUserId(userId: UserId) returns (r: Result<seq<AccountDto>>)
      ensures r.Err? <==> userId !in db.users
      ensures r.Err? ==> r.fault == Rejected(UserNotFound)
      ensures r.Ok? ==> |r.value| == CountByUser(db.accounts, userId)
      ensures r.Ok? ==> forall k :: 0 <= k < |r.value| ==>
                r.value[k] == AccountDtoFrom(db.accounts[OwnedBy(db.accounts, userId)[k]])
                && r.value[k].userId == userId
    {
      var user := GetAccountUser(db.users, userId);
      if user.Err? {
        return Err(user.fault);
      }
      var accounts := db.accounts;
      var owned := OwnedBy(accounts, user.value.id);
      r := Ok(seq(|owned|, k requires 0 <= k < |owned| => AccountDtoFrom(accounts[owned[k]])));
    }
  }
}
