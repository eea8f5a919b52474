/**
 * The three repositories the services share (users, accounts, transactions)
 * and the derived queries the services call on them.
 */
module Repository {
  import opened Types

  /**
   * `findByAccountNumber`: the account carrying `number`, the first in id
   * order if several do.
   */
  function FindByNumber(accounts: seq<Account>, number: string): (r: Option<AccountId>)
    ensures r.Some? ==> r.value < |accounts| && accounts[r.value].number == number
    ensures r.Some? ==> forall j :: 0 <= j < r.value ==> accounts[j].number != number
    ensures r.None? <==> forall j :: 0 <= j < |accounts| ==> accounts[j].number != number
  {
    if |accounts| == 0 then None
    else
      match FindByNumber(accounts[..|accounts| - 1], number)
      case Some(i) => Some(i)
      case None => if accounts[|accounts| - 1].number == number then Some(|accounts| - 1) else None
  }

  /** `findByAccountUser`: the ids of the user's accounts, in id order, whatever their status. */
  function OwnedBy(accounts: seq<Account>, user: UserId): (r: seq<AccountId>)
    ensures forall k :: 0 <= k < |r| ==> r[k] < |accounts| && accounts[r[k]].user == user
    ensures forall k, l :: 0 <= k < l < |r| ==> r[k] < r[l]
    ensures forall i :: 0 <= i < |accounts| && accounts[i].user == user ==> i in r
  {
    if |accounts| == 0 then []
    else
      var n := |accounts| - 1;
      OwnedBy(accounts[..n], user) + (if accounts[n].user == user then [n] else [])
  }

  /** `countByAccountUser`. */
  function CountByUser(accounts: seq<Account>, user: UserId): (n: nat)
    ensures n == 0 <==> forall i :: 0 <= i < |accounts| ==> accounts[i].user != user
  {
    var owned := OwnedBy(accounts, user);
    assert |owned| > 0 ==> accounts[owned[0]].user == user;
    |owned|
  }

  /** Appending an account adds one to its owner's count and leaves every other count alone. */
  lemma CountAppend(accounts: seq<Account>, a: Account, user: UserId)
    ensures CountByUser(accounts + [a], user)
         == CountByUser(accounts, user) + (if a.user == user then 1 else 0)
  {
    assert (accounts + [a])[..|accounts|] == accounts;
  }

  /** The user query sees only owners: changing anything else leaves it as it was. */
  lemma {:induction false} OwnedBySameOwners(a: seq<Account>, b: seq<Account>, user: UserId)
    requires |a| == |b|
    requires forall i :: 0 <= i < |a| ==> a[i].user == b[i].user
    ensures OwnedBy(a, user) == OwnedBy(b, user)
  {
    if |a| > 0 {
      OwnedBySameOwners(a[..|a| - 1], b[..|b| - 1], user);
    }
  }

  /** The number query sees only numbers: changing anything else leaves it as it was. */
  lemma FindByNumberSameNumbers(a: seq<Account>, b: seq<Account>, number: string)
    requires |a| == |b|
    requires forall i :: 0 <= i < |a| ==> a[i].number == b[i].number
    ensures FindByNumber(a, number) == FindByNumber(b, number)
  {
  }

  /** Referential integrity the database keeps: accounts belong to users, transactions to accounts. */
  predicate WellFormed(users: map<UserId, string>, accounts: seq<Account>,
                       transactions: map<TransactionId, Transaction>)
  {
    && (forall i :: 0 <= i < |accounts| ==> accounts[i].user in users)
    && (forall id :: id in transactions ==> transactions[id].account < |accounts|)
  }

  /** The backing store: `AccountUserRepository`, `AccountRepository`, `TransactionRepository`. */
  class Store {
    var users: map<UserId, string>
    var accounts: seq<Account>
    var transactions: map<TransactionId, Transaction>

    ghost predicate Valid()
      reads this
    {
      WellFormed(users, accounts, transactions)
    }

    constructor (users: map<UserId, string>, accounts: seq<Account>,
                 transactions: map<TransactionId, Transaction>)
      requires WellFormed(users, accounts, transactions)
      ensures Valid()
      ensures this.users == users && this.accounts == accounts && this.transactions == transactions
    {
      this.users := users;
      this.accounts := accounts;
      this.transactions := transactions;
    }
  }
}
