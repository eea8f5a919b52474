/**
 * Client code that drives the services through the situations the
 * repository's service tests describe, using only the services' contracts.
 */
module Scenarios {
  import opened Types
  import opened Repository
  import opened Accounts
  import opened Transactions

  method OpenFirstAndDelete() {
    var db := new Store(map[12 := "Pobi"], [], map[]);
    var accounts := new AccountService(db);
    var created := accounts.CreateAccount(12, 0, 100);
    assert created == Ok(AccountDto(12, SEED, 0, 100, None));

    var missing := accounts.CreateAccount(7, 100, 100);
    assert missing == Err(Rejected(UserNotFound));

    var deleted := accounts.DeleteAccount(12, SEED, 200);
    assert deleted.Ok? && db.accounts[0].status == Unregistered && db.accounts[0].number == SEED;

    var again := accounts.DeleteAccount(12, SEED, 300);
    assert again == Err(Rejected(AccountAlreadyUnregistered));
  }

  method DeleteRefusals() {
    var pobi := Account(12, "1000000012", InUse, 1000, 0, None);
    var rupi := Account(13, "1000000013", InUse, 0, 0, None);
    var db := new Store(map[12 := "Pobi", 13 := "Rupi"], [pobi, rupi], map[]);
    var accounts := new AccountService(db);

    assert "1000000012"[9] != "1000000013"[9];
    assert "1234567890"[1] != "1000000012"[1];
    assert FindByNumber(db.accounts, "1000000013") == Some(1);
    assert FindByNumber(db.accounts, "1234567890") == None;
    var notEmpty := accounts.DeleteAccount(12, "1000000012", 10);
    assert notEmpty == Err(Rejected(BalanceNotEmpty));
    var unMatch := accounts.DeleteAccount(12, "1000000013", 10);
    assert unMatch == Err(Rejected(UserAccountUnMatch));
    var notFound := accounts.DeleteAccount(12, "1234567890", 10);
    assert notFound == Err(Rejected(AccountNotFound));
    assert db.accounts == [pobi, rupi];
  }

  method UseAndCancel() {
    var account := Account(12, "1000000000", InUse, 10000, 0, None);
    var db := new Store(map[12 := "pobi"], [account], map[]);
    var ledger := new TransactionService(db);

    var used := ledger.UseBalance(12, "1000000000", 2800, 50, "use-1");
    assert used.Ok? && used.value.balanceSnapshot == 7200 && db.accounts[0].balance == 7200;
    assert db.transactions["use-1"] == Transaction(0, Use, S, 2800, 7200, 50);

    var partial := ledger.CancelBalance("use-1", "1000000000", 1500, 60, "cancel-1");
    assert partial == Err(Rejected(CancelMustFully));

    var cancelled := ledger.CancelBalance("use-1", "1000000000", 2800, 60, "cancel-1");
    assert cancelled.Ok? && cancelled.value.transactionType == Cancel;
    assert db.accounts[0].balance == 10000 && db.transactions["cancel-1"].balanceSnapshot == 10000;

    var queried := ledger.QueryTransaction("use-1");
    assert queried.Ok? && queried.value.balanceSnapshot == 7200 && queried.value.transactionType == Use;

    var unknown := ledger.QueryTransaction("asdf");
    assert unknown == Err(Rejected(TransactionNotFound));
  }

  method UseRefusals() {
    var closed := Account(12, "1000000012", Unregistered, 0, 0, None);
    var other := Account(13, "1000000013", InUse, 0, 0, None);
    var small := Account(12, "1234567890", InUse, 1000, 0, None);
    var db := new Store(map[12 := "Pobi", 13 := "Rupi"], [closed, other, small], map[]);
    var ledger := new TransactionService(db);

    assert "1000000012"[9] != "1000000013"[9];
    assert "1234567890"[1] != "1000000012"[1] && "1234567890"[1] != "1000000013"[1];
    assert FindByNumber(db.accounts, "1000000013") == Some(1);
    assert FindByNumber(db.accounts, "1234567890") == Some(2);
    var unMatch := ledger.UseBalance(12, "1000000013", 200, 0, "t1");
    assert unMatch == Err(Rejected(UserAccountUnMatch));
    assert db.accounts == [closed, other, small] && db.accounts[0].number == "1000000012";
    var unregistered := ledger.UseBalance(12, "1000000012", 200, 0, "t1");
    assert unregistered == Err(Rejected(AccountAlreadyUnregistered));
    var exceed := ledger.UseBalance(12, "1234567890", 2000, 0, "t1");
    assert exceed == Err(Rejected(AmountExceedBalance));
    assert db.transactions == map[];

    var failed := ledger.SaveFailedTransaction("1234567890", 2000, 0, "t1");
    assert failed == Ok(());
    assert db.transactions["t1"] == Transaction(2, Use, F, 2000, 1000, 0);
    assert db.accounts[2].balance == 1000;
  }

  method CancelRefusals(now: Time) {
    var account := Account(15, "1000000000", InUse, 10000, 0, None);
    var another := Account(15, "1234567890", InUse, 10000, 0, None);
    var aged := Transaction(0, Use, S, 2000, 8000, now - 2 * ONE_YEAR);
    var db := new Store(map[15 := "Pobi"], [account, another], map["old" := aged]);
    var ledger := new TransactionService(db);

    assert "1234567890"[1] != "1000000000"[1] && "0000000000"[0] != "1000000000"[0];
    assert "0000000000"[0] != "1234567890"[0];
    assert FindByNumber(db.accounts, "1234567890") == Some(1);
    assert FindByNumber(db.accounts, "0000000000") == None;
    var notFound := ledger.CancelBalance("asdf", "1000000000", 200, now, "c1");
    assert notFound == Err(Rejected(TransactionNotFound));
    var noAccount := ledger.CancelBalance("old", "0000000000", 200, now, "c1");
    assert noAccount == Err(Rejected(AccountNotFound));
    var unMatch := ledger.CancelBalance("old", "1234567890", 200, now, "c1");
    assert unMatch == Err(Rejected(TransactionAccountUnMatch));
    var tooOld := ledger.CancelBalance("old", "1000000000", 2000, now, "c1");
    assert tooOld == Err(Rejected(TooOldOrderToCancel));

    var queried := ledger.QueryTransaction("old");
    assert queried.Ok? && queried.value.balanceSnapshot == 8000;
  }
}
