/**
 * Worked scenarios on concrete data, proved by the verifier: a two-month
 * chart, adding transactions to an account, the window left open when the
 * balance update fails, and the refusal to delete a category in use.
 */
module Scenarios {
  import opened Wrappers
  import opened Domain
  import opened Stats
  import opened Reducers
  import opened Auth
  import opened Actions

  /**
   * From 10 January to 20 February: an income of 1000 in January and an
   * expense of 300 in February give two bars, each month with its own sum only.
   */
  method TwoMonthChart() returns (bars: seq<MonthBar>)
    ensures bars == [MonthBar(YearMonth(2024, 1), 1000.0, 0.0), MonthBar(YearMonth(2024, 2), 0.0, 300.0)]
  {
    var income := Transaction(Some("1"), "u1", "a1", "default_salary", Some("Зарплата"),
                              1000.0, Date(2024, 1, 15), "", Income, "");
    var expense := Transaction(Some("2"), "u1", "a1", "default_food", Some("Еда"),
                               -300.0, Date(2024, 2, 3), "", Expense, "");
    var start, end := Date(2024, 1, 10), Date(2024, 2, 20);
    bars := PrepareBarData([income, expense], start, end);
    var f := FilterByDate([income, expense], start, end);
    assert f == [income, expense];
    MonthAtIndex(bars[0].month);
    MonthAtIndex(bars[1].month);
    assert bars[0].month == YearMonth(2024, 1);
    assert bars[1].month == YearMonth(2024, 2);
    assert [income, expense][..1] == [income];
    assert MonthSum(f, YearMonth(2024, 1), Income) == 1000.0;
    assert MonthSum(f, YearMonth(2024, 1), Expense) == 0.0;
    assert MonthSum(f, YearMonth(2024, 2), Income) == 0.0;
    assert MonthSum(f, YearMonth(2024, 2), Expense) == 300.0;
  }

  function Wallet(balance: real): Account
  {
    Account("a1", "u1", "Кошелек", "RUB", Some(balance))
  }

  function Entry(categoryId: string, amount: real, kind: TxType): Transaction
  {
    Transaction(None, "u1", "a1", categoryId, None, amount, Date(2024, 3, 1), "", kind, "")
  }

  /**
   * An account at 0 receives an income of 100, then an expense of 25: its
   * balance is 100 and then 75, and both transactions are in the ledger.
   */
  method IncomeThenExpense() returns (ledger: seq<Transaction>, balance: Option<real>)
    ensures |ledger| == 2 && ledger[0].amount == 100.0 && ledger[1].amount == -25.0
    ensures balance == Some(75.0)
  {
    var backend := new Backend([], [Wallet(0.0)], [], 1);
    var auth := new AuthState(None);
    var store := new Store(auth);
    store.Dispatch(FetchAccountsSuccess([Wallet(0.0)]));

    AddToWallet(store, backend, 0.0, Entry("default_salary", 100.0, Income));
    AddToWallet(store, backend, 100.0, Entry("default_food", -25.0, Expense));
    ledger := store.transactions.data;
    balance := store.accounts.data[0].balance;
  }

  /**
   * Adding a transaction that keeps the only account, the wallet, at or above
   * 0 moves its balance by the transaction's amount, in the store and in the
   * backend, and appends the transaction to the ledger.
   */
  method AddToWallet(store: Store, backend: Backend, balance: real, e: Transaction)
    requires e.accountId == "a1" && balance + e.amount >= 0.0
    requires store.accounts.data == [Wallet(balance)] && backend.accounts == [Wallet(balance)]
    modifies store, backend
    ensures store.accounts.data == [Wallet(balance + e.amount)]
    ensures backend.accounts == [Wallet(balance + e.amount)]
    ensures |store.transactions.data| == |old(store.transactions.data)| + 1
    ensures store.transactions.data[..|old(store.transactions.data)|] == old(store.transactions.data)
    ensures store.transactions.data[|old(store.transactions.data)|].amount == e.amount
  {
    var r := store.AddTransaction(e, backend, Pass, Pass);
    assert AccountIndex([Wallet(balance)], "a1") == Some(0);
    assert store.accounts.data == ReplaceWhere([Wallet(balance)], AccountKey, Wallet(balance + e.amount));
  }

  /**
   * An expense larger than the balance leaves the account at 0, not below.
   */
  method OverdraftClamped() returns (balance: Option<real>)
    ensures balance == Some(0.0)
  {
    var backend := new Backend([], [Wallet(10.0)], [], 1);
    var auth := new AuthState(None);
    var store := new Store(auth);
    store.Dispatch(FetchAccountsSuccess([Wallet(10.0)]));
    var r := store.AddTransaction(Entry("default_food", -25.0, Expense), backend, Pass, Pass);
    assert AccountIndex([Wallet(10.0)], "a1") == Some(0);
    assert store.accounts.data == ReplaceWhere([Wallet(10.0)], AccountKey, Wallet(0.0));
    balance := store.accounts.data[0].balance;
  }

  /**
   * The two writes are not atomic: when the balance update fails after the
   * transaction was stored, the ledger has the transaction but the balance
   * is what it was, and the failure is reported.
   */
  method BalanceUpdateFails() returns (ledger: seq<Transaction>, balance: Option<real>, r: Outcome)
    ensures |ledger| == 1 && ledger[0].amount == 100.0
    ensures balance == Some(0.0)
    ensures r == Fail("Network Error")
  {
    var backend := new Backend([], [Wallet(0.0)], [], 1);
    var auth := new AuthState(None);
    var store := new Store(auth);
    store.Dispatch(FetchAccountsSuccess([Wallet(0.0)]));
    r := store.AddTransaction(Entry("default_salary", 100.0, Income), backend, Pass, Fail("Network Error"));
    ledger := store.transactions.data;
    balance := store.accounts.data[0].balance;
  }

  /**
   * A category that a transaction refers to is not deleted: the list and the
   * backend keep it, and the refusal is reported.
   */
  method DeleteCategoryInUse() returns (categories: seq<Category>, r: Outcome)
    ensures categories == [Category("c1", Some("u1"), "Кафе", Expense)]
    ensures r == Fail(CategoryInUseMessage)
  {
    var cafe := Category("c1", Some("u1"), "Кафе", Expense);
    var lunch := Entry("c1", -12.5, Expense);
    var backend := new Backend([lunch], [Wallet(0.0)], [cafe], 1);
    var auth := new AuthState(Some(User("u1", "u1@example.com", "U", "RUB")));
    var store := new Store(auth);
    store.Dispatch(FetchTransactionsSuccess([lunch]));
    store.Dispatch(FetchCategoriesSuccess([cafe]));
    assert InUse(store.transactions.data, "c1");
    r := store.DeleteCategory("c1", backend, Pass, Pass);
    categories := store.categories.data;
  }

  /**
   * A category no transaction refers to is deleted; with nobody signed in the
   * list is not refetched and simply loses it.
   */
  method DeleteUnusedCategory() returns (categories: seq<Category>, r: Outcome)
    ensures categories == [Category("c2", Some("u1"), "Спорт", Expense)]
    ensures r == Pass
  {
    var cafe := Category("c1", Some("u1"), "Кафе", Expense);
    var sport := Category("c2", Some("u1"), "Спорт", Expense);
    var backend := new Backend([], [Wallet(0.0)], [cafe, sport], 1);
    var auth := new AuthState(None);
    var store := new Store(auth);
    store.Dispatch(FetchCategoriesSuccess([cafe, sport]));
    assert !InUse(store.transactions.data, "c1");
    assert cafe in backend.categories;
    r := store.DeleteCategory("c1", backend, Pass, Pass);
    assert RefetchUserId(auth.user).None?;
    assert store.categories.data == RemoveWhere([cafe, sport], CategoryKey, "c1");
    assert RemoveWhere([cafe, sport], CategoryKey, "c1") == [sport] by {
      assert [cafe, sport][1..] == [sport];
      assert RemoveWhere([sport], CategoryKey, "c1") == [sport] + RemoveWhere([], CategoryKey, "c1");
    }
    categories := store.categories.data;
  }
}
