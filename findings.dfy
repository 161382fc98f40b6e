/**
 * The edit form and the statistics view disagree: the edit form rebuilds a
 * transaction without its category name, and the statistics view finds the
 * transactions of a built-in category by that name.
 */
module Findings {
  import opened Wrappers
  import opened Domain
  import opened Dashboard
  import opened Stats

  /** An expense of 50 in the built-in "Транспорт" category, as a new submission stores it. */
  function Taxi(): Transaction
  {
    Transaction(Some("7"), "u1", "a1", "default_transport", Some("Транспорт"), -50.0,
                Date(2024, 3, 4), "", Expense, "")
  }

  /** The edit changes the amount to 40 and keeps account, category and date. */
  function TaxiEdit(): Draft
  {
    Draft("a1", "default_transport", Some(40.0), Date(2024, 3, 4), "")
  }

  /** The statistics view's "Транспорт" category. */
  function StatsTransport(): Category
  {
    StatsExpenseCategories[1]
  }

  /**
   * Before the edit the expense counts for "Транспорт" in the statistics;
   * after an edit that keeps its category, it no longer counts anywhere
   * among the built-in expense categories.
   */
  lemma EditDropsBuiltInTotal()
    ensures MatchSum([Taxi()], StatsTransport(), Expense) == 50.0
    ensures EditedTransaction(Taxi(), TaxiEdit(), Expense).Ok?
    ensures var edited := EditedTransaction(Taxi(), TaxiEdit(), Expense).value;
      && edited.categoryId == Taxi().categoryId
      && MatchSum([edited], StatsTransport(), Expense) == 0.0
      && CategoryTotals(StatsExpenseCategories, [edited], Expense) == []
  {
    var edited := EditedTransaction(Taxi(), TaxiEdit(), Expense).value;
    assert [Taxi()][..0] == [];
    assert [edited][..0] == [];
    forall c, tx | c in StatsExpenseCategories && tx in [edited]
      ensures !Matches(c, tx, Expense)
    {
      assert IsBuiltInId(c.id);
      EditedNeverMatchesBuiltIn(Taxi(), TaxiEdit(), Expense, c);
    }
    CategoryTotalsNoMatch(StatsExpenseCategories, [edited], Expense);
  }

  /** As written, no edited transaction matches any built-in category in the statistics. */
  lemma EditedNeverMatchesBuiltIn(editing: Transaction, draft: Draft, t: TxType, c: Category)
    requires ValidAmount(draft.amount) && IsBuiltInId(c.id)
    ensures !Matches(c, EditedTransaction(editing, draft, t).value, t)
  {
  }

  /**
   * With the category name kept, an edited transaction of a built-in category
   * counts for every built-in statistics category of that name and type, just
   * as a newly submitted one does.
   */
  lemma NamedEditMatchesBuiltIn(editing: Transaction, draft: Draft, t: TxType, userCategories: seq<Category>, chosen: Category, c: Category)
    requires ValidAmount(draft.amount)
    requires chosen in AllCategories(userCategories) && chosen.id == draft.categoryId
    requires forall d :: d in AllCategories(userCategories) && d.id == draft.categoryId ==> d.name == chosen.name
    requires IsBuiltInId(c.id) && c.name == chosen.name
    ensures Matches(c, EditedTransactionNamed(editing, draft, t, userCategories).value, t)
  {
  }

  /** With the name kept, the edited taxi ride of 40 counts for "Транспорт" again. */
  lemma NamedEditKeepsBuiltInTotal()
    ensures EditedTransactionNamed(Taxi(), TaxiEdit(), Expense, []).Ok?
    ensures var edited := EditedTransactionNamed(Taxi(), TaxiEdit(), Expense, []).value;
      MatchSum([edited], StatsTransport(), Expense) == 40.0
  {
    var all := AllCategories([]);
    assert CategoriesOfType([], Income) == [] && CategoriesOfType([], Expense) == [];
    assert all == DefaultIncomeCategories + DefaultExpenseCategories;
    forall d | d in all && d.id == "default_transport"
      ensures d.name == "Транспорт"
    {
      assert d in DefaultIncomeCategories || d in DefaultExpenseCategories;
    }
    assert DefaultExpenseCategories[0] in all;
    NamedEditMatchesBuiltIn(Taxi(), TaxiEdit(), Expense, [], DefaultExpenseCategories[0], StatsTransport());
    var edited := EditedTransactionNamed(Taxi(), TaxiEdit(), Expense, []).value;
    assert [edited][..0] == [];
  }
}
