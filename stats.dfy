/**
 * The statistics view: per-category totals with its own matching rule
 * (built-in categories by name, the user's by id) and the month-by-month
 * income/expense series over a continuous month axis.
 */
module Stats {
  import opened Wrappers
  import opened Domain
  import opened Money

  // ---------------------------------------------------------------------
  // Per-category totals (calculateCategoryTotals)
  // ---------------------------------------------------------------------

  /** The built-in categories of this view; they differ from the dashboard's. */
  const StatsIncomeCategories: seq<Category> := [
    Category("default_salary", None, "Зарплата", Income),
    Category("default_bonus", None, "Премия", Income),
    Category("default_other_income", None, "Другие доходы", Income)
  ]

  const StatsExpenseCategories: seq<Category> := [
    Category("default_food", None, "Еда", Expense),
    Category("default_transport", None, "Транспорт", Expense),
    Category("default_utilities", None, "Коммунальные услуги", Expense),
    Category("default_entertainment", None, "Развлечения", Expense)
  ]

  /** `id.startsWith('default_')`. */
  predicate IsBuiltInId(id: string)
  {
    "default_" <= id
  }

  /** Built-in categories match on the stored category name, the others on the category id; the type must agree. */
  predicate Matches(c: Category, tx: Transaction, t: TxType)
  {
    if IsBuiltInId(c.id) then tx.category == Some(c.name) && tx.kind == t
    else tx.categoryId == c.id && tx.kind == t
  }

  /** What a transaction adds to a sum of type `t`: its signed amount for income, |amount| for expense. */
  function Contribution(tx: Transaction, t: TxType): (r: real)
    ensures t == Expense || tx.amount >= 0.0 ==> r == Abs(tx.amount)
    ensures t == Income && tx.amount < 0.0 ==> r < 0.0
  {
    if t == Income then tx.amount else Abs(tx.amount)
  }

  /** Σ contribution of the transactions matching category `c` for type `t`. */
  function MatchSum(txs: seq<Transaction>, c: Category, t: TxType): (r: real)
    ensures t == Expense ==> r >= 0.0
    ensures (forall tx :: tx in txs ==> !Matches(c, tx, t)) ==> r == 0.0
  {
    if txs == [] then 0.0
    else
      var p := txs[..|txs| - 1];
      assert forall tx :: tx in p ==> tx in txs;
      var x := txs[|txs| - 1];
      MatchSum(p, c, t) + (if Matches(c, x, t) then Contribution(x, t) else 0.0)
  }

  /**
   * `calculateCategoryTotals`: each category with the sum of its matching
   * transactions rounded to two decimals, keeping the categories' order and
   * only rounded totals above zero.
   */
  function CategoryTotals(cats: seq<Category>, txs: seq<Transaction>, t: TxType): (r: seq<CategoryTotal>)
    ensures |r| <= |cats|
    ensures forall e :: e in r ==>
      && e.category in cats && e.total == Round(MatchSum(txs, e.category, t)) && e.total > 0.0
      && MatchSum(txs, e.category, t) > 0.0
    ensures forall c :: c in cats && Round(MatchSum(txs, c, t)) > 0.0 ==> CategoryTotal(c, Round(MatchSum(txs, c, t))) in r
  {
    if cats == [] then []
    else
      var rest := CategoryTotals(cats[1..], txs, t);
      assert forall c :: c in cats <==> c == cats[0] || c in cats[1..];
      TotalEntry(cats[0], txs, t) + rest
  }

  /** The entry of one category: its rounded total, unless that is 0. */
  function TotalEntry(c: Category, txs: seq<Transaction>, t: TxType): seq<CategoryTotal>
  {
    var s := Round(MatchSum(txs, c, t));
    if s > 0.0 then [CategoryTotal(c, s)] else []
  }

  /** The totals of a list of categories are those of its parts, in the same order. */
  lemma {:induction false} CategoryTotalsAppend(a: seq<Category>, b: seq<Category>, txs: seq<Transaction>, t: TxType)
    ensures CategoryTotals(a + b, txs, t) == CategoryTotals(a, txs, t) + CategoryTotals(b, txs, t)
    decreases |a|
  {
    if a == [] {
      assert a + b == b;
    } else {
      assert (a + b)[1..] == a[1..] + b;
      CategoryTotalsAppend(a[1..], b, txs, t);
    }
  }

  /** Categories that no transaction matches contribute no entries. */
  lemma {:induction false} CategoryTotalsNoMatch(cats: seq<Category>, txs: seq<Transaction>, t: TxType)
    requires forall c, tx :: c in cats && tx in txs ==> !Matches(c, tx, t)
    ensures CategoryTotals(cats, txs, t) == []
    decreases |cats|
  {
    if cats != [] {
      assert forall c :: c in cats[1..] ==> c in cats;
      CategoryTotalsNoMatch(cats[1..], txs, t);
      assert MatchSum(txs, cats[0], t) == 0.0;
      assert Money.From(0.0) == 0;
    }
  }

  /**
   * The income pie: this view's built-in income categories followed by the
   * user's, over the date-filtered transactions; the built-in entries come first.
   */
  function IncomeData(userIncome: seq<Category>, txs: seq<Transaction>, start: Date, end: Date): (r: seq<CategoryTotal>)
    ensures r == CategoryTotals(StatsIncomeCategories, FilterByDate(txs, start, end), Income)
               + CategoryTotals(userIncome, FilterByDate(txs, start, end), Income)
  {
    CategoryTotalsAppend(StatsIncomeCategories, userIncome, FilterByDate(txs, start, end), Income);
    CategoryTotals(StatsIncomeCategories + userIncome, FilterByDate(txs, start, end), Income)
  }

  /** The expense pie, built the same way from the expense categories. */
  function ExpenseData(userExpense: seq<Category>, txs: seq<Transaction>, start: Date, end: Date): (r: seq<CategoryTotal>)
    ensures r == CategoryTotals(StatsExpenseCategories, FilterByDate(txs, start, end), Expense)
               + CategoryTotals(userExpense, FilterByDate(txs, start, end), Expense)
  {
    CategoryTotalsAppend(StatsExpenseCategories, userExpense, FilterByDate(txs, start, end), Expense);
    CategoryTotals(StatsExpenseCategories + userExpense, FilterByDate(txs, start, end), Expense)
  }

  // ---------------------------------------------------------------------
  // The month axis (prepareBarData)
  // ---------------------------------------------------------------------

  datatype YearMonth = YearMonth(year: int, month: Month)

  function MonthOf(d: Date): YearMonth
  {
    YearMonth(d.year, d.month)
  }

  /** Months counted from January of year 0. */
  function MonthIndex(m: YearMonth): int
  {
    m.year * 12 + (m.month - 1)
  }

  /** The month with the given index. */
  function MonthAt(i: int): (m: YearMonth)
    ensures MonthIndex(m) == i
  {
    YearMonth(i / 12, i % 12 + 1)
  }

  lemma MonthAtIndex(m: YearMonth)
    ensures MonthAt(MonthIndex(m)) == m
  {
    var i := MonthIndex(m);
    assert i == m.year * 12 + (m.month - 1);
    assert i / 12 == m.year && i % 12 == m.month - 1;
  }

  /** `setMonth(getMonth() + 1)` on the first day of a month. */
  function NextMonth(m: YearMonth): (r: YearMonth)
    ensures MonthIndex(r) == MonthIndex(m) + 1
  {
    if m.month == 12 then YearMonth(m.year + 1, 1) else YearMonth(m.year, m.month + 1)
  }

  /** How many months the axis from `start`'s month to `end`'s month has. */
  function MonthCount(start: Date, end: Date): nat
  {
    var s, e := MonthIndex(MonthOf(start)), MonthIndex(MonthOf(end));
    if s <= e then e - s + 1 else 0
  }

  /** The first day of a month is not after `end` exactly when the month is not after `end`'s month. */
  lemma FirstDayNotAfter(m: YearMonth, end: Date)
    ensures DateLeq(Date(m.year, m.month, 1), end) <==> MonthIndex(m) <= MonthIndex(MonthOf(end))
  {
  }

  /** Days in order lie in months in order. */
  lemma MonthOfMonotone(a: Date, b: Date)
    requires DateLeq(a, b)
    ensures MonthIndex(MonthOf(a)) <= MonthIndex(MonthOf(b))
  {
  }

  /**
   * The month loop: from the first day of `start`'s month, push the month and
   * step one month ahead while that first day is not after `end`.
   */
  method MonthsInRange(start: Date, end: Date) returns (months: seq<YearMonth>)
    ensures |months| == MonthCount(start, end)
    ensures |months| > 0 ==> months[0] == MonthOf(start) && months[|months| - 1] == MonthOf(end)
    ensures forall i :: 0 < i < |months| ==> months[i] == NextMonth(months[i - 1])
    ensures forall i :: 0 <= i < |months| ==> MonthIndex(months[i]) == MonthIndex(MonthOf(start)) + i
    ensures forall i, j :: 0 <= i < j < |months| ==> months[i] != months[j]
  {
    months := [];
    var current := MonthOf(start);
    while DateLeq(Date(current.year, current.month, 1), end)
      invariant MonthIndex(current) == MonthIndex(MonthOf(start)) + |months|
      invariant |months| == 0 ==> current == MonthOf(start)
      invariant |months| > 0 ==> months[0] == MonthOf(start) && current == NextMonth(months[|months| - 1])
      invariant |months| > 0 ==> MonthIndex(current) <= MonthIndex(MonthOf(end)) + 1
      invariant forall i :: 0 < i < |months| ==> months[i] == NextMonth(months[i - 1])
      invariant forall i :: 0 <= i < |months| ==> MonthIndex(months[i]) == MonthIndex(MonthOf(start)) + i
      decreases MonthIndex(MonthOf(end)) + 1 - MonthIndex(current)
    {
      FirstDayNotAfter(current, end);
      months := months + [current];
      current := NextMonth(current);
    }
    FirstDayNotAfter(current, end);
    if |months| > 0 {
      MonthAtIndex(months[|months| - 1]);
      MonthAtIndex(MonthOf(end));
    }
  }

  // ---------------------------------------------------------------------
  // Monthly sums
  // ---------------------------------------------------------------------

  /** One bar of the chart. */
  datatype MonthBar = MonthBar(month: YearMonth, income: real, expense: real)

  /**
   * Σ contribution of the transactions of type `t` dated in month `m`: the
   * month's income (signed amounts) or expense (|amount|).
   */
  function MonthSum(txs: seq<Transaction>, m: YearMonth, t: TxType): (r: real)
    ensures t == Expense ==> r >= 0.0
    ensures (forall tx :: tx in txs ==> tx.kind != t || MonthOf(tx.date) != m) ==> r == 0.0
  {
    if txs == [] then 0.0
    else
      var p, x := txs[..|txs| - 1], txs[|txs| - 1];
      assert forall tx :: tx in p ==> tx in txs;
      MonthSum(p, m, t) + (if x.kind == t && MonthOf(x.date) == m then Contribution(x, t) else 0.0)
  }

  /** Σ contribution of all transactions of type `t`. */
  function KindSum(txs: seq<Transaction>, t: TxType): real
  {
    if txs == [] then 0.0
    else
      var x := txs[|txs| - 1];
      KindSum(txs[..|txs| - 1], t) + (if x.kind == t then Contribution(x, t) else 0.0)
  }

  /** The month sums of the given months, added up. */
  function Series(txs: seq<Transaction>, months: seq<YearMonth>, t: TxType): real
  {
    if months == [] then 0.0
    else Series(txs, months[..|months| - 1], t) + MonthSum(txs, months[|months| - 1], t)
  }

  function BarsTotal(bars: seq<MonthBar>, t: TxType): real
  {
    if bars == [] then 0.0
    else BarsTotal(bars[..|bars| - 1], t) + (if t == Income then bars[|bars| - 1].income else bars[|bars| - 1].expense)
  }

  /** Different months have different indices. */
  lemma MonthIndexInjective(a: YearMonth, b: YearMonth)
    requires MonthIndex(a) == MonthIndex(b)
    ensures a == b
  {
    MonthAtIndex(a);
    MonthAtIndex(b);
  }

  /** Without transactions every month's sum is 0, so the series is 0. */
  lemma {:induction false} SeriesEmpty(months: seq<YearMonth>, t: TxType)
    ensures Series([], months, t) == 0.0
    decreases |months|
  {
    if months != [] {
      SeriesEmpty(months[..|months| - 1], t);
    }
  }

  /** Over distinct months, a further transaction adds its contribution once if its month is among them, else nothing. */
  lemma {:induction false} SeriesSnoc(txs: seq<Transaction>, x: Transaction, months: seq<YearMonth>, t: TxType)
    requires forall i, j :: 0 <= i < j < |months| ==> months[i] != months[j]
    ensures Series(txs + [x], months, t) == Series(txs, months, t)
      + (if x.kind == t && MonthOf(x.date) in months then Contribution(x, t) else 0.0)
    decreases |months|
  {
    if months != [] {
      var p, m := months[..|months| - 1], months[|months| - 1];
      SeriesSnoc(txs, x, p, t);
      assert (txs + [x])[..|txs + [x]| - 1] == txs;
      assert MonthOf(x.date) in months <==> MonthOf(x.date) in p || MonthOf(x.date) == m;
      assert m !in p;
    }
  }

  /**
   * When the months are distinct and every transaction of type `t` falls in
   * one of them, the months' sums add up to the overall sum: each transaction
   * is counted in exactly one month.
   */
  lemma {:induction false} SeriesIsKindSum(txs: seq<Transaction>, months: seq<YearMonth>, t: TxType)
    requires forall i, j :: 0 <= i < j < |months| ==> months[i] != months[j]
    requires forall tx :: tx in txs && tx.kind == t ==> MonthOf(tx.date) in months
    ensures Series(txs, months, t) == KindSum(txs, t)
    decreases |txs|
  {
    if txs == [] {
      SeriesEmpty(months, t);
    } else {
      var p, x := txs[..|txs| - 1], txs[|txs| - 1];
      assert txs == p + [x];
      assert forall tx :: tx in p ==> tx in txs;
      SeriesIsKindSum(p, months, t);
      SeriesSnoc(p, x, months, t);
    }
  }

  /** Bars carrying the month sums of the given months add up to their series. */
  lemma {:induction false} BarsTotalIsSeries(bars: seq<MonthBar>, months: seq<YearMonth>, txs: seq<Transaction>)
    requires |bars| == |months|
    requires forall i :: 0 <= i < |bars| ==>
      && bars[i].month == months[i]
      && bars[i].income == MonthSum(txs, months[i], Income)
      && bars[i].expense == MonthSum(txs, months[i], Expense)
    ensures BarsTotal(bars, Income) == Series(txs, months, Income)
    ensures BarsTotal(bars, Expense) == Series(txs, months, Expense)
    decreases |bars|
  {
    if bars != [] {
      var n := |bars|;
      BarsTotalIsSeries(bars[..n - 1], months[..n - 1], txs);
    }
  }

  /**
   * `prepareBarData`: one bar per month of the axis, carrying the month's income
   * and expense over the date-filtered transactions only. Since the filtered
   * days lie on the axis, the bars add up to the filtered totals.
   */
  method PrepareBarData(txs: seq<Transaction>, start: Date, end: Date) returns (bars: seq<MonthBar>)
    ensures |bars| == MonthCount(start, end)
    ensures forall i :: 0 <= i < |bars| ==>
      && MonthIndex(bars[i].month) == MonthIndex(MonthOf(start)) + i
      && bars[i].income == MonthSum(FilterByDate(txs, start, end), bars[i].month, Income)
      && bars[i].expense == MonthSum(FilterByDate(txs, start, end), bars[i].month, Expense)
    ensures BarsTotal(bars, Income) == KindSum(FilterByDate(txs, start, end), Income)
    ensures BarsTotal(bars, Expense) == KindSum(FilterByDate(txs, start, end), Expense)
  {
    var months := MonthsInRange(start, end);
    var filtered := FilterByDate(txs, start, end);
    bars := seq(|months|, i requires 0 <= i < |months| =>
      MonthBar(months[i], MonthSum(filtered, months[i], Income), MonthSum(filtered, months[i], Expense)));
    BarsTotalIsSeries(bars, months, filtered);
    var s := MonthIndex(MonthOf(start));
    forall tx | tx in filtered
      ensures MonthOf(tx.date) in months
    {
      MonthOfMonotone(start, tx.date);
      MonthOfMonotone(tx.date, end);
      var j := MonthIndex(MonthOf(tx.date)) - s;
      MonthIndexInjective(months[j], MonthOf(tx.date));
    }
    SeriesIsKindSum(filtered, months, Income);
    SeriesIsKindSum(filtered, months, Expense);
  }

  /** A transaction outside the date range changes no month's sums. */
  lemma OutOfRangeIgnored(txs: seq<Transaction>, x: Transaction, start: Date, end: Date, m: YearMonth, t: TxType)
    requires !InRange(x, start, end)
    ensures MonthSum(FilterByDate(txs + [x], start, end), m, t) == MonthSum(FilterByDate(txs, start, end), m, t)
  {
    FilterByDateSnoc(txs, x, start, end);
    var f := FilterByDate(txs, start, end);
    assert f + [] == f;
  }
}
