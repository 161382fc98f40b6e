/**
 * The accounting done by the dashboard: the built-in categories, checking a
 * transaction form and building the record it submits, the income and expense
 * totals, the per-category breakdown, the total over all accounts and the
 * clamp on an account's initial balance.
 */
module Dashboard {
  import opened Wrappers
  import opened Domain

  // ---------------------------------------------------------------------
  // Categories
  // ---------------------------------------------------------------------

  const DefaultIncomeCategories: seq<Category> := [
    Category("default_salary", None, "Зарплата", Income),
    Category("default_scholarship", None, "Стипендия", Income),
    Category("default_pension", None, "Пенсия", Income),
    Category("default_other_income", None, "Другое", Income)
  ]

  const DefaultExpenseCategories: seq<Category> := [
    Category("default_transport", None, "Транспорт", Expense),
    Category("default_products", None, "Продукты", Expense),
    Category("default_shopping", None, "Покупки", Expense),
    Category("default_entertainment", None, "Развлечения", Expense),
    Category("default_other_expense", None, "Другое", Expense)
  ]

  /** The categories of one type, in their original order (`categories.filter(c => c.type === type)`). */
  function CategoriesOfType(cs: seq<Category>, t: TxType): (r: seq<Category>)
    ensures |r| <= |cs|
    ensures forall c :: c in r <==> c in cs && c.kind == t
  {
    if cs == [] then []
    else (if cs[0].kind == t then [cs[0]] else []) + CategoriesOfType(cs[1..], t)
  }

  /**
   * Every category a form may pick: built-in income, built-in expense, then the
   * user's income and the user's expense categories.
   */
  function AllCategories(userCategories: seq<Category>): (r: seq<Category>)
    ensures forall c :: c in r <==>
      c in DefaultIncomeCategories || c in DefaultExpenseCategories || c in userCategories
  {
    DefaultIncomeCategories + DefaultExpenseCategories
    + CategoriesOfType(userCategories, Income) + CategoriesOfType(userCategories, Expense)
  }

  /** The first category with the given id, as `Array.prototype.find` returns it. */
  function FindById(cs: seq<Category>, id: string): (r: Option<Category>)
    ensures r.None? <==> forall c :: c in cs ==> c.id != id
    ensures r.Some? ==> exists i :: 0 <= i < |cs| && cs[i] == r.value && r.value.id == id
                          && forall j :: 0 <= j < i ==> cs[j].id != id
  {
    if cs == [] then None
    else if cs[0].id == id then Some(cs[0])
    else
      var r := FindById(cs[1..], id);
      assert forall c :: c in cs[1..] ==> c in cs;
      assert forall c :: c in cs ==> c == cs[0] || c in cs[1..];
      r
  }

  // ---------------------------------------------------------------------
  // The transaction form
  // ---------------------------------------------------------------------

  /**
   * The fields of the transaction form. `amount` is the parsed number of the
   * amount field, `None` when parsing yields NaN.
   */
  datatype Draft = Draft(accountId: string, categoryId: string, amount: Option<real>, date: Date, comment: string)

  /** Why a form is refused (each is reported to the user, and nothing is submitted). */
  datatype EntryError = InvalidAmount | CategoryNotChosen

  predicate ValidAmount(amount: Option<real>)
  {
    amount.Some? && amount.value > 0.0
  }

  /** The stored amount: positive for income, negative for expense. */
  function Signed(t: TxType, amount: real): (r: real)
    ensures Abs(r) == Abs(amount)
    ensures amount > 0.0 ==> (t == Income ==> r > 0.0) && (t == Expense ==> r < 0.0)
  {
    if t == Income then amount else -amount
  }

  /** A record's sign agrees with its type. */
  predicate SignMatchesType(tx: Transaction)
  {
    (tx.kind == Income ==> tx.amount >= 0.0) && (tx.kind == Expense ==> tx.amount <= 0.0)
  }

  /**
   * Submitting a new transaction: the amount must be a number above zero and the
   * chosen category id must be one of the known categories; the record then
   * carries the signed amount, the chosen type and both the category's name and id.
   * The backend assigns the id, so the record has none.
   */
  function NewTransaction(draft: Draft, t: TxType, userCategories: seq<Category>, userId: string, now: string)
    : (r: Result<Transaction, EntryError>)
    ensures !ValidAmount(draft.amount) ==> r == Err(InvalidAmount)
    ensures ValidAmount(draft.amount) && (forall c :: c in AllCategories(userCategories) ==> c.id != draft.categoryId)
            ==> r == Err(CategoryNotChosen)
    ensures r.Ok? <==> ValidAmount(draft.amount) && exists c :: c in AllCategories(userCategories) && c.id == draft.categoryId
    ensures r.Ok? ==>
      var tx := r.value;
      && tx.id.None? && tx.userId == userId && tx.accountId == draft.accountId
      && tx.kind == t && Abs(tx.amount) == draft.amount.value && SignMatchesType(tx)
      && (t == Income ==> tx.amount > 0.0) && (t == Expense ==> tx.amount < 0.0)
      && tx.categoryId == draft.categoryId
      && tx.category.Some?
      && (exists c :: c in AllCategories(userCategories) && c.id == tx.categoryId && c.name == tx.category.value)
      && FindById(AllCategories(userCategories), draft.categoryId).Some?
      && tx.category == Some(FindById(AllCategories(userCategories), draft.categoryId).value.name)
      && tx.date == draft.date && tx.comment == draft.comment && tx.createdAt == now
  {
    if !ValidAmount(draft.amount) then Err(InvalidAmount)
    else match FindById(AllCategories(userCategories), draft.categoryId)
      case None => Err(CategoryNotChosen)
      case Some(c) =>
        Ok(Transaction(None, userId, draft.accountId, c.id, Some(c.name),
                       Signed(t, draft.amount.value), draft.date, draft.comment, t, now))
  }

  /**
   * Saving an edited transaction: only the amount is checked; id, owner and
   * creation time come from the edited record, the rest from the form. The
   * category name is not carried over.
   */
  function EditedTransaction(editing: Transaction, draft: Draft, t: TxType): (r: Result<Transaction, EntryError>)
    ensures r.Err? <==> !ValidAmount(draft.amount)
    ensures r.Err? ==> r.error == InvalidAmount
    ensures r.Ok? ==>
      var tx := r.value;
      && tx.id == editing.id && tx.userId == editing.userId && tx.createdAt == editing.createdAt
      && tx.accountId == draft.accountId && tx.categoryId == draft.categoryId && tx.category.None?
      && tx.kind == t && Abs(tx.amount) == draft.amount.value && SignMatchesType(tx)
      && (t == Income ==> tx.amount > 0.0) && (t == Expense ==> tx.amount < 0.0)
      && tx.date == draft.date && tx.comment == draft.comment
  {
    if !ValidAmount(draft.amount) then Err(InvalidAmount)
    else Ok(Transaction(editing.id, editing.userId, draft.accountId, draft.categoryId, None,
                        Signed(t, draft.amount.value), draft.date, draft.comment, t, editing.createdAt))
  }

  /**
   * Saving an edit as a new submission builds its record: the same fields as
   * `EditedTransaction`, and the name of the chosen category kept beside its id.
   */
  function EditedTransactionNamed(editing: Transaction, draft: Draft, t: TxType, userCategories: seq<Category>)
    : (r: Result<Transaction, EntryError>)
    ensures r.Err? <==> !ValidAmount(draft.amount)
    ensures r.Err? ==> r.error == InvalidAmount
    ensures r.Ok? ==> EditedTransaction(editing, draft, t).Ok?
                      && r.value.(category := None) == EditedTransaction(editing, draft, t).value
    ensures r.Ok? && (exists c :: c in AllCategories(userCategories) && c.id == draft.categoryId) ==>
      r.value.category.Some?
      && exists c :: c in AllCategories(userCategories) && c.id == draft.categoryId && c.name == r.value.category.value
    ensures r.Ok? && (forall c :: c in AllCategories(userCategories) ==> c.id != draft.categoryId) ==>
      r.value.category.None?
  {
    match EditedTransaction(editing, draft, t)
    case Err(e) => Err(e)
    case Ok(tx) =>
      match FindById(AllCategories(userCategories), draft.categoryId)
      case None => Ok(tx)
      case Some(c) => Ok(tx.(category := Some(c.name)))
  }

  // ---------------------------------------------------------------------
  // Totals
  // ---------------------------------------------------------------------

  /** The transactions of one type, in order (`transactions.filter(tx => tx.type === type)`). */
  function TransactionsOfType(txs: seq<Transaction>, t: TxType): (r: seq<Transaction>)
    ensures |r| <= |txs|
    ensures forall tx :: tx in r <==> tx in txs && tx.kind == t
  {
    if txs == [] then []
    else (if txs[0].kind == t then [txs[0]] else []) + TransactionsOfType(txs[1..], t)
  }

  /** Σ |amount|. */
  function SumAbs(txs: seq<Transaction>): (r: real)
    ensures r >= 0.0
  {
    if txs == [] then 0.0 else SumAbs(txs[..|txs| - 1]) + Abs(txs[|txs| - 1].amount)
  }

  /** Σ amount, the net effect of the transactions. */
  function SumSigned(txs: seq<Transaction>): real
  {
    if txs == [] then 0.0 else SumSigned(txs[..|txs| - 1]) + txs[|txs| - 1].amount
  }

  /** `totalIncome` (t = Income) or `totalExpense` (t = Expense). */
  function TotalOf(txs: seq<Transaction>, t: TxType): (r: real)
    ensures r >= 0.0
  {
    SumAbs(TransactionsOfType(txs, t))
  }

  /** The overall balance shown on the dashboard. */
  function Balance(txs: seq<Transaction>): real
  {
    TotalOf(txs, Income) - TotalOf(txs, Expense)
  }

  lemma {:induction false} SumAbsAppend(a: seq<Transaction>, b: seq<Transaction>)
    ensures SumAbs(a + b) == SumAbs(a) + SumAbs(b)
    decreases |b|
  {
    if b != [] {
      assert (a + b)[..|a + b| - 1] == a + b[..|b| - 1];
      SumAbsAppend(a, b[..|b| - 1]);
    } else {
      assert a + b == a;
    }
  }

  lemma {:induction false} SumSignedAppend(a: seq<Transaction>, b: seq<Transaction>)
    ensures SumSigned(a + b) == SumSigned(a) + SumSigned(b)
    decreases |b|
  {
    if b != [] {
      assert (a + b)[..|a + b| - 1] == a + b[..|b| - 1];
      SumSignedAppend(a, b[..|b| - 1]);
    } else {
      assert a + b == a;
    }
  }

  /** Totals add up over consecutive parts of a ledger. */
  lemma {:induction false} TotalOfAppend(a: seq<Transaction>, b: seq<Transaction>, t: TxType)
    ensures TotalOf(a + b, t) == TotalOf(a, t) + TotalOf(b, t)
    decreases |a|
  {
    if a == [] {
      assert a + b == b;
    } else {
      assert (a + b)[1..] == a[1..] + b;
      TotalOfAppend(a[1..], b, t);
      var head := if a[0].kind == t then [a[0]] else [];
      assert TransactionsOfType(a + b, t) == head + TransactionsOfType(a[1..] + b, t);
      assert TransactionsOfType(a, t) == head + TransactionsOfType(a[1..], t);
      SumAbsAppend(head, TransactionsOfType(a[1..] + b, t));
      SumAbsAppend(head, TransactionsOfType(a[1..], t));
      SumAbsAppend(TransactionsOfType(a[1..], t), TransactionsOfType(b, t));
    }
  }

  lemma TotalOfSingle(x: Transaction, t: TxType)
    ensures TotalOf([x], t) == if x.kind == t then Abs(x.amount) else 0.0
  {
    assert TransactionsOfType([x], t) == (if x.kind == t then [x] else []) + TransactionsOfType([], t);
    assert SumAbs([x]) == Abs(x.amount) by { assert [x][..0] == []; }
  }

  lemma BalanceSnoc(p: seq<Transaction>, x: Transaction)
    ensures Balance(p + [x]) == Balance(p) + (if x.kind == Income then Abs(x.amount) else -Abs(x.amount))
  {
    TotalOfAppend(p, [x], Income);
    TotalOfAppend(p, [x], Expense);
    TotalOfSingle(x, Income);
    TotalOfSingle(x, Expense);
  }

  /**
   * When every record's sign agrees with its type, the balance (income total
   * minus expense total) is exactly the net sum of the signed amounts.
   */
  lemma {:induction false} BalanceIsNetAmount(txs: seq<Transaction>)
    requires forall tx :: tx in txs ==> SignMatchesType(tx)
    ensures Balance(txs) == SumSigned(txs)
    decreases |txs|
  {
    if txs != [] {
      var p, x := txs[..|txs| - 1], txs[|txs| - 1];
      assert txs == p + [x];
      assert forall tx :: tx in p ==> tx in txs;
      BalanceIsNetAmount(p);
      BalanceSnoc(p, x);
      assert SumSigned(txs) == SumSigned(p) + x.amount;
    }
  }

  // ---------------------------------------------------------------------
  // Per-category breakdown (groupByCategory)
  // ---------------------------------------------------------------------

  /** The position of the first category of `cs` with id `k`. */
  function FirstIndex(cs: seq<Category>, k: string): (i: nat)
    requires exists c :: c in cs && c.id == k
    ensures i < |cs| && cs[i].id == k
    ensures forall j :: 0 <= j < i ==> cs[j].id != k
  {
    var p := cs[..|cs| - 1];
    if exists c :: c in p && c.id == k then
      var i := FirstIndex(p, k);
      assert cs[i] == p[i];
      i
    else
      assert forall j :: 0 <= j < |p| ==> p[j] in p;
      |cs| - 1
  }

  /**
   * The distinct ids of `cs` in the order they first occur: the key order of
   * the result object, which lists a key where it was first assigned.
   */
  function FirstIds(cs: seq<Category>): (ids: seq<string>)
    ensures forall i, j :: 0 <= i < j < |ids| ==> ids[i] != ids[j]
    ensures forall k :: k in ids <==> exists c :: c in cs && c.id == k
    ensures forall i :: 0 <= i < |ids| ==> exists c :: c in cs && c.id == ids[i]
    ensures forall i, j :: 0 <= i < j < |ids| ==> FirstIndex(cs, ids[i]) < FirstIndex(cs, ids[j])
  {
    if cs == [] then []
    else
      var p := FirstIds(cs[..|cs| - 1]);
      assert forall c :: c in cs <==> c in cs[..|cs| - 1] || c == cs[|cs| - 1];
      FirstIndexOfPrefix(cs, p);
      if cs[|cs| - 1].id in p then p else p + [cs[|cs| - 1].id]
  }

  /** An id that already occurs before the last category keeps its first position. */
  lemma FirstIndexOfPrefix(cs: seq<Category>, p: seq<string>)
    requires cs != []
    requires forall k :: k in p <==> exists c :: c in cs[..|cs| - 1] && c.id == k
    ensures forall k :: k in p ==> (exists c :: c in cs && c.id == k) && FirstIndex(cs, k) == FirstIndex(cs[..|cs| - 1], k)
    ensures cs[|cs| - 1].id !in p ==> FirstIndex(cs, cs[|cs| - 1].id) == |cs| - 1
  {
    forall k | k in p
      ensures (exists c :: c in cs && c.id == k) && FirstIndex(cs, k) == FirstIndex(cs[..|cs| - 1], k)
    {
      var c :| c in cs[..|cs| - 1] && c.id == k;
      assert c in cs;
    }
  }

  /** The position of the last category of `cs` with id `k`. */
  function LastIndex(cs: seq<Category>, k: string): (i: nat)
    requires exists c :: c in cs && c.id == k
    ensures i < |cs| && cs[i].id == k
    ensures forall j :: i < j < |cs| ==> cs[j].id != k
  {
    if cs[|cs| - 1].id == k then |cs| - 1
    else
      var p := cs[..|cs| - 1];
      assert exists c :: c in p && c.id == k by {
        var c :| c in cs && c.id == k;
        assert c in p;
      }
      var i := LastIndex(p, k);
      assert cs[i] == p[i];
      i
  }

  /**
   * For each id, the last category of `cs` with it: an assignment to an object
   * key overwrites the earlier one.
   */
  function LastById(cs: seq<Category>): (m: map<string, Category>)
    ensures forall k :: k in m <==> exists c :: c in cs && c.id == k
    ensures forall k :: k in m ==> m[k] in cs && m[k].id == k
    ensures forall k :: k in m ==> m[k] == cs[LastIndex(cs, k)]
  {
    if cs == [] then map[]
    else
      var p := LastById(cs[..|cs| - 1]);
      assert forall c :: c in cs <==> c in cs[..|cs| - 1] || c == cs[|cs| - 1];
      p[cs[|cs| - 1].id := cs[|cs| - 1]]
  }

  /** Σ |amount| over the transactions whose `categoryId` is `id`. */
  function CategorySum(txs: seq<Transaction>, id: string): (r: real)
    ensures r >= 0.0
  {
    if txs == [] then 0.0
    else CategorySum(txs[..|txs| - 1], id) + (if txs[|txs| - 1].categoryId == id then Abs(txs[|txs| - 1].amount) else 0.0)
  }

  /** Walks the keys in order and keeps those whose total is above zero. */
  function Collect(ids: seq<string>, byId: map<string, Category>, txs: seq<Transaction>): (r: seq<CategoryTotal>)
    requires forall k :: k in ids ==> k in byId && byId[k].id == k
    ensures |r| <= |ids|
    ensures forall e :: e in r ==>
      e.category.id in ids && e.category == byId[e.category.id]
      && e.total == CategorySum(txs, e.category.id) && e.total > 0.0
    ensures forall k :: k in ids && CategorySum(txs, k) > 0.0 ==> exists e :: e in r && e.category.id == k
    ensures (forall i, j :: 0 <= i < j < |ids| ==> ids[i] != ids[j]) ==>
      forall i, j :: 0 <= i < j < |r| ==> r[i].category.id != r[j].category.id
  {
    if ids == [] then []
    else
      var k := ids[|ids| - 1];
      var p := Collect(ids[..|ids| - 1], byId, txs);
      assert forall x :: x in ids <==> x in ids[..|ids| - 1] || x == k;
      var s := CategorySum(txs, k);
      if s > 0.0 then p + [CategoryTotal(byId[k], s)] else p
  }

  /**
   * What `groupByCategory(transactions, type)` returns: one entry per known
   * category id of the requested type whose total is above zero, the total
   * being Σ |amount| of the transactions with that id. Ids that match no
   * category contribute nothing.
   */
  function GroupSpec(all: seq<Category>, txs: seq<Transaction>, t: TxType): (r: seq<CategoryTotal>)
    ensures forall e :: e in r ==>
      e.category in all && e.category.kind == t
      && e.total == CategorySum(txs, e.category.id) && e.total > 0.0
    ensures forall c :: c in all && c.kind == t && CategorySum(txs, c.id) > 0.0 ==>
      exists e :: e in r && e.category.id == c.id
    ensures forall i, j :: 0 <= i < j < |r| ==> r[i].category.id != r[j].category.id
  {
    var typed := CategoriesOfType(all, t);
    Collect(FirstIds(typed), LastById(typed), txs)
  }

  lemma CategorySumStep(txs: seq<Transaction>, j: nat)
    requires j < |txs|
    ensures forall k :: (CategorySum(txs[..j + 1], k)
      == CategorySum(txs[..j], k) + (if txs[j].categoryId == k then Abs(txs[j].amount) else 0.0))
  {
    assert txs[..j + 1][..j] == txs[..j];
  }

  lemma CollectStep(ids: seq<string>, i: nat, byId: map<string, Category>, txs: seq<Transaction>)
    requires i < |ids|
    requires forall k :: k in ids ==> k in byId && byId[k].id == k
    ensures Collect(ids[..i + 1], byId, txs) == Collect(ids[..i], byId, txs)
      + (if CategorySum(txs, ids[i]) > 0.0 then [CategoryTotal(byId[ids[i]], CategorySum(txs, ids[i]))] else [])
  {
    assert ids[..i + 1][..i] == ids[..i];
  }

  /**
   * The first pass: one zero-total entry per category id, in first-insertion order;
   * a later category with an id already present replaces the entry's category.
   */
  method InitialEntries(typed: seq<Category>) returns (order: seq<string>, entry: map<string, Category>, total: map<string, real>)
    ensures order == FirstIds(typed) && entry == LastById(typed)
    ensures total.Keys == entry.Keys
    ensures forall k :: k in total ==> total[k] == 0.0
  {
    order, entry, total := [], map[], map[];
    for i := 0 to |typed|
      invariant order == FirstIds(typed[..i])
      invariant entry == LastById(typed[..i])
      invariant total.Keys == entry.Keys
      invariant forall k :: k in total ==> total[k] == 0.0
    {
      InitialStep(typed, i);
      var c := typed[i];
      if c.id !in entry {
        order := order + [c.id];
      }
      entry := entry[c.id := c];
      total := total[c.id := 0.0];
    }
    assert typed[..|typed|] == typed;
  }

  /** One more category extends the key order by its id when that is new, and overwrites its entry. */
  lemma InitialStep(cs: seq<Category>, i: nat)
    requires i < |cs|
    ensures FirstIds(cs[..i + 1]) == if cs[i].id in LastById(cs[..i]) then FirstIds(cs[..i]) else FirstIds(cs[..i]) + [cs[i].id]
    ensures LastById(cs[..i + 1]) == LastById(cs[..i])[cs[i].id := cs[i]]
  {
    assert cs[..i + 1][..i] == cs[..i];
  }

  /** The second pass: each transaction adds its |amount| to the entry of its category id, if any. */
  method AddAmounts(zero: map<string, real>, txs: seq<Transaction>) returns (total: map<string, real>)
    requires forall k :: k in zero ==> zero[k] == 0.0
    ensures total.Keys == zero.Keys
    ensures forall k :: k in total ==> total[k] == CategorySum(txs, k)
  {
    total := zero;
    for j := 0 to |txs|
      invariant total.Keys == zero.Keys
      invariant forall k :: k in total ==> total[k] == CategorySum(txs[..j], k)
    {
      CategorySumStep(txs, j);
      var id := txs[j].categoryId;
      if id in total {
        total := total[id := total[id] + Abs(txs[j].amount)];
      }
    }
    assert txs[..|txs|] == txs;
  }

  /**
   * `groupByCategory`: fills a dictionary with a zero total for each category of
   * the type, adds |amount| of each transaction to the entry of its category id
   * when there is one, and returns the entries whose total is above zero.
   */
  method GroupByCategory(all: seq<Category>, txs: seq<Transaction>, t: TxType) returns (r: seq<CategoryTotal>)
    ensures r == GroupSpec(all, txs, t)
  {
    var typed := CategoriesOfType(all, t);
    var order, entry, total := InitialEntries(typed);
    assert forall k :: k in order ==> k in entry && entry[k].id == k;
    total := AddAmounts(total, txs);
    r := [];
    for i := 0 to |order|
      invariant r == Collect(order[..i], entry, txs)
    {
      var k := order[i];
      CollectStep(order, i, entry, txs);
      if total[k] > 0.0 {
        r := r + [CategoryTotal(entry[k], total[k])];
      }
    }
    assert order[..|order|] == order;
  }

  /** Σ total of a breakdown. */
  function SumTotals(es: seq<CategoryTotal>): real
  {
    if es == [] then 0.0 else SumTotals(es[..|es| - 1]) + es[|es| - 1].total
  }

  /** Σ over the given ids of their category sums. */
  function SumOverIds(ids: seq<string>, txs: seq<Transaction>): real
  {
    if ids == [] then 0.0 else SumOverIds(ids[..|ids| - 1], txs) + CategorySum(txs, ids[|ids| - 1])
  }

  /** Σ |amount| over the transactions whose category id is among `ids`. */
  function ResolvedSum(txs: seq<Transaction>, ids: seq<string>): real
  {
    if txs == [] then 0.0
    else ResolvedSum(txs[..|txs| - 1], ids) + (if txs[|txs| - 1].categoryId in ids then Abs(txs[|txs| - 1].amount) else 0.0)
  }

  lemma {:induction false} SumTotalsAppend(a: seq<CategoryTotal>, b: seq<CategoryTotal>)
    ensures SumTotals(a + b) == SumTotals(a) + SumTotals(b)
    decreases |b|
  {
    if b != [] {
      assert (a + b)[..|a + b| - 1] == a + b[..|b| - 1];
      SumTotalsAppend(a, b[..|b| - 1]);
    } else {
      assert a + b == a;
    }
  }

  /** Dropping the zero totals does not change the sum. */
  lemma {:induction false} CollectSum(ids: seq<string>, byId: map<string, Category>, txs: seq<Transaction>)
    requires forall k :: k in ids ==> k in byId && byId[k].id == k
    ensures SumTotals(Collect(ids, byId, txs)) == SumOverIds(ids, txs)
    decreases |ids|
  {
    if ids != [] {
      var k := ids[|ids| - 1];
      var p := ids[..|ids| - 1];
      CollectSum(p, byId, txs);
      var s := CategorySum(txs, k);
      if s > 0.0 {
        SumTotalsAppend(Collect(p, byId, txs), [CategoryTotal(byId[k], s)]);
        assert SumTotals([CategoryTotal(byId[k], s)]) == s by { assert [CategoryTotal(byId[k], s)][..0] == []; }
      }
    }
  }

  lemma {:induction false} SumOverIdsEmpty(ids: seq<string>)
    ensures SumOverIds(ids, []) == 0.0
    decreases |ids|
  {
    if ids != [] {
      SumOverIdsEmpty(ids[..|ids| - 1]);
    }
  }

  /** One more transaction adds its |amount| to the sum over distinct ids exactly when its id is among them. */
  lemma {:induction false} SumOverIdsSnoc(ids: seq<string>, txs: seq<Transaction>, x: Transaction)
    requires forall i, j :: 0 <= i < j < |ids| ==> ids[i] != ids[j]
    ensures SumOverIds(ids, txs + [x]) == SumOverIds(ids, txs) + (if x.categoryId in ids then Abs(x.amount) else 0.0)
    decreases |ids|
  {
    if ids != [] {
      var p, k := ids[..|ids| - 1], ids[|ids| - 1];
      SumOverIdsSnoc(p, txs, x);
      assert (txs + [x])[..|txs + [x]| - 1] == txs;
      assert x.categoryId in ids <==> x.categoryId in p || x.categoryId == k;
      assert k !in p;
    }
  }

  /** Summing the category sums over distinct ids is summing the transactions that resolve to one of them. */
  lemma {:induction false} SumOverIdsIsResolved(ids: seq<string>, txs: seq<Transaction>)
    requires forall i, j :: 0 <= i < j < |ids| ==> ids[i] != ids[j]
    ensures SumOverIds(ids, txs) == ResolvedSum(txs, ids)
    decreases |txs|
  {
    if txs == [] {
      SumOverIdsEmpty(ids);
    } else {
      var p := txs[..|txs| - 1];
      SumOverIdsIsResolved(ids, p);
      assert txs == p + [txs[|txs| - 1]];
      SumOverIdsSnoc(ids, p, txs[|txs| - 1]);
    }
  }

  lemma {:induction false} ResolvedSumBound(txs: seq<Transaction>, ids: seq<string>)
    ensures ResolvedSum(txs, ids) <= SumAbs(txs)
    ensures (forall tx :: tx in txs ==> tx.categoryId in ids) ==> ResolvedSum(txs, ids) == SumAbs(txs)
    decreases |txs|
  {
    if txs != [] {
      var p := txs[..|txs| - 1];
      assert forall tx :: tx in p ==> tx in txs;
      ResolvedSumBound(p, ids);
    }
  }

  /**
   * The breakdown never accounts for more than the type's total, and accounts
   * for all of it when every transaction's category id names a category of that type.
   */
  lemma GroupTotalBound(all: seq<Category>, txs: seq<Transaction>, t: TxType)
    ensures SumTotals(GroupSpec(all, txs, t)) <= SumAbs(txs)
    ensures (forall tx :: tx in txs ==> exists c :: c in all && c.kind == t && c.id == tx.categoryId)
            ==> SumTotals(GroupSpec(all, txs, t)) == SumAbs(txs)
  {
    var typed := CategoriesOfType(all, t);
    var ids := FirstIds(typed);
    CollectSum(ids, LastById(typed), txs);
    SumOverIdsIsResolved(ids, txs);
    ResolvedSumBound(txs, ids);
    if forall tx :: tx in txs ==> exists c :: c in all && c.kind == t && c.id == tx.categoryId {
      forall tx | tx in txs ensures tx.categoryId in ids {
        var c :| c in all && c.kind == t && c.id == tx.categoryId;
        assert c in typed;
      }
    }
  }

  /** What `calculateTransactions` returns. */
  datatype Summary = Summary(totalIncome: real, totalExpense: real,
                             incomesByCategory: seq<CategoryTotal>, expensesByCategory: seq<CategoryTotal>)

  /**
   * `calculateTransactions` over the date-filtered transactions: the two totals
   * and the two breakdowns over all categories (built-in and the user's).
   */
  method CalculateTransactions(filtered: seq<Transaction>, userCategories: seq<Category>) returns (s: Summary)
    ensures s.totalIncome == TotalOf(filtered, Income) && s.totalExpense == TotalOf(filtered, Expense)
    ensures s.totalIncome >= 0.0 && s.totalExpense >= 0.0
    ensures s.incomesByCategory == GroupSpec(AllCategories(userCategories), TransactionsOfType(filtered, Income), Income)
    ensures s.expensesByCategory == GroupSpec(AllCategories(userCategories), TransactionsOfType(filtered, Expense), Expense)
    ensures SumTotals(s.incomesByCategory) <= s.totalIncome
    ensures SumTotals(s.expensesByCategory) <= s.totalExpense
  {
    var all := AllCategories(userCategories);
    var incomes := TransactionsOfType(filtered, Income);
    var expenses := TransactionsOfType(filtered, Expense);
    var byIncome := GroupByCategory(all, incomes, Income);
    var byExpense := GroupByCategory(all, expenses, Expense);
    GroupTotalBound(all, incomes, Income);
    GroupTotalBound(all, expenses, Expense);
    s := Summary(SumAbs(incomes), SumAbs(expenses), byIncome, byExpense);
  }

  // ---------------------------------------------------------------------
  // Accounts
  // ---------------------------------------------------------------------

  /** The total over all accounts, each missing balance counting as 0. */
  function AccountsTotal(accounts: seq<Account>): real
  {
    if accounts == [] then 0.0
    else AccountsTotal(accounts[..|accounts| - 1]) + accounts[|accounts| - 1].balance.GetOr(0.0)
  }

  lemma {:induction false} AccountsTotalAppend(a: seq<Account>, b: seq<Account>)
    ensures AccountsTotal(a + b) == AccountsTotal(a) + AccountsTotal(b)
    decreases |b|
  {
    if b != [] {
      assert (a + b)[..|a + b| - 1] == a + b[..|b| - 1];
      AccountsTotalAppend(a, b[..|b| - 1]);
    } else {
      assert a + b == a;
    }
  }

  /** With no negative balance among the accounts, the total is not negative either. */
  lemma {:induction false} AccountsTotalNonNegative(accounts: seq<Account>)
    requires forall a :: a in accounts ==> a.balance.GetOr(0.0) >= 0.0
    ensures AccountsTotal(accounts) >= 0.0
    decreases |accounts|
  {
    if accounts != [] {
      var p := accounts[..|accounts| - 1];
      assert forall a :: a in p ==> a in accounts;
      AccountsTotalNonNegative(p);
    }
  }

  /**
   * The initial balance typed into the new-account form: the parsed number,
   * with NaN (`None`) read as 0 and anything below 0 raised to 0.
   */
  function InitialBalance(parsed: Option<real>): (r: real)
    ensures r >= 0.0
    ensures parsed.Some? && parsed.value >= 0.0 ==> r == parsed.value
    ensures parsed.None? || parsed.value <= 0.0 ==> r == 0.0
  {
    var v := parsed.GetOr(0.0);
    if v > 0.0 then v else 0.0
  }
}
