/**
 * The records the accounting core works on: categories, transactions and
 * accounts, calendar days and the inclusive date-range filter.
 */
module Domain {
  import opened Wrappers

  /** The `type` field of a category or a transaction. */
  datatype TxType = Income | Expense

  type Month = m: int | 1 <= m <= 12 witness 1
  type Day = d: int | 1 <= d <= 31 witness 1

  /** A calendar day, as an ISO `YYYY-MM-DD` string denotes it. */
  datatype Date = Date(year: int, month: Month, day: Day)

  /**
   * Chronological order of days. Comparing `Date` objects of two ISO days and
   * comparing the ISO strings themselves both amount to this order.
   */
  predicate DateLeq(a: Date, b: Date)
  {
    a.year < b.year
    || (a.year == b.year && a.month < b.month)
    || (a.year == b.year && a.month == b.month && a.day <= b.day)
  }

  /** A category; built-in ones have no owner. Icon and colour are display data and are omitted. */
  datatype Category = Category(id: string, userId: Option<string>, name: string, kind: TxType)

  /**
   * A transaction record. `id` is absent until the backend assigns one, and the
   * category name `category` is absent on records built by the edit form.
   */
  datatype Transaction = Transaction(
    id: Option<string>,
    userId: string,
    accountId: string,
    categoryId: string,
    category: Option<string>,
    amount: real,
    date: Date,
    comment: string,
    kind: TxType,
    createdAt: string)

  /** An account; `balance` may be missing on a record, which the code reads as 0. */
  datatype Account = Account(id: string, userId: string, name: string, currency: string, balance: Option<real>)

  /** A category with the sum computed for it, as the breakdowns return it (`{...category, total}`). */
  datatype CategoryTotal = CategoryTotal(category: Category, total: real)

  /** A user as the authentication state holds it (the password is never kept). */
  datatype User = User(id: string, email: string, name: string, currency: string)

  function Abs(x: real): (r: real)
    ensures r >= 0.0 && (r == x || r == -x)
  {
    if x < 0.0 then -x else x
  }

  predicate InRange(tx: Transaction, start: Date, end: Date)
  {
    DateLeq(start, tx.date) && DateLeq(tx.date, end)
  }

  /** The transactions dated from `start` to `end`, both days included, in their original order. */
  function FilterByDate(txs: seq<Transaction>, start: Date, end: Date): (r: seq<Transaction>)
    ensures |r| <= |txs|
    ensures forall tx :: tx in r <==> tx in txs && InRange(tx, start, end)
  {
    if txs == [] then []
    else (if InRange(txs[0], start, end) then [txs[0]] else []) + FilterByDate(txs[1..], start, end)
  }

  /** The filter works element by element, so it keeps the relative order of what it keeps. */
  lemma {:induction false} FilterByDateAppend(a: seq<Transaction>, b: seq<Transaction>, start: Date, end: Date)
    ensures FilterByDate(a + b, start, end) == FilterByDate(a, start, end) + FilterByDate(b, start, end)
  {
    if a == [] {
      assert a + b == b;
    } else {
      assert (a + b)[1..] == a[1..] + b;
      FilterByDateAppend(a[1..], b, start, end);
    }
  }

  /** A transaction outside the range changes nothing, one inside it is kept at the end. */
  lemma FilterByDateSnoc(txs: seq<Transaction>, tx: Transaction, start: Date, end: Date)
    ensures FilterByDate(txs + [tx], start, end)
         == FilterByDate(txs, start, end) + (if InRange(tx, start, end) then [tx] else [])
  {
    FilterByDateAppend(txs, [tx], start, end);
    assert FilterByDate([tx], start, end) == (if InRange(tx, start, end) then [tx] else []) + FilterByDate([], start, end);
  }

  /** Filtering twice by the same range is filtering once. */
  lemma {:induction false} FilterByDateIdempotent(txs: seq<Transaction>, start: Date, end: Date)
    ensures FilterByDate(FilterByDate(txs, start, end), start, end) == FilterByDate(txs, start, end)
  {
    if txs != [] {
      FilterByDateIdempotent(txs[1..], start, end);
      var head := if InRange(txs[0], start, end) then [txs[0]] else [];
      FilterByDateAppend(head, FilterByDate(txs[1..], start, end), start, end);
      if InRange(txs[0], start, end) {
        assert FilterByDate([txs[0]], start, end) == [txs[0]] + FilterByDate([], start, end);
      }
    }
  }
}
