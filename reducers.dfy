/**
 * The three store slices (transactions, accounts, categories) and the
 * reducers that compute a slice's next state from an action. Every reducer
 * sees every action and returns its state unchanged for those it does not handle.
 */
module Reducers {
  import opened Wrappers
  import opened Domain

  /** A slice of the store: the records, whether a request is in flight, and the last error message. */
  datatype Slice<T> = Slice(data: seq<T>, loading: bool, error: Option<string>)

  function EmptySlice<T>(): Slice<T>
  {
    Slice([], false, None)
  }

  /** The actions of the store that the accounting core dispatches. */
  datatype Action =
    | FetchTransactionsRequest
    | FetchTransactionsSuccess(transactions: seq<Transaction>)
    | FetchTransactionsFailure(message: string)
    | AddTransactionRequest
    | AddTransactionSuccess(transaction: Transaction)
    | AddTransactionFailure(message: string)
    | UpdateTransactionSuccess(transaction: Transaction)
    | DeleteTransactionSuccess(transactionId: Option<string>)
    | FetchAccountsRequest
    | FetchAccountsSuccess(accounts: seq<Account>)
    | FetchAccountsFailure(message: string)
    | AddAccountRequest
    | AddAccountSuccess(account: Account)
    | AddAccountFailure(message: string)
    | UpdateAccountSuccess(account: Account)
    | FetchCategoriesRequest
    | FetchCategoriesSuccess(categories: seq<Category>)
    | FetchCategoriesFailure(message: string)
    | AddCategoryRequest
    | AddCategorySuccess(category: Category)
    | AddCategoryFailure(message: string)
    | DeleteCategoryRequest
    | DeleteCategorySuccess(categoryId: string)
    | DeleteCategoryFailure(message: string)

  // ---------------------------------------------------------------------
  // Replace-by-id and remove-by-id
  // ---------------------------------------------------------------------

  /** `data.map(x => key(x) === key(p) ? p : x)`. */
  function ReplaceWhere<T, K(==)>(s: seq<T>, key: T -> K, p: T): (r: seq<T>)
    ensures |r| == |s|
    ensures forall i :: 0 <= i < |s| ==> r[i] == (if key(s[i]) == key(p) then p else s[i])
  {
    if s == [] then []
    else [if key(s[0]) == key(p) then p else s[0]] + ReplaceWhere(s[1..], key, p)
  }

  /** `data.filter(x => key(x) !== k)`. */
  function RemoveWhere<T(!new), K(==)>(s: seq<T>, key: T -> K, k: K): (r: seq<T>)
    ensures |r| <= |s|
    ensures forall x :: x in r <==> x in s && key(x) != k
  {
    if s == [] then []
    else (if key(s[0]) != k then [s[0]] else []) + RemoveWhere(s[1..], key, k)
  }

  /** Removal keeps the order of what remains: it distributes over concatenation. */
  lemma {:induction false} RemoveWhereAppend<T(!new), K>(a: seq<T>, b: seq<T>, key: T -> K, k: K)
    ensures RemoveWhere(a + b, key, k) == RemoveWhere(a, key, k) + RemoveWhere(b, key, k)
    decreases |a|
  {
    if a == [] {
      assert a + b == b;
    } else {
      assert (a + b)[1..] == a[1..] + b;
      RemoveWhereAppend(a[1..], b, key, k);
    }
  }

  /** Removing what is not there changes nothing; in particular removal is idempotent. */
  lemma {:induction false} RemoveWhereAbsent<T(!new), K>(s: seq<T>, key: T -> K, k: K)
    requires forall x :: x in s ==> key(x) != k
    ensures RemoveWhere(s, key, k) == s
    decreases |s|
  {
    if s != [] {
      assert forall x :: x in s[1..] ==> x in s;
      RemoveWhereAbsent(s[1..], key, k);
    }
  }

  function TxKey(tx: Transaction): Option<string> { tx.id }
  function AccountKey(a: Account): string { a.id }
  function CategoryKey(c: Category): string { c.id }

  // ---------------------------------------------------------------------
  // transactionReducer
  // ---------------------------------------------------------------------

  predicate HandledByTransactions(a: Action)
  {
    a.FetchTransactionsRequest? || a.FetchTransactionsSuccess? || a.FetchTransactionsFailure?
    || a.AddTransactionSuccess? || a.UpdateTransactionSuccess? || a.DeleteTransactionSuccess?
  }

  function TransactionReducer(s: Slice<Transaction>, a: Action): (r: Slice<Transaction>)
    ensures !HandledByTransactions(a) ==> r == s
    ensures a.FetchTransactionsRequest? ==> r.loading && r.error.None? && r.data == s.data
    ensures a.FetchTransactionsSuccess? ==> !r.loading && r.data == a.transactions && r.error == s.error
    ensures a.FetchTransactionsFailure? ==> !r.loading && r.error == Some(a.message) && r.data == s.data
    ensures a.AddTransactionSuccess? ==>
      && |r.data| == |s.data| + 1 && r.data[..|s.data|] == s.data && r.data[|s.data|] == a.transaction
      && r.loading == s.loading && r.error == s.error
    ensures a.UpdateTransactionSuccess? ==>
      && |r.data| == |s.data| && !r.loading && r.error == s.error
      && forall i :: 0 <= i < |s.data| ==>
           r.data[i] == (if s.data[i].id == a.transaction.id then a.transaction else s.data[i])
    ensures a.DeleteTransactionSuccess? ==>
      && !r.loading && r.error == s.error && |r.data| <= |s.data|
      && forall tx :: tx in r.data <==> tx in s.data && tx.id != a.transactionId
  {
    match a
    case FetchTransactionsRequest => s.(loading := true, error := None)
    case FetchTransactionsSuccess(txs) => s.(loading := false, data := txs)
    case FetchTransactionsFailure(m) => s.(loading := false, error := Some(m))
    case AddTransactionSuccess(tx) => s.(data := s.data + [tx])
    case UpdateTransactionSuccess(tx) => s.(loading := false, data := ReplaceWhere(s.data, TxKey, tx))
    case DeleteTransactionSuccess(id) => s.(loading := false, data := RemoveWhere(s.data, TxKey, id))
    case _ => s
  }

  /** Deleting the same id twice is deleting it once. */
  lemma DeleteTransactionIdempotent(s: Slice<Transaction>, id: Option<string>)
    ensures TransactionReducer(TransactionReducer(s, DeleteTransactionSuccess(id)), DeleteTransactionSuccess(id))
         == TransactionReducer(s, DeleteTransactionSuccess(id))
  {
    RemoveWhereAbsent(RemoveWhere(s.data, TxKey, id), TxKey, id);
  }

  /** Deleting keeps the remaining transactions in their order. */
  lemma DeleteTransactionKeepsOrder(before: seq<Transaction>, after: seq<Transaction>, loading: bool, error: Option<string>, id: Option<string>)
    ensures TransactionReducer(Slice(before + after, loading, error), DeleteTransactionSuccess(id)).data
         == RemoveWhere(before, TxKey, id) + RemoveWhere(after, TxKey, id)
  {
    RemoveWhereAppend(before, after, TxKey, id);
  }

  // ---------------------------------------------------------------------
  // accountReducer
  // ---------------------------------------------------------------------

  predicate HandledByAccounts(a: Action)
  {
    a.FetchAccountsRequest? || a.FetchAccountsSuccess? || a.FetchAccountsFailure?
    || a.AddAccountSuccess? || a.UpdateAccountSuccess?
  }

  function AccountReducer(s: Slice<Account>, a: Action): (r: Slice<Account>)
    ensures !HandledByAccounts(a) ==> r == s
    ensures a.FetchAccountsRequest? ==> r.loading && r.error.None? && r.data == s.data
    ensures a.FetchAccountsSuccess? ==> !r.loading && r.data == a.accounts && r.error == s.error
    ensures a.FetchAccountsFailure? ==> !r.loading && r.error == Some(a.message) && r.data == s.data
    ensures a.AddAccountSuccess? ==>
      && |r.data| == |s.data| + 1 && r.data[..|s.data|] == s.data && r.data[|s.data|] == a.account
      && !r.loading && r.error == s.error
    ensures a.UpdateAccountSuccess? ==>
      && |r.data| == |s.data| && r.loading == s.loading && r.error == s.error
      && forall i :: 0 <= i < |s.data| ==>
           r.data[i] == (if s.data[i].id == a.account.id then a.account else s.data[i])
  {
    match a
    case FetchAccountsRequest => s.(loading := true, error := None)
    case FetchAccountsSuccess(accs) => s.(loading := false, data := accs)
    case FetchAccountsFailure(m) => s.(loading := false, error := Some(m))
    case AddAccountSuccess(acc) => s.(data := s.data + [acc], loading := false)
    case UpdateAccountSuccess(acc) => s.(data := ReplaceWhere(s.data, AccountKey, acc))
    case _ => s
  }

  // ---------------------------------------------------------------------
  // categoryReducer
  // ---------------------------------------------------------------------

  predicate HandledByCategories(a: Action)
  {
    a.FetchCategoriesRequest? || a.FetchCategoriesSuccess? || a.FetchCategoriesFailure?
    || a.AddCategorySuccess? || a.DeleteCategorySuccess?
  }

  function CategoryReducer(s: Slice<Category>, a: Action): (r: Slice<Category>)
    ensures !HandledByCategories(a) ==> r == s
    ensures a.FetchCategoriesRequest? ==> r.loading && r.error.None? && r.data == s.data
    ensures a.FetchCategoriesSuccess? ==> !r.loading && r.data == a.categories && r.error == s.error
    ensures a.FetchCategoriesFailure? ==> !r.loading && r.error == Some(a.message) && r.data == s.data
    ensures a.AddCategorySuccess? ==>
      && |r.data| == |s.data| + 1 && r.data[..|s.data|] == s.data && r.data[|s.data|] == a.category
      && r.loading == s.loading && r.error == s.error
    ensures a.DeleteCategorySuccess? ==>
      && !r.loading && r.error == s.error && |r.data| <= |s.data|
      && forall c :: c in r.data <==> c in s.data && c.id != a.categoryId
  {
    match a
    case FetchCategoriesRequest => s.(loading := true, error := None)
    case FetchCategoriesSuccess(cs) => s.(loading := false, data := cs)
    case FetchCategoriesFailure(m) => s.(loading := false, error := Some(m))
    case AddCategorySuccess(c) => s.(data := s.data + [c])
    case DeleteCategorySuccess(id) => s.(loading := false, data := RemoveWhere(s.data, CategoryKey, id))
    case _ => s
  }

  /** Deleting a category id twice is deleting it once. */
  lemma DeleteCategoryIdempotent(s: Slice<Category>, id: string)
    ensures CategoryReducer(CategoryReducer(s, DeleteCategorySuccess(id)), DeleteCategorySuccess(id))
         == CategoryReducer(s, DeleteCategorySuccess(id))
  {
    RemoveWhereAbsent(RemoveWhere(s.data, CategoryKey, id), CategoryKey, id);
  }

  /**
   * The requests and failures of adding a transaction or a category, and of
   * deleting a category, are dispatched but no slice handles them.
   */
  lemma UnhandledActions(ts: Slice<Transaction>, as_: Slice<Account>, cs: Slice<Category>, a: Action)
    requires a.AddTransactionRequest? || a.AddTransactionFailure? || a.AddCategoryRequest?
          || a.AddCategoryFailure? || a.DeleteCategoryRequest? || a.DeleteCategoryFailure?
    ensures TransactionReducer(ts, a) == ts && AccountReducer(as_, a) == as_ && CategoryReducer(cs, a) == cs
  {
  }
}
