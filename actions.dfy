/**
 * The asynchronous action creators ("thunks") for transactions and
 * categories, run as sequences of steps over a store and an in-memory
 * backend. Whether each HTTP request reaches the server is an input.
 */
module Actions {
  import opened Wrappers
  import opened Domain
  import opened Reducers
  import opened Auth

  /** The message of the TypeError raised when the account is not in the store. */
  const MissingAccountMessage: string := "Cannot read properties of undefined (reading 'balance')"

  /** The message of a request that the backend answers with 404. */
  const NotFoundMessage: string := "Request failed with status code 404"

  /** The message that refuses to delete a category some transaction refers to. */
  const CategoryInUseMessage: string := "Категория используется в транзакциях"

  // ---------------------------------------------------------------------
  // Queries over records
  // ---------------------------------------------------------------------

  /** The index of the first account with the given id. */
  function AccountIndex(accounts: seq<Account>, id: string): (r: Option<nat>)
    ensures r.None? <==> forall a :: a in accounts ==> a.id != id
    ensures r.Some? ==> r.value < |accounts| && accounts[r.value].id == id
                        && forall j :: 0 <= j < r.value ==> accounts[j].id != id
  {
    if accounts == [] then None
    else if accounts[0].id == id then Some(0)
    else
      var r := AccountIndex(accounts[1..], id);
      assert forall a :: a in accounts <==> a == accounts[0] || a in accounts[1..];
      if r.None? then None else Some(r.value + 1)
  }

  /** `accounts.find(acc => acc.id === id)`. */
  function FindAccount(accounts: seq<Account>, id: string): (r: Option<Account>)
    ensures r.None? <==> forall a :: a in accounts ==> a.id != id
    ensures r.Some? ==> r.value in accounts && r.value.id == id
    ensures r.Some? ==> AccountIndex(accounts, id).Some? && r.value == accounts[AccountIndex(accounts, id).value]
  {
    match AccountIndex(accounts, id)
    case None => None
    case Some(i) => Some(accounts[i])
  }

  /** `transactions.some(tx => tx.categoryId === categoryId)`. */
  function InUse(txs: seq<Transaction>, categoryId: string): (r: bool)
    ensures r <==> exists tx :: tx in txs && tx.categoryId == categoryId
  {
    if txs == [] then false
    else
      assert forall tx :: tx in txs <==> tx == txs[0] || tx in txs[1..];
      txs[0].categoryId == categoryId || InUse(txs[1..], categoryId)
  }

  /**
   * The balance written back after adding a transaction: the old balance
   * (missing counts as 0) plus the amount, but never below 0.
   */
  function ClampedBalance(balance: Option<real>, amount: real): (r: real)
    ensures r >= 0.0
    ensures balance.GetOr(0.0) + amount >= 0.0 ==> r == balance.GetOr(0.0) + amount
    ensures balance.GetOr(0.0) + amount < 0.0 ==> r == 0.0
    ensures balance.GetOr(0.0) >= 0.0 && amount >= 0.0 ==> r == balance.GetOr(0.0) + amount
  {
    var b := balance.GetOr(0.0) + amount;
    if b > 0.0 then b else 0.0
  }

  /** The transactions of one user (`GET /transactions?userId=`). */
  function OwnedTransactions(txs: seq<Transaction>, userId: string): (r: seq<Transaction>)
    ensures forall tx :: tx in r <==> tx in txs && tx.userId == userId
  {
    if txs == [] then []
    else (if txs[0].userId == userId then [txs[0]] else []) + OwnedTransactions(txs[1..], userId)
  }

  /** The categories of one user (`GET /categories?userId=`). */
  function OwnedCategories(cs: seq<Category>, userId: string): (r: seq<Category>)
    ensures forall c :: c in r <==> c in cs && c.userId == Some(userId)
  {
    if cs == [] then []
    else (if cs[0].userId == Some(userId) then [cs[0]] else []) + OwnedCategories(cs[1..], userId)
  }

  function Digit(d: nat): char
    requires d < 10
  {
    "0123456789"[d]
  }

  /** The decimal digits of `n`. */
  function NatToString(n: nat): (s: string)
    ensures |s| >= 1
  {
    if n < 10 then [Digit(n)] else NatToString(n / 10) + [Digit(n % 10)]
  }

  /** The id the refetch after a delete uses: the signed-in user's id, when there is a non-empty one. */
  function RefetchUserId(user: Option<User>): (r: Option<string>)
    ensures r.Some? <==> user.Some? && user.value.id != ""
    ensures r.Some? ==> r.value == user.value.id
  {
    if user.Some? && user.value.id != "" then Some(user.value.id) else None
  }

  // ---------------------------------------------------------------------
  // The backend
  // ---------------------------------------------------------------------

  /** The REST resource store, as lists of records and a counter for the ids it assigns. */
  class Backend {
    var transactions: seq<Transaction>
    var accounts: seq<Account>
    var categories: seq<Category>
    var nextId: nat

    constructor (transactions: seq<Transaction>, accounts: seq<Account>, categories: seq<Category>, nextId: nat)
      ensures this.transactions == transactions && this.accounts == accounts
      ensures this.categories == categories && this.nextId == nextId
    {
      this.transactions := transactions;
      this.accounts := accounts;
      this.categories := categories;
      this.nextId := nextId;
    }

    /** The id the next created record receives. */
    function NewId(): string
      reads this
    {
      NatToString(nextId)
    }

    /** `POST /transactions`: stores the record under a new id and returns it. */
    method PostTransaction(tx: Transaction) returns (stored: Transaction)
      modifies this
      ensures stored == tx.(id := Some(old(NewId())))
      ensures transactions == old(transactions) + [stored] && nextId == old(nextId) + 1
      ensures accounts == old(accounts) && categories == old(categories)
    {
      stored := tx.(id := Some(NewId()));
      transactions := transactions + [stored];
      nextId := nextId + 1;
    }

    /** `PATCH /accounts/:id` with a new balance: the updated account, or 404. */
    method PatchBalance(id: string, balance: real) returns (r: Result<Account, string>)
      modifies this
      ensures AccountIndex(old(accounts), id).None? ==> r == Err(NotFoundMessage) && accounts == old(accounts)
      ensures AccountIndex(old(accounts), id).Some? ==>
        var i := AccountIndex(old(accounts), id).value;
        && r == Ok(old(accounts)[i].(balance := Some(balance)))
        && accounts == old(accounts)[i := old(accounts)[i].(balance := Some(balance))]
      ensures transactions == old(transactions) && categories == old(categories) && nextId == old(nextId)
    {
      match AccountIndex(accounts, id)
      case None =>
        r := Err(NotFoundMessage);
      case Some(i) =>
        var patched := accounts[i].(balance := Some(balance));
        accounts := accounts[i := patched];
        r := Ok(patched);
    }

    /** `POST /categories`: stores the category under a new id and returns it. */
    method PostCategory(c: Category) returns (stored: Category)
      modifies this
      ensures stored == c.(id := old(NewId()))
      ensures categories == old(categories) + [stored] && nextId == old(nextId) + 1
      ensures transactions == old(transactions) && accounts == old(accounts)
    {
      stored := c.(id := NewId());
      categories := categories + [stored];
      nextId := nextId + 1;
    }

    /** `DELETE /categories/:id`: removes the category, or answers 404. */
    method DeleteCategory(id: string) returns (r: Outcome)
      modifies this
      ensures (exists c :: c in old(categories) && c.id == id) ==>
        r == Pass && categories == RemoveWhere(old(categories), CategoryKey, id)
      ensures (forall c :: c in old(categories) ==> c.id != id) ==>
        r == Fail(NotFoundMessage) && categories == old(categories)
      ensures transactions == old(transactions) && accounts == old(accounts) && nextId == old(nextId)
    {
      if exists c :: c in categories && c.id == id {
        categories := RemoveWhere(categories, CategoryKey, id);
        r := Pass;
      } else {
        r := Fail(NotFoundMessage);
      }
    }
  }

  // ---------------------------------------------------------------------
  // The store and the thunks
  // ---------------------------------------------------------------------

  /** The store: the three slices, the signed-in user and the log of every action dispatched. */
  class Store {
    var transactions: Slice<Transaction>
    var accounts: Slice<Account>
    var categories: Slice<Category>
    var dispatched: seq<Action>
    const auth: AuthState

    constructor (auth: AuthState)
      ensures transactions == EmptySlice() && accounts == EmptySlice() && categories == EmptySlice()
      ensures dispatched == [] && this.auth == auth
    {
      transactions := EmptySlice();
      accounts := EmptySlice();
      categories := EmptySlice();
      dispatched := [];
      this.auth := auth;
    }

    /** `dispatch`: every slice's reducer sees the action. */
    method Dispatch(a: Action)
      modifies this
      ensures transactions == TransactionReducer(old(transactions), a)
      ensures accounts == AccountReducer(old(accounts), a)
      ensures categories == CategoryReducer(old(categories), a)
      ensures dispatched == old(dispatched) + [a]
    {
      transactions := TransactionReducer(transactions, a);
      accounts := AccountReducer(accounts, a);
      categories := CategoryReducer(categories, a);
      dispatched := dispatched + [a];
    }

    /**
     * `fetchTransactions`: the ledger becomes the user's transactions on the
     * backend; a failure is recorded in the slice and not thrown.
     */
    method FetchTransactions(userId: string, backend: Backend, net: Outcome)
      modifies this
      ensures net.Pass? ==>
        && transactions == Slice(OwnedTransactions(backend.transactions, userId), false, None)
        && dispatched == old(dispatched)
             + [FetchTransactionsRequest, FetchTransactionsSuccess(OwnedTransactions(backend.transactions, userId))]
      ensures net.Fail? ==>
        && transactions == Slice(old(transactions.data), false, Some(net.message))
        && dispatched == old(dispatched) + [FetchTransactionsRequest, FetchTransactionsFailure(net.message)]
      ensures accounts == old(accounts) && categories == old(categories)
    {
      Dispatch(FetchTransactionsRequest);
      if net.Fail? {
        Dispatch(FetchTransactionsFailure(net.message));
      } else {
        Dispatch(FetchTransactionsSuccess(OwnedTransactions(backend.transactions, userId)));
      }
    }

    /**
     * `addTransaction`: posts the record, appends what the backend stored to the
     * ledger, then writes the account's clamped balance back and replaces every
     * account with that id by the backend's answer. Any failure is logged and
     * returned; a transaction already appended stays in the ledger.
     */
    method AddTransaction(data: Transaction, backend: Backend, post: Outcome, patch: Outcome) returns (r: Outcome)
      modifies this, backend
      ensures |dispatched| > |old(dispatched)|
      ensures r.Fail? ==> dispatched[|dispatched| - 1] == AddTransactionFailure(r.message)
      ensures post.Fail? ==>
        && r == post && transactions == old(transactions) && accounts == old(accounts)
        && backend.transactions == old(backend.transactions) && backend.accounts == old(backend.accounts)
      ensures post.Pass? ==>
        && transactions == old(transactions).(data := old(transactions.data) + [data.(id := Some(old(backend.NewId())))])
        && backend.transactions == old(backend.transactions) + [data.(id := Some(old(backend.NewId())))]
      ensures post.Pass? && FindAccount(old(accounts.data), data.accountId).None? ==>
        r == Fail(MissingAccountMessage) && accounts == old(accounts)
      ensures post.Pass? && FindAccount(old(accounts.data), data.accountId).Some? ==>
        r == if patch.Fail? then patch
             else if AccountIndex(old(backend.accounts), data.accountId).None? then Fail(NotFoundMessage)
             else Pass
      ensures r.Pass? <==>
        && post.Pass? && patch.Pass?
        && FindAccount(old(accounts.data), data.accountId).Some?
        && AccountIndex(old(backend.accounts), data.accountId).Some?
      ensures r.Pass? ==>
        var balance := ClampedBalance(FindAccount(old(accounts.data), data.accountId).value.balance, data.amount);
        var i := AccountIndex(old(backend.accounts), data.accountId).value;
        var patched := old(backend.accounts)[i].(balance := Some(balance));
        && backend.accounts == old(backend.accounts)[i := patched]
        && accounts == old(accounts).(data := ReplaceWhere(old(accounts.data), AccountKey, patched))
      ensures r.Pass? ==> forall a :: a in accounts.data && a.id == data.accountId ==>
        a.balance.Some? && a.balance.value >= 0.0
      ensures r.Fail? ==> accounts == old(accounts) && backend.accounts == old(backend.accounts)
      ensures categories == old(categories) && backend.categories == old(backend.categories)
    {
      Dispatch(AddTransactionRequest);
      if post.Fail? {
        Dispatch(AddTransactionFailure(post.message));
        return post;
      }
      var stored := backend.PostTransaction(data);
      Dispatch(AddTransactionSuccess(stored));
      r := UpdateBalance(data.accountId, stored.amount, backend, patch);
    }

    /**
     * The part of `addTransaction` after the transaction is stored: reads the
     * account from the store, writes its clamped balance to the backend and
     * puts the backend's answer in place of every account with that id.
     */
    method UpdateBalance(accountId: string, amount: real, backend: Backend, patch: Outcome) returns (r: Outcome)
      modifies this, backend
      ensures r.Fail? ==>
        && dispatched == old(dispatched) + [AddTransactionFailure(r.message)]
        && accounts == old(accounts) && backend.accounts == old(backend.accounts)
      ensures FindAccount(old(accounts.data), accountId).None? ==> r == Fail(MissingAccountMessage)
      ensures FindAccount(old(accounts.data), accountId).Some? ==>
        r == if patch.Fail? then patch
             else if AccountIndex(old(backend.accounts), accountId).None? then Fail(NotFoundMessage)
             else Pass
      ensures r.Pass? ==>
        var balance := ClampedBalance(FindAccount(old(accounts.data), accountId).value.balance, amount);
        var i := AccountIndex(old(backend.accounts), accountId).value;
        var patched := old(backend.accounts)[i].(balance := Some(balance));
        && backend.accounts == old(backend.accounts)[i := patched]
        && accounts == old(accounts).(data := ReplaceWhere(old(accounts.data), AccountKey, patched))
        && dispatched == old(dispatched) + [UpdateAccountSuccess(patched)]
      ensures r.Pass? ==> forall a :: a in accounts.data && a.id == accountId ==>
        a.balance.Some? && a.balance.value >= 0.0
      ensures transactions == old(transactions) && categories == old(categories)
      ensures backend.transactions == old(backend.transactions) && backend.categories == old(backend.categories)
      ensures backend.nextId == old(backend.nextId)
    {
      var account := FindAccount(accounts.data, accountId);
      if account.None? {
        Dispatch(AddTransactionFailure(MissingAccountMessage));
        return Fail(MissingAccountMessage);
      }
      var balance := ClampedBalance(account.value.balance, amount);
      r := StoreBalance(accountId, balance, backend, patch);
    }

    /**
     * `PATCH /accounts/:id` with the new balance, then `UPDATE_ACCOUNT_SUCCESS`
     * with the backend's answer; a failure is logged for `addTransaction`.
     */
    method StoreBalance(accountId: string, balance: real, backend: Backend, patch: Outcome) returns (r: Outcome)
      modifies this, backend
      ensures r == if patch.Fail? then patch
                   else if AccountIndex(old(backend.accounts), accountId).None? then Fail(NotFoundMessage)
                   else Pass
      ensures r.Fail? ==>
        && dispatched == old(dispatched) + [AddTransactionFailure(r.message)]
        && accounts == old(accounts) && backend.accounts == old(backend.accounts)
      ensures r.Pass? ==>
        var i := AccountIndex(old(backend.accounts), accountId).value;
        var patched := old(backend.accounts)[i].(balance := Some(balance));
        && backend.accounts == old(backend.accounts)[i := patched]
        && accounts == old(accounts).(data := ReplaceWhere(old(accounts.data), AccountKey, patched))
        && dispatched == old(dispatched) + [UpdateAccountSuccess(patched)]
      ensures r.Pass? ==> forall a :: a in accounts.data && a.id == accountId ==> a.balance == Some(balance)
      ensures transactions == old(transactions) && categories == old(categories)
      ensures backend.transactions == old(backend.transactions) && backend.categories == old(backend.categories)
      ensures backend.nextId == old(backend.nextId)
    {
      if patch.Fail? {
        Dispatch(AddTransactionFailure(patch.message));
        return patch;
      }
      var response := backend.PatchBalance(accountId, balance);
      if response.Err? {
        Dispatch(AddTransactionFailure(response.error));
        return Fail(response.error);
      }
      Dispatch(UpdateAccountSuccess(response.value));
      r := Pass;
    }

    /**
     * `fetchCategories`: the category list becomes the user's categories on the
     * backend; a failure is recorded in the slice and not thrown.
     */
    method FetchCategories(userId: string, backend: Backend, net: Outcome)
      modifies this
      ensures net.Pass? ==>
        && categories == Slice(OwnedCategories(backend.categories, userId), false, None)
        && dispatched == old(dispatched)
             + [FetchCategoriesRequest, FetchCategoriesSuccess(OwnedCategories(backend.categories, userId))]
      ensures net.Fail? ==>
        && categories == Slice(old(categories.data), false, Some(net.message))
        && dispatched == old(dispatched) + [FetchCategoriesRequest, FetchCategoriesFailure(net.message)]
      ensures transactions == old(transactions) && accounts == old(accounts)
    {
      Dispatch(FetchCategoriesRequest);
      if net.Fail? {
        Dispatch(FetchCategoriesFailure(net.message));
      } else {
        Dispatch(FetchCategoriesSuccess(OwnedCategories(backend.categories, userId)));
      }
    }

    /**
     * `addCategory`: posts the category and appends what the backend stored,
     * returning it; a failure is logged and returned.
     */
    method AddCategory(data: Category, backend: Backend, post: Outcome) returns (r: Result<Category, string>)
      modifies this, backend
      ensures post.Pass? ==>
        && r == Ok(data.(id := old(backend.NewId())))
        && categories == old(categories).(data := old(categories.data) + [r.value])
        && backend.categories == old(backend.categories) + [r.value]
        && dispatched == old(dispatched) + [AddCategoryRequest, AddCategorySuccess(r.value)]
      ensures post.Fail? ==>
        && r == Err(post.message) && categories == old(categories)
        && backend.categories == old(backend.categories)
        && dispatched == old(dispatched) + [AddCategoryRequest, AddCategoryFailure(post.message)]
      ensures transactions == old(transactions) && accounts == old(accounts)
      ensures backend.transactions == old(backend.transactions) && backend.accounts == old(backend.accounts)
    {
      Dispatch(AddCategoryRequest);
      if post.Fail? {
        Dispatch(AddCategoryFailure(post.message));
        return Err(post.message);
      }
      var stored := backend.PostCategory(data);
      Dispatch(AddCategorySuccess(stored));
      r := Ok(stored);
    }

    /**
     * `deleteCategory`: refuses, without any request, while some transaction of
     * the ledger refers to the category; otherwise deletes it on the backend,
     * removes it from the list and, when a user is signed in, refetches the
     * list. Any failure is logged and returned.
     */
    method DeleteCategory(categoryId: string, backend: Backend, del: Outcome, refetch: Outcome) returns (r: Outcome)
      modifies this, backend
      ensures |dispatched| > |old(dispatched)| && dispatched[|old(dispatched)|] == DeleteCategoryRequest
      ensures r.Fail? ==> dispatched[|dispatched| - 1] == DeleteCategoryFailure(r.message)
      ensures r.Fail? ==> categories == old(categories) && backend.categories == old(backend.categories)
      ensures InUse(old(transactions.data), categoryId) ==>
        && r == Fail(CategoryInUseMessage)
        && dispatched == old(dispatched) + [DeleteCategoryRequest, DeleteCategoryFailure(CategoryInUseMessage)]
      ensures r.Pass? <==>
        !InUse(old(transactions.data), categoryId) && del.Pass?
        && exists c :: c in old(backend.categories) && c.id == categoryId
      ensures r.Pass? ==> backend.categories == RemoveWhere(old(backend.categories), CategoryKey, categoryId)
      ensures r.Pass? ==> forall c :: c in categories.data ==> c.id != categoryId
      ensures r.Pass? && RefetchUserId(auth.user).None? ==>
        categories == old(categories).(loading := false, data := RemoveWhere(old(categories.data), CategoryKey, categoryId))
      ensures r.Pass? && RefetchUserId(auth.user).Some? ==>
        var userId := RefetchUserId(auth.user).value;
        categories == if refetch.Pass?
                      then Slice(OwnedCategories(backend.categories, userId), false, None)
                      else Slice(RemoveWhere(old(categories.data), CategoryKey, categoryId), false, Some(refetch.message))
      ensures transactions == old(transactions) && accounts == old(accounts)
      ensures backend.transactions == old(backend.transactions) && backend.accounts == old(backend.accounts)
    {
      Dispatch(DeleteCategoryRequest);
      if InUse(transactions.data, categoryId) {
        Dispatch(DeleteCategoryFailure(CategoryInUseMessage));
        return Fail(CategoryInUseMessage);
      }
      r := RemoveCategory(categoryId, backend, del, refetch);
    }

    /**
     * The part of `deleteCategory` after the in-use check: the DELETE request,
     * the removal from the list and the refetch.
     */
    method RemoveCategory(categoryId: string, backend: Backend, del: Outcome, refetch: Outcome) returns (r: Outcome)
      modifies this, backend
      ensures r.Fail? ==>
        && dispatched == old(dispatched) + [DeleteCategoryFailure(r.message)]
        && categories == old(categories) && backend.categories == old(backend.categories)
      ensures r.Pass? <==> del.Pass? && exists c :: c in old(backend.categories) && c.id == categoryId
      ensures r.Pass? ==> backend.categories == RemoveWhere(old(backend.categories), CategoryKey, categoryId)
      ensures r.Pass? && RefetchUserId(auth.user).None? ==>
        && categories == old(categories).(loading := false, data := RemoveWhere(old(categories.data), CategoryKey, categoryId))
        && dispatched == old(dispatched) + [DeleteCategorySuccess(categoryId)]
      ensures r.Pass? && RefetchUserId(auth.user).Some? ==>
        var userId := RefetchUserId(auth.user).value;
        && categories == (if refetch.Pass?
                          then Slice(OwnedCategories(backend.categories, userId), false, None)
                          else Slice(RemoveWhere(old(categories.data), CategoryKey, categoryId), false, Some(refetch.message)))
        && dispatched == old(dispatched) + [DeleteCategorySuccess(categoryId)]
             + [FetchCategoriesRequest,
                if refetch.Pass? then FetchCategoriesSuccess(OwnedCategories(backend.categories, userId))
                else FetchCategoriesFailure(refetch.message)]
      ensures transactions == old(transactions) && accounts == old(accounts)
      ensures backend.transactions == old(backend.transactions) && backend.accounts == old(backend.accounts)
    {
      r := DeleteOnServer(categoryId, backend, del);
      if r.Pass? {
        Dispatch(DeleteCategorySuccess(categoryId));
        Refetch(backend, refetch);
      }
    }

    /** The DELETE request of `deleteCategory`; a failure is logged. */
    method DeleteOnServer(categoryId: string, backend: Backend, del: Outcome) returns (r: Outcome)
      modifies this, backend
      ensures r.Fail? ==> dispatched == old(dispatched) + [DeleteCategoryFailure(r.message)]
      ensures r.Pass? ==> dispatched == old(dispatched)
      ensures r.Pass? <==> del.Pass? && exists c :: c in old(backend.categories) && c.id == categoryId
      ensures r.Pass? ==> backend.categories == RemoveWhere(old(backend.categories), CategoryKey, categoryId)
      ensures r.Fail? ==> backend.categories == old(backend.categories)
      ensures transactions == old(transactions) && accounts == old(accounts) && categories == old(categories)
      ensures backend.transactions == old(backend.transactions) && backend.accounts == old(backend.accounts)
    {
      if del.Fail? {
        Dispatch(DeleteCategoryFailure(del.message));
        return del;
      }
      r := backend.DeleteCategory(categoryId);
      if r.Fail? {
        Dispatch(DeleteCategoryFailure(r.message));
      }
    }

    /** The refetch after a delete: `fetchCategories` of the signed-in user, when there is one. */
    method Refetch(backend: Backend, refetch: Outcome)
      modifies this
      ensures RefetchUserId(auth.user).None? ==> categories == old(categories) && dispatched == old(dispatched)
      ensures RefetchUserId(auth.user).Some? ==>
        var userId := RefetchUserId(auth.user).value;
        && categories == (if refetch.Pass?
                          then Slice(OwnedCategories(backend.categories, userId), false, None)
                          else Slice(old(categories.data), false, Some(refetch.message)))
        && dispatched == old(dispatched) + [FetchCategoriesRequest,
                           if refetch.Pass? then FetchCategoriesSuccess(OwnedCategories(backend.categories, userId))
                           else FetchCategoriesFailure(refetch.message)]
      ensures transactions == old(transactions) && accounts == old(accounts)
    {
      var userId := RefetchUserId(auth.user);
      if userId.Some? {
        FetchCategories(userId.value, backend, refetch);
      }
    }
  }
}
