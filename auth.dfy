/**
 * The authentication slice: the signed-in user, whether a request is in
 * flight and the last error, updated field by field by its case reducers.
 */
module Auth {
  import opened Wrappers
  import opened Domain

  /** The three asynchronous thunks whose lifecycle the slice follows. */
  datatype AuthThunk = CheckAuth | Register | Login

  class AuthState {
    var user: Option<User>
    var loading: bool
    var error: Option<string>

    /** The initial state: the user restored from local storage, if one was saved. */
    constructor (saved: Option<User>)
      ensures user == saved && !loading && error.None?
    {
      user := saved;
      loading := false;
      error := None;
    }

    /** `logout`: forgets the user; loading and error stay as they were. */
    method Logout()
      modifies this
      ensures user.None?
      ensures loading == old(loading) && error == old(error)
    {
      user := None;
    }

    /** `clearError`: forgets the error and nothing else. */
    method ClearError()
      modifies this
      ensures error.None?
      ensures user == old(user) && loading == old(loading)
    {
      error := None;
    }

    /** `pending` of any of the thunks: a request starts and the previous error is cleared. */
    method Pending(thunk: AuthThunk)
      modifies this
      ensures loading && error.None?
      ensures user == old(user)
    {
      loading := true;
      error := None;
    }

    /** `fulfilled` of any of the thunks: the payload becomes the user; the error is left as it is. */
    method Fulfilled(thunk: AuthThunk, payload: User)
      modifies this
      ensures !loading && user == Some(payload)
      ensures error == old(error)
    {
      loading := false;
      user := Some(payload);
    }

    /**
     * `rejected`: the message becomes the error. A failed session check also
     * signs the user out; a failed registration or login keeps the user.
     */
    method Rejected(thunk: AuthThunk, payload: string)
      modifies this
      ensures !loading && error == Some(payload)
      ensures user == (if thunk == CheckAuth then None else old(user))
    {
      loading := false;
      if thunk == CheckAuth {
        user := None;
      }
      error := Some(payload);
    }
  }

  /**
   * A failed login attempt while signed in: the session survives, the request
   * is over and its message is shown until it is cleared.
   */
  method FailedLoginKeepsUser(s: AuthState, message: string)
    modifies s
    ensures s.user == old(s.user)
    ensures !s.loading && s.error.None?
  {
    s.Pending(Login);
    s.Rejected(Login, message);
    assert s.error == Some(message);
    s.ClearError();
  }
}
