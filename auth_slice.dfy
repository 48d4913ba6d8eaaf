/** The authentication store: the signed-in user, the token, and the flags of
    the login and registration requests. */
module AuthSlice {
  import opened Wrappers
  import opened StoreTypes

  datatype Role = UserRole | AdminRole

  datatype User = User(id: int, firstName: string, lastName: string, email: string, role: Role)

  datatype AuthState = AuthState(
    user: Option<User>,
    token: string,
    isAuthenticated: bool,
    isLoading: bool,
    error: Option<string>)

  /** Loading is on until the stored session has been looked at. */
  const InitialAuth := AuthState(None, "", false, true, None)

  datatype AuthThunk = LoginUser | RegisterUser

  /** `logout` and the outcome events of `loginUser` and `registerUser`, whose
      three reducers are the same for both requests. */
  datatype AuthAction =
    | Logout
    | Pending(thunk: AuthThunk)
    | Fulfilled(thunk: AuthThunk, user: Option<User>, token: string)
    | Rejected(thunk: AuthThunk, failure: RequestFailure)

  /** The payload of each request's rejected action. Both read the message as
      `error.response?.data.message`, so a null body leaves no payload. */
  function Rejection(t: AuthThunk, f: RequestFailure): (r: Option<string>)
    ensures r.None? <==> f.HttpErrorNullBody?
    ensures r.Some? ==> r.value != ""
    ensures f.HttpError? && f.message.Some? && f.message.value != "" ==> r == f.message
    ensures t == LoginUser && f.HttpError? && (f.message.None? || f.message.value == "") ==> r == Some("Login failed")
    ensures t == RegisterUser && f.HttpError? && (f.message.None? || f.message.value == "") ==>
      r == Some("Registration failed")
    ensures f.OtherError? ==> r == Some("An unknown error occurred")
  {
    match t
    case LoginUser => RejectValueUnguarded(f, "Login failed", "An unknown error occurred")
    case RegisterUser => RejectValueUnguarded(f, "Registration failed", "An unknown error occurred")
  }

  function Reduce(s: AuthState, a: AuthAction): AuthState
  {
    match a
    case Logout => s.(user := None, isAuthenticated := false, error := None, isLoading := false)
    case Pending(_) => s.(isLoading := true, error := None)
    case Fulfilled(_, user, token) =>
      s.(isLoading := false, isAuthenticated := true, user := user, token := token, error := None)
    case Rejected(t, f) =>
      s.(isLoading := false, isAuthenticated := false, user := None, error := Rejection(t, f))
  }

  /** The store object; the reducers assign its fields one by one. */
  class AuthStore {
    var user: Option<User>
    var token: string
    var isAuthenticated: bool
    var isLoading: bool
    var error: Option<string>

    function State(): AuthState
      reads this
    {
      AuthState(user, token, isAuthenticated, isLoading, error)
    }

    constructor ()
      ensures State() == InitialAuth
    {
      user := None;
      token := "";
      isAuthenticated := false;
      isLoading := true;
      error := None;
    }

    method Dispatch(a: AuthAction)
      modifies this
      ensures State() == Reduce(old(State()), a)
    {
      match a
      case Logout =>
        user := None;
        isAuthenticated := false;
        error := None;
        isLoading := false;
      case Pending(_) =>
        isLoading := true;
        error := None;
      case Fulfilled(_, u, t) =>
        isLoading := false;
        isAuthenticated := true;
        user := u;
        token := t;
        error := None;
      case Rejected(t, f) =>
        isLoading := false;
        isAuthenticated := false;
        user := None;
        error := Rejection(t, f);
    }
  }

  /** `logout` signs the user out and clears the flags but keeps the token. */
  lemma LogoutKeepsToken(s: AuthState)
    ensures var r := Reduce(s, Logout);
      && r.user.None? && !r.isAuthenticated && r.error.None? && !r.isLoading
      && r.token == s.token
  {
  }

  /** A pending request raises `isLoading`, clears `error`, nothing else. */
  lemma PendingOnlyFlags(s: AuthState, t: AuthThunk)
    ensures Reduce(s, Pending(t)) == s.(isLoading := true, error := None)
  {
  }

  /** A fulfilled request signs in with the payload's user and token. */
  lemma FulfilledSignsIn(s: AuthState, t: AuthThunk, user: Option<User>, token: string)
    ensures var r := Reduce(s, Fulfilled(t, user, token));
      r.isAuthenticated && r.user == user && r.token == token && r.error.None? && !r.isLoading
  {
  }

  /** A rejected request signs out and keeps the token; the error is its
      rejection value, non-empty, except after a null response body, where
      the action carries no payload and no error is recorded. */
  lemma RejectedKeepsToken(s: AuthState, t: AuthThunk, f: RequestFailure)
    ensures var r := Reduce(s, Rejected(t, f));
      && !r.isAuthenticated && r.user.None? && !r.isLoading && r.token == s.token
      && r.error == Rejection(t, f)
      && (!f.HttpErrorNullBody? ==> r.error.Some? && r.error.value != "")
      && (f.HttpErrorNullBody? ==> r.error.None?)
  {
  }
}
