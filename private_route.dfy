/** The route guard in front of the signed-in and administrator pages. */
module PrivateRoute {
  import opened Wrappers
  import AuthSlice
  import StoreTypes

  type Role = AuthSlice.Role
  type User = AuthSlice.User

  datatype Outcome = RenderNothing | Redirect(to: string) | RenderChildren

  /** Loading first, then authentication, then the user's role. */
  function Decide(isLoading: bool, isAuthenticated: bool, user: Option<User>, allowedRoles: seq<Role>): (r: Outcome)
    ensures r == RenderNothing <==> isLoading
    ensures r == Redirect("/login") <==> !isLoading && !isAuthenticated
    ensures r == Redirect("/") <==> !isLoading && isAuthenticated && user.Some? && user.value.role !in allowedRoles
    ensures r == RenderChildren <==> !isLoading && isAuthenticated && (user.None? || user.value.role in allowedRoles)
  {
    if isLoading then RenderNothing
    else if !isAuthenticated then Redirect("/login")
    else if user.Some? && user.value.role !in allowedRoles then Redirect("/")
    else RenderChildren
  }

  /** The guard as seen from the auth store. */
  function Guard(s: AuthSlice.AuthState, allowedRoles: seq<Role>): Outcome
  {
    Decide(s.isLoading, s.isAuthenticated, s.user, allowedRoles)
  }

  /** The decision is total: exactly one of the four outcomes applies. */
  lemma ExactlyOneOutcome(isLoading: bool, isAuthenticated: bool, user: Option<User>, allowedRoles: seq<Role>)
    ensures var r := Decide(isLoading, isAuthenticated, user, allowedRoles);
      r in {RenderNothing, Redirect("/login"), Redirect("/"), RenderChildren}
  {
  }

  /** Before the stored session is looked at nothing is shown; after logout,
      or after a rejected login, the guard sends the visitor to the login
      page; after a successful login it lets through exactly the allowed
      roles. */
  lemma GuardAfterAuthEvents(s: AuthSlice.AuthState, allowedRoles: seq<Role>, t: AuthSlice.AuthThunk,
                             user: User, token: string, f: StoreTypes.RequestFailure)
    ensures Guard(AuthSlice.InitialAuth, allowedRoles) == RenderNothing
    ensures Guard(AuthSlice.Reduce(s, AuthSlice.Logout), allowedRoles) == Redirect("/login")
    ensures Guard(AuthSlice.Reduce(s, AuthSlice.Rejected(t, f)), allowedRoles) == Redirect("/login")
    ensures Guard(AuthSlice.Reduce(s, AuthSlice.Fulfilled(t, Some(user), token)), allowedRoles)
            == if user.role in allowedRoles then RenderChildren else Redirect("/")
  {
  }
}
