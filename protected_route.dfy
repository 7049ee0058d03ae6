// The client's route guard: what a protected route shows, given the
// authentication state and the role the route requires.

module ProtectedRoute {
  import opened Common

  /** What the guard renders. `Crash` is the TypeError raised when the guard
      reads the role of a user that is not there. */
  datatype Outcome = RenderNothing | RenderChildren | RedirectTo(path: string) | Crash

  /** The user in the authentication context, when there is one; its role
      may be missing. */
  datatype SessionUser = SessionUser(role: Option<string>)

  /** A JavaScript value in a template literal: a missing role reads as
      "undefined". */
  function Show(role: Option<string>): string {
    if role.Some? then role.value else "undefined"
  }

  /** ProtectedRoute: nothing while loading, the login page when not
      authenticated, the children when no role (or an empty one) is
      required or the user's role is the required one, and otherwise the
      dashboard of the user's own role. */
  function Guard(loading: bool, isAuthenticated: bool, requiredRole: Option<string>,
                 user: Option<SessionUser>): (o: Outcome)
    ensures loading ==> o == RenderNothing
    ensures !loading && !isAuthenticated ==> o == RedirectTo("/login")
    ensures o == RenderChildren <==>
              !loading && isAuthenticated &&
              (requiredRole.None? || requiredRole.value == "" ||
               (user.Some? && user.value.role == requiredRole))
  {
    if loading then RenderNothing
    else if !isAuthenticated then RedirectTo("/login")
    else if requiredRole.None? || requiredRole.value == "" then RenderChildren
    else if user.None? then Crash
    else if user.value.role != requiredRole then RedirectTo("/" + Show(user.value.role))
    else RenderChildren
  }

  /** When a role is required and the user's role is another one, the guard
      sends the user to its own role's page and never shows the children;
      with no user at all the guard fails. */
  lemma GuardRoleMismatch(requiredRole: string, user: Option<SessionUser>)
    requires requiredRole != ""
    ensures user.None? ==> Guard(false, true, Some(requiredRole), user) == Crash
    ensures user.Some? && user.value.role != Some(requiredRole) ==>
              Guard(false, true, Some(requiredRole), user) == RedirectTo("/" + Show(user.value.role))
    ensures user.Some? && user.value.role == Some(requiredRole) ==>
              Guard(false, true, Some(requiredRole), user) == RenderChildren
  {
  }

  /** The guard redirects only to the login page or to the page of the
      user's own role. */
  lemma GuardRedirectTargets(loading: bool, isAuthenticated: bool, requiredRole: Option<string>,
                             user: Option<SessionUser>)
    ensures Guard(loading, isAuthenticated, requiredRole, user).RedirectTo? ==>
              Guard(loading, isAuthenticated, requiredRole, user).path == "/login" ||
              (user.Some? && Guard(loading, isAuthenticated, requiredRole, user).path == "/" + Show(user.value.role))
  {
  }
}
