/**
 * The route guard (`ProtectedRoute.tsx`): from the auth store's flags, the
 * user's role and the route's required role it decides what is rendered
 * and where, if anywhere, the effect navigates.
 */
module ProtectedRoute {
  import opened Common
  import opened AuthStore

  datatype View = Spinner | Nothing | Children

  datatype Decision = Decision(view: View, navigate: Option<string>)

  /** `user?.role !== requiredRole`: a missing user never has the role. */
  predicate RoleMismatch(user: Option<User>, required: Role)
  {
    user.None? || user.value.role != required
  }

  /** The redirect of the second effect, then the rendered view. */
  function Decide(isLoading: bool, isAuthenticated: bool, user: Option<User>, requiredRole: Option<Role>): (d: Decision)
    ensures d.view == Spinner <==> isLoading
    ensures isLoading ==> d.navigate.None?
    ensures d.view == Children <==>
              !isLoading && isAuthenticated && (requiredRole.None? || (user.Some? && user.value.role == requiredRole.value))
    ensures d.view == Nothing <==> d.navigate.Some?
    ensures d.navigate == Some("/sign-in") <==> !isLoading && !isAuthenticated
    ensures d.navigate == Some("/") <==>
              !isLoading && isAuthenticated && requiredRole.Some? && RoleMismatch(user, requiredRole.value)
  {
    var navigate :=
      if !isLoading && !isAuthenticated then Some("/sign-in")
      else if !isLoading && isAuthenticated && requiredRole.Some? && RoleMismatch(user, requiredRole.value) then Some("/")
      else None;
    var view :=
      if isLoading then Spinner
      else if !isAuthenticated then Nothing
      else if requiredRole.Some? && RoleMismatch(user, requiredRole.value) then Nothing
      else Children;
    Decision(view, navigate)
  }

  /** The guard over the auth store's state. */
  function Guard(s: AuthState, requiredRole: Option<Role>): Decision
  {
    Decide(s.isLoading, s.isAuthenticated, s.user, requiredRole)
  }

  /**
   * Mounting the guard runs `checkAuth`. With no stored token and nothing
   * loading it sends the visitor to `/sign-in`; a failed token check does
   * the same once it settles.
   */
  lemma NoSessionRedirects(s: AuthState, read: string, requiredRole: Option<Role>)
    ensures !Present(s.stored) && !s.isLoading ==> Guard(CheckAuthStart(s), requiredRole) == Decision(Nothing, Some("/sign-in"))
    ensures Guard(CheckAuthSettle(CheckAuthStart(s), read, MeFailed), requiredRole) == Decision(Nothing, Some("/sign-in"))
  {
  }

  /** While the token is being checked the guard shows the spinner, whatever the role. */
  lemma CheckingShowsSpinner(s: AuthState, requiredRole: Option<Role>)
    requires Present(s.stored)
    ensures Guard(CheckAuthStart(s), requiredRole) == Decision(Spinner, None)
  {
  }

  /** A restored session shows a role-less route, and a role route exactly to users of that role. */
  lemma RestoredSessionShows(s: AuthState, read: string, u: User, role: Role)
    ensures Guard(CheckAuthSettle(s, read, Me(u)), None).view == Children
    ensures Guard(CheckAuthSettle(s, read, Me(u)), Some(role)).view == Children <==> u.role == role
  {
  }
}
