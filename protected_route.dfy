/** The route guard: what a protected route shows for the current session,
    as a pure decision over the auth state and the route's requirements. */
module RouteGuard {
  import opened Common
  import opened Types
  import opened Permissions

  datatype Outcome = Spinner | Redirect(path: string) | Render

  /** Where a user whose role the route does not allow is sent. */
  function HomeOf(role: Role): string
  {
    match role
    case Admin => "/admin"
    case Seller => "/seller"
    case Customer => "/"
  }

  /** The guard. `requireAuth` is true when the route does not set it; a
      required role is either one role or a list of roles. */
  function Decide(loading: bool, user: Option<User>, requiredRole: Option<OneOrMany<Role>>, requireAuth: bool): (r: Outcome)
    ensures r == Spinner <==> loading
    ensures r == Render ==> user.Some? || !requireAuth
    ensures r.Redirect? ==> r.path == "/login" || r.path == "/admin" || r.path == "/seller" || r.path == "/"
  {
    if loading then Spinner
    else if requireAuth && user.None? then Redirect("/login")
    else if requiredRole.Some? && user.Some? && user.value.role !in Expand(requiredRole.value) then
      Redirect(HomeOf(user.value.role))
    else Render
  }

  /** While the session loads, the spinner shows whatever the user and the
      requirements. */
  lemma LoadingShowsSpinner(user: Option<User>, requiredRole: Option<OneOrMany<Role>>, requireAuth: bool)
    ensures Decide(true, user, requiredRole, requireAuth) == Spinner
  {
  }

  /** Once loaded, a route that needs a session sends an anonymous visitor to
      the login page, whatever role it requires. */
  lemma AnonymousGoesToLogin(requiredRole: Option<OneOrMany<Role>>)
    ensures Decide(false, None, requiredRole, true) == Redirect("/login")
  {
  }

  /** A route open to anonymous visitors skips the role check for them. */
  lemma AnonymousMaySkipRoleCheck(requiredRole: Option<OneOrMany<Role>>)
    ensures Decide(false, None, requiredRole, false) == Render
  {
  }

  /** A single required role acts as a one-element list. */
  lemma SingleRoleIsList(loading: bool, user: Option<User>, role: Role, requireAuth: bool)
    ensures Decide(loading, user, Some(One(role)), requireAuth) == Decide(loading, user, Some(Many([role])), requireAuth)
  {
  }

  /** A signed-in user without an allowed role goes to their own area: admin
      to /admin, seller to /seller, customer to the home page; never to the
      login page. */
  lemma WrongRoleGoesHome(user: User, allowed: OneOrMany<Role>, requireAuth: bool)
    requires user.role !in Expand(allowed)
    ensures Decide(false, Some(user), Some(allowed), requireAuth) == Redirect(HomeOf(user.role))
    ensures HomeOf(user.role) != "/login"
    ensures user.role == Admin <==> HomeOf(user.role) == "/admin"
    ensures user.role == Seller <==> HomeOf(user.role) == "/seller"
    ensures user.role == Customer <==> HomeOf(user.role) == "/"
  {
  }

  /** The children render exactly when loading is over, a session exists or
      is not needed, and there is no role requirement that a signed-in user
      fails. An empty list of roles admits no signed-in user. */
  lemma RenderIff(loading: bool, user: Option<User>, requiredRole: Option<OneOrMany<Role>>, requireAuth: bool)
    ensures Decide(loading, user, requiredRole, requireAuth) == Render <==>
      !loading
      && (user.Some? || !requireAuth)
      && (requiredRole.None? || user.None? || user.value.role in Expand(requiredRole.value))
  {
  }
}
