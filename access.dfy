/**
 * The two role gates: the server middleware authorizeRoles(...roles) and the
 * client-side ProtectedRoute wrapper.
 */
module Access {
  import opened Wrappers
  import opened SaleEngine

  /** What the middleware does with a request. */
  datatype Gate = Deny(status: int, message: string) | Next

  const NOT_AUTHORIZED := "Not authorized"
  const FORBIDDEN := "Forbidden: insufficient permissions"

  /** authorizeRoles: no authenticated user is 401, checked before the role;
      a role outside the list is 403; a listed role goes on to the handler. */
  function AuthorizeRoles(roles: seq<string>, user: Option<Caller>): (r: Gate)
    ensures user.None? ==> r == Deny(401, NOT_AUTHORIZED)
    ensures user.Some? && user.value.role !in roles ==> r == Deny(403, FORBIDDEN)
    ensures r == Next <==> user.Some? && user.value.role in roles
  {
    if user.None? then Deny(401, NOT_AUTHORIZED)
    else if user.value.role !in roles then Deny(403, FORBIDDEN)
    else Next
  }

  /** With no roles listed every authenticated user is refused. */
  lemma {:induction false} EmptyRolesRefuseAll(u: Caller)
    ensures AuthorizeRoles([], Some(u)) == Deny(403, FORBIDDEN)
  {
  }

  /** What the route wrapper renders. */
  datatype Route = Redirect(to: string) | Render

  /** ProtectedRoute: no token (absent or empty) redirects home; a non-empty
      allowed list that does not include the stored role redirects home;
      otherwise the children render. An empty list admits any token holder. */
  function RouteDecision(token: Option<string>, role: Option<string>, allowedRoles: seq<string>): (r: Route)
    ensures r.Redirect? ==> r.to == "/"
    ensures !Truthy(token) ==> r.Redirect?
    ensures Truthy(token) && allowedRoles == [] ==> r == Render
    ensures r == Render <==> Truthy(token) && (allowedRoles == [] || (role.Some? && role.value in allowedRoles))
  {
    if !Truthy(token) then Redirect("/")
    else if |allowedRoles| > 0 && !(role.Some? && role.value in allowedRoles) then Redirect("/")
    else Render
  }

  /** The two gates agree for a logged-in user whose stored role is their
      server role, except on an empty list: the page renders there while
      the server refuses every request. */
  lemma {:induction false} GatesAgree(token: string, u: Caller, roles: seq<string>)
    requires token != ""
    ensures roles != [] ==> (RouteDecision(Some(token), Some(u.role), roles) == Render <==> AuthorizeRoles(roles, Some(u)) == Next)
    ensures roles == [] ==> RouteDecision(Some(token), Some(u.role), roles) == Render && AuthorizeRoles(roles, Some(u)).Deny?
  {
  }
}
