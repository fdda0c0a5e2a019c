/** `ProtectedRoute`: renders its children only for a signed-in user whose role the route allows. */
module ProtectedRoute {
  import opened Wrappers
  import opened AuthContext

  /** What the route renders. */
  datatype Rendered = Children | Redirect(to: string)

  const LoginPath := "/login"

  /** `!auth || !allowedRoles.includes(auth.role)` redirects to the login page, otherwise the
      children are rendered. */
  function Guard(auth: Option<Session>, allowedRoles: seq<string>): (r: Rendered)
    ensures r == Children <==> auth.Some? && auth.value.role in allowedRoles
    ensures r != Children ==> r == Redirect(LoginPath)
    ensures auth.None? ==> r == Redirect(LoginPath)
    ensures allowedRoles == [] ==> r == Redirect(LoginPath)
  {
    if auth.None? || auth.value.role !in allowedRoles then Redirect(LoginPath) else Children
  }
}
