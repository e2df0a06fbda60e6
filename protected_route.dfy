/** The route guard: the token gates every protected route, the superuser flag gates admin routes. */
module ProtectedRoute {
  import opened JsText
  import opened AuthContext

  datatype RouteOutcome = RedirectToLogin | RedirectToDashboard | RenderChildren

  /** `ProtectedRoute({children, adminOnly})` over the current `auth`. */
  function Guard(auth: Option<Identity>, adminOnly: bool): (r: RouteOutcome)
    ensures r == RedirectToLogin <==> !HasToken(auth)
    ensures r == RedirectToDashboard <==> HasToken(auth) && adminOnly && !auth.value.isSuperuser
    ensures r == RenderChildren <==> HasToken(auth) && (!adminOnly || auth.value.isSuperuser)
  {
    if !HasToken(auth) then RedirectToLogin
    else if adminOnly && !auth.value.isSuperuser then RedirectToDashboard
    else RenderChildren
  }

  /** `adminOnly` defaults to false. */
  function DefaultGuard(auth: Option<Identity>): (r: RouteOutcome)
    ensures r != RedirectToDashboard
    ensures r == RenderChildren <==> HasToken(auth)
  {
    Guard(auth, false)
  }

  /** A default route ignores the superuser flag. */
  lemma DefaultIgnoresSuperuser(token: string, username: Option<string>)
    ensures DefaultGuard(Some(Identity(token, username, true))) == DefaultGuard(Some(Identity(token, username, false)))
  {
  }

  /** Without a token the outcome does not depend on `adminOnly`. */
  lemma NoTokenAlwaysLogin(auth: Option<Identity>, adminOnly: bool)
    requires !HasToken(auth)
    ensures Guard(auth, adminOnly) == Guard(auth, !adminOnly) == RedirectToLogin
  {
  }
}
