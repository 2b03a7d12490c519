/** The `ProtectedRoute` wrapper: it reads the stored token and role and
    either redirects to the login page, redirects to the home page, or
    renders the wrapped dashboard. */
module ProtectedRoute {
  import opened Text
  import Routes

  /** What the wrapper renders. A redirect to login carries the location the
      user tried to reach (`state.from`); both redirects replace the
      history entry. */
  datatype Decision =
    | RedirectToLogin(from: string, replace: bool)
    | RedirectToHome(replace: bool)
    | RenderChildren

  /** The decision for a wrapper that requires `role`, given the stored
      token and role (None when absent) and the current location. */
  function Decide(token: Option<string>, storedRole: Option<string>, role: string, location: string): (d: Decision)
    ensures d.RedirectToLogin? <==> !Truthy(token)
    ensures d.RedirectToLogin? ==> d.from == location && d.replace
    ensures d.RedirectToHome? <==> Truthy(token) && storedRole != Some(role)
    ensures d.RedirectToHome? ==> d.replace
    ensures d.RenderChildren? <==> Truthy(token) && storedRole == Some(role)
  {
    if !Truthy(token) then RedirectToLogin(location, true)
    else if storedRole != Some(role) then RedirectToHome(true)
    else RenderChildren
  }

  /** The path a redirect leads to. */
  function Target(d: Decision): (p: string)
    requires !d.RenderChildren?
    ensures d.RedirectToLogin? ==> p == "/login"
    ensures d.RedirectToHome? ==> p == "/"
  {
    if d.RedirectToLogin? then "/login" else "/"
  }

  /** The token check comes first: without a token the user goes to login
      even when the stored role is the required one. */
  lemma TokenCheckFirst(storedRole: Option<string>, role: string, location: string)
    ensures Decide(None, storedRole, role, location) == RedirectToLogin(location, true)
    ensures Decide(Some(""), storedRole, role, location) == RedirectToLogin(location, true)
  {
  }

  /** A logged-in user with the wrong role is sent home, never to login. */
  lemma MismatchGoesHome(token: string, storedRole: Option<string>, role: string, location: string)
    requires token != "" && storedRole != Some(role)
    ensures Decide(Some(token), storedRole, role, location) == RedirectToHome(true)
    ensures Target(Decide(Some(token), storedRole, role, location)) != "/login"
  {
  }

  /** For every guarded route of the table, a redirect leads to a public
      page (so no second guard runs) that is not the guarded route itself. */
  lemma {:induction false} RedirectsLeaveGuardedRoute(path: string, role: string, token: Option<string>,
                                                      storedRole: Option<string>)
    requires Routes.GuardOf(path) == Some(Some(role))
    requires !Decide(token, storedRole, role, path).RenderChildren?
    ensures Routes.IsPublic(Target(Decide(token, storedRole, role, path)))
    ensures Target(Decide(token, storedRole, role, path)) != path
  {
    var d := Decide(token, storedRole, role, path);
    if d.RedirectToLogin? {
      Routes.LoginPublic();
    } else {
      Routes.HomePublic();
    }
  }
}
