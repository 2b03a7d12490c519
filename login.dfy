/** The login page: `handleLogin` posts the credentials, maps a failure
    status to a message, checks the success body, stores the token and
    role and sends the user to the dashboard of their role. */
module Login {
  import opened Text
  import Http
  import Routes
  import ProtectedRoute

  /** The `user` object of a login body. `role` is None when it is not a
      string; a missing or falsy `firstName` is "". */
  datatype User = User(role: Option<string>, firstName: string)

  /** A parsed login body; a missing or falsy `message` or `token` is "".
      A JSON value that is not an object has every field missing. */
  datatype Body = Body(message: string, token: string, user: Option<User>)

  /** What `fetch` produced: a thrown error (`aborted` when its name is
      AbortError), or a response whose body is None when it was not JSON,
      could not be parsed, or parsed to a falsy value. */
  datatype Response =
    | Thrown(aborted: bool)
    | Received(status: nat, body: Option<Body>)

  /** Everything a login attempt produces: the error shown (or ""), the
      token and role written to storage, the welcome alert and the
      navigation target. */
  datatype Outcome = Outcome(error: string, stored: Option<(string, string)>,
                             welcome: Option<string>, destination: Option<string>)

  const NotFoundMessage := "User with this email does not exist."
  const BadCredentialsMessage := "Invalid email or password."
  const UnreadableMessage := "Login successful, but couldn't read server response."
  const IncompleteMessage := "Login succeeded but received incomplete user data from server."
  const NetworkMessage := "Login failed. Could not connect to the server. Please check your network or try again later."

  /** The message for a response whose status is not OK. */
  function FailureMessage(status: nat, body: Option<Body>): (m: string)
    ensures status == 404 ==> m == NotFoundMessage
    ensures status == 400 || status == 401 ==> m == BadCredentialsMessage
    ensures status !in {400, 401, 404} && body.Some? && body.value.message != "" ==> m == body.value.message
    ensures status !in {400, 401, 404} && (body.None? || body.value.message == "") ==>
      m == "Login failed. Status: " + NatToString(status)
  {
    if status == 404 then NotFoundMessage
    else if status == 400 || status == 401 then BadCredentialsMessage
    else if body.Some? && body.value.message != "" then body.value.message
    else "Login failed. Status: " + NatToString(status)
  }

  /** A success body passes validation: a token, a user object and a role
      that is a string with something other than white space. */
  predicate Complete(b: Body) {
    b.token != "" && b.user.Some? && b.user.value.role.Some? && Trim(b.user.value.role.value) != ""
  }

  /** The dashboard path for a role, None for a role without one. */
  function Dashboard(role: string): (p: Option<string>)
    ensures role == "Chef" <==> p == Some("/chef-dashboard")
    ensures role == "Admin" <==> p == Some("/admin-dashboard")
    ensures role == "FoodLover" <==> p == Some("/foodlover-dashboard")
    ensures p.None? <==> role !in {"Chef", "Admin", "FoodLover"}
  {
    if role == "Chef" then Some("/chef-dashboard")
    else if role == "Admin" then Some("/admin-dashboard")
    else if role == "FoodLover" then Some("/foodlover-dashboard")
    else None
  }

  function UnknownRoleMessage(role: string): string {
    "Login successful, but received an unknown role ('" + role + "'). Redirecting to homepage."
  }

  function WelcomeMessage(firstName: string): string {
    "Welcome " + Or(firstName, "User") + " to your RecipeNest dashboard!"
  }

  /** The outcome of one login attempt. */
  function Attempt(r: Response): Outcome {
    match r
    case Thrown(aborted) => Outcome(if aborted then "" else NetworkMessage, None, None, None)
    case Received(status, body) =>
      if !Http.Ok(status) then Outcome(FailureMessage(status, body), None, None, None)
      else if body.None? then Outcome(UnreadableMessage, None, None, None)
      else if !Complete(body.value) then Outcome(IncompleteMessage, None, None, None)
      else
        var role := body.value.user.value.role.value;
        var welcome := Some(WelcomeMessage(body.value.user.value.firstName));
        match Dashboard(role)
        case Some(p) => Outcome("", Some((body.value.token, role)), welcome, Some(p))
        case None => Outcome(UnknownRoleMessage(role), Some((body.value.token, role)), welcome, Some("/"))
  }

  /** Token and role are stored exactly when the status is OK and the body
      passed validation; they are then the body's token and untrimmed role. */
  lemma {:induction false} StoredIffValid(r: Response)
    ensures Attempt(r).stored.Some? <==>
      r.Received? && Http.Ok(r.status) && r.body.Some? && Complete(r.body.value)
    ensures Attempt(r).stored.Some? ==>
      Attempt(r).stored.value == (r.body.value.token, r.body.value.user.value.role.value)
    ensures Attempt(r).stored.Some? <==> Attempt(r).destination.Some?
    ensures Attempt(r).stored.Some? <==> Attempt(r).welcome.Some?
  {
    if r.Received? && Http.Ok(r.status) && r.body.Some? && Complete(r.body.value) {
      var role := r.body.value.user.value.role.value;
      if Dashboard(role).Some? {
        assert Attempt(r).stored == Some((r.body.value.token, role));
      } else {
        assert Attempt(r).stored == Some((r.body.value.token, role));
      }
    }
  }

  /** A failed status, a missing body or incomplete data each give their
      own message and store nothing. */
  lemma ErrorPaths(status: nat, body: Option<Body>)
    ensures !Http.Ok(status) ==> Attempt(Received(status, body)) == Outcome(FailureMessage(status, body), None, None, None)
    ensures Http.Ok(status) && body.None? ==> Attempt(Received(status, body)) == Outcome(UnreadableMessage, None, None, None)
    ensures Http.Ok(status) && body.Some? && !Complete(body.value) ==>
      Attempt(Received(status, body)) == Outcome(IncompleteMessage, None, None, None)
  {
  }

  /** The welcome alert of a validated login names the user's first name,
      or "User" when none came back. */
  lemma {:induction false} WelcomeNamesUser(r: Response)
    requires Attempt(r).welcome.Some?
    ensures r.Received? && r.body.Some? && r.body.value.user.Some?
    ensures var first := r.body.value.user.value.firstName;
      Attempt(r).welcome.value ==
        "Welcome " + (if first != "" then first else "User") + " to your RecipeNest dashboard!"
  {
    StoredIffValid(r);
    var role := r.body.value.user.value.role.value;
    if Dashboard(role).Some? {
      assert Attempt(r).welcome == Some(WelcomeMessage(r.body.value.user.value.firstName));
    } else {
      assert Attempt(r).welcome == Some(WelcomeMessage(r.body.value.user.value.firstName));
    }
  }

  /** A user who has just logged in with one of the three known roles is
      sent to a route whose guard requires the role just stored, and that
      guard then renders the dashboard; any other role is sent to the
      public home page with an error. */
  lemma {:induction false} DestinationAdmitsUser(r: Response)
    requires Attempt(r).destination.Some?
    ensures var o := Attempt(r);
      var token := o.stored.value.0;
      var role := o.stored.value.1;
      (Dashboard(role).Some? ==>
        o.error == "" &&
        Routes.GuardOf(o.destination.value) == Some(Some(role)) &&
        ProtectedRoute.Decide(Some(token), Some(role), role, o.destination.value) == ProtectedRoute.RenderChildren) &&
      (Dashboard(role).None? ==>
        o.destination.value == "/" && Routes.IsPublic("/") && o.error == UnknownRoleMessage(role))
  {
    StoredIffValid(r);
    var b := r.body.value;
    var token := b.token;
    var role := b.user.value.role.value;
    var welcome := Some(WelcomeMessage(b.user.value.firstName));
    var target := Dashboard(role);
    if target.Some? {
      assert Attempt(r) == Outcome("", Some((token, role)), welcome, target);
      KnownRoleAdmitted(token, role);
    } else {
      assert Attempt(r) == Outcome(UnknownRoleMessage(role), Some((token, role)), welcome, Some("/"));
      Routes.HomePublic();
    }
  }

  /** Each role's dashboard path is a route guarded by that role, whose
      guard renders it for a stored token and that role. */
  lemma KnownRoleAdmitted(token: string, role: string)
    requires token != "" && Dashboard(role).Some?
    ensures Routes.GuardOf(Dashboard(role).value) == Some(Some(role))
    ensures ProtectedRoute.Decide(Some(token), Some(role), role, Dashboard(role).value) == ProtectedRoute.RenderChildren
  {
    if role == "Chef" {
      Routes.ChefDashboardGuard();
    } else if role == "Admin" {
      Routes.AdminDashboardGuard();
    } else {
      Routes.FoodLoverDashboardGuard();
    }
  }

  /** The login form's state and the browser storage it writes. */
  class LoginPage {
    var error: string
    var isLoading: bool
    var storedToken: Option<string>
    var storedRole: Option<string>
    var alerts: seq<string>
    var navigatedTo: Option<string>

    constructor ()
      ensures error == "" && !isLoading && alerts == [] && navigatedTo == None
      ensures storedToken == None && storedRole == None
    {
      error := "";
      isLoading := false;
      storedToken := None;
      storedRole := None;
      alerts := [];
      navigatedTo := None;
    }

    /** `handleLogin` once the request has produced `r`: the error is
        cleared and replaced, the storage written only on a validated
        success, and loading ends on every path. */
    method HandleLogin(r: Response)
      modifies this
      ensures var o := Attempt(r);
        error == o.error && !isLoading &&
        (o.stored.Some? ==> storedToken == Some(o.stored.value.0) && storedRole == Some(o.stored.value.1)) &&
        (o.stored.None? ==> storedToken == old(storedToken) && storedRole == old(storedRole)) &&
        alerts == old(alerts) + (if o.welcome.Some? then [o.welcome.value] else []) &&
        navigatedTo == (if o.destination.Some? then o.destination else old(navigatedTo))
    {
      error := "";
      isLoading := true;
      match r {
        case Thrown(aborted) =>
          if !aborted {
            error := NetworkMessage;
          }
          isLoading := false;
        case Received(status, body) =>
          if !Http.Ok(status) {
            error := FailureMessage(status, body);
            isLoading := false;
            return;
          }
          if body.None? {
            error := UnreadableMessage;
            isLoading := false;
            return;
          }
          if !Complete(body.value) {
            error := IncompleteMessage;
            isLoading := false;
            return;
          }
          var token := body.value.token;
          var role := body.value.user.value.role.value;
          storedToken := Some(token);
          storedRole := Some(role);
          alerts := alerts + [WelcomeMessage(body.value.user.value.firstName)];
          isLoading := false;
          var target := Dashboard(role);
          if target.Some? {
            navigatedTo := target;
          } else {
            error := UnknownRoleMessage(role);
            navigatedTo := Some("/");
          }
      }
    }
  }
}
