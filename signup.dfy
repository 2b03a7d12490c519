/** The signup page: the form record `handleChange` edits, the chef-only
    fields rule, the payload `handleSignup` sends and the messages it
    shows. */
module Signup {
  import opened Text
  import Http

  datatype Field = Name | Email | Password | Role | RoleTitle | Specialty

  /** The form's state record. */
  datatype Form = Form(name: string, email: string, password: string, role: string,
                       roleTitle: string, specialty: string)

  /** The form as the page first shows it: every field empty, role Chef. */
  const Initial := Form("", "", "", "Chef", "", "")

  function Get(f: Form, field: Field): string {
    match field
    case Name => f.name
    case Email => f.email
    case Password => f.password
    case Role => f.role
    case RoleTitle => f.roleTitle
    case Specialty => f.specialty
  }

  /** `{ ...prev, [name]: value }`. */
  function Set(f: Form, field: Field, value: string): (r: Form)
    ensures Get(r, field) == value
    ensures forall g :: g != field ==> Get(r, g) == Get(f, g)
  {
    match field
    case Name => f.(name := value)
    case Email => f.(email := value)
    case Password => f.(password := value)
    case Role => f.(role := value)
    case RoleTitle => f.(roleTitle := value)
    case Specialty => f.(specialty := value)
  }

  /** Whether a change is the role switch to FoodLover, which also clears
      the chef fields. */
  predicate ClearsChefFields(field: Field, value: string) {
    field == Role && value == "FoodLover"
  }

  /** The form after `handleChange`: the changed field takes the new value,
      the chef fields are cleared when the role becomes FoodLover, and
      nothing else changes. */
  function Changed(f: Form, field: Field, value: string): (r: Form)
    ensures Get(r, field) == value
    ensures ClearsChefFields(field, value) ==> r.roleTitle == "" && r.specialty == ""
    ensures forall g :: g != field && !(ClearsChefFields(field, value) && g in {RoleTitle, Specialty}) ==>
      Get(r, g) == Get(f, g)
  {
    var r := Set(f, field, value);
    if ClearsChefFields(field, value) then r.(roleTitle := "", specialty := "") else r
  }

  /** The signup request body; the chef fields are None when left out. */
  datatype Payload = Payload(name: string, email: string, password: string, role: string,
                             roleTitle: Option<string>, specialty: Option<string>)

  /** The payload built from the form. */
  function PayloadOf(f: Form): (p: Payload)
    ensures p.name == f.name && p.email == f.email && p.password == f.password && p.role == f.role
    ensures p.roleTitle.Some? <==> f.role == "Chef"
    ensures p.specialty.Some? <==> f.role == "Chef"
    ensures p.roleTitle.Some? ==> p.roleTitle.value == f.roleTitle
    ensures p.specialty.Some? ==> p.specialty.value == f.specialty
  {
    Payload(f.name, f.email, f.password, f.role,
            if f.role == "Chef" then Some(f.roleTitle) else None,
            if f.role == "Chef" then Some(f.specialty) else None)
  }

  /** A chef must give a role title and a specialty. */
  predicate ChefFieldsMissing(f: Form) {
    f.role == "Chef" && (f.roleTitle == "" || f.specialty == "")
  }

  /** What `res.json()` gives on a failed response: a rejected promise, the
      value null, or a value with a (possibly falsy) message. */
  datatype ErrorBody = Unparsable | JsonNull | JsonValue(message: string)

  datatype Response = Thrown | Received(status: nat, body: ErrorBody)

  /** What a submission produces: the request sent (None when validation
      stopped it), the error shown, the alert, the navigation and whether
      the page is left loading. */
  datatype Outcome = Outcome(request: Option<Payload>, error: string, alert: Option<string>,
                             destination: Option<string>, loading: bool)

  const ChefFieldsMessage := "Role Title and Specialty are required for Chefs."
  const FallbackMessage := "Signup failed. Please try again."
  const NetworkMessage := "Network error or server unavailable. Please try again later."
  const SuccessAlert := "Signup successful! Please log in."

  /** The error for a failed status: the body's message, or for an
      unparsable body the status fallback. A null body makes reading its
      message throw, which ends in the network message. */
  function FailureMessage(status: nat, body: ErrorBody): (m: string)
    ensures body.JsonValue? && body.message != "" ==> m == body.message
    ensures body.JsonValue? && body.message == "" ==> m == FallbackMessage
    ensures body.Unparsable? ==> m == "Signup failed with status: " + NatToString(status)
    ensures body.JsonNull? ==> m == NetworkMessage
    ensures m != ""
  {
    match body
    case Unparsable => "Signup failed with status: " + NatToString(status)
    case JsonNull => NetworkMessage
    case JsonValue(message) => Or(message, FallbackMessage)
  }

  /** `handleSignup` on form `f`, given what the request would produce. */
  function Submit(f: Form, r: Response): Outcome {
    if ChefFieldsMissing(f) then Outcome(None, ChefFieldsMessage, None, None, false)
    else
      var p := Some(PayloadOf(f));
      match r
      case Thrown => Outcome(p, NetworkMessage, None, None, false)
      case Received(status, body) =>
        if !Http.Ok(status) then Outcome(p, FailureMessage(status, body), None, None, false)
        else Outcome(p, "", Some(SuccessAlert), Some("/login"), true)
  }

  /** A chef with a missing title or specialty is stopped before any
      request, whatever the server would have said. */
  lemma ChefValidationStopsRequest(f: Form, r: Response)
    requires f.role == "Chef" && (f.roleTitle == "" || f.specialty == "")
    ensures Submit(f, r).request.None?
    ensures Submit(f, r).error == ChefFieldsMessage && Submit(f, r).destination.None?
  {
  }

  /** A request is sent exactly when validation passes; a chef request
      then carries a non-empty title and specialty, any other role none. */
  lemma {:induction false} RequestIffValid(f: Form, r: Response)
    ensures Submit(f, r).request.Some? <==> !ChefFieldsMissing(f)
    ensures Submit(f, r).request.Some? ==> Submit(f, r).request.value == PayloadOf(f)
    ensures Submit(f, r).request.Some? && f.role == "Chef" ==>
      Submit(f, r).request.value.roleTitle.value != "" && Submit(f, r).request.value.specialty.value != ""
    ensures Submit(f, r).request.Some? && f.role != "Chef" ==>
      Submit(f, r).request.value.roleTitle.None? && Submit(f, r).request.value.specialty.None?
  {
    if !ChefFieldsMissing(f) {
      assert Submit(f, r).request == Some(PayloadOf(f));
    }
  }

  /** Only an OK response navigates, and it goes to the login page; every
      failure shows a non-empty error. */
  lemma {:induction false} NavigatesOnlyOnSuccess(f: Form, r: Response)
    ensures Submit(f, r).destination.Some? <==> !ChefFieldsMissing(f) && r.Received? && Http.Ok(r.status)
    ensures Submit(f, r).destination.Some? ==> Submit(f, r).destination.value == "/login" && Submit(f, r).error == ""
    ensures Submit(f, r).destination.None? ==> Submit(f, r).error != ""
  {
    if !ChefFieldsMissing(f) && r.Received? && !Http.Ok(r.status) {
      assert Submit(f, r).error == FailureMessage(r.status, r.body);
    }
  }

  /** Switching to FoodLover and back to Chef leaves the chef fields empty,
      so such a chef signup is stopped by validation. */
  lemma {:induction false} RoundTripThroughFoodLover(f: Form, r: Response)
    ensures var g := Changed(Changed(f, Role, "FoodLover"), Role, "Chef");
      g.role == "Chef" && g.roleTitle == "" && g.specialty == "" && Submit(g, r).request.None?
  {
    var h := Changed(f, Role, "FoodLover");
    var g := Changed(h, Role, "Chef");
    assert Get(g, RoleTitle) == Get(h, RoleTitle);
    assert Get(g, Specialty) == Get(h, Specialty);
  }

  /** The signup page's state. */
  class SignupPage {
    var form: Form
    var error: string
    var isLoading: bool

    constructor ()
      ensures form == Initial && error == "" && !isLoading
    {
      form := Initial;
      error := "";
      isLoading := false;
    }

    /** `handleChange`: the field update, then the clearing update. */
    method HandleChange(field: Field, value: string)
      modifies this
      ensures form == Changed(old(form), field, value)
      ensures error == old(error) && isLoading == old(isLoading)
    {
      form := Set(form, field, value);
      if field == Role && value == "FoodLover" {
        form := form.(roleTitle := "", specialty := "");
      }
    }

    /** `handleSignup` given what the request would produce; returns the
        request sent, the alert shown and the navigation. */
    method HandleSignup(r: Response) returns (request: Option<Payload>, alert: Option<string>, destination: Option<string>)
      modifies this
      ensures var o := Submit(old(form), r);
        request == o.request && alert == o.alert && destination == o.destination &&
        error == o.error && isLoading == o.loading && form == old(form)
    {
      error := "";
      isLoading := true;
      alert := None;
      destination := None;
      var payload := PayloadOf(form);
      if form.role == "Chef" && (form.roleTitle == "" || form.specialty == "") {
        error := ChefFieldsMessage;
        isLoading := false;
        request := None;
        return;
      }
      request := Some(payload);
      match r {
        case Thrown =>
          error := NetworkMessage;
          isLoading := false;
        case Received(status, body) =>
          if !Http.Ok(status) {
            error := FailureMessage(status, body);
            isLoading := false;
            return;
          }
          alert := Some(SuccessAlert);
          destination := Some("/login");
      }
    }
  }
}
