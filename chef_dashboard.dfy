/** The chef dashboard: its `callApi` wrapper, the image addresses it
    shows, the recipe form it fills for editing and sends as a PUT or a
    POST, the profile payload, the polling condition, the content it
    renders for each section, and the state its handlers update. */
module ChefDashboard {
  import opened Text
  import Http
  import ImageUrl
  import ProtectedRoute
  import FoodLover

  /** How often the recipe list is refreshed while polling. */
  const RefreshIntervalMs := 30000

  // ---------------------------------------------------------------------
  // Image addresses

  /** `getFullImageUrl`: null for a missing or empty path, a full URL as
      it is, anything else served from the API base. */
  function FullImageUrl(path: Option<string>): (r: Option<string>)
    ensures r.None? <==> !Truthy(path)
    ensures Truthy(path) && ImageUrl.IsAbsolute(path.value) ==> r == path
    ensures Truthy(path) && !ImageUrl.IsAbsolute(path.value) ==>
      r == Some(ImageUrl.Joined(Http.ApiBase, path.value))
  {
    if Truthy(path) then Some(ImageUrl.Resolve(path.value)) else None
  }

  /** A relative path (without a doubled leading slash) becomes the API
      base, one slash, and the path without its own leading slash. */
  lemma RelativeImageJoinedOnce(path: string)
    requires path != "" && !ImageUrl.IsAbsolute(path) && !StartsWith(path, "//")
    ensures var q := if StartsWith(path, "/") then path[1..] else path;
      FullImageUrl(Some(path)) == Some(Http.ApiBase + "/" + q) && !StartsWith(q, "/")
  {
    ImageUrl.OneSlash(path);
  }

  // ---------------------------------------------------------------------
  // callApi

  /** How `fetch` failed: a TypeError mentioning fetch, an AbortError, or
      anything else. */
  datatype FetchError = FetchTypeError | Aborted | OtherError

  /** The body of a response that is not 401, 403 or 204, as `callApi`
      reads it: a JSON content type with an empty text, or with a text that
      parses to a value; a body whose text cannot be read or parsed; or a
      body of another content type and its text. */
  datatype Body =
    | JsonEmpty
    | JsonBody(parsed: Http.Json)
    | Unparsable
    | PlainText(text: string)

  /** What `fetch` gave: a response, or a thrown error. */
  datatype Network = Responded(status: nat, body: Body) | Failed(error: FetchError)

  /** The data of a successful call: a parsed JSON value or a text. */
  datatype Data = JsonData(json: Http.Json) | TextData(text: string)

  /** The object `callApi` resolves to: `data` is None when null or absent,
      `error` is "" when absent, `status` is None when null. */
  datatype Reply<D> = Reply(success: bool, data: Option<D>, error: string, status: Option<nat>)

  /** One call: the reply, whether a request was made, and whether the
      logout handler was invoked. */
  datatype Call = Call(reply: Reply<Data>, requested: bool, logout: bool)

  const TokenMissingMessage := "Authentication token missing. Please log in again."

  /** The login and register endpoints may be called without a token. */
  predicate Exempt(url: string) {
    EndsWith(url, "/login") || EndsWith(url, "/register")
  }

  function AuthFailedMessage(status: nat): string {
    "Authorization failed (" + NatToString(status) + "). Please log in again."
  }

  function NetworkMessage(e: FetchError): (m: string)
    ensures m != ""
  {
    match e
    case FetchTypeError => "Network error: Could not connect to the server. Is the API running?"
    case Aborted => "The request was aborted."
    case OtherError => "Network error or the server could not be reached."
  }

  function DefaultError(status: nat): string {
    "Request failed: " + NatToString(status)
  }

  /** A text replaces the default message when it has 1 to 499 UTF-16
      units and differs from the default. */
  function ShortOr(t: string, default: string): (m: string)
    ensures m == t || m == default
    ensures m == t && t != default ==> 0 < JsLength(t) < 500
  {
    if 0 < JsLength(t) < 500 && t != default then t else default
  }

  /** The error of a failed, non-authorization response. */
  function ErrorMessage(status: nat, body: Body): (m: string)
    ensures body.Unparsable? ==>
      m == "Request failed (" + NatToString(status) + ") and response parsing failed."
    ensures body == JsonEmpty || body == JsonBody(Http.JNull) || (body.JsonBody? && body.parsed.JScalar?) ==>
      m == DefaultError(status)
    ensures body.JsonBody? && body.parsed.JObject? ==>
      var j := body.parsed;
      (j.message != "" ==> m == j.message) &&
      (j.message == "" && j.title != "" ==> m == j.title) &&
      (j.message == "" && j.title == "" && j.error != "" ==> m == j.error) &&
      (j.message == "" && j.title == "" && j.error == "" ==>
        m == (if j.keyCount > 0 then j.literal else DefaultError(status)))
    ensures body.PlainText? ==> m == ShortOr(body.text, DefaultError(status))
    ensures body.JsonBody? && body.parsed.JString? ==> m == ShortOr(body.parsed.s, DefaultError(status))
  {
    var default := DefaultError(status);
    match body
    case Unparsable => "Request failed (" + NatToString(status) + ") and response parsing failed."
    case JsonEmpty => default
    case PlainText(t) => ShortOr(t, default)
    case JsonBody(j) =>
      match j
      case JNull => default
      case JScalar(_) => default
      case JString(s) => ShortOr(s, default)
      case JObject(message, title, error, _, keyCount, literal) =>
        Or(message, Or(title, Or(error, if keyCount > 0 then literal else default)))
  }

  /** The data of a successful response; an empty JSON text, a JSON null
      and an unparsable body give null. */
  function SuccessData(body: Body): Option<Data> {
    match body
    case JsonEmpty => None
    case JsonBody(j) => if j.JNull? then None else Some(JsonData(j))
    case Unparsable => None
    case PlainText(t) => Some(TextData(t))
  }

  /** The whole of `callApi` for a url and the stored token. */
  function CallApi(token: Option<string>, url: string, n: Network): Call {
    if !Truthy(token) && !Exempt(url) then
      Call(Reply(false, None, TokenMissingMessage, Some(401)), false, true)
    else
      match n
      case Failed(e) => Call(Reply(false, None, NetworkMessage(e), None), true, false)
      case Responded(status, body) =>
        if status == 401 || status == 403 then
          Call(Reply(false, None, AuthFailedMessage(status), Some(status)), true, true)
        else if status == 204 then Call(Reply(true, None, "", Some(204)), true, false)
        else if Http.Ok(status) then Call(Reply(true, SuccessData(body), "", Some(status)), true, false)
        else Call(Reply(false, None, ErrorMessage(status, body), Some(status)), true, false)
  }

  /** Without a token, only the login and register endpoints are called;
      any other call fails with status 401 before a request is made. */
  lemma {:induction false} MissingTokenStopsRequest(token: Option<string>, url: string, n: Network)
    ensures !CallApi(token, url, n).requested <==> !Truthy(token) && !Exempt(url)
    ensures !CallApi(token, url, n).requested ==>
      CallApi(token, url, n).reply == Reply(false, None, TokenMissingMessage, Some(401)) &&
      CallApi(token, url, n).logout
  {
  }

  /** Logout is asked for exactly when no request could be made for lack
      of a token, or the server answered 401 or 403. */
  lemma {:induction false} LogoutIff(token: Option<string>, url: string, n: Network)
    ensures var c := CallApi(token, url, n);
      c.logout <==> !c.requested || (n.Responded? && (n.status == 401 || n.status == 403))
  {
    MissingTokenStopsRequest(token, url, n);
  }

  /** A call succeeds exactly when a request was made and the status is in
      200-299; then no error is given. A failure carries no data, the
      status it came with (401 for a missing token, null for a network
      error) and, for an authorization failure, that status in its text. */
  lemma {:induction false} SuccessIffOk(token: Option<string>, url: string, n: Network)
    ensures var c := CallApi(token, url, n);
      (c.reply.success <==> c.requested && n.Responded? && Http.Ok(n.status)) &&
      (c.reply.success ==> c.reply.error == "" && c.reply.status == Some(n.status)) &&
      (!c.reply.success ==> c.reply.data.None?) &&
      (!c.reply.success && c.requested ==> c.reply.status == (if n.Failed? then None else Some(n.status))) &&
      (c.requested && n.Responded? && (n.status == 401 || n.status == 403) ==>
        c.reply.error == AuthFailedMessage(n.status))
  {
    MissingTokenStopsRequest(token, url, n);
  }

  /** A 204 is a success with null data; consequently no failed reply ever
      carries status 204. */
  lemma NoContentIsSuccess(token: Option<string>, url: string, n: Network)
    ensures CallApi(token, url, n).requested && n.Responded? && n.status == 204 ==>
      CallApi(token, url, n).reply == Reply(true, None, "", Some(204))
    ensures CallApi(token, url, n).reply.status == Some(204) ==> CallApi(token, url, n).reply.success
  {
  }

  /** A non-JSON error body is shown only when it is shorter than 500
      units; a longer one gives the default message. */
  lemma LongTextHidden(status: nat, t: string)
    requires JsLength(t) >= 500
    ensures ErrorMessage(status, PlainText(t)) == DefaultError(status)
  {
  }

  // ---------------------------------------------------------------------
  // The recipe form and the request it sends

  /** A recipe as the dashboard receives it. Text fields that are missing
      or falsy are ""; ingredients and instructions are either an array
      of lines or a text. */
  datatype Lines = Items(items: seq<string>) | Plain(text: string)

  datatype Recipe = Recipe(id: Option<nat>, title: string, recipeType: string, cuisine: string,
                           description: string, ingredients: Lines, instructions: Lines)

  /** `recipeFormData`; `imageFile` is the name of a chosen file. */
  datatype RecipeForm = RecipeForm(recipeId: Option<nat>, title: string, recipeType: string, cuisine: string,
                                   description: string, ingredients: string, instructions: string,
                                   imageFile: Option<string>)

  /** The form `resetRecipeForm` installs, also the initial one. */
  const EmptyRecipeForm := RecipeForm(None, "", "", "", "", "", "", None)

  /** JavaScript truthiness of an id: present and not 0. */
  predicate IdTruthy(id: Option<nat>) {
    id.Some? && id.value != 0
  }

  /** An array is joined with newlines; a text is kept. */
  function LinesText(l: Lines): (t: string)
    ensures l.Plain? ==> t == l.text
    ensures l.Items? ==> t == Join(l.items, "\n")
  {
    match l
    case Items(xs) => Join(xs, "\n")
    case Plain(t) => t
  }

  /** The form `handleEditRecipe` fills from a recipe. */
  function EditFormOf(r: Recipe): (f: RecipeForm)
    ensures f.recipeId == r.id && f.imageFile.None?
    ensures f.title == r.title && f.recipeType == r.recipeType && f.cuisine == r.cuisine &&
      f.description == r.description
    ensures f.ingredients == LinesText(r.ingredients) && f.instructions == LinesText(r.instructions)
  {
    RecipeForm(r.id, r.title, r.recipeType, r.cuisine, r.description,
               LinesText(r.ingredients), LinesText(r.instructions), None)
  }

  datatype Method = Post | Put

  /** The multipart request `handleAddOrUpdateRecipe` sends: the method,
      the address, the text fields in order and the image file, if any. */
  datatype RecipeRequest = RecipeRequest(httpMethod: Method, url: string, fields: seq<(string, string)>,
                                         image: Option<string>)

  const RecipesUrl := Http.ApiBase + "/api/recipes"

  function RecipeUrl(id: nat): string {
    RecipesUrl + "/" + NatToString(id)
  }

  /** The request for the form's content: an update of the recipe when
      the form holds a (truthy) id, a creation otherwise; the image goes
      only with a creation. */
  function RecipeRequestOf(f: RecipeForm): (r: RecipeRequest)
    ensures r.httpMethod == Put <==> IdTruthy(f.recipeId)
    ensures r.httpMethod == Put ==> r.url == RecipeUrl(f.recipeId.value)
    ensures r.httpMethod == Post ==> r.url == RecipesUrl
    ensures r.fields == [("Title", f.title), ("Type", f.recipeType), ("Cuisine", f.cuisine),
                         ("Description", f.description), ("Ingredients", f.ingredients),
                         ("Instructions", f.instructions)]
    ensures r.image.Some? <==> r.httpMethod == Post && f.imageFile.Some?
    ensures r.image.Some? ==> r.image == f.imageFile
  {
    var updating := IdTruthy(f.recipeId);
    RecipeRequest(if updating then Put else Post,
                  if updating then RecipeUrl(f.recipeId.value) else RecipesUrl,
                  [("Title", f.title), ("Type", f.recipeType), ("Cuisine", f.cuisine),
                   ("Description", f.description), ("Ingredients", f.ingredients),
                   ("Instructions", f.instructions)],
                  if !updating && f.imageFile.Some? then f.imageFile else None)
  }

  /** An update address is the collection address, a slash and the id,
      whose digits read back as the id: different recipes are updated at
      different addresses. */
  lemma {:induction false} UpdateUrlNamesRecipe(id: nat)
    ensures var u := RecipeUrl(id);
      StartsWith(u, RecipesUrl + "/") && DigitsValue(u[|RecipesUrl| + 1..]) == id
  {
    var u := RecipeUrl(id);
    assert u[..|RecipesUrl| + 1] == RecipesUrl + "/";
    assert u[|RecipesUrl| + 1..] == NatToString(id);
    NatToStringRoundTrip(id);
  }

  /** Editing a recipe with an id and saving sends a PUT of that recipe
      with its fields and without an image; a form that was reset sends a
      POST. */
  lemma EditThenSave(r: Recipe)
    requires IdTruthy(r.id)
    ensures var q := RecipeRequestOf(EditFormOf(r));
      q.httpMethod == Put && q.url == RecipeUrl(r.id.value) && q.image.None? &&
      q.fields[0] == ("Title", r.title) &&
      q.fields[4] == ("Ingredients", LinesText(r.ingredients)) &&
      q.fields[5] == ("Instructions", LinesText(r.instructions))
    ensures RecipeRequestOf(EmptyRecipeForm).httpMethod == Post &&
      RecipeRequestOf(EmptyRecipeForm).url == RecipesUrl
  {
  }

  // ---------------------------------------------------------------------
  // The profile payload

  /** The profile update body `handleUpdateProfile` builds. */
  function ProfilePayloadOf(f: FoodLover.ProfileForm): (p: FoodLover.ProfilePayload)
    ensures p.name == f.name && p.email == f.email && p.roleTitle == f.roleTitle && p.specialty == f.specialty
  {
    FoodLover.ProfilePayload(f.name, f.email,
                             if f.password != "" && Trim(f.password) != "" then Some(Trim(f.password)) else None,
                             f.roleTitle, f.specialty)
  }

  /** The body always carries the four profile fields, and the password
      only when something other than white space was typed, then trimmed. */
  lemma ProfilePasswordTrimmed(f: FoodLover.ProfileForm)
    ensures var p := ProfilePayloadOf(f);
      (p.password.Some? <==> !AllSpace(f.password)) &&
      (p.password.Some? ==> p.password.value == Trim(f.password))
  {
    TrimEmptyIff(f.password);
  }

  /** The chef dashboard and the food lover dashboard send the same
      profile body except for the password: a password of white space only
      is sent by the food lover dashboard and left out here, and white
      space around a password is kept there and removed here. */
  lemma ProfilePasswordRulesCompared(f: FoodLover.ProfileForm)
    ensures var chef := ProfilePayloadOf(f);
      var fan := FoodLover.ProfileUpdate(f);
      chef.(password := None) == fan.(password := None) &&
      (chef.password.Some? ==> fan.password.Some?) &&
      (fan.password.Some? && chef.password.None? <==> f.password != "" && AllSpace(f.password)) &&
      (chef == fan <==> f.password == "" || (Trim(f.password) == f.password))
  {
    ProfilePasswordTrimmed(f);
    TrimEmptyIff(f.password);
    if f.password != "" && Trim(f.password) == "" {
      assert Trim(f.password) != f.password;
    }
  }

  const ProfileUpdatedAlert := "Profile updated successfully!"
  const ProfileUrl := Http.ApiBase + "/api/Users/me"

  /** `String(status)` inside a template: a number or "null". */
  function StatusText(status: Option<nat>): string {
    if status.Some? then NatToString(status.value) else "null"
  }

  /** The alert after a profile update: success also covers a 204, a 404
      names the endpoint, anything else shows the error and the status. */
  function ProfileAlert<D>(reply: Reply<D>): (m: string)
    ensures reply.success || reply.status == Some(204) ==> m == ProfileUpdatedAlert
    ensures !reply.success && reply.status == Some(404) ==>
      m == "Profile update failed: Endpoint not found at " + ProfileUrl + ". Verify the API route and method (PUT)."
    ensures !reply.success && reply.status != Some(204) && reply.status != Some(404) ==>
      m == "Profile update failed: " + Or(reply.error, "Unknown error") + " (Status: " + StatusText(reply.status) + ")"
  {
    if reply.success || reply.status == Some(204) then ProfileUpdatedAlert
    else if reply.status == Some(404) then
      "Profile update failed: Endpoint not found at " + ProfileUrl + ". Verify the API route and method (PUT)."
    else "Profile update failed: " + Or(reply.error, "Unknown error") + " (Status: " + StatusText(reply.status) + ")"
  }

  // ---------------------------------------------------------------------
  // Sections, polling, mounting and rendering

  datatype Section = Home | MyRecipes | AddRecipe | EditRecipe | ViewDetail | ViewAll | ManageProfile

  predicate IsEditor(s: Section) {
    s == AddRecipe || s == EditRecipe
  }

  /** Leaving the add or edit section for any other section resets the
      recipe form. */
  predicate LeavesEditor(prev: Section, next: Section) {
    IsEditor(prev) && !IsEditor(next)
  }

  /** The recipe form after a section switch. */
  function FormAfterSwitch(prev: Section, next: Section, form: RecipeForm): (f: RecipeForm)
    ensures LeavesEditor(prev, next) ==> f == EmptyRecipeForm
    ensures !LeavesEditor(prev, next) ==> f == form
  {
    if LeavesEditor(prev, next) then EmptyRecipeForm else form
  }

  /** A form being edited survives moving between the add and edit
      sections, and any switch away from both clears it, so switching back
      finds an empty form. */
  lemma {:induction false} FormKeptWithinEditor(form: RecipeForm, prev: Section, next: Section, back: Section)
    ensures IsEditor(prev) && IsEditor(next) ==> FormAfterSwitch(prev, next, form) == form
    ensures IsEditor(prev) && !IsEditor(next) ==>
      FormAfterSwitch(next, back, FormAfterSwitch(prev, next, form)) == EmptyRecipeForm
    ensures !IsEditor(prev) ==> FormAfterSwitch(prev, next, form) == form
  {
  }

  /** Polling runs while a token is stored and the home or my-recipes
      section is shown. */
  predicate ShouldPoll(token: Option<string>, section: Section) {
    Truthy(token) && (section == MyRecipes || section == Home)
  }

  /** With the chef's details loaded, polling runs exactly while a token is
      stored and the content shown is the home page or the chef's own
      recipe list; the editors, the detail view, the profile page and the
      list of all recipes never poll. */
  lemma {:induction false} PollingShowsOwnRecipes(token: Option<string>, section: Section, loadingChef: bool,
                                                  chefError: bool, formId: Option<nat>)
    ensures var v := RenderContent(section, loadingChef, true, chefError, formId);
      ShouldPoll(token, section) <==> Truthy(token) && (v == HomeView || v == MyRecipesView)
  {
    var v := RenderContent(section, loadingChef, true, chefError, formId);
    match section {
      case Home => assert v == HomeView;
      case MyRecipes => assert v == MyRecipesView;
      case AddRecipe =>
      case EditRecipe =>
      case ViewDetail =>
      case ViewAll =>
      case ManageProfile =>
    }
  }

  /** The mount effect: load the dashboard data for a stored token and the
      Chef role, otherwise clear the storage and go to the login page. */
  datatype Mount = FetchInitialData | ClearAndLogin

  function MountAction(token: Option<string>, role: Option<string>): (m: Mount)
    ensures m == FetchInitialData <==> Truthy(token) && role == Some("Chef")
  {
    if Truthy(token) && role == Some("Chef") then FetchInitialData else ClearAndLogin
  }

  /** The dashboard's own check on mounting agrees with the route guard
      that wraps it: it loads data exactly when the guard renders it. */
  lemma MountAgreesWithGuard(token: Option<string>, role: Option<string>)
    ensures MountAction(token, role) == FetchInitialData <==>
      ProtectedRoute.Decide(token, role, "Chef", "/chef-dashboard") == ProtectedRoute.RenderChildren
  {
  }

  /** What `renderContent` shows. */
  datatype View =
    | DetailView | Initializing | InitError | Unavailable
    | HomeView | ProfileView | AddForm | EditForm | NoRecipeSelected | AllRecipesView | MyRecipesView

  /** Sections that can be shown before the chef's details have loaded. */
  predicate NeedsNoDetails(s: Section) {
    s == ViewAll || s == Home || s == MyRecipes
  }

  /** `renderContent`: `loadingChef`, `hasDetails` and `chefError` are
      `isLoadingChef`, `chefDetails` and `fetchChefError` as booleans. */
  function RenderContent(section: Section, loadingChef: bool, hasDetails: bool, chefError: bool,
                         formId: Option<nat>): View
  {
    if section == ViewDetail then DetailView
    else if loadingChef && !hasDetails then Initializing
    else if chefError && !hasDetails then InitError
    else if !hasDetails && !NeedsNoDetails(section) then Unavailable
    else
      match section
      case Home => HomeView
      case ManageProfile => ProfileView
      case AddRecipe => if IdTruthy(formId) then EditForm else AddForm
      case EditRecipe => if IdTruthy(formId) then EditForm else NoRecipeSelected
      case ViewAll => AllRecipesView
      case MyRecipes => MyRecipesView
      case ViewDetail => DetailView
  }

  /** The detail section is shown whatever else holds, and it is the only
      section that shows it. */
  lemma DetailFirst(section: Section, loadingChef: bool, hasDetails: bool, chefError: bool, formId: Option<nat>)
    ensures RenderContent(section, loadingChef, hasDetails, chefError, formId) == DetailView <==> section == ViewDetail
  {
  }

  /** With the chef's details loaded, an editor section shows the edit form
      exactly when the form holds an id; without one, the add section shows
      the add form and the edit section a notice. */
  lemma {:induction false} EditorViews(section: Section, loadingChef: bool, chefError: bool, formId: Option<nat>)
    requires IsEditor(section)
    ensures var v := RenderContent(section, loadingChef, true, chefError, formId);
      (v == EditForm <==> IdTruthy(formId)) &&
      (v == AddForm <==> section == AddRecipe && !IdTruthy(formId)) &&
      (v == NoRecipeSelected <==> section == EditRecipe && !IdTruthy(formId))
  {
  }

  /** Without the chef's details every section but the detail view shows a
      loading, error or unavailable notice, except the three that do not
      need them. */
  lemma {:induction false} DetailsMissing(section: Section, loadingChef: bool, chefError: bool, formId: Option<nat>)
    requires section != ViewDetail
    ensures var v := RenderContent(section, loadingChef, false, chefError, formId);
      (loadingChef ==> v == Initializing) &&
      (!loadingChef && chefError ==> v == InitError) &&
      (!loadingChef && !chefError ==> (v == Unavailable <==> !NeedsNoDetails(section)))
  {
  }

  // ---------------------------------------------------------------------
  // The dashboard state

  /** The chef's own details as loaded; falsy fields are "". */
  datatype ChefDetails = ChefDetails(name: string, email: string, roleTitle: string, specialty: string)

  /** The profile form filled from the chef's details, password cleared. */
  function ProfileFormOf(d: ChefDetails): FoodLover.ProfileForm {
    FoodLover.ProfileForm(d.name, d.email, "", d.roleTitle, d.specialty)
  }

  const DetailErrorPrefix := "Failed to load recipe details: "

  class Dashboard {
    var token: Option<string>
    var activeSection: Section
    var recipeForm: RecipeForm
    var profileForm: FoodLover.ProfileForm
    var profileImageFile: Option<string>
    var chefDetails: Option<ChefDetails>
    var isLoadingChef: bool
    var fetchChefError: Option<string>
    var viewingRecipe: Option<Recipe>
    var isLoadingRecipeDetail: bool
    var recipeDetailError: Option<string>

    /** The state on first render, with the stored token. */
    constructor (storedToken: Option<string>)
      ensures token == storedToken && activeSection == Home && recipeForm == EmptyRecipeForm
      ensures profileForm == FoodLover.ProfileForm("", "", "", "", "") && profileImageFile.None?
      ensures chefDetails.None? && isLoadingChef && fetchChefError.None?
      ensures viewingRecipe.None? && !isLoadingRecipeDetail && recipeDetailError.None?
    {
      token := storedToken;
      activeSection := Home;
      recipeForm := EmptyRecipeForm;
      profileForm := FoodLover.ProfileForm("", "", "", "", "");
      profileImageFile := None;
      chefDetails := None;
      isLoadingChef := true;
      fetchChefError := None;
      viewingRecipe := None;
      isLoadingRecipeDetail := false;
      recipeDetailError := None;
    }

    /** Whether the polling effect runs in this state. */
    predicate Polling()
      reads this
    {
      ShouldPoll(token, activeSection)
    }

    /** What `renderContent` shows in this state. */
    function Content(): View
      reads this
    {
      RenderContent(activeSection, isLoadingChef, chefDetails.Some?, fetchChefError.Some?, recipeForm.recipeId)
    }

    /** `resetRecipeForm`. */
    method ResetRecipeForm()
      modifies this
      ensures recipeForm == EmptyRecipeForm
      ensures activeSection == old(activeSection) && viewingRecipe == old(viewingRecipe)
      ensures recipeDetailError == old(recipeDetailError) && profileForm == old(profileForm)
      ensures profileImageFile == old(profileImageFile) && isLoadingRecipeDetail == old(isLoadingRecipeDetail)
      ensures token == old(token) && chefDetails == old(chefDetails) && isLoadingChef == old(isLoadingChef) && fetchChefError == old(fetchChefError)
    {
      recipeForm := EmptyRecipeForm;
    }

    /** `handleNavClickUnified`; returns whether the chef's details are
        fetched because the profile section opened before they loaded. */
    method HandleNavClickUnified(section: Section) returns (fetchChef: bool)
      modifies this
      ensures activeSection == section
      ensures recipeForm == FormAfterSwitch(old(activeSection), section, old(recipeForm))
      ensures viewingRecipe.None? && recipeDetailError.None?
      ensures profileForm == (if section == ManageProfile && old(chefDetails).Some?
                              then ProfileFormOf(old(chefDetails).value) else old(profileForm))
      ensures profileImageFile == (if section == ManageProfile then None else old(profileImageFile))
      ensures fetchChef <==> section == ManageProfile && old(chefDetails).None? && !old(isLoadingChef)
      ensures Polling() <==> Truthy(token) && (section == Home || section == MyRecipes)
      ensures token == old(token) && chefDetails == old(chefDetails) && isLoadingChef == old(isLoadingChef) && fetchChefError == old(fetchChefError)
      ensures isLoadingRecipeDetail == old(isLoadingRecipeDetail)
    {
      if (activeSection == AddRecipe || activeSection == EditRecipe) &&
         section != AddRecipe && section != EditRecipe {
        ResetRecipeForm();
      }
      activeSection := section;
      viewingRecipe := None;
      recipeDetailError := None;
      fetchChef := false;
      if section == ManageProfile {
        if chefDetails.Some? {
          var d := chefDetails.value;
          profileForm := profileForm.(name := d.name, email := d.email, password := "",
                                      roleTitle := d.roleTitle, specialty := d.specialty);
        } else if !isLoadingChef {
          fetchChef := true;
        }
        profileImageFile := None;
      }
    }

    /** The synchronous start of `handleViewRecipe`: nothing for a falsy id,
        otherwise the detail section opens empty and loading. */
    method BeginViewRecipe(recipeId: Option<nat>) returns (started: bool)
      modifies this
      ensures started <==> IdTruthy(recipeId)
      ensures started ==> !Polling()
      ensures started ==> (activeSection == ViewDetail && isLoadingRecipeDetail &&
                           recipeDetailError.None? && viewingRecipe.None?)
      ensures !started ==> (activeSection == old(activeSection) && isLoadingRecipeDetail == old(isLoadingRecipeDetail) &&
                            recipeDetailError == old(recipeDetailError) && viewingRecipe == old(viewingRecipe))
      ensures recipeForm == old(recipeForm) && profileForm == old(profileForm) && token == old(token)
      ensures profileImageFile == old(profileImageFile)
      ensures chefDetails == old(chefDetails) && isLoadingChef == old(isLoadingChef) && fetchChefError == old(fetchChefError)
    {
      started := IdTruthy(recipeId);
      if !started {
        return;
      }
      activeSection := ViewDetail;
      isLoadingRecipeDetail := true;
      recipeDetailError := None;
      viewingRecipe := None;
    }

    /** The end of `handleViewRecipe` once the call replied: the recipe is
        shown, or an error naming what went wrong; loading ends either way. */
    method FinishViewRecipe(reply: Reply<Recipe>)
      modifies this
      ensures reply.success && reply.data.Some? ==> viewingRecipe == reply.data && recipeDetailError == old(recipeDetailError)
      ensures !(reply.success && reply.data.Some?) ==>
        viewingRecipe == old(viewingRecipe) &&
        recipeDetailError == Some(DetailErrorPrefix + Or(reply.error, "No data received"))
      ensures !isLoadingRecipeDetail
      ensures activeSection == old(activeSection) && recipeForm == old(recipeForm) && profileForm == old(profileForm)
      ensures token == old(token) && profileImageFile == old(profileImageFile)
      ensures chefDetails == old(chefDetails) && isLoadingChef == old(isLoadingChef) && fetchChefError == old(fetchChefError)
    {
      if reply.success && reply.data.Some? {
        viewingRecipe := reply.data;
      } else {
        recipeDetailError := Some(DetailErrorPrefix + Or(reply.error, "No data received"));
      }
      isLoadingRecipeDetail := false;
    }

    /** `handleCloseRecipeView`: back to the list with nothing viewed. */
    method HandleCloseRecipeView()
      modifies this
      ensures viewingRecipe.None? && recipeDetailError.None? && activeSection == MyRecipes
      ensures Polling() <==> Truthy(token)
      ensures recipeForm == old(recipeForm) && profileForm == old(profileForm) && token == old(token)
      ensures profileImageFile == old(profileImageFile) && isLoadingRecipeDetail == old(isLoadingRecipeDetail)
      ensures chefDetails == old(chefDetails) && isLoadingChef == old(isLoadingChef) && fetchChefError == old(fetchChefError)
    {
      viewingRecipe := None;
      recipeDetailError := None;
      activeSection := MyRecipes;
    }

    /** `handleEditRecipe`: nothing without a recipe; otherwise the form
        holds the recipe and the edit section opens. */
    method HandleEditRecipe(recipe: Option<Recipe>)
      modifies this
      ensures recipe.None? ==> recipeForm == old(recipeForm) && activeSection == old(activeSection)
      ensures recipe.Some? ==> recipeForm == EditFormOf(recipe.value) && activeSection == EditRecipe
      ensures viewingRecipe == old(viewingRecipe) && recipeDetailError == old(recipeDetailError)
      ensures profileForm == old(profileForm) && token == old(token) && profileImageFile == old(profileImageFile)
      ensures isLoadingRecipeDetail == old(isLoadingRecipeDetail)
      ensures chefDetails == old(chefDetails) && isLoadingChef == old(isLoadingChef) && fetchChefError == old(fetchChefError)
    {
      if recipe.None? {
        return;
      }
      var r := recipe.value;
      recipeForm := RecipeForm(r.id, r.title, r.recipeType, r.cuisine, r.description,
                               LinesText(r.ingredients), LinesText(r.instructions), None);
      activeSection := EditRecipe;
    }

    /** The navbar's Add Recipe button: reset the form, then switch. The
        add form is then what shows once the chef's details are loaded. */
    method AddRecipeButton()
      modifies this
      ensures recipeForm == EmptyRecipeForm && activeSection == AddRecipe
      ensures viewingRecipe.None? && recipeDetailError.None?
      ensures chefDetails.Some? ==> Content() == AddForm
      ensures !Polling()
      ensures profileForm == old(profileForm) && token == old(token) && profileImageFile == old(profileImageFile)
      ensures chefDetails == old(chefDetails) && isLoadingChef == old(isLoadingChef) && fetchChefError == old(fetchChefError)
      ensures isLoadingRecipeDetail == old(isLoadingRecipeDetail)
    {
      ResetRecipeForm();
      var _ := HandleNavClickUnified(AddRecipe);
    }

    /** `handleAddOrUpdateRecipe` given the call's reply; returns the
        request sent and the alert. On success the form is reset and the
        list shown. */
    method HandleAddOrUpdateRecipe(reply: Reply<Data>) returns (request: RecipeRequest, alert: string)
      modifies this
      ensures request == RecipeRequestOf(old(recipeForm))
      ensures var verb := if request.httpMethod == Put then "update" else "add";
        (reply.success ==>
          alert == "Recipe " + (if request.httpMethod == Put then "updated" else "added") + " successfully!" &&
          recipeForm == EmptyRecipeForm && activeSection == MyRecipes &&
          viewingRecipe.None? && recipeDetailError.None?) &&
        (!reply.success ==>
          alert == "Failed to " + verb + " recipe: " + Or(reply.error, "Unknown error") +
                   " (Status: " + StatusText(reply.status) + ")" &&
          recipeForm == old(recipeForm) && activeSection == old(activeSection) &&
          viewingRecipe == old(viewingRecipe) && recipeDetailError == old(recipeDetailError))
      ensures profileForm == old(profileForm) && token == old(token) && profileImageFile == old(profileImageFile)
      ensures chefDetails == old(chefDetails) && isLoadingChef == old(isLoadingChef) && fetchChefError == old(fetchChefError)
      ensures isLoadingRecipeDetail == old(isLoadingRecipeDetail)
    {
      var updating := IdTruthy(recipeForm.recipeId);
      request := RecipeRequestOf(recipeForm);
      if reply.success {
        alert := "Recipe " + (if updating then "updated" else "added") + " successfully!";
        ResetRecipeForm();
        var _ := HandleNavClickUnified(MyRecipes);
      } else {
        alert := "Failed to " + (if updating then "update" else "add") + " recipe: " +
                 Or(reply.error, "Unknown error") + " (Status: " + StatusText(reply.status) + ")";
      }
    }

    /** `handleDeleteRecipe` given the confirmation and the call's reply;
        returns whether a request was made and the alert. Deleting the
        recipe being viewed or edited leaves for the list. */
    method HandleDeleteRecipe(id: Option<nat>, confirmed: bool, reply: Reply<Data>)
      returns (requested: bool, alert: Option<string>)
      modifies this
      ensures requested <==> IdTruthy(id) && confirmed
      ensures !requested ==> alert.None?
      ensures requested && (reply.success || reply.status == Some(204)) ==>
        alert == Some("Recipe deleted successfully.")
      ensures requested && !(reply.success || reply.status == Some(204)) ==>
        alert == Some("Failed to delete recipe: " + Or(reply.error, "Unknown error") +
                      " (Status: " + StatusText(reply.status) + ")")
      ensures var closes := requested && (reply.success || reply.status == Some(204)) &&
          ((old(activeSection) == ViewDetail && old(viewingRecipe).Some? && old(viewingRecipe).value.id == id) ||
           (old(activeSection) == EditRecipe && old(recipeForm).recipeId == id));
        (closes ==> activeSection == MyRecipes && viewingRecipe.None? && recipeDetailError.None?) &&
        (closes && old(activeSection) == EditRecipe ==> recipeForm == EmptyRecipeForm) &&
        (closes && old(activeSection) == ViewDetail ==> recipeForm == old(recipeForm)) &&
        (!closes ==> activeSection == old(activeSection) && viewingRecipe == old(viewingRecipe) &&
                     recipeDetailError == old(recipeDetailError) && recipeForm == old(recipeForm))
      ensures profileForm == old(profileForm) && token == old(token) && profileImageFile == old(profileImageFile)
      ensures chefDetails == old(chefDetails) && isLoadingChef == old(isLoadingChef) && fetchChefError == old(fetchChefError)
      ensures isLoadingRecipeDetail == old(isLoadingRecipeDetail)
    {
      requested := false;
      alert := None;
      if !IdTruthy(id) || !confirmed {
        return;
      }
      requested := true;
      if reply.success || reply.status == Some(204) {
        alert := Some("Recipe deleted successfully.");
        if activeSection == ViewDetail && viewingRecipe.Some? && viewingRecipe.value.id == id {
          var _ := HandleNavClickUnified(MyRecipes);
        } else if activeSection == EditRecipe && recipeForm.recipeId == id {
          ResetRecipeForm();
          var _ := HandleNavClickUnified(MyRecipes);
        }
      } else {
        alert := Some("Failed to delete recipe: " + Or(reply.error, "Unknown error") +
                      " (Status: " + StatusText(reply.status) + ")");
      }
    }

    /** `handleUpdateProfile` given the call's reply and the reply of the
        awaited `fetchChefDetails` (its data already decoded, a missing
        field being ""); returns the body handed to the call and the alert.
        A success (or a 204) refetches the details: a reply with data
        replaces them and refills the form when its name was empty or the
        profile section is open, any other reply drops them and records the
        error; the password field is cleared in both cases. */
    method HandleUpdateProfile(reply: Reply<Data>, refetch: Reply<ChefDetails>)
      returns (request: FoodLover.ProfilePayload, alert: string)
      modifies this
      ensures request == ProfilePayloadOf(old(profileForm))
      ensures alert == ProfileAlert(reply)
      ensures !(reply.success || reply.status == Some(204)) ==> (
        profileForm == old(profileForm) && chefDetails == old(chefDetails) &&
        fetchChefError == old(fetchChefError) && isLoadingChef == old(isLoadingChef))
      ensures (reply.success || reply.status == Some(204)) && refetch.success && refetch.data.Some? ==> (
        chefDetails == refetch.data && fetchChefError.None? && !isLoadingChef &&
        profileForm == (if old(profileForm).name == "" || old(activeSection) == ManageProfile
                        then ProfileFormOf(refetch.data.value) else old(profileForm).(password := "")))
      ensures (reply.success || reply.status == Some(204)) && !(refetch.success && refetch.data.Some?) ==> (
        chefDetails.None? && fetchChefError == Some("Failed to load profile: " + Or(refetch.error, "No data received")) &&
        !isLoadingChef && profileForm == old(profileForm).(password := ""))
      ensures activeSection == old(activeSection) && recipeForm == old(recipeForm) && token == old(token)
      ensures viewingRecipe == old(viewingRecipe) && recipeDetailError == old(recipeDetailError)
      ensures profileImageFile == old(profileImageFile) && isLoadingRecipeDetail == old(isLoadingRecipeDetail)
    {
      request := ProfilePayloadOf(profileForm);
      alert := ProfileAlert(reply);
      if reply.success || reply.status == Some(204) {
        FetchChefDetails(refetch);
        profileForm := profileForm.(password := "");
      }
    }

    /** `fetchChefDetails` given the call's reply: the details and, when the
        form's name is empty or the profile section is open, the form are
        taken from the data; without data the details are dropped and the
        error recorded. Loading ends either way. */
    method FetchChefDetails(refetch: Reply<ChefDetails>)
      modifies this
      ensures refetch.success && refetch.data.Some? ==> (
        chefDetails == refetch.data && fetchChefError.None? &&
        profileForm == (if old(profileForm).name == "" || old(activeSection) == ManageProfile
                        then ProfileFormOf(refetch.data.value) else old(profileForm)))
      ensures !(refetch.success && refetch.data.Some?) ==> (
        chefDetails.None? && profileForm == old(profileForm) &&
        fetchChefError == Some("Failed to load profile: " + Or(refetch.error, "No data received")))
      ensures !isLoadingChef
      ensures activeSection == old(activeSection) && recipeForm == old(recipeForm) && token == old(token)
      ensures viewingRecipe == old(viewingRecipe) && recipeDetailError == old(recipeDetailError)
      ensures profileImageFile == old(profileImageFile) && isLoadingRecipeDetail == old(isLoadingRecipeDetail)
    {
      isLoadingChef := true;
      fetchChefError := None;
      if refetch.success && refetch.data.Some? {
        var d := refetch.data.value;
        chefDetails := Some(d);
        if profileForm.name == "" || activeSection == ManageProfile {
          profileForm := profileForm.(name := d.name, email := d.email, password := "",
                                      roleTitle := d.roleTitle, specialty := d.specialty);
        }
      } else {
        fetchChefError := Some("Failed to load profile: " + Or(refetch.error, "No data received"));
        chefDetails := None;
      }
      isLoadingChef := false;
    }
  }
}
