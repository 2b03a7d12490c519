/** The admin dashboard: the review status decoder, image addresses with
    their default pictures, its `callApi` wrapper, the overview counts, the
    moderation buttons, the content it renders, and the state its
    handlers update. */
module AdminDashboard {
  import opened Text
  import Http
  import ImageUrl
  import ProtectedRoute
  import ChefDashboard

  // ---------------------------------------------------------------------
  // Review status

  /** A review status as the API may send it: a number or a string. */
  datatype StatusValue = Code(n: nat) | Name(s: string)

  /** `String(status)`. */
  function StatusString(v: StatusValue): string {
    match v
    case Code(n) => NatToString(n)
    case Name(s) => s
  }

  const PendingName := "Pending"
  const ApprovedName := "Approved"
  const RejectedName := "Rejected"
  const UnknownName := "Unknown"

  /** `getStatusText`: the status decoded without regard to letter case. */
  function StatusText(v: StatusValue): (t: string)
    ensures t in {PendingName, ApprovedName, RejectedName, UnknownName}
    ensures t == PendingName <==> Lower(StatusString(v)) in {"0", "pending"}
    ensures t == ApprovedName <==> Lower(StatusString(v)) in {"1", "approved"}
    ensures t == RejectedName <==> Lower(StatusString(v)) in {"2", "rejected"}
  {
    var s := Lower(StatusString(v));
    if s == "0" || s == "pending" then PendingName
    else if s == "1" || s == "approved" then ApprovedName
    else if s == "2" || s == "rejected" then RejectedName
    else UnknownName
  }

  /** A number's decimal text is unchanged by lowering. */
  lemma NumberTextLower(n: nat)
    ensures Lower(NatToString(n)) == NatToString(n)
  {
    var s := NatToString(n);
    var l := Lower(s);
    forall i | 0 <= i < |s|
      ensures l[i] == s[i]
    {
      assert IsDigit(s[i]);
    }
  }

  /** The numbers the API uses: 0 pending, 1 approved, 2 rejected; any
      other number is unknown. */
  lemma StatusCodes(n: nat)
    ensures StatusText(Code(0)) == PendingName && StatusText(Code(1)) == ApprovedName && StatusText(Code(2)) == RejectedName
    ensures n > 2 ==> StatusText(Code(n)) == UnknownName
  {
    assert Lower("0") == "0" && Lower("1") == "1" && Lower("2") == "2";
    if n > 2 {
      var s := NatToString(n);
      NumberTextLower(n);
      NatToStringInjective(n, 0);
      NatToStringInjective(n, 1);
      NatToStringInjective(n, 2);
      assert NatToString(0) == "0" && NatToString(1) == "1" && NatToString(2) == "2";
      assert IsDigit(s[0]);
    }
  }

  /** Letter case does not matter. */
  lemma StatusIgnoresCase(s: string)
    ensures StatusText(Name(Lower(s))) == StatusText(Name(s))
  {
    LowerIdempotent(s);
  }

  /** Each of the four texts decodes to itself. */
  lemma NamesDecode()
    ensures StatusText(Name(PendingName)) == PendingName
    ensures StatusText(Name(ApprovedName)) == ApprovedName
    ensures StatusText(Name(RejectedName)) == RejectedName
    ensures StatusText(Name(UnknownName)) == UnknownName
  {
    assert Lower(PendingName) == "pending";
    assert Lower(ApprovedName) == "approved";
    assert Lower(RejectedName) == "rejected";
    assert Lower(UnknownName) == "unknown";
  }

  /** Decoding a decoded status gives it back: the four texts are fixed
      points of the decoder. */
  lemma StatusTextIdempotent(v: StatusValue)
    ensures StatusText(Name(StatusText(v))) == StatusText(v)
  {
    NamesDecode();
  }

  // ---------------------------------------------------------------------
  // Image addresses

  const DefaultAvatar := "/images/default-avatar.png"
  const DefaultFood := "/images/default-food.png"

  /** `getFullImageUrl(path, isProfile)`: a missing or empty path gives
      the profile or food picture; anything else resolves as on the chef
      dashboard. */
  function FullImageUrl(path: Option<string>, isProfile: bool): (r: string)
    ensures !Truthy(path) ==> r == (if isProfile then DefaultAvatar else DefaultFood)
    ensures Truthy(path) && ImageUrl.IsAbsolute(path.value) ==> r == path.value
    ensures Truthy(path) && !ImageUrl.IsAbsolute(path.value) ==> r == ImageUrl.Joined(Http.ApiBase, path.value)
  {
    if !Truthy(path) then (if isProfile then DefaultAvatar else DefaultFood)
    else ImageUrl.Resolve(path.value)
  }

  /** The two dashboards build the same address for a present path; for a
      missing one the chef dashboard gives null and this one a default
      picture, which is a site path and not an API address. */
  lemma ImageUrlsCompared(path: Option<string>, isProfile: bool)
    ensures Truthy(path) ==> ChefDashboard.FullImageUrl(path) == Some(FullImageUrl(path, isProfile))
    ensures !Truthy(path) ==> (ChefDashboard.FullImageUrl(path).None? &&
      StartsWith(FullImageUrl(path, isProfile), "/images/") &&
      !StartsWith(FullImageUrl(path, isProfile), Http.ApiBase))
  {
    if !Truthy(path) {
      var r := FullImageUrl(path, isProfile);
      assert r[..8] == "/images/";
      assert r[0] != Http.ApiBase[0];
    }
  }

  // ---------------------------------------------------------------------
  // callApi

  /** A response body other than for 401, 403 and 204: parsed JSON, or a
      body that is not JSON. The text read that follows a failed parse
      always rejects, since the parse has consumed the body, so a body that
      is not JSON contributes no text. */
  datatype Body = Parsed(json: Http.Json) | Unparsable

  /** What `fetch` gave: a response, or a thrown error and its message. */
  datatype Network = Responded(status: nat, body: Body) | Failed(message: string)

  /** What `callApi` settles to: a rejection (it throws before its `try`
      when no token is stored), or a result object whose `data` is None
      when absent and whose `error` is "" when absent. */
  datatype Reply<D> = Rejected(message: string) | Resolved(success: bool, data: Option<D>, error: string)

  datatype Call = Call(reply: Reply<Http.Json>, requested: bool, logout: bool)

  const NoTokenMessage := "No token available. User logged out."
  const AuthMessage := "Authorization failed. Please log in again."
  const NotJsonMessage := "API response was successful but not valid JSON."
  const UnknownErrorMessage := "An unknown network or API error occurred"

  function DefaultError(status: nat): string {
    "Request failed: " + NatToString(status)
  }

  /** `JSON.stringify(data?.errors || data)` for a parsed body. */
  function ErrorsOrData(j: Http.Json): string {
    if j.JObject? && j.errors.Some? then j.errors.value.literal else Http.Stringify(j)
  }

  /** The error of a failed response: message, title, the serialised
      errors or body, the raw text, then the status. The raw text is
      always "" (see `Body`), so a body that did not parse, or serialises
      to nothing, reports the status. */
  function ErrorMessage(status: nat, body: Body): (m: string)
    ensures m != ""
    ensures body.Parsed? && Http.Message(body.json) != "" ==> m == Http.Message(body.json)
    ensures body.Parsed? && Http.Message(body.json) == "" && Http.Title(body.json) != "" ==> m == Http.Title(body.json)
    ensures body.Parsed? && Http.Message(body.json) == "" && Http.Title(body.json) == "" ==>
      m == Or(ErrorsOrData(body.json), DefaultError(status))
    ensures body.Unparsable? ==> m == DefaultError(status)
  {
    match body
    case Parsed(j) => Or(Http.Message(j), Or(Http.Title(j), Or(ErrorsOrData(j), DefaultError(status))))
    case Unparsable => Or("", DefaultError(status))
  }

  /** An error response whose body is the JSON value null reports "null". */
  lemma NullBodyReportsNull(status: nat)
    ensures ErrorMessage(status, Parsed(Http.JNull)) == "null"
  {
  }

  /** The whole of `callApi` for the stored token. */
  function CallApi(token: Option<string>, n: Network): Call {
    if !Truthy(token) then Call(Rejected(NoTokenMessage), false, true)
    else
      match n
      case Failed(message) => Call(Resolved(false, None, Or(message, UnknownErrorMessage)), true, false)
      case Responded(status, body) =>
        if status == 401 || status == 403 then Call(Resolved(false, None, AuthMessage), true, true)
        else if status == 204 then Call(Resolved(true, None, ""), true, false)
        else if body.Unparsable? && Http.Ok(status) then Call(Resolved(false, None, NotJsonMessage), true, false)
        else if !Http.Ok(status) then Call(Resolved(false, None, ErrorMessage(status, body)), true, false)
        else Call(Resolved(true, Some(body.json), ""), true, false)
  }

  /** Without a token the call rejects before any request and asks for
      logout; with one it always settles to a result object. */
  lemma {:induction false} MissingTokenRejects(token: Option<string>, n: Network)
    ensures var c := CallApi(token, n);
      (c.reply.Rejected? <==> !Truthy(token)) &&
      (c.reply.Rejected? ==> c.reply.message == NoTokenMessage && !c.requested && c.logout) &&
      (c.reply.Resolved? ==> c.requested)
  {
  }

  /** Logout is asked for exactly when no token is stored or the server
      answered 401 or 403. */
  lemma {:induction false} LogoutIff(token: Option<string>, n: Network)
    ensures CallApi(token, n).logout <==> !Truthy(token) || (n.Responded? && (n.status == 401 || n.status == 403))
  {
  }

  /** A call succeeds exactly for a 204 or for a status in 200-299 with a
      JSON body, which is then the data; every failure has a message. */
  lemma {:induction false} SuccessIff(token: Option<string>, n: Network)
    ensures var c := CallApi(token, n);
      (c.reply.Resolved? && c.reply.success <==>
        Truthy(token) && n.Responded? && Http.Ok(n.status) && (n.status == 204 || n.body.Parsed?)) &&
      (c.reply.Resolved? && c.reply.success && n.Responded? && n.status != 204 ==> c.reply.data == Some(n.body.json)) &&
      (c.reply.Resolved? && !c.reply.success ==> c.reply.error != "" && c.reply.data.None?)
  {
  }

  // ---------------------------------------------------------------------
  // Overview counts and moderation

  datatype Review = Review(id: nat, status: StatusValue)

  /** The number of reviews whose status decodes to `t`. */
  function CountStatus(reviews: seq<Review>, t: string): (n: nat)
    ensures n <= |reviews|
  {
    if reviews == [] then 0
    else CountStatus(reviews[..|reviews| - 1], t) + (if StatusText(reviews[|reviews| - 1].status) == t then 1 else 0)
  }

  /** The decoded status of each review, in order. */
  function Statuses(reviews: seq<Review>): (ts: seq<string>)
    ensures |ts| == |reviews|
    ensures forall i :: 0 <= i < |reviews| ==> ts[i] == StatusText(reviews[i].status)
  {
    if reviews == [] then []
    else Statuses(reviews[..|reviews| - 1]) + [StatusText(reviews[|reviews| - 1].status)]
  }

  /** The count of `t` is how often `t` occurs among the decoded statuses,
      which is what filtering the reviews on their decoded status and
      taking the length gives. */
  lemma {:induction false} CountIsMultiplicity(reviews: seq<Review>, t: string)
    ensures CountStatus(reviews, t) == multiset(Statuses(reviews))[t]
  {
    if reviews != [] {
      var init := reviews[..|reviews| - 1];
      CountIsMultiplicity(init, t);
      assert multiset(Statuses(reviews)) == multiset(Statuses(init)) + multiset{StatusText(reviews[|reviews| - 1].status)};
    }
  }

  /** Every review has exactly one of the four decoded statuses, so the
      four counts add up to the number of reviews and pending plus
      approved never exceeds it. */
  lemma {:induction false} CountsPartition(reviews: seq<Review>)
    ensures CountStatus(reviews, PendingName) + CountStatus(reviews, ApprovedName) +
            CountStatus(reviews, RejectedName) + CountStatus(reviews, UnknownName) == |reviews|
    ensures CountStatus(reviews, PendingName) + CountStatus(reviews, ApprovedName) <= |reviews|
  {
    if reviews != [] {
      CountsPartition(reviews[..|reviews| - 1]);
    }
  }

  /** A count on the overview: "..." while loading, "N/A" after an error,
      else the number. */
  function CountText(loading: bool, failed: bool, n: nat): (t: string)
    ensures loading ==> t == "..."
    ensures !loading && failed ==> t == "N/A"
    ensures !loading && !failed ==> t == NatToString(n)
  {
    if loading then "..." else if failed then "N/A" else NatToString(n)
  }

  datatype Action = Approve | Reject | Delete

  /** The buttons of a review card, in order. */
  function ReviewActions(statusText: string): (acts: seq<Action>)
    ensures Approve in acts <==> statusText != ApprovedName
    ensures Reject in acts <==> statusText != RejectedName
    ensures acts[|acts| - 1] == Delete
  {
    (if statusText != ApprovedName then [Approve] else []) + (if statusText != RejectedName then [Reject] else []) + [Delete]
  }

  /** The status number a moderation button sends. */
  function SentStatus(a: Action): nat
    requires a != Delete
  {
    if a == Approve then 1 else 2
  }

  /** Some moderation button is always offered next to Delete, and after
      the status a button sends has been applied, that button is no longer
      offered. */
  lemma {:induction false} ModerationButtons(v: StatusValue, a: Action)
    ensures var acts := ReviewActions(StatusText(v));
      Delete in acts && (Approve in acts || Reject in acts)
    ensures a != Delete && a in ReviewActions(StatusText(v)) ==>
      a !in ReviewActions(StatusText(Code(SentStatus(a))))
  {
    StatusCodes(0);
    var acts := ReviewActions(StatusText(v));
    assert acts[|acts| - 1] == Delete;
  }

  // ---------------------------------------------------------------------
  // Sections, mounting and rendering

  datatype Section = Home | Recipes | Reviews

  datatype View = DetailView | HomeView | RecipesView | ReviewsView

  /** `renderSectionContent`: the recipe detail view whenever a recipe is
      viewed, loading, or failed to load; otherwise the section. */
  function RenderSection(section: Section, viewing: bool, loadingDetail: bool, detailError: bool): (v: View)
    ensures v == DetailView <==> viewing || loadingDetail || detailError
    ensures v != DetailView ==> v == (match section case Home => HomeView case Recipes => RecipesView
                                                      case Reviews => ReviewsView)
  {
    if viewing || loadingDetail || detailError then DetailView
    else
      match section
      case Home => HomeView
      case Recipes => RecipesView
      case Reviews => ReviewsView
  }

  /** What the mount effect does: load the dashboard data, or navigate to
      the login page when no token is stored. */
  datatype Mount = FetchAll | GoToLogin

  function MountAction(token: Option<string>): (m: Mount)
    ensures m == FetchAll <==> Truthy(token)
  {
    if Truthy(token) then FetchAll else GoToLogin
  }

  /** The mount effect checks the token only, not the role: it loads
      whenever the guard renders the dashboard, agrees with the guard on
      where a missing token leads, and would also load for a token the
      guard turns away. */
  lemma MountComparedWithGuard(token: Option<string>, role: Option<string>)
    ensures ProtectedRoute.Decide(token, role, "Admin", "/admin-dashboard").RenderChildren? ==>
      MountAction(token) == FetchAll
    ensures MountAction(token) == GoToLogin <==>
      ProtectedRoute.Decide(token, role, "Admin", "/admin-dashboard").RedirectToLogin?
    ensures Truthy(token) && role != Some("Admin") ==>
      MountAction(token) == FetchAll && !ProtectedRoute.Decide(token, role, "Admin", "/admin-dashboard").RenderChildren?
  {
  }

  /** A recipe as the detail view holds it. */
  datatype Recipe = Recipe(id: Option<nat>, title: string)

  const DetailErrorPrefix := "Failed to load recipe details: "
  const DetailFallback := "Recipe details not found or failed to load."

  class Dashboard {
    var activeSection: Section
    var viewingRecipe: Option<Recipe>
    var isLoadingRecipeDetail: bool
    var recipeDetailError: Option<string>
    var reviews: seq<Review>
    var isLoadingReviews: bool
    var reviewsFailed: bool

    constructor ()
      ensures activeSection == Home && viewingRecipe.None? && !isLoadingRecipeDetail && recipeDetailError.None?
      ensures reviews == [] && isLoadingReviews && !reviewsFailed
    {
      activeSection := Home;
      viewingRecipe := None;
      isLoadingRecipeDetail := false;
      recipeDetailError := None;
      reviews := [];
      isLoadingReviews := true;
      reviewsFailed := false;
    }

    /** What `renderSectionContent` shows in this state. */
    function Content(): View
      reads this
    {
      RenderSection(activeSection, viewingRecipe.Some?, isLoadingRecipeDetail, recipeDetailError.Some?)
    }

    /** The pending and approved counts of the overview. */
    function PendingText(): string
      reads this
    {
      CountText(isLoadingReviews, reviewsFailed, CountStatus(reviews, PendingName))
    }

    function ApprovedText(): string
      reads this
    {
      CountText(isLoadingReviews, reviewsFailed, CountStatus(reviews, ApprovedName))
    }

    /** `handleNavClick`: the viewed recipe and its error are cleared and
        the section switched, so the section shows unless a detail load is
        still running. */
    method HandleNavClick(section: Section)
      modifies this
      ensures activeSection == section && viewingRecipe.None? && recipeDetailError.None?
      ensures isLoadingRecipeDetail == old(isLoadingRecipeDetail)
      ensures reviews == old(reviews) && isLoadingReviews == old(isLoadingReviews) && reviewsFailed == old(reviewsFailed)
      ensures Content() == DetailView <==> isLoadingRecipeDetail
    {
      viewingRecipe := None;
      recipeDetailError := None;
      activeSection := section;
    }

    /** The synchronous start of `handleViewRecipe`: nothing for a falsy
        id; otherwise the detail view opens, loading, over the recipes
        section. */
    method BeginViewRecipe(recipeId: Option<nat>) returns (started: bool)
      modifies this
      ensures started <==> ChefDashboard.IdTruthy(recipeId)
      ensures started ==> (isLoadingRecipeDetail && recipeDetailError.None? && viewingRecipe.None? &&
                           activeSection == Recipes && Content() == DetailView)
      ensures !started ==> (activeSection == old(activeSection) && isLoadingRecipeDetail == old(isLoadingRecipeDetail) &&
                            recipeDetailError == old(recipeDetailError) && viewingRecipe == old(viewingRecipe))
      ensures reviews == old(reviews) && isLoadingReviews == old(isLoadingReviews) && reviewsFailed == old(reviewsFailed)
    {
      started := recipeId.Some? && recipeId.value != 0;
      if !started {
        return;
      }
      isLoadingRecipeDetail := true;
      recipeDetailError := None;
      viewingRecipe := None;
      activeSection := Recipes;
    }

    /** The end of `handleViewRecipe`: the recipe, or an error built from
        the reply (a rejection's message, the result's error or a
        fallback); loading ends either way. */
    method FinishViewRecipe(reply: Reply<Recipe>)
      modifies this
      ensures reply.Resolved? && reply.success && reply.data.Some? ==>
        viewingRecipe == reply.data && recipeDetailError == old(recipeDetailError)
      ensures reply.Resolved? && !(reply.success && reply.data.Some?) ==>
        viewingRecipe.None? && recipeDetailError == Some(DetailErrorPrefix + Or(reply.error, DetailFallback))
      ensures reply.Rejected? ==>
        viewingRecipe.None? && recipeDetailError == Some(DetailErrorPrefix + reply.message)
      ensures !isLoadingRecipeDetail && activeSection == old(activeSection)
      ensures reviews == old(reviews) && isLoadingReviews == old(isLoadingReviews) && reviewsFailed == old(reviewsFailed)
    {
      match reply {
        case Rejected(message) =>
          recipeDetailError := Some(DetailErrorPrefix + message);
          viewingRecipe := None;
        case Resolved(success, data, error) =>
          if success && data.Some? {
            viewingRecipe := data;
          } else {
            recipeDetailError := Some(DetailErrorPrefix + Or(error, DetailFallback));
            viewingRecipe := None;
          }
      }
      isLoadingRecipeDetail := false;
    }

    /** `handleCloseRecipeView`. */
    method HandleCloseRecipeView()
      modifies this
      ensures viewingRecipe.None? && recipeDetailError.None?
      ensures activeSection == old(activeSection) && isLoadingRecipeDetail == old(isLoadingRecipeDetail)
      ensures reviews == old(reviews) && isLoadingReviews == old(isLoadingReviews) && reviewsFailed == old(reviewsFailed)
    {
      viewingRecipe := None;
      recipeDetailError := None;
    }

    /** `handleDeleteRecipe` given the confirmation and the reply; returns
        whether a request was made and the alert. Deleting the recipe
        being viewed closes the detail view. A rejected call (no token)
        sends nothing and ends the handler without an alert. */
    method HandleDeleteRecipe(id: nat, confirmed: bool, reply: Reply<Http.Json>)
      returns (requested: bool, alert: Option<string>)
      modifies this
      ensures requested <==> confirmed && reply.Resolved?
      ensures !requested ==> alert.None?
      ensures var closes := confirmed && reply.Resolved? && reply.success &&
          old(viewingRecipe).Some? && old(viewingRecipe).value.id == Some(id);
        (closes ==> viewingRecipe.None? && recipeDetailError.None?) &&
        (!closes ==> viewingRecipe == old(viewingRecipe) && recipeDetailError == old(recipeDetailError))
      ensures confirmed && reply.Resolved? && reply.success ==> alert == Some("Recipe deleted successfully.")
      ensures confirmed && reply.Resolved? && !reply.success ==> alert == Some("Failed to delete recipe: " + reply.error)
      ensures activeSection == old(activeSection) && isLoadingRecipeDetail == old(isLoadingRecipeDetail)
      ensures reviews == old(reviews) && isLoadingReviews == old(isLoadingReviews) && reviewsFailed == old(reviewsFailed)
    {
      requested := false;
      alert := None;
      if !confirmed || reply.Rejected? {
        return;
      }
      requested := true;
      if reply.success {
        alert := Some("Recipe deleted successfully.");
        if viewingRecipe.Some? && viewingRecipe.value.id == Some(id) {
          HandleCloseRecipeView();
        }
      } else {
        alert := Some("Failed to delete recipe: " + reply.error);
      }
    }
  }

  /** The confirmation and result wording of a status update names the
      decoded status in lower case. */
  function StatusWord(code: nat): string {
    Lower(StatusText(Code(code)))
  }

  /** `handleUpdateReviewStatus` given the confirmation and the reply:
      the status number sent (None when not confirmed, or when the call
      rejects for want of a token and nothing is sent) and the alert. */
  function UpdateReviewStatus(code: nat, confirmed: bool, reply: Reply<Http.Json>): (out: (Option<nat>, Option<string>))
    ensures out.0.Some? <==> confirmed && reply.Resolved?
    ensures out.0.Some? ==> out.0.value == code
    ensures out.1.Some? <==> out.0.Some?
    ensures confirmed && reply.Resolved? && reply.success ==>
      out.1 == Some("Review status updated to " + StatusWord(code) + ".")
    ensures confirmed && reply.Resolved? && !reply.success ==>
      out.1 == Some("Failed to update review status: " + reply.error)
  {
    if !confirmed then (None, None)
    else if reply.Rejected? then (None, None)
    else if reply.success then (Some(code), Some("Review status updated to " + StatusWord(code) + "."))
    else (Some(code), Some("Failed to update review status: " + reply.error))
  }

  /** `handleDeleteReview` given the confirmation and the reply: whether
      a request was made (not when the call rejects for want of a token)
      and the alert. */
  function DeleteReview(confirmed: bool, reply: Reply<Http.Json>): (out: (bool, Option<string>))
    ensures out.0 <==> confirmed && reply.Resolved?
    ensures out.1.Some? <==> out.0
    ensures confirmed && reply.Resolved? && reply.success ==> out.1 == Some("Review deleted successfully.")
    ensures confirmed && reply.Resolved? && !reply.success ==> out.1 == Some("Failed to delete review: " + reply.error)
  {
    if !confirmed then (false, None)
    else if reply.Rejected? then (false, None)
    else if reply.success then (true, Some("Review deleted successfully."))
    else (true, Some("Failed to delete review: " + reply.error))
  }

  /** Fed the reply of `callApi`, each moderation handler reports a request
      exactly when it was confirmed and `callApi` sent one, and is alerted
      exactly then. */
  lemma {:induction false} ModerationRequestsMatchCallApi(code: nat, confirmed: bool, token: Option<string>, n: Network)
    ensures var c := CallApi(token, n);
      (UpdateReviewStatus(code, confirmed, c.reply).0.Some? <==> confirmed && c.requested) &&
      (DeleteReview(confirmed, c.reply).0 <==> confirmed && c.requested)
  {
    MissingTokenRejects(token, n);
  }

  /** The two moderation buttons announce "approved" and "rejected". */
  lemma ModerationWords()
    ensures StatusWord(1) == "approved" && StatusWord(2) == "rejected"
  {
    StatusCodes(0);
    assert Lower(ApprovedName) == "approved";
    assert Lower(RejectedName) == "rejected";
  }
}
