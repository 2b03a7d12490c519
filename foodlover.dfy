/** The food lover dashboard: the recipe category tabs, the pending
    per-recipe ratings and their submission, the platform review form,
    the profile update and which recipe cards are drawn. */
module FoodLover {
  import opened Text
  import Http
  import Home

  /** A recipe as the dashboard reads it; an id of 0 is a missing one. */
  datatype Recipe = Recipe(recipeId: nat, id: nat, recipeType: string)

  /** `recipes.filter(r => r.type === type)`. */
  function OfType(rs: seq<Recipe>, t: string): (r: seq<Recipe>)
    ensures |r| <= |rs|
    ensures forall k :: 0 <= k < |r| ==> r[k].recipeType == t
    ensures forall x :: multiset(r)[x] == if x.recipeType == t then multiset(rs)[x] else 0
  {
    if rs == [] then []
    else
      assert rs == [rs[0]] + rs[1..];
      (if rs[0].recipeType == t then [rs[0]] else []) + OfType(rs[1..], t)
  }

  /** `a` is `b` with some elements left out, the rest in their order. */
  predicate Subsequence<T(==)>(a: seq<T>, b: seq<T>)
    decreases |b|
  {
    if a == [] then true
    else if b == [] then false
    else if a[0] == b[0] then Subsequence(a[1..], b[1..])
    else Subsequence(a, b[1..])
  }

  /** The filtered list keeps the original order. */
  lemma {:induction false} OfTypePreservesOrder(rs: seq<Recipe>, t: string)
    ensures Subsequence(OfType(rs, t), rs)
  {
    if rs != [] {
      OfTypePreservesOrder(rs[1..], t);
      var rest := OfType(rs[1..], t);
      if rs[0].recipeType == t {
        assert OfType(rs, t) == [rs[0]] + rest;
        assert OfType(rs, t)[1..] == rest;
      } else {
        assert OfType(rs, t) == rest;
        assert rest != [] ==> rest[0] != rs[0];
      }
    }
  }

  /** The list shown under tab `t`. */
  function Filtered(rs: seq<Recipe>, t: string): (r: seq<Recipe>)
    ensures t == "All" ==> r == rs
    ensures t != "All" ==> r == OfType(rs, t)
  {
    if t == "All" then rs else OfType(rs, t)
  }

  /** A list whose recipes all have type t is its own filter by t. */
  lemma {:induction false} OfTypeKeepsAll(xs: seq<Recipe>, t: string)
    requires forall k :: 0 <= k < |xs| ==> xs[k].recipeType == t
    ensures OfType(xs, t) == xs
  {
    if xs != [] {
      OfTypeKeepsAll(xs[1..], t);
    }
  }

  /** A list with no recipe of type u filters to nothing by u. */
  lemma {:induction false} OfTypeDropsAll(xs: seq<Recipe>, u: string)
    requires forall k :: 0 <= k < |xs| ==> xs[k].recipeType != u
    ensures OfType(xs, u) == []
  {
    if xs != [] {
      OfTypeDropsAll(xs[1..], u);
    }
  }

  /** Filtering by the same tab twice filters once; two different
      categories have no recipe in common. */
  lemma OfTypeIdempotent(rs: seq<Recipe>, t: string, u: string)
    ensures OfType(OfType(rs, t), t) == OfType(rs, t)
    ensures t != u ==> OfType(OfType(rs, t), u) == []
  {
    OfTypeKeepsAll(OfType(rs, t), t);
    if t != u {
      OfTypeDropsAll(OfType(rs, t), u);
    }
  }

  /** `recipe.recipeId || recipe.id`. */
  function ResolvedId(r: Recipe): (x: nat)
    ensures r.recipeId != 0 ==> x == r.recipeId
    ensures r.recipeId == 0 ==> x == r.id
  {
    if r.recipeId != 0 then r.recipeId else r.id
  }

  /** The ids of the cards drawn for a list: recipes without an id are
      skipped, the rest drawn in order. */
  function CardIds(rs: seq<Recipe>): (ids: seq<nat>)
    ensures |ids| <= |rs|
    ensures forall k :: 0 <= k < |ids| ==> ids[k] != 0
  {
    if rs == [] then []
    else (if ResolvedId(rs[0]) != 0 then [ResolvedId(rs[0])] else []) + CardIds(rs[1..])
  }

  /** A card is drawn for id x exactly when some recipe resolves to x. */
  lemma {:induction false} CardIdsComplete(rs: seq<Recipe>, x: nat)
    requires x != 0
    ensures x in CardIds(rs) <==> exists i :: 0 <= i < |rs| && ResolvedId(rs[i]) == x
  {
    if rs != [] {
      CardIdsComplete(rs[1..], x);
      if x in CardIds(rs[1..]) {
        var i :| 0 <= i < |rs[1..]| && ResolvedId(rs[1..][i]) == x;
        assert ResolvedId(rs[i + 1]) == x;
      }
      if exists i :: 0 <= i < |rs| && ResolvedId(rs[i]) == x {
        var i :| 0 <= i < |rs| && ResolvedId(rs[i]) == x;
        if i > 0 {
          assert ResolvedId(rs[1..][i - 1]) == x;
        }
      }
    }
  }

  /** The food lover's platform review rule: non-blank text of 5 to 1000
      characters and a rating of at least 1 (no upper bound is checked). */
  predicate ReviewAcceptable(text: string, rating: int) {
    !(Trim(text) == "" || JsLength(text) < 5 || JsLength(text) > 1000 || rating < 1)
  }

  /** Every review the home page accepts, this form accepts too; it also
      lets through a rating above 5, which the home page rejects. */
  lemma ReviewRulesCompared(text: string, rating: int)
    ensures Home.Validate(text, rating).None? ==> ReviewAcceptable(text, rating)
    ensures ReviewAcceptable(text, rating) && rating > 5 ==> Home.Validate(text, rating) == Some(Home.BadRating)
    ensures ReviewAcceptable(text, rating) && rating <= 5 ==> Home.Validate(text, rating).None?
  {
    Home.ValidateRules(text, rating);
  }

  const ReviewRuleText := "Please provide a rating (1-5 stars) and a review (5-1000 characters)."
  const ReviewThanks := "Thank you! Your review has been submitted for approval."
  const ReviewNetwork := "A network error occurred during review submission."

  /** A failed request's body as far as `(await res.json()).message` goes:
      a message that is missing, falsy, or unreadable is "". */
  datatype Response = Thrown | Received(status: nat, message: string)

  /** The platform review submission on form state `s`. */
  function SubmitReview(s: Home.State, r: Response): (Option<Home.ReviewDto>, Home.State) {
    SubmitOutcome(s, ReviewAcceptable(s.text, s.rating), r)
  }

  /** A request is sent exactly when the form rules hold, and carries the
      form; only an OK response clears the form and thanks the user, any
      other outcome keeps the form and shows an error. */
  lemma SubmitReviewOutcomes(s: Home.State, r: Response)
    ensures var out := SubmitReview(s, r);
      (out.0.Some? <==> ReviewAcceptable(s.text, s.rating)) &&
      (out.0.Some? ==> out.0.value == Home.ReviewDto(s.text, s.rating)) &&
      (out.1.kind == "success" <==> ReviewAcceptable(s.text, s.rating) && r.Received? && Http.Ok(r.status)) &&
      (out.1.kind == "success" ==> out.1.text == "" && out.1.rating == 0 && out.1.message == ReviewThanks) &&
      (out.1.kind != "success" ==> out.1.text == s.text && out.1.rating == s.rating && out.1.kind == "error")
  {
  }

  /** The submission on form state `s` once the form rules have been
      checked, `acceptable` being their verdict. */
  function SubmitOutcome(s: Home.State, acceptable: bool, r: Response): (Option<Home.ReviewDto>, Home.State) {
    if !acceptable then (None, s.(kind := "error", message := ReviewRuleText))
    else
      var dto := Some(Home.ReviewDto(s.text, s.rating));
      match r
      case Thrown => (dto, s.(kind := "error", message := ReviewNetwork))
      case Received(status, message) =>
        if Http.Ok(status) || status == 201 then (dto, Home.State("", 0, "success", ReviewThanks))
        else (dto, s.(kind := "error", message := "Error: " + Or(message, "Failed to submit review.")))
  }

  /** The profile form of the dashboard. */
  datatype ProfileForm = ProfileForm(name: string, email: string, password: string,
                                     roleTitle: string, specialty: string)

  /** The profile update body; `password` is None when left out. */
  datatype ProfilePayload = ProfilePayload(name: string, email: string, password: Option<string>,
                                           roleTitle: string, specialty: string)

  /** The body `updateProfile` sends: the password only when it is
      non-empty, and then as typed (not trimmed). */
  function ProfileUpdate(f: ProfileForm): (p: ProfilePayload)
    ensures p.name == f.name && p.email == f.email && p.roleTitle == f.roleTitle && p.specialty == f.specialty
    ensures p.password.Some? <==> f.password != ""
    ensures p.password.Some? ==> p.password.value == f.password
  {
    ProfilePayload(f.name, f.email, if f.password != "" then Some(f.password) else None, f.roleTitle, f.specialty)
  }

  /** The user record `GET /api/Users/me` answers with; a missing or
      falsy field is None. */
  datatype UserDetails = UserDetails(name: Option<string>, email: Option<string>,
                                     roleTitle: Option<string>, specialty: Option<string>)

  /** How `fetchUserDetails` ends: the record, a non-OK status, or a thrown
      fetch or body read. */
  datatype UserFetch = Fetched(details: UserDetails) | FetchRefused(status: nat) | FetchThrown

  /** The profile form `fetchUserDetails` fills from a record: each field
      `|| ""`, the password always empty. */
  function FormOf(d: UserDetails): ProfileForm {
    ProfileForm(OrElse(d.name, ""), OrElse(d.email, ""), "", OrElse(d.roleTitle, ""), OrElse(d.specialty, ""))
  }

  const ProfileThanks := "Profile updated successfully!"
  const ProfileNetwork := "A network error occurred."

  /** A rating request body. */
  datatype RatingDto = RatingDto(recipeId: nat, rating: int)

  /** What `submitRating` does to the pending ratings, and the request it
      sends: nothing without a selected (non-zero) rating or a token; a
      successful request drops that recipe's entry, any other outcome
      keeps the map. */
  function RatingsAfter(ratings: map<nat, int>, recipeId: nat, token: Option<string>, r: Response): (out: (Option<RatingDto>, map<nat, int>))
    ensures out.0.Some? <==> recipeId in ratings && ratings[recipeId] != 0 && Truthy(token)
    ensures out.0.Some? ==> out.0.value == RatingDto(recipeId, ratings[recipeId])
    ensures out.0.Some? && r.Received? && Http.Ok(r.status) ==> out.1 == ratings - {recipeId}
    ensures !(out.0.Some? && r.Received? && Http.Ok(r.status)) ==> out.1 == ratings
  {
    if !(recipeId in ratings && ratings[recipeId] != 0) || !Truthy(token) then (None, ratings)
    else
      var dto := Some(RatingDto(recipeId, ratings[recipeId]));
      if r.Received? && Http.Ok(r.status) then (dto, ratings - {recipeId}) else (dto, ratings)
  }

  /** Changing one recipe's rating and then submitting it successfully
      leaves every other recipe's pending rating as it was. */
  lemma OtherRatingsKept(ratings: map<nat, int>, recipeId: nat, rating: int, token: string, status: nat)
    requires rating != 0 && token != "" && Http.Ok(status)
    ensures var after := RatingsAfter(ratings[recipeId := rating], recipeId, Some(token), Received(status, "")).1;
      recipeId !in after &&
      (forall k :: k != recipeId ==> (k in after <==> k in ratings) && (k in after ==> after[k] == ratings[k]))
  {
  }

  const NoRatingAlert := "Please select a rating (1-5 stars) first."
  const RatingThanks := "Rating submitted successfully!"
  const RatingNetwork := "A network error occurred while submitting rating."

  /** The dashboard's state. */
  class Dashboard {
    var activeView: string
    var error: Option<string>
    var recipes: seq<Recipe>
    var filtered: seq<Recipe>
    var activeTab: string
    var ratings: map<nat, int>
    var reviewText: string
    var ratingValue: int
    var messageKind: string
    var messageText: string
    var isSubmittingReview: bool
    var isLoading: bool
    var profile: ProfileForm
    var details: UserDetails

    constructor ()
      ensures activeView == "home" && error == None && recipes == [] && filtered == []
      ensures activeTab == "All" && ratings == map[] && reviewText == "" && ratingValue == 0
      ensures messageKind == "" && messageText == "" && !isSubmittingReview && isLoading
      ensures profile == ProfileForm("", "", "", "", "") && details == UserDetails(None, None, None, None)
    {
      activeView := "home";
      error := None;
      recipes := [];
      filtered := [];
      activeTab := "All";
      ratings := map[];
      reviewText := "";
      ratingValue := 0;
      messageKind := "";
      messageText := "";
      isSubmittingReview := false;
      isLoading := true;
      profile := ProfileForm("", "", "", "", "");
      details := UserDetails(None, None, None, None);
    }

    /** `handleNavClick`: the general error is cleared and the view switched. */
    method HandleNavClick(view: string)
      modifies this
      ensures activeView == view && error == None
      ensures recipes == old(recipes) && filtered == old(filtered) && activeTab == old(activeTab)
      ensures ratings == old(ratings) && profile == old(profile) && isLoading == old(isLoading)
      ensures details == old(details)
    {
      error := None;
      activeView := view;
    }

    /** `filterRecipesByCategory`. */
    method FilterRecipesByCategory(t: string)
      modifies this
      ensures activeTab == t && filtered == Filtered(recipes, t)
      ensures recipes == old(recipes) && ratings == old(ratings) && activeView == old(activeView)
    {
      activeTab := t;
      filtered := if t == "All" then recipes else OfType(recipes, t);
    }

    /** `handleRatingChange`: only that recipe's pending rating changes. */
    method HandleRatingChange(recipeId: nat, rating: int)
      modifies this
      ensures ratings == old(ratings)[recipeId := rating]
      ensures recipes == old(recipes) && filtered == old(filtered) && error == old(error)
    {
      ratings := ratings[recipeId := rating];
    }

    /** `submitRating` given the stored token and what the request would
        produce; returns the request, the alert and whether logout was
        asked for. */
    method SubmitRating(recipeId: nat, token: Option<string>, r: Response)
      returns (request: Option<RatingDto>, alert: Option<string>, logout: bool)
      modifies this
      ensures (request, ratings) == RatingsAfter(old(ratings), recipeId, token, r)
      ensures request.None? ==> error == old(error) && logout == !Truthy(token)
      ensures request.None? ==> (alert == Some(NoRatingAlert) <==> !(recipeId in old(ratings) && old(ratings)[recipeId] != 0))
      ensures request.Some? && r.Received? && Http.Ok(r.status) ==> error == None && alert == Some(RatingThanks) && !logout
      ensures request.Some? && r.Received? && !Http.Ok(r.status) ==>
        var m := "Rating submission failed: " + Or(r.message, "Rating submission failed (Status: " + NatToString(r.status) + ")");
        error == Some(m) && alert == Some(m) && logout == (r.status == 401)
      ensures request.Some? && r.Thrown? ==> error == Some(RatingNetwork) && alert == Some(RatingNetwork) && !logout
      ensures recipes == old(recipes) && filtered == old(filtered)
    {
      var selected := if recipeId in ratings then ratings[recipeId] else 0;
      alert := None;
      logout := false;
      if selected == 0 || !Truthy(token) {
        if !Truthy(token) {
          logout := true;
        }
        if selected == 0 {
          alert := Some(NoRatingAlert);
        }
        request := None;
        return;
      }
      request := Some(RatingDto(recipeId, selected));
      error := None;
      match r {
        case Thrown =>
          error := Some(RatingNetwork);
          alert := Some(RatingNetwork);
        case Received(status, message) =>
          if Http.Ok(status) {
            alert := Some(RatingThanks);
            ratings := ratings - {recipeId};
          } else {
            var m := "Rating submission failed: " + Or(message, "Rating submission failed (Status: " + NatToString(status) + ")");
            error := Some(m);
            alert := Some(m);
            logout := status == 401;
          }
      }
    }

    /** `handleReviewSubmit` for the platform review form. */
    method HandleReviewSubmit(r: Response) returns (request: Option<Home.ReviewDto>)
      modifies this
      ensures var out := SubmitReview(Home.State(old(reviewText), old(ratingValue), old(messageKind), old(messageText)), r);
        request == out.0 && reviewText == out.1.text && ratingValue == out.1.rating &&
        messageKind == out.1.kind && messageText == out.1.message
      ensures request.Some? ==> !isSubmittingReview && error == None
      ensures request.None? ==> isSubmittingReview == old(isSubmittingReview) && error == old(error)
    {
      ghost var s0 := Home.State(reviewText, ratingValue, messageKind, messageText);
      var text, rating := reviewText, ratingValue;
      var acceptable := ReviewAcceptable(text, rating);
      assert SubmitReview(s0, r) == SubmitOutcome(s0, acceptable, r);
      var kind, message;
      if !acceptable {
        kind, message := "error", ReviewRuleText;
        request := None;
        assert SubmitOutcome(s0, acceptable, r) == (None, s0.(kind := kind, message := message));
      } else {
        request := Some(Home.ReviewDto(text, rating));
        match r {
          case Thrown =>
            kind, message := "error", ReviewNetwork;
            assert SubmitOutcome(s0, acceptable, r) == (request, s0.(kind := kind, message := message));
          case Received(status, body) =>
            if Http.Ok(status) || status == 201 {
              kind, message := "success", ReviewThanks;
              text, rating := "", 0;
              assert SubmitOutcome(s0, acceptable, r) == (request, Home.State(text, rating, kind, message));
            } else {
              kind, message := "error", "Error: " + Or(body, "Failed to submit review.");
              assert SubmitOutcome(s0, acceptable, r) == (request, s0.(kind := kind, message := message));
            }
        }
        isSubmittingReview, error := false, None;
      }
      reviewText, ratingValue, messageKind, messageText := text, rating, kind, message;
    }

    /** `updateProfile` given the stored token, what the update request
        would produce and how the awaited `fetchUserDetails` would end;
        returns the request, the alerts shown in order, and whether logout
        was asked for. An OK update alerts and refetches the user: a
        refetch that fails rethrows into the network-error path, and a 401
        on it also logs out; only a refetch that succeeds refills the form
        and goes home. */
    method UpdateProfile(token: Option<string>, r: Response, refetch: UserFetch)
      returns (request: Option<ProfilePayload>, alerts: seq<string>, logout: bool)
      modifies this
      ensures request.Some? <==> Truthy(token)
      ensures request.Some? ==> request.value == ProfileUpdate(old(profile)) && !isLoading
      ensures request.None? ==> (logout && alerts == [] && error == old(error) && activeView == old(activeView) &&
        isLoading == old(isLoading) && profile == old(profile) && details == old(details))
      ensures request.Some? && r.Received? && Http.Ok(r.status) && refetch.Fetched? ==> (
        activeView == "home" && error == None && !logout && alerts == [ProfileThanks] &&
        details == refetch.details && profile == FormOf(refetch.details))
      ensures request.Some? && r.Received? && Http.Ok(r.status) && !refetch.Fetched? ==> (
        activeView == old(activeView) && error == Some(ProfileNetwork) && alerts == [ProfileThanks, ProfileNetwork] &&
        logout == (refetch == FetchRefused(401)) && profile == old(profile) && details == old(details))
      ensures request.Some? && r.Received? && !Http.Ok(r.status) ==> (
        var m := "Profile update failed: " + Or(r.message, "Update failed (Status: " + NatToString(r.status) + ")");
        error == Some(m) && alerts == [m] && activeView == old(activeView) && logout == (r.status == 401) &&
        profile == old(profile) && details == old(details))
      ensures request.Some? && r.Thrown? ==> (
        error == Some(ProfileNetwork) && alerts == [ProfileNetwork] && activeView == old(activeView) && !logout &&
        profile == old(profile) && details == old(details))
      ensures ratings == old(ratings) && recipes == old(recipes)
    {
      logout := false;
      alerts := [];
      if !Truthy(token) {
        logout := true;
        request := None;
        return;
      }
      error := None;
      isLoading := true;
      request := Some(ProfileUpdate(profile));
      match r {
        case Thrown =>
          error := Some(ProfileNetwork);
          alerts := alerts + [ProfileNetwork];
        case Received(status, message) =>
          if Http.Ok(status) {
            alerts := alerts + [ProfileThanks];
            match refetch {
              case Fetched(d) =>
                details := d;
                profile := FormOf(d);
                HandleNavClick("home");
              // The refetch's own error message is overwritten by the
              // network-error catch its rethrow lands in.
              case FetchRefused(code) =>
                logout := code == 401;
                error := Some(ProfileNetwork);
                alerts := alerts + [ProfileNetwork];
              case FetchThrown =>
                error := Some(ProfileNetwork);
                alerts := alerts + [ProfileNetwork];
            }
          } else {
            var m := "Profile update failed: " + Or(message, "Update failed (Status: " + NatToString(status) + ")");
            error := Some(m);
            alerts := alerts + [m];
            logout := status == 401;
          }
      }
      isLoading := false;
    }
  }
}
