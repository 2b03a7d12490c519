# RecipeNest client logic in Dafny

RecipeNest is a recipe-sharing web application. Its React front end has
public pages, a login and a signup page, and three dashboards behind a role
guard: one for chefs, one for administrators, one for food lovers. This
project models the decision logic of that front end, the code that runs
between the browser and the API:

- the route table and the `ProtectedRoute` guard;
- the login outcome: failure messages, validation of the success body, and
  the dashboard each role is sent to;
- the signup form rules and payload;
- the review forms of the home page and the food lover dashboard;
- the star rows and star strings drawn for ratings;
- the category search and the card image sources of the recipe listing;
- the chef dashboard: its `callApi` wrapper, section switching and the
  recipe form, the add/update request, the profile update, polling and
  `renderContent`;
- the admin dashboard: the review status decoder, image addresses, its
  `callApi` wrapper, the overview counts, the moderation buttons, the
  detail view and the handlers;
- the food lover dashboard: the category filter, the pending ratings map,
  the review and profile submissions, and which recipe cards are drawn.

Browser effects are values in this model. A `fetch` result is an input:
a status and a parsed body, or a thrown error. The stored token and role
are inputs. `window.confirm` is a `bool` input. Alerts, navigation and the
requests sent are outputs. Handlers that update React state are methods of
classes whose fields are that state. Each such method states its whole new
state, usually through a pure function whose properties are proved as
lemmas.

Modules, one per file:

- `Text`: JavaScript string operations. These are truthiness, `||`, `trim`
  with the ECMAScript white-space set, ASCII `toLowerCase`, UTF-16
  `.length`, decimal rendering of numbers, and `join`.
- `Http`: the OK status range, an abstract JSON value, and the API base
  address.
- `ImageUrl`: the image address rule the two dashboards share.
- `Routes`, `ProtectedRoute`, `Login`, `Signup`, `Home`, `RecipeCards`:
  these follow `App.js` and the component of the same name.
- `Stars`: the star rows. The admin and chef dashboards share one
  `renderStars`. The home page and the food lover dashboard share
  `renderStarsDisplay` and `StarRatingInput`.
- `ChefDashboard`, `AdminDashboard` and `FoodLover`: the three dashboards.

Behaviour the proofs bring out:

- A recipe card's read-more button leads to `/recipe/{id}`. The route table
  declares no such path, so that page renders nothing
  (`RecipeCards.ReadMoreMatchesNoRoute`).
- The five-empty-stars fallback of the listing's `renderStars` is never
  taken: the loops always build a non-empty string
  (`RecipeCards.RawNeverEmpty`).
- In the chef dashboard, a failed reply never carries status 204. So the
  `|| result.status === 204` tests in its handlers never change the outcome
  (`ChefDashboard.NoContentIsSuccess`).
- The chef dashboard trims the password it sends. The food lover dashboard
  sends the password as typed. The two bodies differ exactly when the
  password has surrounding white space (`ChefDashboard.ProfilePasswordRulesCompared`).
- The food lover review form checks no rating upper bound; the home page
  form does (`FoodLover.ReviewRulesCompared`).
- In the admin dashboard, an error response whose body is the JSON value
  null is reported as "null" (`AdminDashboard.NullBodyReportsNull`).
- The admin `handleNavClick` leaves the detail loading flag alone. A section
  click during a detail load therefore still shows the detail view
  (`AdminDashboard.Dashboard.HandleNavClick`).
- The admin mount effect checks only the token, not the role
  (`AdminDashboard.MountComparedWithGuard`).
- In the admin `callApi`, the text read after a failed JSON parse always
  rejects, because the parse has consumed the body. The raw-text step of
  the error message therefore never applies, and a non-JSON error body
  reports "Request failed: N" (`AdminDashboard.ErrorMessage`).
- When the food lover profile update succeeds but the refetch of the user
  fails, the refetch's own message is overwritten by "A network error
  occurred.", and the user sees the success alert followed by the network
  alert (`FoodLover.Dashboard.UpdateProfile`).

## Model

| member | source | states |
|---|---|---|
| Routes.SegmentLength | React/src/App.js:28-64 | the leading run of a path up to the first slash: no slash inside it, and it stops at a slash or the end |
| Routes.Segments | React/src/App.js:28-64 | a path splits into non-empty, slash-free segments, as the router matches them |
| Routes.GuardOf | React/src/App.js:26-65 | the guard of the route a path selects: None when no route matches, else the route's required role (None for a public route); its properties are those of `Routes.Selects`, `Routes.GuardedRoutes` and the per-route lemmas below |
| Routes.MatchIndex | React/src/App.js:26-65 | the route selected is a matching one, and no earlier route matches; None means no declared route matches |
| Routes.OneSegment | React/src/App.js:29-37 | "/name" has exactly the one segment name |
| Routes.TwoSegments | React/src/App.js:38 | "/a/b" has exactly the segments a and b |
| Routes.RootHasNoSegments | React/src/App.js:28 | "/" has no segments, so only the root pattern matches it |
| Routes.PatternsDistinct | React/src/App.js:28-64 | all declared route patterns are distinct |
| Routes.FirstSegmentsDistinct | React/src/App.js:28-64 | every pattern but "/" starts with its own literal segment |
| Routes.AtMostOneMatch | React/src/App.js:28-64 | a path matches at most one declared route, so the declaration order does not matter |
| Routes.Selects | React/src/App.js:28-64 | a path matching route i selects route i and its guard |
| Routes.SelectsPlain | React/src/App.js:29-37 | a one-segment path selects the route declared with that literal |
| Routes.GuardedRoutes | React/src/App.js:41-64 | exactly the three dashboard routes are guarded |
| Routes.ChefDashboardGuard | React/src/App.js:41-48 | /chef-dashboard requires the role Chef |
| Routes.AdminDashboardGuard | React/src/App.js:49-56 | /admin-dashboard requires the role Admin |
| Routes.FoodLoverDashboardGuard | React/src/App.js:57-64 | /foodlover-dashboard requires the role FoodLover |
| Routes.HomePublic | React/src/App.js:28 | "/" is declared and unguarded |
| Routes.LoginPublic | React/src/App.js:29 | /login is declared and unguarded |
| Routes.MainDishesPublic | React/src/App.js:35 | /maindishes is declared and unguarded |
| Routes.FastFoodPublic | React/src/App.js:36 | /fastfood is declared and unguarded |
| Routes.DessertPublic | React/src/App.js:37 | /dessert is declared and unguarded |
| Routes.ChefProfilePublic | React/src/App.js:38 | every /chef-profile/{id} path selects the unguarded parameterised route |
| ProtectedRoute.Decide | React/src/components/ProtectedRoute.jsx:8-43 | redirect to login (carrying the location, replacing history) iff there is no token; redirect home iff a token is present but the role differs; render the children iff there is a token and the role matches |
| ProtectedRoute.Target | React/src/components/ProtectedRoute.jsx:23-39 | the login redirect leads to /login, the role redirect to "/" |
| ProtectedRoute.TokenCheckFirst | React/src/components/ProtectedRoute.jsx:23-39 | a missing or empty token leads to login even when the stored role matches |
| ProtectedRoute.MismatchGoesHome | React/src/components/ProtectedRoute.jsx:32-39 | a logged-in user with the wrong role goes home, never to login |
| ProtectedRoute.RedirectsLeaveGuardedRoute | React/src/components/ProtectedRoute.jsx:23-39 | for every guarded route, a redirect leads to a public page that is not the guarded route itself |
| Login.FailureMessage | React/React/src/components/LoginComponent.jsx:79-102 | the 404 message; the 400/401 message; else the body's message, or "Login failed. Status: N" |
| Login.Dashboard | React/React/src/components/LoginComponent.jsx:169-186 | each of the three roles maps to its own dashboard path, in both directions; any other role has none |
| Login.Attempt | React/React/src/components/LoginComponent.jsx:26-200 | the whole outcome of `handleLogin` (error, storage, welcome, destination) for one response; stated by `Login.StoredIffValid`, `Login.ErrorPaths` and `Login.DestinationAdmitsUser` |
| Login.StoredIffValid | React/React/src/components/LoginComponent.jsx:120-160 | the token and role are stored iff the status is OK and the body has a token, a user and a non-blank string role; they are then the body's token and untrimmed role; the welcome alert and the navigation happen iff storage does |
| Login.ErrorPaths | React/React/src/components/LoginComponent.jsx:79-143 | a failed status, a missing body and incomplete data each give their own message and store nothing |
| Login.WelcomeNamesUser | React/React/src/components/LoginComponent.jsx:150-163 | the welcome alert names the first name, or "User" when there is none |
| Login.DestinationAdmitsUser | React/React/src/components/LoginComponent.jsx:158-186 | a user who has just logged in with a known role reaches a route whose guard requires that role and renders the dashboard; an unknown role goes to the public "/" with the unknown-role error |
| Login.KnownRoleAdmitted | React/React/src/components/LoginComponent.jsx:169-175 | each known role's dashboard path is a route guarded by that role, and the guard renders it for a stored token and that role |
| Login.LoginPage.HandleLogin | React/React/src/components/LoginComponent.jsx:26-200 | the page's error, storage, alerts and navigation become the outcome of the attempt, and loading ends on every path |
| Signup.Set | React/React/src/components/SignupComponent.jsx:43 | the named field takes the value and every other field is unchanged |
| Signup.Changed | React/React/src/components/SignupComponent.jsx:38-50 | only the changed field changes, except that choosing FoodLover also clears the role title and specialty |
| Signup.PayloadOf | React/React/src/components/SignupComponent.jsx:65-75 | the payload always has the name, email, password and role, and has the role title and specialty iff the role is Chef |
| Signup.FailureMessage | React/React/src/components/SignupComponent.jsx:100-125 | the body's message, the fallback for a falsy message, the status text for an unparsable body, the network message for a null body; never empty |
| Signup.ChefValidationStopsRequest | React/React/src/components/SignupComponent.jsx:78-85 | a chef without a title or specialty is stopped before any request |
| Signup.Submit | React/React/src/components/SignupComponent.jsx:53-126 | the whole outcome of `handleSignup` for one response; stated by `Signup.RequestIffValid`, `Signup.ChefValidationStopsRequest` and `Signup.NavigatesOnlyOnSuccess` |
| Signup.RequestIffValid | React/React/src/components/SignupComponent.jsx:65-97 | a request is sent iff validation passes; a chef request carries a non-empty title and specialty, any other role none |
| Signup.NavigatesOnlyOnSuccess | React/React/src/components/SignupComponent.jsx:100-125 | navigation to /login happens iff the request is sent and answered OK; every other outcome shows an error |
| Signup.RoundTripThroughFoodLover | React/React/src/components/SignupComponent.jsx:38-85 | switching to FoodLover and back to Chef leaves the chef fields empty, so that signup is stopped |
| Signup.SignupPage.HandleChange | React/React/src/components/SignupComponent.jsx:38-50 | the form becomes the form after the change |
| Signup.SignupPage.HandleSignup | React/React/src/components/SignupComponent.jsx:53-126 | the request, error, alert, navigation and loading flag are those of the submission; the form is unchanged |
| Stars.Row | React/src/components/AdmindashboardComponent.jsx:20-23 | star k of the row is filled iff k is at most the threshold |
| Stars.RowCount | React/src/components/AdmindashboardComponent.jsx:20-23 | a row fills exactly the threshold clamped to 0..n stars |
| Stars.Round | React/src/components/AdmindashboardComponent.jsx:18 | `Math.round` gives the integer nearest the value, halves up |
| Stars.RenderStars | React/src/components/AdmindashboardComponent.jsx:14-26 | five stars, star i filled iff i is at most the rounded rating, with a missing rating counted as 0 |
| Stars.RenderStarsDisplay | React/src/components/HomeComponent.jsx:48-60 | five stars, star i filled iff i is at most the rating |
| Stars.InputRow | React/src/components/HomeComponent.jsx:29 | star s is filled iff the hover rating (when non-zero, else the rating) is at least s |
| Stars.HoverOverrides | React/src/components/HomeComponent.jsx:29 | while hovering the selected rating does not matter; without hover the row is the display row |
| Stars.SelectedRatingFills | React/src/components/HomeComponent.jsx:29-31 | a selected rating s of 1..5 fills exactly s stars |
| Stars.RenderStarsCount | React/src/components/AdmindashboardComponent.jsx:18-23 | the row fills the rounded rating clamped to 0..5, exactly the rounded rating for ratings in 0..5 |
| RecipeCards.Repeat | React/React/src/components/RecipeComponent.jsx:20-26 | a counting loop appends max(n, 0) copies of one symbol |
| RecipeCards.Mod1 | React/React/src/components/RecipeComponent.jsx:16 | JavaScript `x % 1` lies in [0, 1) for non-negative x and in (-1, 0] for negative x |
| RecipeCards.StarString | React/React/src/components/RecipeComponent.jsx:12-29 | the star string of a rating, the reference `RecipeCards.RenderStars` builds; stated by `RecipeCards.RawNeverEmpty`, `RecipeCards.FilledIsRounded` and `RecipeCards.FiveSymbolsInRange` |
| RecipeCards.RenderStars | React/React/src/components/RecipeComponent.jsx:12-29 | the loops build the full, half and empty stars, with the fallback |
| RecipeCards.RawNeverEmpty | React/React/src/components/RecipeComponent.jsx:14-28 | the built string is never empty, so the fallback is never taken |
| RecipeCards.FilledIsRounded | React/React/src/components/RecipeComponent.jsx:14-24 | for a non-negative rating, the full stars plus the half star are `Math.round(rating)` |
| RecipeCards.FiveSymbolsInRange | React/React/src/components/RecipeComponent.jsx:14-28 | a rating in 0..5 draws exactly five symbols: the rounded count of filled stars, then empty ones |
| RecipeCards.ZeroIsFiveEmpty | React/React/src/components/RecipeComponent.jsx:18-28 | a rating of 0 draws five empty stars |
| RecipeCards.SearchTarget | React/React/src/components/RecipeComponent.jsx:157-165 | each category route is chosen iff the lowered, trimmed term is one of its spellings |
| RecipeCards.SearchIgnoresCaseAndSpace | React/React/src/components/RecipeComponent.jsx:157 | lowering or trimming the term first does not change where a search leads |
| RecipeCards.SearchTargetsPublic | React/React/src/components/RecipeComponent.jsx:159-163 | every page a search leads to is a declared public route |
| RecipeCards.ReadMoreMatchesNoRoute | React/React/src/components/RecipeComponent.jsx:145-147 | the read-more target "/recipe/{id}" matches no declared route |
| RecipeCards.ImageSrc | React/React/src/components/RecipeComponent.jsx:222 | an image URL starting with "/" is prefixed with the API base; any other value is used as it is |
| RecipeCards.RecipeListing.HandleInput | React/React/src/components/RecipeComponent.jsx:180-190 | typing replaces the search term |
| RecipeCards.RecipeListing.HandleSearch | React/React/src/components/RecipeComponent.jsx:153-169 | keys other than Enter do nothing; Enter navigates to the search target or alerts (exactly one of the two) and clears the term |
| Home.Validate | React/src/components/HomeComponent.jsx:128-144 | the first failed rule or None; stated by `Home.ValidateRules` and `Home.BlankBeforeLength` |
| Home.ValidateRules | React/src/components/HomeComponent.jsx:128-144 | a review is accepted iff the trimmed text is non-empty, the length is 5..1000 and the rating is 1..5; the empty check comes first, then the length, then the rating, each with its own message |
| Home.ErrorMessage | React/src/components/HomeComponent.jsx:187-213 | an errors map gives its values flattened and joined with a space; else message, title, fallback; a text body, then the status text; a failed read gives the status text |
| Home.Submit | React/src/components/HomeComponent.jsx:120-229 | the request and form state `handleReviewSubmit` leaves; stated by `Home.RequestIffValid`, `Home.ResetOnlyOnSuccess` and `Home.FailureIsPrefixed` |
| Home.RequestIffValid | React/src/components/HomeComponent.jsx:128-171 | a request goes out iff validation passes, and it carries the text and rating unchanged |
| Home.ResetOnlyOnSuccess | React/src/components/HomeComponent.jsx:174-215 | only an OK response clears the text and rating; every other outcome keeps them and shows an error |
| Home.BlankBeforeLength | React/src/components/HomeComponent.jsx:128-138 | white space of any length is reported as empty, not as too long |
| Home.FailureIsPrefixed | React/src/components/HomeComponent.jsx:215 | a failed response's message starts with "Error: " |
| Home.ReviewForm.SetRating | React/src/components/HomeComponent.jsx:31 | clicking star s selects rating s and changes nothing else |
| Home.ReviewForm.HandleReviewSubmit | React/src/components/HomeComponent.jsx:120-220 | the request and the new text, rating and message are those of `Submit` |
| FoodLover.OfType | React/React/src/components/FoodLoverDashboardComponent.jsx:376 | the filter keeps every recipe of the type with its multiplicity, and no other recipe |
| FoodLover.OfTypePreservesOrder | React/React/src/components/FoodLoverDashboardComponent.jsx:376 | the filtered list keeps the original order |
| FoodLover.Filtered | React/React/src/components/FoodLoverDashboardComponent.jsx:370-377 | the "All" tab shows every recipe; any other tab shows the recipes of that type |
| FoodLover.OfTypeKeepsAll | React/React/src/components/FoodLoverDashboardComponent.jsx:376 | a list of one type is its own filter by that type |
| FoodLover.OfTypeDropsAll | React/React/src/components/FoodLoverDashboardComponent.jsx:376 | a list without a type filters to nothing by it |
| FoodLover.OfTypeIdempotent | React/React/src/components/FoodLoverDashboardComponent.jsx:376 | filtering twice by a tab filters once; two categories share no recipe |
| FoodLover.ResolvedId | React/React/src/components/FoodLoverDashboardComponent.jsx:698 | the card id is `recipeId` if truthy, else `id` |
| FoodLover.CardIds | React/React/src/components/FoodLoverDashboardComponent.jsx:696-700 | recipes with no id are skipped; at most one card per recipe |
| FoodLover.CardIdsComplete | React/React/src/components/FoodLoverDashboardComponent.jsx:696-700 | a card is drawn for id x iff some recipe resolves to x |
| FoodLover.ReviewAcceptable | React/React/src/components/FoodLoverDashboardComponent.jsx:449 | the platform form rule: non-blank text of 5..1000 UTF-16 units and a rating of at least 1; compared with the home form by `FoodLover.ReviewRulesCompared` |
| FoodLover.ReviewRulesCompared | React/React/src/components/FoodLoverDashboardComponent.jsx:449 | every review the home form accepts is accepted here; here a rating above 5 also passes |
| FoodLover.SubmitReview | React/React/src/components/FoodLoverDashboardComponent.jsx:442-499 | the request and form state of the platform review submission; stated by `FoodLover.SubmitReviewOutcomes` |
| FoodLover.SubmitReviewOutcomes | React/React/src/components/FoodLoverDashboardComponent.jsx:442-499 | a request iff the text is non-blank, 5..1000 long and the rating at least 1; only an OK response resets the text to "" and the rating to 0 |
| FoodLover.ProfileUpdate | React/React/src/components/FoodLoverDashboardComponent.jsx:331 | the body always has the four profile fields, and the password iff it is non-empty, untrimmed |
| FoodLover.RatingsAfter | React/React/src/components/FoodLoverDashboardComponent.jsx:384-437 | no request without a selected rating or a token; a successful request removes only that recipe's entry; any other outcome keeps the map |
| FoodLover.OtherRatingsKept | React/React/src/components/FoodLoverDashboardComponent.jsx:379-416 | changing and then submitting one rating leaves every other entry as it was |
| FoodLover.Dashboard.HandleNavClick | React/React/src/components/FoodLoverDashboardComponent.jsx:127-134 | the error is cleared and the view switched |
| FoodLover.Dashboard.FilterRecipesByCategory | React/React/src/components/FoodLoverDashboardComponent.jsx:370-377 | the tab is set and the shown list is the filter of the recipes |
| FoodLover.Dashboard.HandleRatingChange | React/React/src/components/FoodLoverDashboardComponent.jsx:379-382 | only that recipe's pending rating changes |
| FoodLover.Dashboard.SubmitRating | React/React/src/components/FoodLoverDashboardComponent.jsx:384-437 | the request and the new map are those of `RatingsAfter`, with the alerts, error and logout of each path |
| FoodLover.Dashboard.HandleReviewSubmit | React/React/src/components/FoodLoverDashboardComponent.jsx:442-499 | the request and the new form state are those of `SubmitReview` |
| FoodLover.Dashboard.UpdateProfile | React/React/src/components/FoodLoverDashboardComponent.jsx:321-368 | a request iff a token is present, carrying `ProfileUpdate` of the form; an OK update alerts and awaits the user refetch: a refetched record replaces the details, refills the form with an empty password and returns home; a failed refetch lands in the network-error path with both alerts, logging out on its 401; a failed update sets and alerts its error, logging out on 401; a thrown request sets and alerts the network error |
| ImageUrl.WithoutTrailingSlash | React/src/components/AdmindashboardComponent.jsx:60 | one trailing slash is removed from the base |
| ImageUrl.Rooted | React/src/components/AdmindashboardComponent.jsx:62 | the path starts with a slash, which is added only when missing |
| ImageUrl.Resolve | React/src/components/AdmindashboardComponent.jsx:54-64 | a full http or https URL is kept; anything else is joined to the API base |
| ImageUrl.JoinedShape | React/src/components/AdmindashboardComponent.jsx:60-64 | the joined address is the base, one slash, and the path without its leading slash |
| ImageUrl.OneSlash | React/React/src/components/ChefdashboardComponent.jsx:25-37 | a relative path is served from the API base with exactly one slash between base and path |
| ChefDashboard.FullImageUrl | React/React/src/components/ChefdashboardComponent.jsx:25-37 | null iff the path is missing or empty; a full URL is kept; anything else is joined to the API base |
| ChefDashboard.RelativeImageJoinedOnce | React/React/src/components/ChefdashboardComponent.jsx:25-37 | a relative path becomes the base, one slash, and the path without a leading slash |
| ChefDashboard.NetworkMessage | React/React/src/components/ChefdashboardComponent.jsx:152-158 | every network failure has a non-empty message |
| ChefDashboard.ShortOr | React/React/src/components/ChefdashboardComponent.jsx:117-140 | a body text replaces the default only when it is 1 to 499 UTF-16 units long |
| ChefDashboard.ErrorMessage | React/React/src/components/ChefdashboardComponent.jsx:117-148 | a parse failure gives its own status message; an object gives message, title, error, its serialisation or the default; a text gives the text if short |
| ChefDashboard.CallApi | React/React/src/components/ChefdashboardComponent.jsx:80-159 | the whole of `callApi`: reply, whether a request went out, whether logout was asked for; stated by `ChefDashboard.MissingTokenStopsRequest`, `ChefDashboard.LogoutIff`, `ChefDashboard.SuccessIffOk` and `ChefDashboard.NoContentIsSuccess` |
| ChefDashboard.MissingTokenStopsRequest | React/React/src/components/ChefdashboardComponent.jsx:82-86 | no request is made iff there is no token and the URL is not the login or register endpoint; the reply is then a 401 failure and logout is asked for |
| ChefDashboard.LogoutIff | React/React/src/components/ChefdashboardComponent.jsx:82-110 | logout is asked for iff the token was missing for a non-exempt URL or the server answered 401 or 403 |
| ChefDashboard.SuccessIffOk | React/React/src/components/ChefdashboardComponent.jsx:106-158 | a call succeeds iff a request was made and answered with a 2xx status, and then has no error; a failure has no data and carries its status (none for a network error); a 401 or 403 names that status in its message |
| ChefDashboard.NoContentIsSuccess | React/React/src/components/ChefdashboardComponent.jsx:112-115 | a 204 is a success with null data, so no failed reply carries status 204 |
| ChefDashboard.LongTextHidden | React/React/src/components/ChefdashboardComponent.jsx:130-140 | a text body of 500 units or more is replaced by the default message |
| ChefDashboard.LinesText | React/React/src/components/ChefdashboardComponent.jsx:260-261 | an array is joined with newlines; a text is kept |
| ChefDashboard.EditFormOf | React/React/src/components/ChefdashboardComponent.jsx:251-269 | the form takes the recipe's id, its fields with missing ones as "", the joined lines, and no image file |
| ChefDashboard.RecipeRequestOf | React/React/src/components/ChefdashboardComponent.jsx:293-317 | PUT to /api/recipes/{id} iff the form has a truthy id, else POST to /api/recipes; the fields in order; the image only when creating with a file |
| ChefDashboard.UpdateUrlNamesRecipe | React/React/src/components/ChefdashboardComponent.jsx:297-300 | the update address is the collection address, a slash and digits that denote the id |
| ChefDashboard.EditThenSave | React/React/src/components/ChefdashboardComponent.jsx:251-317 | editing a recipe with an id and saving sends a PUT of that recipe without an image; the empty form sends a POST |
| ChefDashboard.ProfilePayloadOf | React/React/src/components/ChefdashboardComponent.jsx:369-375 | the body always carries the name, email, role title and specialty |
| ChefDashboard.ProfilePasswordTrimmed | React/React/src/components/ChefdashboardComponent.jsx:369-375 | the password is sent iff it is not all white space, and then trimmed |
| ChefDashboard.ProfilePasswordRulesCompared | React/React/src/components/ChefdashboardComponent.jsx:369-375 | the chef body and the food lover body agree on the four fields; they differ exactly when the password has surrounding white space |
| ChefDashboard.ProfileAlert | React/React/src/components/ChefdashboardComponent.jsx:389-398 | success or 204 gives the updated alert; 404 the missing-endpoint alert; else the error or "Unknown error" with the status |
| ChefDashboard.FormAfterSwitch | React/React/src/components/ChefdashboardComponent.jsx:205-216 | the form is reset iff the previous section is add or edit and the new one is neither |
| ChefDashboard.FormKeptWithinEditor | React/React/src/components/ChefdashboardComponent.jsx:205-216 | moving between add and edit keeps the form; leaving them resets it; other switches keep it |
| ChefDashboard.ShouldPoll | React/React/src/components/ChefdashboardComponent.jsx:476-479 | polling needs a stored token and the home or my-recipes section; tied to the shown content by `ChefDashboard.PollingShowsOwnRecipes` and to the section changes by the handlers below |
| ChefDashboard.PollingShowsOwnRecipes | React/React/src/components/ChefdashboardComponent.jsx:476-479 | with the chef's details loaded, polling runs iff a token is stored and the content shown is the home page or the chef's own recipe list |
| ChefDashboard.MountAction | React/React/src/components/ChefdashboardComponent.jsx:444-472 | the data loads iff a token is stored and the role is Chef, else storage is cleared and login shown |
| ChefDashboard.MountAgreesWithGuard | React/React/src/components/ChefdashboardComponent.jsx:444-472 | the mount check loads exactly when the route guard renders the dashboard |
| ChefDashboard.RenderContent | React/React/src/components/ChefdashboardComponent.jsx:631-640 | the view `renderContent` picks; stated by `ChefDashboard.DetailFirst`, `ChefDashboard.EditorViews`, `ChefDashboard.DetailsMissing` and `ChefDashboard.PollingShowsOwnRecipes` |
| ChefDashboard.DetailFirst | React/React/src/components/ChefdashboardComponent.jsx:633-638 | the detail view shows iff the section is view-detail, whatever else holds |
| ChefDashboard.EditorViews | React/React/src/components/ChefdashboardComponent.jsx:765-784 | with details loaded, add with a recipe id and edit with one show the edit form; add without one shows the add form; edit without one shows "No recipe selected" |
| ChefDashboard.DetailsMissing | React/React/src/components/ChefdashboardComponent.jsx:633-638 | without the chef's details, any section but the detail view shows the initializing notice while loading, then the error notice after a failure; otherwise the unavailable notice shows iff the section is not home, my-recipes or view-all |
| ChefDashboard.Dashboard.ResetRecipeForm | React/React/src/components/ChefdashboardComponent.jsx:63-68 | the recipe form becomes the empty form and nothing else changes |
| ChefDashboard.Dashboard.HandleNavClickUnified | React/React/src/components/ChefdashboardComponent.jsx:203-234 | the section is set; the form follows `FormAfterSwitch`; the viewed recipe is cleared; the profile form is filled when opening the profile with details; a fetch is asked for when they are absent; polling then runs iff a token is stored and the section is home or my-recipes |
| ChefDashboard.Dashboard.BeginViewRecipe | React/React/src/components/ChefdashboardComponent.jsx:236-244 | nothing happens for a falsy id; otherwise the detail section opens, loading and empty, and polling stops |
| ChefDashboard.Dashboard.FinishViewRecipe | React/React/src/components/ChefdashboardComponent.jsx:236-244 | the recipe on success with data, else the error; loading ends |
| ChefDashboard.Dashboard.HandleCloseRecipeView | React/React/src/components/ChefdashboardComponent.jsx:246-248 | nothing is viewed and the section is my-recipes, so polling runs iff a token is stored |
| ChefDashboard.Dashboard.HandleEditRecipe | React/React/src/components/ChefdashboardComponent.jsx:251-269 | nothing happens without a recipe; otherwise the form is `EditFormOf` the recipe and the section is edit |
| ChefDashboard.Dashboard.AddRecipeButton | React/React/src/components/ChefdashboardComponent.jsx:940-945 | the form is reset and the add section opens, which then shows the add form, and polling stops |
| ChefDashboard.Dashboard.HandleAddOrUpdateRecipe | React/React/src/components/ChefdashboardComponent.jsx:293-335 | the request is `RecipeRequestOf` the form; the alert names the verb; success resets the form and shows my-recipes |
| ChefDashboard.Dashboard.HandleDeleteRecipe | React/React/src/components/ChefdashboardComponent.jsx:337-362 | `callApi` is invoked iff the id is truthy and confirmed (and `callApi` itself sends no request without a token); the alert of each outcome; deleting the viewed recipe closes its view |
| ChefDashboard.Dashboard.HandleUpdateProfile | React/React/src/components/ChefdashboardComponent.jsx:364-403 | the body is `ProfilePayloadOf` the form and the alert `ProfileAlert`; a success awaits `fetchChefDetails`, whose outcome (details replaced and form refilled, or details dropped and the error recorded) is kept, and then the password is cleared; a failure changes no state |
| ChefDashboard.Dashboard.FetchChefDetails | React/React/src/components/ChefdashboardComponent.jsx:161-177 | a reply with data replaces the details and refills the form when its name is empty or the profile section is open; any other reply drops the details and records "Failed to load profile: " with the error or "No data received"; loading ends |
| AdminDashboard.StatusText | React/src/components/AdmindashboardComponent.jsx:29-42 | Pending, Approved, Rejected or Unknown, each iff the lowered status text is its number or its name |
| AdminDashboard.NumberTextLower | React/src/components/AdmindashboardComponent.jsx:32 | lowering a number's decimal text leaves it unchanged |
| AdminDashboard.StatusCodes | React/src/components/AdmindashboardComponent.jsx:32-40 | 0, 1 and 2 decode to Pending, Approved and Rejected; every other number is Unknown |
| AdminDashboard.StatusIgnoresCase | React/src/components/AdmindashboardComponent.jsx:32 | letter case does not change the decoded status |
| AdminDashboard.NamesDecode | React/src/components/AdmindashboardComponent.jsx:32-40 | each of the four texts decodes to itself |
| AdminDashboard.StatusTextIdempotent | React/src/components/AdmindashboardComponent.jsx:29-42 | decoding a decoded status gives it back |
| AdminDashboard.FullImageUrl | React/src/components/AdmindashboardComponent.jsx:45-65 | a missing path gives the avatar or food default by `isProfile`; a full URL is kept; anything else is joined to the base |
| AdminDashboard.ImageUrlsCompared | React/src/components/AdmindashboardComponent.jsx:45-65 | a present path gives the same address on both dashboards; a missing one gives null there and a site picture here |
| AdminDashboard.ErrorMessage | React/src/components/AdmindashboardComponent.jsx:192-231 | message, title, serialised errors or body, then "Request failed: N"; the raw-text step always sees "" because the text read after a failed parse rejects; never empty |
| AdminDashboard.NullBodyReportsNull | React/src/components/AdmindashboardComponent.jsx:228 | a JSON null error body is reported as "null" |
| AdminDashboard.CallApi | React/src/components/AdmindashboardComponent.jsx:142-250 | the whole of `callApi`: reply, whether a request went out, whether logout was asked for; stated by `AdminDashboard.MissingTokenRejects`, `AdminDashboard.LogoutIff` and `AdminDashboard.SuccessIff` |
| AdminDashboard.MissingTokenRejects | React/src/components/AdmindashboardComponent.jsx:146-153 | the call rejects iff there is no token, then without a request and with logout; otherwise it resolves |
| AdminDashboard.LogoutIff | React/src/components/AdmindashboardComponent.jsx:146-181 | logout is asked for iff the token is missing or the server answered 401 or 403 |
| AdminDashboard.SuccessIff | React/src/components/AdmindashboardComponent.jsx:174-248 | success iff a 204, or a 2xx status with a JSON body, which is then the data; every failure has a message |
| AdminDashboard.CountStatus | React/src/components/AdmindashboardComponent.jsx:715-717 | the count is at most the number of reviews (see `AdminDashboard.CountIsMultiplicity`) |
| AdminDashboard.CountIsMultiplicity | React/src/components/AdmindashboardComponent.jsx:715-717 | the count of a status is its multiplicity among the decoded statuses of the reviews, which is the length of the filtered list |
| AdminDashboard.CountsPartition | React/src/components/AdmindashboardComponent.jsx:715-717 | the four status counts add up to the number of reviews, so pending plus approved is at most the total |
| AdminDashboard.CountText | React/src/components/AdmindashboardComponent.jsx:713-717 | "..." while loading, "N/A" after an error, else the number |
| AdminDashboard.ReviewActions | React/src/components/AdmindashboardComponent.jsx:899-915 | Approve iff the status is not Approved; Reject iff it is not Rejected; Delete always, last |
| AdminDashboard.ModerationButtons | React/src/components/AdmindashboardComponent.jsx:899-915 | Delete and one of Approve or Reject are always offered; once the status a button sends is applied, that button is gone |
| AdminDashboard.RenderSection | React/src/components/AdmindashboardComponent.jsx:696-706 | the detail view iff a recipe is viewed, loading or failed; otherwise the active section |
| AdminDashboard.MountAction | React/src/components/AdmindashboardComponent.jsx:516-527 | the data loads iff a token is stored, else the login page opens |
| AdminDashboard.MountComparedWithGuard | React/src/components/AdmindashboardComponent.jsx:516-527 | the mount loads whenever the guard renders, goes to login exactly when the guard does, and loads for a wrong role too |
| AdminDashboard.Dashboard.HandleNavClick | React/src/components/AdmindashboardComponent.jsx:128-139 | the viewed recipe and its error are cleared and the section set; the detail view then shows iff a detail load is running |
| AdminDashboard.Dashboard.BeginViewRecipe | React/src/components/AdmindashboardComponent.jsx:364-376 | nothing for a falsy id; otherwise a loading detail view over the recipes section |
| AdminDashboard.Dashboard.FinishViewRecipe | React/src/components/AdmindashboardComponent.jsx:378-406 | the recipe on success with data; else the error from the rejection, the result or the fallback; loading ends |
| AdminDashboard.Dashboard.HandleCloseRecipeView | React/src/components/AdmindashboardComponent.jsx:410-418 | the viewed recipe and its error are cleared; the section is kept |
| AdminDashboard.Dashboard.HandleDeleteRecipe | React/src/components/AdmindashboardComponent.jsx:421-447 | a request iff confirmed and `callApi` did not reject for want of a token; the alert of each outcome, none for a rejection; deleting the viewed recipe closes its view |
| AdminDashboard.UpdateReviewStatus | React/src/components/AdmindashboardComponent.jsx:450-489 | the status number is sent iff confirmed and `callApi` did not reject; the alert names the lowered status or the error, and comes exactly when a request went out |
| AdminDashboard.DeleteReview | React/src/components/AdmindashboardComponent.jsx:492-513 | a request iff confirmed and `callApi` did not reject; the success or failure alert, exactly when a request went out |
| AdminDashboard.ModerationRequestsMatchCallApi | React/src/components/AdmindashboardComponent.jsx:146-153 | fed the reply of `callApi`, both moderation handlers report a request exactly when confirmed and `callApi` sent one |
| AdminDashboard.ModerationWords | React/src/components/AdmindashboardComponent.jsx:452 | the Approve button announces "approved" and the Reject button "rejected" |

## Left out

- Network and browser I/O: `fetch`, `localStorage`, `alert`, `window.confirm`, `navigate` and `window.scrollTo` are inputs and outputs of the model, not effects.
- The fetchers that load lists and details: the dashboards' `fetch…` functions only store what the API returns, or an error. Their results are the state fields the handlers read. Two are modelled where a handler awaits them: the chef `fetchChefDetails` (`ChefDashboard.Dashboard.FetchChefDetails`) and the food lover `fetchUserDetails`, whose outcome is the `UserFetch` input of `FoodLover.Dashboard.UpdateProfile`.
- ChefDashboard.Dashboard.FetchChefDetails: it reads the form's name and the section from the state when it runs; the source reads them from the render that created the callback, which can be older.
- Timing and concurrency: the `setInterval` polling timer and the `Promise.allSettled` fan-out. Only the polling condition (`ChefDashboard.ShouldPoll`) and the refresh interval constant are modelled.
- Rendering: JSX markup, CSS classes, image `onError` fallbacks, `toFixed`, `toLocaleString` and the `encodeURIComponent` share links.
- Floating point: ratings are Dafny reals. `Math.round` is floor(x + 0.5) and `%` truncates, but IEEE rounding, NaN and infinities are not modelled.
- Unicode: `toLowerCase` is modelled on ASCII letters only. The strings it is compared with are ASCII.
- The router: paths are matched by exact segments. Case-insensitive matching and trailing slashes are not modelled.
- JSON: response bodies are abstract values. The `errors` field of a body and its serialisation are kept as given strings, and JSON escaping is not modelled.
- File uploads: `FormData` files and the profile image upload are represented by a file name. The input-change handlers that only copy an input value into the form are not modelled.
- Identifiers are natural numbers, with 0 absent. String ids and other non-numeric ids are not modelled.
- The admin default section ("Invalid section selected.") is not modelled: `handleNavClick` is only called with the three sections it handles.
- The welcome and profile texts are not modelled. These are the admin and food lover welcome names and the chef profile card text.
- The static content pages, the navigation bars, the thin fetch-and-render components (ChefProfile.jsx, MyRecipes.jsx, ChefRecipeComponent.jsx, getprofile.js) and setupProxy.js are not part of this model.
- Server-side rules are not part of this model, because the backend code is not at hand. Examples are average ratings, the status a new review has, and which reviews are public.
- ChefDashboard.Dashboard.HandleNavClickUnified: the chef details fetch it starts, and the async persistence of its effects, are a returned flag, not a call.
- Logout: the handlers' `handleLogout` is a returned flag. The storage it clears and the navigation it makes are not modelled.
