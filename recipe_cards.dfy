/** The public recipe listing: the star string a card draws for its
    average rating, the category search box and the card image source. */
module RecipeCards {
  import opened Text
  import Stars
  import Routes
  import Http

  const FullStar: char := '\U{2B50}'
  const EmptyStar: char := '\U{2606}'

  /** n copies of c; none when n is not positive, as a counting loop does. */
  function Repeat(c: char, n: int): (r: string)
    ensures |r| == if n > 0 then n else 0
    ensures forall i :: 0 <= i < |r| ==> r[i] == c
  {
    if n <= 0 then [] else Repeat(c, n - 1) + [c]
  }

  /** JavaScript `x % 1`: the remainder of truncating division, which
      carries the sign of x. */
  function Mod1(x: real): (f: real)
    ensures x >= 0.0 ==> 0.0 <= f < 1.0
    ensures x < 0.0 ==> -1.0 < f <= 0.0
  {
    if x >= 0.0 then x - x.Floor as real else x + (-x).Floor as real
  }

  /** `Math.floor(rating)`. */
  function FullCount(rating: real): int {
    rating.Floor
  }

  /** `rating % 1 >= 0.5`: the half star, drawn as a full one. */
  predicate HasHalf(rating: real) {
    Mod1(rating) >= 0.5
  }

  /** `5 - fullStars - (halfStar ? 1 : 0)`. */
  function EmptyCount(rating: real): int {
    5 - FullCount(rating) - (if HasHalf(rating) then 1 else 0)
  }

  /** What the three loops build before the fallback is applied. */
  function RawStars(rating: real): string {
    Repeat(FullStar, FullCount(rating)) + (if HasHalf(rating) then [FullStar] else []) + Repeat(EmptyStar, EmptyCount(rating))
  }

  /** The whole of `renderStars`: the built string, or five empty stars
      when it is empty. */
  function StarString(rating: real): string {
    var raw := RawStars(rating);
    if raw == "" then Repeat(EmptyStar, 5) else raw
  }

  /** `renderStars`: two counting loops and a conditional append. */
  method RenderStars(rating: real) returns (stars: string)
    ensures stars == StarString(rating)
  {
    var full := rating.Floor;
    var half := Mod1(rating) >= 0.5;
    var empty := 5 - full - (if half then 1 else 0);
    stars := "";
    var i := 0;
    while i < full
      invariant 0 <= i <= (if full > 0 then full else 0)
      invariant stars == Repeat(FullStar, i)
    {
      stars := stars + [FullStar];
      i := i + 1;
    }
    assert stars == Repeat(FullStar, full);
    if half {
      stars := stars + [FullStar];
    }
    var prefix := stars;
    i := 0;
    while i < empty
      invariant 0 <= i <= (if empty > 0 then empty else 0)
      invariant stars == prefix + Repeat(EmptyStar, i)
    {
      stars := stars + [EmptyStar];
      i := i + 1;
    }
    assert stars == RawStars(rating);
    if stars == "" {
      stars := Repeat(EmptyStar, 5);
    }
  }

  /** The built string is never empty for any rating, so the five-empty
      fallback is never taken. */
  lemma RawNeverEmpty(rating: real)
    ensures RawStars(rating) != ""
    ensures StarString(rating) == RawStars(rating)
  {
    if FullCount(rating) <= 0 {
      assert EmptyCount(rating) >= 4;
      assert |Repeat(EmptyStar, EmptyCount(rating))| >= 4;
    }
  }

  /** For a half-up rounding of a non-negative rating, the full-star loop
      and the half star together draw `Math.round(rating)` stars, the
      same count the dashboards fill. */
  lemma FilledIsRounded(rating: real)
    requires rating >= 0.0
    ensures FullCount(rating) + (if HasHalf(rating) then 1 else 0) == Stars.Round(rating)
  {
    var f := rating.Floor;
    if Mod1(rating) >= 0.5 {
      assert f as real + 1.0 <= rating + 0.5 < f as real + 2.0;
    } else {
      assert f as real <= rating + 0.5 < f as real + 1.0;
    }
  }

  /** A rating from 0 to 5 draws exactly five symbols: `Math.round(rating)`
      filled stars followed by the remaining empty ones. */
  lemma {:induction false} FiveSymbolsInRange(rating: real)
    requires 0.0 <= rating <= 5.0
    ensures var k := Stars.Round(rating);
      0 <= k <= 5 && StarString(rating) == Repeat(FullStar, k) + Repeat(EmptyStar, 5 - k)
    ensures |StarString(rating)| == 5
  {
    FilledIsRounded(rating);
    RawNeverEmpty(rating);
    var k := Stars.Round(rating);
    var full := FullCount(rating);
    if HasHalf(rating) {
      RepeatSnoc(FullStar, full);
      assert Repeat(FullStar, full) + [FullStar] == Repeat(FullStar, k);
    } else {
      assert Repeat(FullStar, full) + [] == Repeat(FullStar, k);
    }
  }

  lemma RepeatSnoc(c: char, n: int)
    requires n >= 0
    ensures Repeat(c, n) + [c] == Repeat(c, n + 1)
  {
  }

  /** A rating of zero draws five empty stars. */
  lemma ZeroIsFiveEmpty()
    ensures StarString(0.0) == Repeat(EmptyStar, 5)
  {
    FiveSymbolsInRange(0.0);
    assert Stars.Round(0.0) == 0;
  }

  /** The category route the search box navigates to for a search term. */
  function SearchTarget(term: string): (r: Option<string>)
    ensures var input := Trim(Lower(term));
      (r == Some("/fastfood") <==> input == "fastfood" || input == "fast food") &&
      (r == Some("/dessert") <==> input == "dessert" || input == "desserts") &&
      (r == Some("/maindishes") <==> input == "main dish" || input == "maindish" || input == "main dishes") &&
      (r.Some? ==> r.value in {"/fastfood", "/dessert", "/maindishes"})
  {
    var input := Trim(Lower(term));
    if input == "fastfood" || input == "fast food" then Some("/fastfood")
    else if input == "dessert" || input == "desserts" then Some("/dessert")
    else if input == "main dish" || input == "maindish" || input == "main dishes" then Some("/maindishes")
    else None
  }

  const NotFoundAlert := "Category navigation not found. Try: fastfood, dessert, or main dish."

  /** Letter case and surrounding white space do not change where a search
      leads. */
  lemma SearchIgnoresCaseAndSpace(term: string)
    ensures SearchTarget(Lower(term)) == SearchTarget(term)
    ensures SearchTarget(Trim(term)) == SearchTarget(term)
  {
    LowerIdempotent(term);
    LowerTrim(term);
    TrimIdempotent(Lower(term));
  }

  /** Every page a search can lead to is a public route of the table. */
  lemma SearchTargetsPublic(term: string)
    requires SearchTarget(term).Some?
    ensures Routes.IsPublic(SearchTarget(term).value)
  {
    Routes.FastFoodPublic();
    Routes.DessertPublic();
    Routes.MainDishesPublic();
  }

  /** `handleReadMore` navigates to "/recipe/" followed by the id. */
  function ReadMoreTarget(recipeId: string): string {
    "/recipe/" + recipeId
  }

  /** No declared route has the pattern "/recipe/:id", so the page a
      card's read-more button leads to renders nothing. */
  lemma ReadMoreMatchesNoRoute(recipeId: string)
    requires recipeId != "" && '/' !in recipeId
    ensures Routes.GuardOf(ReadMoreTarget(recipeId)).None?
  {
    assert ReadMoreTarget(recipeId) == "/" + "recipe" + "/" + recipeId;
    Routes.TwoSegments("recipe", recipeId);
    var segments := ["recipe", recipeId];
    forall i | 0 <= i < |Routes.Table|
      ensures !Routes.Matches(Routes.Table[i].pattern, segments)
    {
      if |Routes.Table[i].pattern| == 2 {
        assert i == 10;
        assert !Routes.SegmentMatches(Routes.Table[i].pattern[0], segments[0]);
      }
    }
  }

  /** The card image source: a path starting with '/' is served by the API,
      any other value (a full URL, or a missing one) is used as it is. */
  function ImageSrc(url: Option<string>): (r: Option<string>)
    ensures url.Some? && StartsWith(url.value, "/") ==>
      r.Some? && StartsWith(r.value, Http.ApiBase) && r.value[|Http.ApiBase|..] == url.value
    ensures !(url.Some? && StartsWith(url.value, "/")) ==> r == url
  {
    if url.Some? && StartsWith(url.value, "/") then Some(Http.ApiBase + url.value) else url
  }

  /** The listing's search box. */
  class RecipeListing {
    var searchTerm: string

    constructor ()
      ensures searchTerm == ""
    {
      searchTerm := "";
    }

    /** Typing replaces the term. */
    method HandleInput(value: string)
      modifies this
      ensures searchTerm == value
    {
      searchTerm := value;
    }

    /** `handleSearch` for a key press: other keys do nothing; Enter
        navigates to the matching category or alerts, then clears the term. */
    method HandleSearch(key: string) returns (navigated: Option<string>, alert: Option<string>)
      modifies this
      ensures key != "Enter" ==> navigated.None? && alert.None? && searchTerm == old(searchTerm)
      ensures key == "Enter" ==> navigated == SearchTarget(old(searchTerm)) && searchTerm == ""
      ensures key == "Enter" ==> (alert.Some? <==> navigated.None?)
      ensures alert.Some? ==> alert.value == NotFoundAlert
    {
      navigated := None;
      alert := None;
      if key == "Enter" {
        var input := Trim(Lower(searchTerm));
        if input == "fastfood" || input == "fast food" {
          navigated := Some("/fastfood");
        } else if input == "dessert" || input == "desserts" {
          navigated := Some("/dessert");
        } else if input == "main dish" || input == "maindish" || input == "main dishes" {
          navigated := Some("/maindishes");
        } else {
          alert := Some(NotFoundAlert);
        }
        searchTerm := "";
      }
    }
  }
}
