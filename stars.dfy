/** The five-star rows the dashboards draw. A row is five flags, star 1
    first; `true` is a filled star. */
module Stars {
  import opened Text

  /** The row whose star k (counting from 1) is filled iff k <= threshold. */
  function Row(n: nat, threshold: int): (r: seq<bool>)
    ensures |r| == n
    ensures forall i :: 0 <= i < n ==> r[i] == (i + 1 <= threshold)
  {
    seq(n, i requires 0 <= i < n => i + 1 <= threshold)
  }

  function CountFilled(s: seq<bool>): nat {
    if s == [] then 0 else (if s[|s| - 1] then 1 else 0) + CountFilled(s[..|s| - 1])
  }

  function Clamp(x: int, lo: int, hi: int): int
    requires lo <= hi
  {
    if x < lo then lo else if x > hi then hi else x
  }

  /** An n-star row has exactly threshold filled stars, clamped to 0..n. */
  lemma {:induction false} RowCount(n: nat, threshold: int)
    ensures CountFilled(Row(n, threshold)) == Clamp(threshold, 0, n)
  {
    if n > 0 {
      RowCount(n - 1, threshold);
      assert Row(n, threshold)[..n - 1] == Row(n - 1, threshold);
    }
  }

  /** JavaScript `Math.round` on a real: the nearest integer, halves
      rounded up. */
  function Round(x: real): (r: int)
    ensures r as real - 0.5 <= x < r as real + 0.5
  {
    (x + 0.5).Floor
  }

  /** `Math.round(rating || 0)`: a missing rating counts as zero. */
  function RoundedRating(rating: Option<real>): int {
    match rating
    case None => 0
    case Some(x) => Round(x)
  }

  /** `renderStars` of the admin and chef dashboards: five stars, star i
      filled iff i <= Math.round(rating || 0). */
  method RenderStars(rating: Option<real>) returns (stars: seq<bool>)
    ensures |stars| == 5
    ensures forall i :: 0 <= i < 5 ==> stars[i] == (i + 1 <= RoundedRating(rating))
    ensures stars == Row(5, RoundedRating(rating))
  {
    var rounded := RoundedRating(rating);
    stars := [];
    var i := 1;
    while i <= 5
      invariant 1 <= i <= 6
      invariant |stars| == i - 1
      invariant forall k :: 0 <= k < i - 1 ==> stars[k] == (k + 1 <= rounded)
    {
      stars := stars + [i <= rounded];
      i := i + 1;
    }
  }

  /** `renderStarsDisplay` of the home page and the food lover dashboard:
      five stars, star i filled iff i <= rating. */
  method RenderStarsDisplay(rating: int) returns (stars: seq<bool>)
    ensures |stars| == 5
    ensures forall i :: 0 <= i < 5 ==> stars[i] == (i + 1 <= rating)
    ensures stars == Row(5, rating)
  {
    stars := [];
    var i := 1;
    while i <= 5
      invariant 1 <= i <= 6
      invariant |stars| == i - 1
      invariant forall k :: 0 <= k < i - 1 ==> stars[k] == (k + 1 <= rating)
    {
      stars := stars + [i <= rating];
      i := i + 1;
    }
  }

  /** The rating a `StarRatingInput` fills up to: `hoverRating || rating`. */
  function ShownRating(hover: int, rating: int): int {
    if hover != 0 then hover else rating
  }

  /** `StarRatingInput`: star s (1..5) is filled iff (hoverRating || rating) >= s. */
  function InputRow(hover: int, rating: int): (r: seq<bool>)
    ensures |r| == 5
    ensures hover != 0 ==> forall i :: 0 <= i < 5 ==> r[i] == (hover >= i + 1)
    ensures hover == 0 ==> forall i :: 0 <= i < 5 ==> r[i] == (rating >= i + 1)
  {
    Row(5, ShownRating(hover, rating))
  }

  /** While hovering, the selected rating does not influence the row;
      without hover, the row is the display row of the selected rating. */
  lemma HoverOverrides(hover: int, rating1: int, rating2: int)
    ensures hover != 0 ==> InputRow(hover, rating1) == InputRow(hover, rating2)
    ensures InputRow(0, rating1) == Row(5, rating1)
  {
  }

  /** A rating of 1..5 (what clicking star s selects) fills exactly that
      many stars, in the display row and the input row alike. */
  lemma SelectedRatingFills(s: int)
    requires 1 <= s <= 5
    ensures CountFilled(InputRow(0, s)) == s
    ensures CountFilled(Row(5, s)) == s
  {
    RowCount(5, s);
  }

  /** The admin row fills as many stars as the rounded rating, clamped to 0..5. */
  lemma RenderStarsCount(rating: Option<real>)
    ensures CountFilled(Row(5, RoundedRating(rating))) == Clamp(RoundedRating(rating), 0, 5)
    ensures rating.Some? && 0.0 <= rating.value <= 5.0 ==>
      CountFilled(Row(5, RoundedRating(rating))) == RoundedRating(rating)
  {
    RowCount(5, RoundedRating(rating));
  }
}
