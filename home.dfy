/** The public review form of the home page: `handleReviewSubmit`
    validates the text and rating, posts the review, and shows either a
    success message (clearing the form) or an error taken from the
    response. */
module Home {
  import opened Text
  import Http

  const EmptyText := "Review text cannot be empty."
  const BadLength := "Review must be between 5 and 1000 characters."
  const BadRating := "Please select a rating between 1 and 5."
  const SuccessText := "Review submitted successfully! It will appear after approval."
  const DefaultError := "Failed to submit review."
  const NetworkText := "An network error occurred while submitting the review."

  /** The first validation failure, in the order the checks run, or None
      when the review may be sent. Lengths are JavaScript lengths of the
      untrimmed text. */
  function Validate(text: string, rating: int): Option<string> {
    if Trim(text) == "" then Some(EmptyText)
    else if JsLength(text) < 5 || JsLength(text) > 1000 then Some(BadLength)
    else if rating < 1 || rating > 5 then Some(BadRating)
    else None
  }

  /** A review passes exactly when its trimmed text is non-empty, its length
      is 5..1000 and its rating 1..5; a failure names the first rule broken. */
  lemma ValidateRules(text: string, rating: int)
    ensures var e := Validate(text, rating);
      (e == None <==> Trim(text) != "" && 5 <= JsLength(text) <= 1000 && 1 <= rating <= 5) &&
      (Trim(text) == "" ==> e == Some(EmptyText)) &&
      (Trim(text) != "" && (JsLength(text) < 5 || JsLength(text) > 1000) ==> e == Some(BadLength)) &&
      (Trim(text) != "" && 5 <= JsLength(text) <= 1000 && (rating < 1 || rating > 5) ==> e == Some(BadRating))
  {
  }

  /** What reading the body of a failed response gives: a JSON body, a JSON
      body that fails to parse, a text body, or a text read that fails. */
  datatype ErrorBody = JsonBody(json: Http.Json) | JsonUnparsable | TextBody(text: string) | TextUnreadable

  /** A response (`statusText` is "" when empty) or a thrown fetch. */
  datatype Response = Thrown | Received(status: nat, statusText: string, body: ErrorBody)

  /** The message extracted from a failed response. A JSON null makes
      reading `errors` throw, which falls back like a parse failure. */
  function ErrorMessage(statusText: string, body: ErrorBody): (m: string)
    ensures body.JsonBody? && body.json.JObject? && body.json.errors.Some? ==>
      m == Join(Flatten(body.json.errors.value.values), " ")
    ensures body.JsonBody? && body.json.JObject? && body.json.errors.None? ==>
      m == (if body.json.message != "" then body.json.message
            else if body.json.title != "" then body.json.title else DefaultError)
    ensures body.JsonBody? && (body.json.JString? || body.json.JScalar?) ==> m == DefaultError
    ensures body.TextBody? ==> m == Or(body.text, Or(statusText, DefaultError))
    ensures body.JsonUnparsable? || body.TextUnreadable? || body == JsonBody(Http.JNull) ==>
      m == Or(statusText, DefaultError)
  {
    match body
    case JsonBody(j) =>
      if j.JNull? then Or(statusText, DefaultError)
      else if j.JObject? && j.errors.Some? then Join(Flatten(j.errors.value.values), " ")
      else Or(Http.Message(j), Or(Http.Title(j), DefaultError))
    case JsonUnparsable => Or(statusText, DefaultError)
    case TextBody(t) => Or(t, Or(statusText, DefaultError))
    case TextUnreadable => Or(statusText, DefaultError)
  }

  /** The review sent to the server. */
  datatype ReviewDto = ReviewDto(reviewText: string, ratingValue: int)

  /** The form's state: the text, the selected rating and the message shown
      (`kind` is "", "success" or "error"). */
  datatype State = State(text: string, rating: int, kind: string, message: string)

  /** The request `handleReviewSubmit` sends and the state it leaves. */
  function Submit(s: State, r: Response): (Option<ReviewDto>, State) {
    SubmitWith(s, Validate(s.text, s.rating), r)
  }

  /** The submission on form state `s` once validation has given `v`. */
  function SubmitWith(s: State, v: Option<string>, r: Response): (Option<ReviewDto>, State) {
    match v
    case Some(e) => (None, s.(kind := "error", message := e))
    case None =>
      var dto := Some(ReviewDto(s.text, s.rating));
      match r
      case Thrown => (dto, s.(kind := "error", message := NetworkText))
      case Received(status, statusText, body) =>
        if Http.Ok(status) || status == 201 then (dto, State("", 0, "success", SuccessText))
        else (dto, s.(kind := "error", message := "Error: " + ErrorMessage(statusText, body)))
  }

  /** A request goes out exactly when validation passes, and it carries the
      text and rating as they were. */
  lemma {:induction false} RequestIffValid(s: State, r: Response)
    ensures Submit(s, r).0.Some? <==> Validate(s.text, s.rating).None?
    ensures Submit(s, r).0.Some? ==> Submit(s, r).0.value == ReviewDto(s.text, s.rating)
    ensures Validate(s.text, s.rating).Some? ==>
      Submit(s, r).1 == s.(kind := "error", message := Validate(s.text, s.rating).value)
  {
    var v := Validate(s.text, s.rating);
    assert Submit(s, r) == SubmitWith(s, v, r);
    match v {
      case Some(e) =>
        assert SubmitWith(s, v, r) == (None, s.(kind := "error", message := e));
      case None =>
        var dto := Some(ReviewDto(s.text, s.rating));
        match r {
          case Thrown =>
            assert SubmitWith(s, v, r).0 == dto;
          case Received(status, statusText, body) =>
            assert SubmitWith(s, v, r).0 == dto;
        }
    }
  }


  /** Only a successful response clears the text and the rating; every
      other outcome keeps what the user entered. */
  lemma {:induction false} ResetOnlyOnSuccess(s: State, r: Response)
    ensures var after := Submit(s, r).1;
      (after.kind == "success" <==>
        Validate(s.text, s.rating).None? && r.Received? && Http.Ok(r.status)) &&
      (after.kind == "success" ==> after.text == "" && after.rating == 0 && after.message == SuccessText) &&
      (after.kind != "success" ==> after.text == s.text && after.rating == s.rating && after.kind == "error")
  {
    var v := Validate(s.text, s.rating);
    assert Submit(s, r) == SubmitWith(s, v, r);
    match v {
      case Some(e) =>
      case None =>
        match r {
          case Thrown =>
          case Received(status, statusText, body) =>
            if !Http.Ok(status) {
              assert status != 201;
            }
        }
    }
  }

  /** A text of white space only is reported as empty whatever its length
      or the rating: the empty check runs first. */
  lemma BlankBeforeLength(text: string, rating: int)
    requires |text| >= 1001 && AllSpace(text)
    ensures Validate(text, rating) == Some(EmptyText)
  {
    TrimEmptyIff(text);
  }

  /** A failed response's message starts with "Error: ". */
  lemma FailureIsPrefixed(s: State, status: nat, statusText: string, body: ErrorBody)
    requires Validate(s.text, s.rating).None? && !Http.Ok(status)
    ensures StartsWith(Submit(s, Received(status, statusText, body)).1.message, "Error: ")
  {
    var r := Received(status, statusText, body);
    var m := "Error: " + ErrorMessage(statusText, body);
    assert Submit(s, r) == SubmitWith(s, None, r);
    assert SubmitWith(s, None, r).1.message == m;
    assert m[..7] == "Error: ";
  }

  /** The home page's review form. */
  class ReviewForm {
    var reviewText: string
    var ratingValue: int
    var messageKind: string
    var messageText: string
    var isSubmitting: bool

    constructor ()
      ensures reviewText == "" && ratingValue == 0 && messageKind == "" && messageText == "" && !isSubmitting
    {
      reviewText := "";
      ratingValue := 0;
      messageKind := "";
      messageText := "";
      isSubmitting := false;
    }

    function Snapshot(): State
      reads this
    {
      State(reviewText, ratingValue, messageKind, messageText)
    }

    /** Clicking star s of the rating input selects rating s. */
    method SetRating(s: int)
      requires 1 <= s <= 5
      modifies this
      ensures ratingValue == s
      ensures reviewText == old(reviewText) && messageKind == old(messageKind) && messageText == old(messageText)
      ensures isSubmitting == old(isSubmitting)
    {
      ratingValue := s;
    }

    /** `handleReviewSubmit` given what the request would produce. */
    method HandleReviewSubmit(r: Response) returns (request: Option<ReviewDto>)
      modifies this
      ensures var (req, after) := Submit(old(Snapshot()), r);
        request == req && reviewText == after.text && ratingValue == after.rating &&
        messageKind == after.kind && messageText == after.message
      ensures isSubmitting == (if request.Some? then false else old(isSubmitting))
    {
      ghost var s0 := Snapshot();
      messageKind := "";
      messageText := "";
      assert reviewText == s0.text && ratingValue == s0.rating;
      var e := Validate(reviewText, ratingValue);
      assert Submit(s0, r) == SubmitWith(s0, e, r);
      if e.Some? {
        messageKind := "error";
        messageText := e.value;
        request := None;
        assert SubmitWith(s0, e, r) == (None, s0.(kind := "error", message := e.value));
        return;
      }
      isSubmitting := true;
      request := Some(ReviewDto(reviewText, ratingValue));
      match r {
        case Thrown =>
          messageKind := "error";
          messageText := NetworkText;
          assert SubmitWith(s0, e, r) == (request, s0.(kind := "error", message := NetworkText));
        case Received(status, statusText, body) =>
          if Http.Ok(status) || status == 201 {
            messageKind := "success";
            messageText := SuccessText;
            reviewText := "";
            ratingValue := 0;
            assert SubmitWith(s0, e, r) == (request, State("", 0, "success", SuccessText));
          } else {
            messageKind := "error";
            messageText := "Error: " + ErrorMessage(statusText, body);
            assert SubmitWith(s0, e, r) == (request, s0.(kind := "error", message := messageText));
          }
      }
      isSubmitting := false;
    }
  }
}
