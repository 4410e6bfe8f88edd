/** The review form of src/modules/reviews/ReviewForm.tsx: the star picker, and the
    guards of `handleSubmit` that decide whether a review is posted at all. */
module Reviews {
  import opened Types
  import opened Text

  /** The POST the form sends: its path, verb and JSON body fields. */
  datatype ReviewRequest = ReviewRequest(path: string, verb: string, mealId: string, rating: int, comment: string)

  /** The answer to the POST: a throw (network or JSON), or a body. */
  datatype SubmitResponse = Threw | Json(success: bool, message: Option<string>)

  datatype Notice = Success(text: string) | Error(text: string)

  const StarCount: int := 5

  /** The path the review is posted to, and the toasts of the form. */
  const ReviewsPath: string := "/api/reviews"
  const NoRating: string := "Please select a rating"
  const NoComment: string := "Please write a review"
  const NoToken: string := "Please login to submit a review"
  const Submitted: string := "Review submitted successfully!"
  const SubmitFailed: string := "Failed to submit review"

  /** The message of the first guard that stops the submit, if any: no rating, a blank
      comment, no token, in that order. */
  function Rejection(rating: int, comment: string, token: Option<string>): (m: Option<string>)
    ensures m.None? <==> rating != 0 && !Blank(comment) && token.Some? && token.value != ""
    ensures rating == 0 ==> m == Some(NoRating)
    ensures rating != 0 && Blank(comment) ==> m == Some(NoComment)
    ensures rating != 0 && !Blank(comment) && (token.None? || token.value == "") ==>
      m == Some(NoToken)
  {
    TrimEmptyIffBlank(comment);
    if rating == 0 then Some(NoRating)
    else if Trim(comment) == [] then Some(NoComment)
    else if token.None? || token.value == "" then Some(NoToken)
    else None
  }

  /** The two guards that return before `submitting` is set. */
  predicate StopsEarly(rating: int, comment: string)
  {
    rating == 0 || Trim(comment) == []
  }

  /** The toast for the server's answer. */
  function ResponseNotice(r: SubmitResponse): (n: Notice)
    ensures n.Success? <==> r.Json? && r.success
    ensures r.Json? && !r.success && r.message.Some? && r.message.value != "" ==> n == Error(r.message.value)
  {
    match r
    case Threw => Error(SubmitFailed)
    case Json(ok, m) =>
      if ok then Success(Submitted)
      else if m.Some? && m.value != "" then Error(m.value)
      else Error(SubmitFailed)
  }

  /** The star-fill rule: a star is lit up to the hovered star, or to the rating when
      nothing is hovered. */
  predicate StarFilled(star: int, hoverRating: int, rating: int)
  {
    star <= Shown(hoverRating, rating)
  }

  /** `hoverRating || rating`. */
  function Shown(hoverRating: int, rating: int): int
  {
    if hoverRating != 0 then hoverRating else rating
  }

  /** How many of stars 1..k are lit when the shown value is `shown`. */
  function LitStars(k: nat, shown: int): nat
  {
    if k == 0 then 0 else LitStars(k - 1, shown) + (if k <= shown then 1 else 0)
  }

  /** The lit stars among 1..k are the first `shown` of them, clamped to 0..k. */
  lemma {:induction false} LitStarsClamp(k: nat, shown: int)
    ensures LitStars(k, shown) == if shown < 0 then 0 else if shown > k then k else shown
  {
    if k > 0 {
      LitStarsClamp(k - 1, shown);
    }
  }

  /** With no star hovered exactly `rating` of the five stars are lit; while one is
      hovered, exactly the stars up to it are, whatever the rating. */
  lemma LitStarsShown(hoverRating: int, rating: int)
    requires 0 <= hoverRating <= StarCount && 0 <= rating <= StarCount
    ensures hoverRating == 0 ==> LitStars(StarCount as nat, Shown(hoverRating, rating)) == rating
    ensures hoverRating != 0 ==> LitStars(StarCount as nat, Shown(hoverRating, rating)) == hoverRating
  {
    LitStarsClamp(StarCount as nat, Shown(hoverRating, rating));
  }

  /** A star of the five is drawn filled exactly when it is among the lit ones. */
  lemma StarFilledIffLit(star: int, hoverRating: int, rating: int)
    requires 1 <= star <= StarCount
    requires 0 <= hoverRating <= StarCount && 0 <= rating <= StarCount
    ensures StarFilled(star, hoverRating, rating) <==> star <= LitStars(StarCount as nat, Shown(hoverRating, rating))
  {
    LitStarsClamp(StarCount as nat, Shown(hoverRating, rating));
  }

  /** The caption under the stars. */
  function RatingCaption(rating: int): (caption: string)
    ensures rating > 0 ==> caption == IntToString(rating) + " out of 5 stars"
    ensures rating <= 0 ==> caption == "Click to rate"
  {
    if rating > 0 then IntToString(rating) + " out of 5 stars" else "Click to rate"
  }

  class ReviewForm {
    const mealId: string
    var rating: int
    var hoverRating: int
    var comment: string
    var submitting: bool

    /** The rating and the hovered star are 0 (none) or one of the five stars. */
    predicate Valid()
      reads this
    {
      0 <= rating <= StarCount && 0 <= hoverRating <= StarCount
    }

    constructor (mealId: string)
      ensures Valid()
      ensures this.mealId == mealId && rating == 0 && hoverRating == 0 && comment == "" && !submitting
    {
      this.mealId := mealId;
      rating := 0;
      hoverRating := 0;
      comment := "";
      submitting := false;
    }

    /** A click on one of the five stars. */
    method ClickStar(star: int)
      requires Valid() && 1 <= star <= StarCount
      modifies this`rating
      ensures Valid() && rating == star
    {
      rating := star;
    }

    method EnterStar(star: int)
      requires Valid() && 1 <= star <= StarCount
      modifies this`hoverRating
      ensures Valid() && hoverRating == star
    {
      hoverRating := star;
    }

    method LeaveStar()
      requires Valid()
      modifies this`hoverRating
      ensures Valid() && hoverRating == 0
    {
      hoverRating := 0;
    }

    method SetComment(c: string)
      modifies this`comment
      ensures comment == c
    {
      comment := c;
    }

    /** `handleSubmit`: the two guards that return at once, then `Send`. The stored
        token and the server's answer are parameters; `succeeded` says `onSuccess` was
        called. */
    method HandleSubmit(token: Option<string>, response: SubmitResponse)
      returns (request: Option<ReviewRequest>, notice: Notice, succeeded: bool)
      requires Valid()
      modifies this`rating, this`comment, this`submitting
      ensures Valid()
      ensures var m := Rejection(old(rating), old(comment), token);
        && request == (if m.None? then Some(ReviewRequest(ReviewsPath, "POST", mealId, old(rating), old(comment))) else None)
        && notice == (if m.Some? then Error(m.value) else ResponseNotice(response))
        && succeeded == (m.None? && response.Json? && response.success)
      ensures submitting == if StopsEarly(old(rating), old(comment)) then old(submitting) else false
      ensures rating == (if succeeded then 0 else old(rating))
      ensures comment == (if succeeded then "" else old(comment))
    {
      if rating == 0 {
        return None, Error(NoRating), false;
      }
      TrimEmptyIffBlank(comment);
      if Trim(comment) == [] {
        return None, Error(NoComment), false;
      }
      request, notice, succeeded := Send(token, response);
    }

    /** The `try`/`finally` of `handleSubmit`, entered with `submitting` set: no token
        stops it with a toast; otherwise the POST with the untrimmed comment, the reset
        on success, and `submitting` ended on every path. */
    method Send(token: Option<string>, response: SubmitResponse)
      returns (request: Option<ReviewRequest>, notice: Notice, succeeded: bool)
      requires Valid()
      modifies this`rating, this`comment, this`submitting
      ensures Valid() && !submitting
      ensures token.None? || token.value == "" ==> request.None? && notice == Error(NoToken) && !succeeded
      ensures token.Some? && token.value != "" ==>
        && request == Some(ReviewRequest(ReviewsPath, "POST", mealId, old(rating), old(comment)))
        && notice == ResponseNotice(response)
        && succeeded == (response.Json? && response.success)
      ensures rating == (if succeeded then 0 else old(rating))
      ensures comment == (if succeeded then "" else old(comment))
    {
      submitting := true;
      request, succeeded := None, false;
      if token.None? || token.value == "" {
        notice := Error(NoToken);
      } else {
        request := Some(ReviewRequest(ReviewsPath, "POST", mealId, rating, comment));
        notice := ResponseNotice(response);
        if response.Json? && response.success {
          rating := 0;
          comment := "";
          succeeded := true;
        }
      }
      submitting := false;
    }
  }

  /** A rating of 0, or a comment that trims to nothing, never reaches the network, and
      no review is posted without a token. */
  lemma NoRequestWithoutInput(rating: int, comment: string, token: Option<string>)
    ensures rating == 0 || Trim(comment) == [] || token.None? || token == Some("") ==>
      Rejection(rating, comment, token).Some?
  {
    TrimEmptyIffBlank(comment);
  }
}
