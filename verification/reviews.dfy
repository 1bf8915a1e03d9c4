/** The review endpoint: validate the body, then insert one review. */
module Reviews {
  import opened Options
  import opened JsValues
  import opened Reservations

  datatype ReviewBody = ReviewBody(talentoId: JsValue, clienteId: JsValue, rating: JsValue, comentario: JsValue, reservaId: JsValue)

  datatype Review = Review(talentoId: JsValue, clienteId: JsValue, rating: JsValue, comentario: JsValue, reservaId: JsValue, fecha: Timestamp)

  datatype ReviewResponse = ReviewSaved | ReviewInvalid | ReviewStoreFailed
  {
    function Code(): int
    {
      match this
      case ReviewSaved => 200
      case ReviewInvalid => 400
      case ReviewStoreFailed => 500
    }
  }

  datatype ReviewOutcome = ReviewOutcome(reviews: seq<Review>, response: ReviewResponse)

  /** The guard of the endpoint: the four identifying fields are truthy and
      the rating is neither below 1 nor above 5, with JavaScript's coercion
      (a rating that coerces to NaN is neither). */
  predicate ValidReview(b: ReviewBody)
  {
    && Truthy(b.talentoId)
    && Truthy(b.clienteId)
    && Truthy(b.rating)
    && Truthy(b.reservaId)
    && !LessThan(b.rating, 1.0)
    && !GreaterThan(b.rating, 5.0)
  }

  function ReviewRow(b: ReviewBody, now: Timestamp): Review
  {
    Review(b.talentoId, b.clienteId, b.rating, b.comentario, b.reservaId, now)
  }

  /** What every stored review satisfies: the endpoint's guard, read back
      from the row. */
  predicate StoredReviewValid(r: Review)
  {
    ValidReview(ReviewBody(r.talentoId, r.clienteId, r.rating, r.comentario, r.reservaId))
  }

  function SubmitReview(reviews: seq<Review>, b: ReviewBody, insertOk: bool, now: Timestamp): (o: ReviewOutcome)
    ensures o.response == ReviewInvalid <==> !ValidReview(b)
    ensures o.response == ReviewSaved <==> ValidReview(b) && insertOk
    ensures o.response != ReviewSaved ==> o.reviews == reviews
    ensures o.response == ReviewSaved ==>
              && |o.reviews| == |reviews| + 1
              && o.reviews[..|reviews|] == reviews
              && o.reviews[|reviews|].rating == b.rating
              && o.reviews[|reviews|].talentoId == b.talentoId
              && o.reviews[|reviews|].clienteId == b.clienteId
              && o.reviews[|reviews|].reservaId == b.reservaId
              && o.reviews[|reviews|].comentario == b.comentario
              && o.reviews[|reviews|].fecha == now
              && StoredReviewValid(o.reviews[|reviews|])
  {
    if !ValidReview(b) then ReviewOutcome(reviews, ReviewInvalid)
    else if !insertOk then ReviewOutcome(reviews, ReviewStoreFailed)
    else ReviewOutcome(reviews + [ReviewRow(b, now)], ReviewSaved)
  }

  /** For a numeric rating the guard is the range check [1, 5] on present
      identifiers, in both directions. Note that it admits fractions. */
  lemma NumericRatingGuard(b: ReviewBody, x: real)
    requires b.rating == Num(x)
    ensures ValidReview(b) <==>
              Truthy(b.talentoId) && Truthy(b.clienteId) && Truthy(b.reservaId) && 1.0 <= x <= 5.0
  {
  }

  /** Ratings 0 and 6 are refused with 400 and nothing is stored. */
  lemma RatingBoundaries(reviews: seq<Review>, b: ReviewBody, insertOk: bool, now: Timestamp)
    requires b.rating == Num(0.0) || b.rating == Num(6.0)
    ensures SubmitReview(reviews, b, insertOk, now).response.Code() == 400
    ensures SubmitReview(reviews, b, insertOk, now).reviews == reviews
  {
  }

  /** The guard does not require the rating to be a number: a word, or a
      plain object, coerces to NaN, fails neither comparison and is stored. */
  lemma NonNumericRatingPasses(b: ReviewBody)
    requires Truthy(b.talentoId) && Truthy(b.clienteId) && Truthy(b.reservaId)
    requires b.rating == Str("excelente") || b.rating == Other
    ensures ValidReview(b)
  {
    var word := "excelente";
    assert !IsBlank(word[0]) && !IsDigit(word[0]);
    assert ToNumber(Str(word)) == None;
  }

  /** A digit string in range passes, out of range is refused. */
  lemma DigitStringRating(b: ReviewBody)
    requires Truthy(b.talentoId) && Truthy(b.clienteId) && Truthy(b.reservaId)
    ensures b.rating == Str("3") ==> ValidReview(b)
    ensures b.rating == Str("7") ==> !ValidReview(b)
  {
    DigitStringCompares("3");
    DigitStringCompares("7");
  }
}
