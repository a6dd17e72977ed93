/**
 * The entry form (`DetailScreen`): what its Save button decides from the
 * four texts in the form.
 */
module DetailScreen {
  import opened Wrappers
  import opened KotlinText

  /** One book review, as the Save button hands it to `onSave`. */
  datatype Review = Review(title: string, author: string, rating: int, comment: string)

  /** What pressing Save does: one of the two rejection notices, or an accepted review. */
  datatype SaveOutcome =
    | MissingField
    | InvalidRating
    | Accept(review: Review)

  const RatingMin: int := 1
  const RatingMax: int := 5

  /** A review the store may hold: no blank text and a rating from 1 to 5. */
  predicate ValidReview(r: Review) {
    !IsBlank(r.title) && !IsBlank(r.author) && !IsBlank(r.comment)
    && RatingMin <= r.rating <= RatingMax
  }

  /** The text of the notice a rejection shows. */
  function Notice(o: SaveOutcome): (m: Option<string>)
    ensures m.None? <==> o.Accept?
    ensures o.MissingField? ==> m == Some("Fill in all fields")
    ensures o.InvalidRating? ==> m == Some("Rating must be 1 to 5")
  {
    match o
    case MissingField => Some("Fill in all fields")
    case InvalidRating => Some("Rating must be 1 to 5")
    case Accept(_) => None
  }

  /**
   * The Save button's handler: first the blank check on all four texts, then
   * the range check on the parsed rating, and only then the review, made of
   * the texts exactly as typed and the parsed rating.
   */
  function ValidateSave(title: string, author: string, ratingText: string, comment: string): (o: SaveOutcome)
    ensures o.MissingField? <==>
      IsBlank(title) || IsBlank(author) || IsBlank(ratingText) || IsBlank(comment)
    ensures o.InvalidRating? <==>
      !o.MissingField? && !(ToIntOrNull(ratingText).Some? && RatingMin <= ToIntOrNull(ratingText).value <= RatingMax)
    ensures o.Accept? ==>
      ValidReview(o.review)
      && o.review.title == title && o.review.author == author && o.review.comment == comment
      && ToIntOrNull(ratingText) == Some(o.review.rating)
  {
    var rating := ToIntOrNull(ratingText);
    if IsBlank(title) || IsBlank(author) || IsBlank(ratingText) || IsBlank(comment) then
      MissingField
    else if rating.None? || rating.value < RatingMin || rating.value > RatingMax then
      InvalidRating
    else
      Accept(Review(title, author, rating.value, comment))
  }

  /**
   * The blank check comes first: a blank rating text is reported as a missing
   * field, never as a bad rating, although it would not parse either.
   */
  lemma BlankRatingIsMissingField(title: string, author: string, ratingText: string, comment: string)
    requires IsBlank(ratingText)
    ensures ValidateSave(title, author, ratingText, comment) == MissingField
    ensures ToIntOrNull(ratingText) == None
  {
  }

  /**
   * Save accepts exactly the forms whose title, author and comment are not
   * blank and whose rating text is a rating from 1 to 5 written as `toString`
   * writes it; the review then holds the texts as typed.
   */
  lemma AcceptsShownRating(title: string, author: string, rating: int, comment: string)
    requires IntMin <= rating <= IntMax
    ensures ValidateSave(title, author, ShowInt(rating), comment) == Accept(Review(title, author, rating, comment))
        <==> ValidReview(Review(title, author, rating, comment))
  {
    var text := ShowInt(rating);
    ParseShowRoundTrip(rating);
    if IsBlank(text) {
      BlankNeverParses(text);
    }
  }

  /**
   * Every review the store may hold gets through Save when its rating is
   * typed as `toString` writes it (the converse, that whatever Save accepts
   * is valid, is part of `ValidateSave`'s contract).
   */
  lemma ValidReviewsAreAccepted(r: Review)
    requires ValidReview(r)
    ensures ValidateSave(r.title, r.author, ShowInt(r.rating), r.comment) == Accept(r)
  {
    AcceptsShownRating(r.title, r.author, r.rating, r.comment);
  }

  /** A filled-in form with rating text "5" is saved as typed. */
  lemma DuneIsAccepted()
    ensures ValidateSave("Dune", "Herbert", "5", "Great") == Accept(Review("Dune", "Herbert", 5, "Great"))
  {
    ParseShowRoundTrip(5);
    assert ShowInt(5) == "5";
    assert !IsBlank("Dune") by { assert !IsWhitespace("Dune"[0]); }
    assert !IsBlank("Herbert") by { assert !IsWhitespace("Herbert"[0]); }
    assert !IsBlank("Great") by { assert !IsWhitespace("Great"[0]); }
  }

  /**
   * Rating texts "0", "6", "abc", " 3" and "" with the other fields filled
   * are all rejected; only the empty one is reported as a missing field.
   */
  lemma BadRatingsRejected()
    ensures ValidateSave("Dune", "Herbert", "0", "Great") == InvalidRating
    ensures ValidateSave("Dune", "Herbert", "6", "Great") == InvalidRating
    ensures ValidateSave("Dune", "Herbert", "abc", "Great") == InvalidRating
    ensures ValidateSave("Dune", "Herbert", " 3", "Great") == InvalidRating
    ensures ValidateSave("Dune", "Herbert", "", "Great") == MissingField
  {
    assert !IsBlank("Dune") by { assert !IsWhitespace("Dune"[0]); }
    assert !IsBlank("Herbert") by { assert !IsWhitespace("Herbert"[0]); }
    assert !IsBlank("Great") by { assert !IsWhitespace("Great"[0]); }
    ParseShowRoundTrip(0);
    assert ShowInt(0) == "0";
    ParseShowRoundTrip(6);
    assert ShowInt(6) == "6";
    assert !IsBlank("abc") by { assert !IsWhitespace("abc"[0]); }
    assert !IsDigit("abc"[0]);
    assert !IsBlank(" 3") by { assert !IsWhitespace(" 3"[1]); }
    assert IsWhitespace(" 3"[0]);
  }
}
