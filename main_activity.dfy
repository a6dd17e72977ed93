/**
 * The activity's state (`MainActivity.onCreate`): the review store, kept as
 * four parallel lists, and the flag that selects the entry form over the
 * list screen, with the three events that change them.
 */
module MainActivity {
  import opened KotlinText
  import opened DetailScreen
  import opened MainScreen

  class ReviewApp {
    var bookTitles: seq<string>
    var authors: seq<string>
    var ratings: seq<int>
    var comments: seq<string>
    /** True while the entry form is shown, false while the list screen is. */
    var showDetailScreen: bool

    /** The four lists hold one entry per review. */
    predicate Aligned()
      reads this
    {
      |authors| == |bookTitles| && |ratings| == |bookTitles| && |comments| == |bookTitles|
    }

    /** The store read as reviews, in the order they were saved. */
    function Reviews(): (rs: seq<Review>)
      reads this
      requires Aligned()
      ensures |rs| == |bookTitles|
      ensures forall i :: 0 <= i < |rs| ==>
        rs[i] == Review(bookTitles[i], authors[i], ratings[i], comments[i])
    {
      var t, a, r, c := bookTitles, authors, ratings, comments;
      seq(|t|, i requires 0 <= i < |t| => Review(t[i], a[i], r[i], c[i]))
    }

    /** The store invariant: aligned lists, and only reviews that Save would accept. */
    ghost predicate Valid()
      reads this
    {
      Aligned() && forall r :: r in Reviews() ==> ValidReview(r)
    }

    /** The state the activity starts in: no reviews, the list screen shown. */
    constructor ()
      ensures Valid() && Reviews() == [] && !showDetailScreen
      ensures bookTitles == [] && authors == [] && ratings == [] && comments == []
    {
      bookTitles, authors, ratings, comments := [], [], [], [];
      showDetailScreen := false;
    }

    /**
     * The `onSave` callback: appends the review to the end of each list and
     * returns to the list screen. It checks nothing itself; it keeps the
     * store valid when the review it is given is valid.
     */
    method OnSave(title: string, author: string, rating: int, comment: string)
      requires Aligned()
      modifies this
      ensures Aligned()
      ensures bookTitles == old(bookTitles) + [title] && authors == old(authors) + [author]
      ensures ratings == old(ratings) + [rating] && comments == old(comments) + [comment]
      ensures Reviews() == old(Reviews()) + [Review(title, author, rating, comment)]
      ensures !showDetailScreen
      ensures old(Valid()) && ValidReview(Review(title, author, rating, comment)) ==> Valid()
    {
      bookTitles := bookTitles + [title];
      authors := authors + [author];
      ratings := ratings + [rating];
      comments := comments + [comment];
      showDetailScreen := false;
    }

    /** The `onBack` callback: returns to the list screen and saves nothing. */
    method OnBack()
      modifies this
      ensures !showDetailScreen
      ensures bookTitles == old(bookTitles) && authors == old(authors)
      ensures ratings == old(ratings) && comments == old(comments)
      ensures old(Valid()) ==> Valid()
    {
      showDetailScreen := false;
    }

    /** The `onAddReview` callback: shows the entry form and saves nothing. */
    method OnAddReview()
      modifies this
      ensures showDetailScreen
      ensures bookTitles == old(bookTitles) && authors == old(authors)
      ensures ratings == old(ratings) && comments == old(comments)
      ensures old(Valid()) ==> Valid()
    {
      showDetailScreen := true;
    }

    /**
     * A press of the Save button with the form's four texts: a rejection
     * changes nothing; an acceptance appends the review, as typed and with
     * its parsed rating, through `onSave`. Either way the store stays valid.
     */
    method SaveClicked(title: string, author: string, ratingText: string, comment: string)
      returns (outcome: SaveOutcome)
      requires Valid()
      modifies this
      ensures Valid()
      ensures outcome == ValidateSave(title, author, ratingText, comment)
      ensures outcome.Accept? ==> Reviews() == old(Reviews()) + [outcome.review] && !showDetailScreen
      ensures !outcome.Accept? ==>
        bookTitles == old(bookTitles) && authors == old(authors) && ratings == old(ratings)
        && comments == old(comments) && showDetailScreen == old(showDetailScreen)
    {
      outcome := ValidateSave(title, author, ratingText, comment);
      if outcome.Accept? {
        OnSave(outcome.review.title, outcome.review.author, outcome.review.rating, outcome.review.comment);
      }
    }

    /**
     * The average the list screen shows for this store: 0 when it is empty,
     * otherwise the mean rating, which lies between 1 and 5.
     */
    function AverageRating(): (avg: real)
      reads this
      requires Valid()
      ensures ratings == [] ==> avg == 0.0
      ensures ratings != [] ==> 1.0 <= avg <= 5.0 && avg * (|ratings| as real) == Sum(ratings) as real
    {
      assert AllInRange(ratings, RatingMin, RatingMax) by {
        forall i | 0 <= i < |ratings| ensures RatingMin <= ratings[i] <= RatingMax {
          assert Reviews()[i] in Reviews();
        }
      }
      if ratings != [] then AverageInRange(ratings); Average(ratings) else Average(ratings)
    }
  }

  /**
   * Two saves from a fresh start, {"A", "B", "3", "ok"} then
   * {"C", "D", "5", "nice"}: both are accepted, the list holds them in that
   * order, and the average shown is 4.
   */
  method TwoSavesScenario() returns (titles: seq<string>, avg: real)
    ensures titles == ["A", "C"]
    ensures avg == 4.0
  {
    var app := new ReviewApp();
    app.OnAddReview();
    Accepted("A", "B", 3, "ok");
    var first := app.SaveClicked("A", "B", "3", "ok");
    app.OnAddReview();
    Accepted("C", "D", 5, "nice");
    var second := app.SaveClicked("C", "D", "5", "nice");
    assert app.ratings == [3, 5];
    AverageOfThreeAndFive();
    titles, avg := app.bookTitles, app.AverageRating();
  }

  /** Save accepts the scenario's forms: one-letter non-blank texts and a rating shown as a single digit. */
  lemma Accepted(title: string, author: string, rating: int, comment: string)
    requires |title| > 0 && !IsWhitespace(title[0]) && |author| > 0 && !IsWhitespace(author[0])
    requires |comment| > 0 && !IsWhitespace(comment[0])
    requires 1 <= rating <= 5
    ensures ShowInt(rating) == [DigitChar(rating)]
    ensures ValidateSave(title, author, [DigitChar(rating)], comment) == Accept(Review(title, author, rating, comment))
  {
    AcceptsShownRating(title, author, rating, comment);
  }
}
