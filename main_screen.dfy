/**
 * The list screen (`MainScreen`): the average rating it shows above the
 * review cards. The exact mean over the reals stands for the `Double` the
 * Kotlin code computes.
 */
module MainScreen {

  /** The sum of the ratings, added up in list order. */
  function Sum(ratings: seq<int>): int {
    if ratings == [] then 0 else Sum(ratings[..|ratings| - 1]) + ratings[|ratings| - 1]
  }

  /** The average shown on the list screen: 0 with no ratings, their mean otherwise. */
  function Average(ratings: seq<int>): (avg: real)
    ensures ratings == [] ==> avg == 0.0
    ensures ratings != [] ==> avg * (|ratings| as real) == Sum(ratings) as real
  {
    if ratings != [] then (Sum(ratings) as real) / (|ratings| as real) else 0.0
  }

  predicate AllInRange(ratings: seq<int>, lo: int, hi: int) {
    forall i :: 0 <= i < |ratings| ==> lo <= ratings[i] <= hi
  }

  /** A sum of ratings each between lo and hi lies between count * lo and count * hi. */
  lemma {:induction false} SumBounds(ratings: seq<int>, lo: int, hi: int)
    requires AllInRange(ratings, lo, hi)
    ensures |ratings| * lo <= Sum(ratings) <= |ratings| * hi
  {
    if ratings != [] {
      var init := ratings[..|ratings| - 1];
      assert AllInRange(init, lo, hi) by {
        forall i | 0 <= i < |init| ensures lo <= init[i] <= hi { assert init[i] == ratings[i]; }
      }
      SumBounds(init, lo, hi);
    }
  }

  /** A factor whose product with a positive number is not negative is not negative. */
  lemma NonNegativeFactor(x: real, y: real)
    requires y > 0.0 && x * y >= 0.0
    ensures x >= 0.0
  {
  }

  /** Ratings from 1 to 5 average between 1 and 5 (the empty list shows 0). */
  lemma AverageInRange(ratings: seq<int>)
    requires ratings != []
    requires AllInRange(ratings, 1, 5)
    ensures 1.0 <= Average(ratings) <= 5.0
  {
    SumBounds(ratings, 1, 5);
    var n := |ratings| as real;
    var avg := Average(ratings);
    assert n <= Sum(ratings) as real <= 5.0 * n;
    NonNegativeFactor(avg - 1.0, n);
    NonNegativeFactor(5.0 - avg, n);

  }

  /** Saving one more rating moves the sum by exactly that rating. */
  lemma SumAppend(ratings: seq<int>, rating: int)
    ensures Sum(ratings + [rating]) == Sum(ratings) + rating
  {
  }

  /** Ratings 3 and 5 average 4. */
  lemma AverageOfThreeAndFive()
    ensures Average([3, 5]) == 4.0
  {
    SumAppend([3], 5);
    SumAppend([], 3);
    assert [3, 5] == [3] + [5];
  }
}
