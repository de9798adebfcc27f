/**
 * The arithmetic of ratings: pinning a rating to 0..5 when a review is created,
 * and the average the review service stores on the restaurant.
 */
module Ratings {
  import opened Wrappers
  import opened Models
  import opened Permutations

  const MinRating: real := 0.0
  const MaxRating: real := 5.0

  /** `Math.Min(Math.Max(0, rating), 5)`. */
  function Clamp(rating: real): (c: real)
    ensures MinRating <= c <= MaxRating
    ensures MinRating <= rating <= MaxRating ==> c == rating
    ensures rating < MinRating ==> c == MinRating
    ensures rating > MaxRating ==> c == MaxRating
  {
    var atLeastMin := if rating < MinRating then MinRating else rating;
    if atLeastMin > MaxRating then MaxRating else atLeastMin
  }

  /** Clamping twice is clamping once. */
  lemma ClampIdempotent(rating: real)
    ensures Clamp(Clamp(rating)) == Clamp(rating)
  {
  }

  /** `reviews.Sum(x => x.Rating)`, on the ratings in order. */
  function Sum(ratings: seq<real>): real {
    if ratings == [] then 0.0 else ratings[0] + Sum(ratings[1..])
  }

  /** The ratings of a list of reviews, in the same order. */
  function RatingsOf(reviews: seq<RestaurantReview>): (ratings: seq<real>)
    ensures |ratings| == |reviews|
    ensures forall i | 0 <= i < |reviews| :: ratings[i] == reviews[i].rating
  {
    seq(|reviews|, i requires 0 <= i < |reviews| => reviews[i].rating)
  }

  /** A .NET double as far as the average needs it: a number or NaN. */
  datatype Double = Finite(value: real) | NaN

  /** `Sum / Count` as written: with no ratings .NET divides 0.0 by 0 and gets NaN. */
  function MeanAsWritten(ratings: seq<real>): (d: Double)
    ensures d.NaN? <==> ratings == []
    ensures d.Finite? ==> d.value * (|ratings| as real) == Sum(ratings)
  {
    if |ratings| == 0 then NaN else Finite(Sum(ratings) / (|ratings| as real))
  }

  /** The average that is evidently meant: there is none when there is nothing to average. */
  function Mean(ratings: seq<real>): (m: Option<real>)
    ensures m.None? <==> ratings == []
    ensures m.Some? ==> m.value * (|ratings| as real) == Sum(ratings)
    ensures m.Some? ==> MeanAsWritten(ratings) == Finite(m.value)
  {
    if |ratings| == 0 then None else Some(Sum(ratings) / (|ratings| as real))
  }

  /** The two agree wherever the written division is defined; on no ratings it gives NaN. */
  lemma MeanAsWrittenOfNoRatings()
    ensures MeanAsWritten([]) == NaN && Mean([]) == None
  {
  }

  /** Ratings all within [lo, hi] sum to within [n * lo, n * hi]. */
  lemma {:induction false} SumBounds(ratings: seq<real>, lo: real, hi: real)
    requires forall i | 0 <= i < |ratings| :: lo <= ratings[i] <= hi
    ensures (|ratings| as real) * lo <= Sum(ratings) <= (|ratings| as real) * hi
    decreases |ratings|
  {
    if ratings != [] {
      SumBounds(ratings[1..], lo, hi);
    }
  }

  /** The average lies between the least and the greatest possible rating. */
  lemma MeanWithinBounds(ratings: seq<real>, lo: real, hi: real)
    requires ratings != []
    requires forall i | 0 <= i < |ratings| :: lo <= ratings[i] <= hi
    ensures lo <= Mean(ratings).value <= hi
  {
    SumBounds(ratings, lo, hi);
    var n := |ratings| as real;
    var m := Mean(ratings).value;
    assert m * n == Sum(ratings);
    assert n * lo <= m * n;
    assert m * n <= n * hi;
  }

  /** Averages of clamped ratings are themselves between 0 and 5. */
  lemma MeanOfClampedRatings(ratings: seq<real>)
    requires ratings != []
    requires forall i | 0 <= i < |ratings| :: ratings[i] == Clamp(ratings[i])
    ensures MinRating <= Mean(ratings).value <= MaxRating
  {
    MeanWithinBounds(ratings, MinRating, MaxRating);
  }

  lemma {:induction false} SumAppend(a: seq<real>, b: seq<real>)
    ensures Sum(a + b) == Sum(a) + Sum(b)
    decreases |a|
  {
    if a != [] {
      assert (a + b)[1..] == a[1..] + b;
      SumAppend(a[1..], b);
    } else {
      assert a + b == b;
    }
  }

  /** Taking one rating out of the list takes it out of the sum. */
  lemma SumRemove(ratings: seq<real>, j: nat)
    requires j < |ratings|
    ensures Sum(ratings) == ratings[j] + Sum(ratings[..j] + ratings[j + 1..])
  {
    assert ratings == ratings[..j] + ([ratings[j]] + ratings[j + 1..]);
    SumAppend(ratings[..j], [ratings[j]] + ratings[j + 1..]);
    SumAppend(ratings[..j], ratings[j + 1..]);
    assert ([ratings[j]] + ratings[j + 1..])[1..] == ratings[j + 1..];
  }

  /** The sum, and so the average, does not depend on the order of the ratings. */
  lemma {:induction false} SumPermutation(a: seq<real>, b: seq<real>)
    requires multiset(a) == multiset(b)
    ensures Sum(a) == Sum(b)
    decreases |a|
  {
    if a != [] {
      assert a[0] in multiset(b);
      var j :| 0 <= j < |b| && b[j] == a[0];
      var rest := b[..j] + b[j + 1..];
      RemoveFirst(a, b, j);
      SumPermutation(a[1..], rest);
      SumRemove(b, j);
    } else {
      assert |b| == |multiset(b)| == 0;
    }
  }

  lemma MeanPermutation(a: seq<real>, b: seq<real>)
    requires multiset(a) == multiset(b)
    ensures Mean(a) == Mean(b)
  {
    SumPermutation(a, b);
    assert |a| == |multiset(a)| == |multiset(b)| == |b|;
  }
}
