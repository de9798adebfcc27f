/**
 * `MKEToolInterview.Service.ReviewService`: reviews as rows "Review#" + id in their
 * restaurant's partition. Every write to a review is followed by recomputing the
 * restaurant's average rating from all of its reviews.
 *
 * `Guid.NewGuid()` is the parameter `newId`. The service shares the restaurant
 * service's table and number format.
 */
module Reviews {
  import opened Wrappers
  import opened Guids
  import opened Conversions
  import opened Models
  import opened DocumentModel
  import opened Keys
  import opened Table
  import opened Permutations
  import opened Ratings
  import SummaryMapper
  import opened ReviewMapper
  import opened Restaurants

  /**
   * What `GetReviewById(restaurantId, reviewId)` returns for the rows: null exactly when there
   * is no review row; otherwise the decoded row, or the fault decoding it throws.
   */
  function FindReview(fmt: NumberFormat, rows: Rows, restaurantId: string, reviewId: string)
    : (r: Result<Option<RestaurantReview>, Fault>)
    ensures r == Ok(None) <==> ReviewKey(restaurantId, reviewId) !in rows
    ensures ReviewKey(restaurantId, reviewId) in rows ==>
              r.Ok? == MapFromDynamoDocument(fmt, rows[ReviewKey(restaurantId, reviewId)]).Ok?
    ensures ReviewKey(restaurantId, reviewId) in rows && r.Ok? ==> r.value.Some?
    ensures ReviewKey(restaurantId, reviewId) in rows && r.Err? ==>
              r.error == MapFromDynamoDocument(fmt, rows[ReviewKey(restaurantId, reviewId)]).error
    ensures r.Ok? && r.value.Some? ==>
              && ReviewKey(restaurantId, reviewId) in rows
              && MapFromDynamoDocument(fmt, rows[ReviewKey(restaurantId, reviewId)]) == Ok(r.value.value)
  {
    var key := ReviewKey(restaurantId, reviewId);
    if key in rows then
      var review :- MapFromDynamoDocument(fmt, rows[key]);
      Ok(Some(review))
    else
      Ok(None)
  }

  /** The review `CreateNewReview` stores: its restaurant's id, a new id, the rating pinned to 0..5. */
  function NewReview(review: RestaurantReview, restaurantId: Guid, newId: Guid): (created: RestaurantReview)
    ensures created.restaurantId == restaurantId && created.id == newId
    ensures MinRating <= created.rating <= MaxRating
    ensures MinRating <= review.rating <= MaxRating ==> created.rating == review.rating
    ensures created.user == review.user && created.reviewText == review.reviewText
  {
    review.(restaurantId := restaurantId, id := newId, rating := Clamp(review.rating))
  }

  /**
   * `UpdateAverageRatingOnRestaurant(summary)` on the rows, given the order the query lists
   * the restaurant's reviews in: null throws; otherwise the summary is written back with
   * the average of the listed reviews (none when there are no reviews).
   */
  function Recompute(fmt: NumberFormat, rows: Rows, summary: Option<RestaurantSummary>, order: seq<Key>)
    : (outcome: (Result<(), Fault>, Rows))
    requires forall i | 0 <= i < |order| :: order[i] in rows
  {
    match summary
    case None => (Err(NullReference("summary")), rows)
    case Some(s) =>
      match ReviewMapper.MapAllFromDynamoDocuments(fmt, RowsAt(rows, order))
      case Err(e) => (Err(e), rows)
      case Ok(reviews) =>
        (Ok(()), Updated(rows, SummaryMapper.SummaryDocument(fmt, s.(averageRating := Mean(RatingsOf(reviews))))))
  }

  /**
   * The recompute with the empty case corrected: when the restaurant has no reviews left,
   * the stored `AverageRating` is removed as well, instead of being kept by the merge.
   */
  function RecomputeCorrected(fmt: NumberFormat, rows: Rows, summary: Option<RestaurantSummary>, order: seq<Key>)
    : (outcome: (Result<(), Fault>, Rows))
    requires forall i | 0 <= i < |order| :: order[i] in rows
  {
    var written := Recompute(fmt, rows, summary, order);
    if summary.Some? && order == [] then
      (written.0, AttributeRemoved(written.1, SummaryKey(GuidText(summary.value.id)), SummaryMapper.AverageRatingAttribute))
    else
      written
  }

  /**
   * After a write to a review leaves `written`, the service reads restaurant `restaurantId`
   * and recomputes its average, as written or, when `corrected`, with the empty case
   * corrected: the result `r`, the final rows and the listing order agree.
   */
  ghost predicate RecomputedAfter(corrected: bool, fmt: NumberFormat, written: Rows, restaurantId: string,
                                  r: Result<(), Fault>, rows: Rows, order: seq<Key>)
  {
    var found := FindRestaurant(fmt, written, restaurantId);
    && (found.Err? ==> r == Err(found.error) && rows == written)
    && (found.Ok? ==>
          && (found.value.Some? ==> IsListing(written, ReviewFilter(restaurantId), order))
          && (found.value.None? ==> order == [])
          && (r, rows) == (if corrected then RecomputeCorrected(fmt, written, found.value, order)
                           else Recompute(fmt, written, found.value, order)))
  }

  /**
   * `CreateNewReview(review, restaurantId)` with new id `newId` took the rows from `before`
   * to `after`: nothing happens unless the restaurant is found; then the review is put
   * and the average recomputed, and the new id returned unless the recompute throws.
   */
  ghost predicate CreatedReview(fmt: NumberFormat, before: Rows, review: RestaurantReview, restaurantId: string,
                                newId: Guid, r: Result<Option<Guid>, Fault>, after: Rows, order: seq<Key>)
  {
    var found := FindRestaurant(fmt, before, restaurantId);
    && (found.Err? ==> r == Err(found.error) && after == before)
    && (found == Ok(None) ==> r == Ok(None) && after == before)
    && (found.Ok? && found.value.Some? ==>
          var summary := found.value.value;
          var written := Put(before, ReviewAttributes(fmt, NewReview(review, summary.id, newId)));
          && IsListing(written, ReviewFilter(restaurantId), order)
          && var outcome := Recompute(fmt, written, found.value, order);
             && after == outcome.1
             && r == (if outcome.0.Err? then Err(outcome.0.error) else Ok(Some(newId))))
  }

  class ReviewService {
    const restaurants: RestaurantService
    const store: Store
    const fmt: NumberFormat

    ghost predicate Valid()
      reads this, restaurants, store
    {
      restaurants.store == store && restaurants.fmt == fmt && restaurants.Valid()
    }

    constructor (restaurants: RestaurantService, store: Store)
      requires restaurants.store == store
      ensures this.restaurants == restaurants && this.store == store && fmt == restaurants.fmt
    {
      this.restaurants := restaurants;
      this.store := store;
      this.fmt := restaurants.fmt;
    }

    /**
     * Null when the restaurant does not exist; otherwise the review is stored under a new
     * id with its rating pinned to 0..5, the average is recomputed, and the new id returned.
     */
    method CreateNewReview(review: RestaurantReview, restaurantId: string, newId: Guid)
      returns (r: Result<Option<Guid>, Fault>, ghost order: seq<Key>)
      requires Valid()
      modifies store
      ensures Valid()
      ensures CreatedReview(fmt, old(store.rows), review, restaurantId, newId, r, store.rows, order)
    {
      var restaurant := restaurants.GetRestaurantById(restaurantId);
      if restaurant.Err? {
        r, order := Err(restaurant.error), [];
        return;
      }
      if restaurant.value.None? {
        r, order := Ok(None), [];
        return;
      }
      FoundRestaurantHasItsId(fmt, store.rows, restaurantId);
      var created := review.(restaurantId := ParseGuid(restaurantId).value);
      created := created.(id := newId);
      created := created.(rating := Clamp(created.rating));
      var attributeValues := ReviewMapper.MapToDynamoAttributes(fmt, created);
      store.BatchWritePut(attributeValues);
      var updated;
      updated, order := UpdateAverageRatingOnRestaurant(restaurant.value);
      if updated.Err? {
        r := Err(updated.error);
        return;
      }
      r := Ok(Some(created.id));
    }

    /** Queries the partition's review rows, drains the pages, and decodes them in the order they came. */
    method GetAllReviewsForRestaurant(restaurantId: string)
      returns (r: Result<seq<RestaurantReview>, Fault>, ghost order: seq<Key>)
      requires Valid()
      ensures IsListing(store.rows, ReviewFilter(restaurantId), order)
      ensures r == ReviewMapper.MapAllFromDynamoDocuments(fmt, RowsAt(store.rows, order))
      ensures r.Ok? ==> && |r.value| == |Selected(store.rows, ReviewFilter(restaurantId))|
                        && forall i | 0 <= i < |r.value| :: GuidText(r.value[i].restaurantId) == restaurantId
    {
      var search := store.Search(ReviewFilter(restaurantId));
      order := search.order;
      var results: seq<Document> := [];
      var page := search.GetNextSet();
      results := results + page;
      while !search.IsDone()
        invariant 1 <= search.position <= |search.pages|
        invariant results == Flatten(search.pages[..search.position])
        decreases |search.pages| - search.position
      {
        FlattenSnoc(search.pages, search.position);
        page := search.GetNextSet();
        results := results + page;
      }
      assert search.pages[..search.position] == search.pages;
      r := ReviewMapper.MapAllFromDynamoDocuments(fmt, results);
      if r.Ok? {
        ListedReviewsBelongToRestaurant(fmt, store.rows, restaurantId, order);
      }
    }

    /** The review row at `(restaurantId, "Review#" + reviewId)` decoded; null exactly when there is no such row. */
    method GetReviewById(restaurantId: string, reviewId: string) returns (r: Result<Option<RestaurantReview>, Fault>)
      requires Valid()
      ensures r == FindReview(fmt, store.rows, restaurantId, reviewId)
      ensures r == Ok(None) <==> ReviewKey(restaurantId, reviewId) !in store.rows
      ensures ReviewKey(restaurantId, reviewId) in store.rows ==>
                r == (match ReviewMapper.MapFromDynamoDocument(fmt, store.rows[ReviewKey(restaurantId, reviewId)])
                      case Ok(review) => Ok(Some(review))
                      case Err(e) => Err(e))
    {
      var reviewDoc := store.GetItem(restaurantId, ReviewSortKey(reviewId));
      r := Ok(None);
      if reviewDoc.Some? {
        var review :- ReviewMapper.MapFromDynamoDocument(fmt, reviewDoc.value);
        r := Ok(Some(review));
      }
    }

    /**
     * As written: merges the review's document into its row as given (the rating is not
     * pinned to 0..5), then recomputes the average of the restaurant the review names.
     */
    method UpdateReview(review: RestaurantReview) returns (r: Result<(), Fault>, ghost order: seq<Key>)
      requires Valid()
      modifies store
      ensures Valid()
      ensures RecomputedAfter(false, fmt, Updated(old(store.rows), ReviewDocument(fmt, review)),
                              GuidText(review.restaurantId), r, store.rows, order)
    {
      var document := ReviewMapper.MapToDynamoDocument(fmt, review);
      store.UpdateItem(document);
      var restaurant := restaurants.GetRestaurantById(GuidText(review.restaurantId));
      if restaurant.Err? {
        r, order := Err(restaurant.error), [];
        return;
      }
      if restaurant.value.Some? {
        FoundRestaurantHasItsId(fmt, store.rows, GuidText(review.restaurantId));
      }
      r, order := UpdateAverageRatingOnRestaurant(restaurant.value);
    }

    /** `UpdateReview` pinning the rating to 0..5 first, as `CreateNewReview` does. */
    method UpdateReviewClamped(review: RestaurantReview) returns (r: Result<(), Fault>, ghost order: seq<Key>)
      requires Valid()
      modifies store
      ensures Valid()
      ensures RecomputedAfter(false, fmt, Updated(old(store.rows), ReviewDocument(fmt, review.(rating := Clamp(review.rating)))),
                              GuidText(review.restaurantId), r, store.rows, order)
    {
      var pinned := review.(rating := Clamp(review.rating));
      r, order := UpdateReview(pinned);
    }

    /** Deletes the review's row, then recomputes the restaurant's average. */
    method DeleteReview(restaurantId: string, reviewId: string) returns (r: Result<(), Fault>, ghost order: seq<Key>)
      requires Valid()
      modifies store
      ensures Valid()
      ensures RecomputedAfter(false, fmt, Removed(old(store.rows), ReviewKey(restaurantId, reviewId)),
                              restaurantId, r, store.rows, order)
    {
      store.DeleteItem(restaurantId, ReviewSortKey(reviewId));
      var restaurant := restaurants.GetRestaurantById(restaurantId);
      if restaurant.Err? {
        r, order := Err(restaurant.error), [];
        return;
      }
      if restaurant.value.Some? {
        FoundRestaurantHasItsId(fmt, store.rows, restaurantId);
      }
      r, order := UpdateAverageRatingOnRestaurant(restaurant.value);
    }

    /**
     * `DeleteReview` with the empty case corrected: deleting a restaurant's last review
     * leaves it with no average.
     */
    method DeleteReviewCorrected(restaurantId: string, reviewId: string)
      returns (r: Result<(), Fault>, ghost order: seq<Key>)
      requires Valid()
      modifies store
      ensures Valid()
      ensures RecomputedAfter(true, fmt, Removed(old(store.rows), ReviewKey(restaurantId, reviewId)),
                              restaurantId, r, store.rows, order)
    {
      store.DeleteItem(restaurantId, ReviewSortKey(reviewId));
      var restaurant := restaurants.GetRestaurantById(restaurantId);
      if restaurant.Err? {
        r, order := Err(restaurant.error), [];
        return;
      }
      if restaurant.value.Some? {
        FoundRestaurantHasItsId(fmt, store.rows, restaurantId);
      }
      r, order := UpdateAverageRatingCorrected(restaurant.value);
    }

    /**
     * `UpdateAverageRatingOnRestaurant` with the empty case corrected: the average of no
     * reviews is null, and the stored `AverageRating` is then removed from the summary row.
     */
    method UpdateAverageRatingCorrected(summary: Option<RestaurantSummary>)
      returns (r: Result<(), Fault>, ghost order: seq<Key>)
      requires Valid()
      modifies store
      ensures Valid()
      ensures summary.Some? ==> IsListing(old(store.rows), ReviewFilter(GuidText(summary.value.id)), order)
      ensures summary.None? ==> order == []
      ensures (r, store.rows) == RecomputeCorrected(fmt, old(store.rows), summary, order)
    {
      if summary.None? {
        r, order := Err(NullReference("summary")), [];
        return;
      }
      var reviews;
      reviews, order := GetAllReviewsForRestaurant(GuidText(summary.value.id));
      if reviews.Err? {
        r := Err(reviews.error);
        return;
      }
      EnumerationSize(order, Selected(store.rows, ReviewFilter(GuidText(summary.value.id))));
      var average := Mean(RatingsOf(reviews.value));
      var updatedSummary := summary.value.(averageRating := average);
      restaurants.UpdateRestaurant(updatedSummary);
      if average.None? {
        store.RemoveAttribute(GuidText(summary.value.id), SummarySortKey, SummaryMapper.AverageRatingAttribute);
      }
      r := Ok(());
    }

    /** Lists the restaurant's reviews and writes their average back onto its summary. */
    method UpdateAverageRatingOnRestaurant(summary: Option<RestaurantSummary>)
      returns (r: Result<(), Fault>, ghost order: seq<Key>)
      requires Valid()
      modifies store
      ensures Valid()
      ensures summary.Some? ==> IsListing(old(store.rows), ReviewFilter(GuidText(summary.value.id)), order)
      ensures summary.None? ==> order == []
      ensures (r, store.rows) == Recompute(fmt, old(store.rows), summary, order)
    {
      if summary.None? {
        r, order := Err(NullReference("summary")), [];
        return;
      }
      var reviews;
      reviews, order := GetAllReviewsForRestaurant(GuidText(summary.value.id));
      if reviews.Err? {
        r := Err(reviews.error);
        return;
      }
      var average := Mean(RatingsOf(reviews.value));
      var updatedSummary := summary.value.(averageRating := average);
      restaurants.UpdateRestaurant(updatedSummary);
      r := Ok(());
    }
  }

  /** Recomputing the average writes the summary row and no other. */
  lemma RecomputeTouchesOnlySummary(fmt: NumberFormat, rows: Rows, summary: RestaurantSummary, order: seq<Key>)
    requires forall i | 0 <= i < |order| :: order[i] in rows
    ensures var after := Recompute(fmt, rows, Some(summary), order).1;
            && after.Keys <= rows.Keys + {SummaryKey(GuidText(summary.id))}
            && forall k | k in rows && k != SummaryKey(GuidText(summary.id)) :: k in after && after[k] == rows[k]
  {
  }

  /** Recomputing leaves every review as it was. */
  lemma RecomputeKeepsReviews(fmt: NumberFormat, rows: Rows, summary: RestaurantSummary, order: seq<Key>,
                              restaurantId: string, reviewId: string)
    requires forall i | 0 <= i < |order| :: order[i] in rows
    ensures FindReview(fmt, Recompute(fmt, rows, Some(summary), order).1, restaurantId, reviewId)
         == FindReview(fmt, rows, restaurantId, reviewId)
  {
    RecomputeTouchesOnlySummary(fmt, rows, summary, order);
    SummaryIsNoReviewKey(restaurantId, reviewId);
    var after := Recompute(fmt, rows, Some(summary), order).1;
    var key := ReviewKey(restaurantId, reviewId);
    assert key != SummaryKey(GuidText(summary.id)) by {
      assert key.sort != SummarySortKey;
    }
    assert key in after <==> key in rows;
  }

  /**
   * With reviews listed, the restaurant reads back with every field as it was and, as its
   * average, the sum of the ratings over their count.
   */
  lemma RecomputeWritesMean(fmt: NumberFormat, rows: Rows, summary: RestaurantSummary, order: seq<Key>)
    requires forall i | 0 <= i < |order| :: order[i] in rows
    requires ReviewMapper.MapAllFromDynamoDocuments(fmt, RowsAt(rows, order)).Ok?
    requires order != []
    requires var ratings := RatingsOf(ReviewMapper.MapAllFromDynamoDocuments(fmt, RowsAt(rows, order)).value);
             RoundTrips(fmt, Sum(ratings) / (|ratings| as real))
    ensures var ratings := RatingsOf(ReviewMapper.MapAllFromDynamoDocuments(fmt, RowsAt(rows, order)).value);
            var outcome := Recompute(fmt, rows, Some(summary), order);
            && outcome.0 == Ok(())
            && |ratings| == |order|
            && FindRestaurant(fmt, outcome.1, GuidText(summary.id))
               == Ok(Some(summary.(averageRating := Some(Sum(ratings) / (|ratings| as real)))))
  {
    var ratings := RatingsOf(ReviewMapper.MapAllFromDynamoDocuments(fmt, RowsAt(rows, order)).value);
    UpdateWithAverageIsFound(fmt, rows, summary.(averageRating := Mean(ratings)));
  }

  /**
   * With no reviews listed there is no average to write: the summary goes back without one,
   * and the row keeps the average it had.
   */
  lemma RecomputeWithNoReviewsKeepsAverage(fmt: NumberFormat, rows: Rows, summary: RestaurantSummary)
    requires SummaryKey(GuidText(summary.id)) in rows
    ensures var k := SummaryKey(GuidText(summary.id));
            var outcome := Recompute(fmt, rows, Some(summary), []);
            && outcome.0 == Ok(())
            && k in outcome.1
            && (SummaryMapper.AverageRatingAttribute in outcome.1[k] <==> SummaryMapper.AverageRatingAttribute in rows[k])
            && (SummaryMapper.AverageRatingAttribute in rows[k] ==>
                  outcome.1[k][SummaryMapper.AverageRatingAttribute] == rows[k][SummaryMapper.AverageRatingAttribute])
  {
    assert RowsAt(rows, []) == [];
    assert Mean(RatingsOf([])) == None;
    UpdateWithoutAverageKeepsStored(fmt, rows, summary.(averageRating := None));
  }

  /**
   * The corrected recompute with no reviews listed leaves the summary row without
   * `AverageRating`: the restaurant reads back with every field as given and no average.
   */
  lemma RecomputeCorrectedClearsAverage(fmt: NumberFormat, rows: Rows, summary: RestaurantSummary)
    ensures var k := SummaryKey(GuidText(summary.id));
            var outcome := RecomputeCorrected(fmt, rows, Some(summary), []);
            && outcome.0 == Ok(())
            && k in outcome.1 && SummaryMapper.AverageRatingAttribute !in outcome.1[k]
            && FindRestaurant(fmt, outcome.1, GuidText(summary.id)) == Ok(Some(summary.(averageRating := None)))
  {
    var cleared := summary.(averageRating := None);
    var document := SummaryMapper.SummaryDocument(fmt, cleared);
    assert RowsAt(rows, []) == [];
    assert Mean(RatingsOf([])) == None;
    var k := SummaryKey(GuidText(summary.id));
    SummaryMapper.EncodingsFixSortKey(fmt, cleared);
    SummaryMapper.EncodingsCopyFields(fmt, cleared);
    SummaryMapper.EncodingKeySet(fmt, cleared);
    var after := RecomputeCorrected(fmt, rows, Some(summary), []).1;
    SummaryMapper.DecodeReadsOnly(fmt, after[k], document);
    SummaryMapper.RoundTrip(fmt, cleared);
  }

  /** The rating the review row at `k` holds, 0 when it does not decode. */
  function RatingAt(fmt: NumberFormat, rows: Rows, k: Key): real {
    if k in rows && ReviewMapper.MapFromDynamoDocument(fmt, rows[k]).Ok? then
      ReviewMapper.MapFromDynamoDocument(fmt, rows[k]).value.rating
    else
      0.0
  }

  /** The ratings of a decoded listing are the ratings at its keys. */
  lemma ListedRatings(fmt: NumberFormat, rows: Rows, order: seq<Key>)
    requires forall i | 0 <= i < |order| :: order[i] in rows
    requires ReviewMapper.MapAllFromDynamoDocuments(fmt, RowsAt(rows, order)).Ok?
    ensures RatingsOf(ReviewMapper.MapAllFromDynamoDocuments(fmt, RowsAt(rows, order)).value)
         == Map(order, k => RatingAt(fmt, rows, k))
  {
    var reviews := ReviewMapper.MapAllFromDynamoDocuments(fmt, RowsAt(rows, order)).value;
    var ratings := RatingsOf(reviews);
    var expected := Map(order, k => RatingAt(fmt, rows, k));
    forall i | 0 <= i < |order|
      ensures ratings[i] == expected[i]
    {
      assert ReviewMapper.MapFromDynamoDocument(fmt, rows[order[i]]) == Ok(reviews[i]);
    }
  }

  /**
   * The query returns the reviews in an order the table does not fix; whichever order
   * it is, the same average is written.
   */
  lemma AverageIndependentOfOrder(fmt: NumberFormat, rows: Rows, summary: RestaurantSummary,
                                  order1: seq<Key>, order2: seq<Key>)
    requires IsListing(rows, ReviewFilter(GuidText(summary.id)), order1)
    requires IsListing(rows, ReviewFilter(GuidText(summary.id)), order2)
    requires ReviewMapper.MapAllFromDynamoDocuments(fmt, RowsAt(rows, order1)).Ok?
    requires ReviewMapper.MapAllFromDynamoDocuments(fmt, RowsAt(rows, order2)).Ok?
    ensures Recompute(fmt, rows, Some(summary), order1) == Recompute(fmt, rows, Some(summary), order2)
  {
    ListingsArePermutations(order1, order2, Selected(rows, ReviewFilter(GuidText(summary.id))));
    ListedRatings(fmt, rows, order1);
    ListedRatings(fmt, rows, order2);
    MapPermutation(order1, order2, k => RatingAt(fmt, rows, k));
    MeanPermutation(Map(order1, k => RatingAt(fmt, rows, k)), Map(order2, k => RatingAt(fmt, rows, k)));
  }

  /** A created review reads back, under its restaurant and its new id, with its rating pinned to 0..5. */
  lemma CreatedReviewIsFound(fmt: NumberFormat, rows: Rows, review: RestaurantReview, summary: RestaurantSummary,
                             newId: Guid, order: seq<Key>)
    requires RoundTrips(fmt, Clamp(review.rating))
    requires var written := Put(rows, ReviewAttributes(fmt, NewReview(review, summary.id, newId)));
             forall i | 0 <= i < |order| :: order[i] in written
    ensures var written := Put(rows, ReviewAttributes(fmt, NewReview(review, summary.id, newId)));
            var after := Recompute(fmt, written, Some(summary), order).1;
            FindReview(fmt, after, GuidText(summary.id), GuidText(newId)) == Ok(Some(NewReview(review, summary.id, newId)))
  {
    var created := NewReview(review, summary.id, newId);
    var written := Put(rows, ReviewAttributes(fmt, created));
    RoundTrip(fmt, created);
    RecomputeKeepsReviews(fmt, written, summary, order, GuidText(summary.id), GuidText(newId));
  }

  /**
   * `UpdateReview` as written stores the rating it is given: every field of the review
   * reads back as given, a rating of 6.5 included.
   */
  lemma UpdatedReviewKeepsRating(fmt: NumberFormat, rows: Rows, review: RestaurantReview)
    requires RoundTrips(fmt, review.rating)
    ensures FindReview(fmt, Updated(rows, ReviewDocument(fmt, review)), GuidText(review.restaurantId), GuidText(review.id))
         == Ok(Some(review))
    ensures review.rating > MaxRating ==>
              FindReview(fmt, Updated(rows, ReviewDocument(fmt, review)),
                         GuidText(review.restaurantId), GuidText(review.id)).value.value.rating > MaxRating
  {
    var document := ReviewDocument(fmt, review);
    var key := ReviewKey(GuidText(review.restaurantId), GuidText(review.id));
    EncodingShape(fmt, review);
    DecodeReadsOnly(fmt, Updated(rows, document)[key], document);
    RoundTrip(fmt, review);
  }

  /** The corrected update stores the rating pinned to 0..5, and the rest of the review as given. */
  lemma ClampedUpdateKeepsRatingInRange(fmt: NumberFormat, rows: Rows, review: RestaurantReview)
    requires RoundTrips(fmt, Clamp(review.rating))
    ensures var pinned := review.(rating := Clamp(review.rating));
            var found := FindReview(fmt, Updated(rows, ReviewDocument(fmt, pinned)),
                                    GuidText(review.restaurantId), GuidText(review.id));
            && found == Ok(Some(pinned))
            && MinRating <= found.value.value.rating <= MaxRating
  {
    UpdatedReviewKeepsRating(fmt, rows, review.(rating := Clamp(review.rating)));
  }

  /**
   * Deleting a restaurant's only review leaves the query nothing to list: written as
   * `Sum / Count`, the average is 0 / 0, which .NET evaluates to NaN.
   */
  lemma DeletingOnlyReviewLeavesNoRatings(fmt: NumberFormat, rows: Rows, restaurantId: string, reviewId: string,
                                          order: seq<Key>)
    requires Selected(rows, ReviewFilter(restaurantId)) == {ReviewKey(restaurantId, reviewId)}
    requires IsListing(Removed(rows, ReviewKey(restaurantId, reviewId)), ReviewFilter(restaurantId), order)
    ensures order == []
    ensures ReviewMapper.MapAllFromDynamoDocuments(fmt, RowsAt(Removed(rows, ReviewKey(restaurantId, reviewId)), order))
         == Ok([])
    ensures MeanAsWritten(RatingsOf([])) == NaN
  {
    var removed := Removed(rows, ReviewKey(restaurantId, reviewId));
    assert Selected(removed, ReviewFilter(restaurantId))
        == Selected(rows, ReviewFilter(restaurantId)) - {ReviewKey(restaurantId, reviewId)};
    EnumeratesNone(order);
    assert RowsAt(removed, order) == [];
  }

  /** A review decoded from a row that carries key `k` names `k`'s partition and the id at the end of `k`'s sort key. */
  lemma DecodedReviewMatchesKey(fmt: NumberFormat, document: Document, k: Key, review: RestaurantReview)
    requires KeyOf(document) == Some(k)
    requires ReviewMapper.MapFromDynamoDocument(fmt, document) == Ok(review)
    ensures GuidText(review.restaurantId) == k.partition
    ensures GuidText(review.id) == ReviewIdOfSortKey(k.sort)
  {
    assert AccessDocumentAttribute(document, "RestaurantId") == Some(k.partition);
    assert AccessDocumentAttribute(document, SortKeyAttribute) == Some(k.sort);
  }

  /**
   * Every review listed for a restaurant is a row of its partition, under a "Review#" sort
   * key whose last segment is the review's id; every review row is listed.
   */
  lemma ListedReviewsBelongToRestaurant(fmt: NumberFormat, rows: Rows, restaurantId: string, order: seq<Key>)
    requires KeysAgree(rows) && IsListing(rows, ReviewFilter(restaurantId), order)
    requires ReviewMapper.MapAllFromDynamoDocuments(fmt, RowsAt(rows, order)).Ok?
    ensures SummaryKey(restaurantId) !in order
    ensures var listed := ReviewMapper.MapAllFromDynamoDocuments(fmt, RowsAt(rows, order)).value;
            && |listed| == |Selected(rows, ReviewFilter(restaurantId))|
            && forall i | 0 <= i < |listed| ::
                 && GuidText(listed[i].restaurantId) == restaurantId == order[i].partition
                 && ReviewPrefix <= order[i].sort
                 && GuidText(listed[i].id) == ReviewIdOfSortKey(order[i].sort)
  {
    SummaryIsNoReviewKey(restaurantId, "");
    EnumerationSize(order, Selected(rows, ReviewFilter(restaurantId)));
    var documents := RowsAt(rows, order);
    var listed := ReviewMapper.MapAllFromDynamoDocuments(fmt, documents).value;
    forall i | 0 <= i < |listed|
      ensures GuidText(listed[i].restaurantId) == order[i].partition
      ensures GuidText(listed[i].id) == ReviewIdOfSortKey(order[i].sort)
    {
      assert ReviewMapper.MapFromDynamoDocument(fmt, documents[i]) == Ok(listed[i]);
      DecodedReviewMatchesKey(fmt, documents[i], order[i], listed[i]);
    }
  }
}
