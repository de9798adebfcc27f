/**
 * The invariant the review service maintains between a restaurant and its reviews:
 * the summary row holds the mean of the ratings of the review rows in its partition.
 * Creating, updating and deleting a review each preserve it, whatever order the
 * query lists the reviews in.
 */
module ReviewConsistency {
  import opened Wrappers
  import opened Guids
  import opened Conversions
  import opened Models
  import opened DocumentModel
  import opened Keys
  import opened Table
  import opened Permutations
  import opened Ratings
  import opened ReviewMapper
  import opened Restaurants
  import opened Reviews

  /** The review rows of restaurant `restaurantId` are exactly `keys`, decoding to `reviews`. */
  ghost predicate StoresReviews(fmt: NumberFormat, rows: Rows, restaurantId: string,
                                keys: seq<Key>, reviews: seq<RestaurantReview>)
  {
    && KeysAgree(rows)
    && |keys| == |reviews|
    && Enumerates(keys, Selected(rows, ReviewFilter(restaurantId)))
    && (forall i | 0 <= i < |keys| :: keys[i] in rows && MapFromDynamoDocument(fmt, rows[keys[i]]) == Ok(reviews[i]))
  }

  /** The rows hold restaurant `summary` and, as its reviews, `reviews` at `keys`. */
  ghost predicate Stores(fmt: NumberFormat, rows: Rows, summary: RestaurantSummary,
                         keys: seq<Key>, reviews: seq<RestaurantReview>)
  {
    && StoresReviews(fmt, rows, GuidText(summary.id), keys, reviews)
    && FindRestaurant(fmt, rows, GuidText(summary.id)) == Ok(Some(summary))
  }

  /** Whatever order the query lists the restaurant's review rows in, they decode and average as `reviews` do. */
  lemma ListingMean(fmt: NumberFormat, rows: Rows, restaurantId: string, keys: seq<Key>,
                    reviews: seq<RestaurantReview>, order: seq<Key>)
    requires StoresReviews(fmt, rows, restaurantId, keys, reviews)
    requires IsListing(rows, ReviewFilter(restaurantId), order)
    ensures MapAllFromDynamoDocuments(fmt, RowsAt(rows, order)).Ok?
    ensures Mean(RatingsOf(MapAllFromDynamoDocuments(fmt, RowsAt(rows, order)).value)) == Mean(RatingsOf(reviews))
  {
    var documents := RowsAt(rows, order);
    forall i | 0 <= i < |documents|
      ensures MapFromDynamoDocument(fmt, documents[i]).Ok?
    {
      assert order[i] in keys;
      var j :| 0 <= j < |keys| && keys[j] == order[i];
    }
    var g := k => RatingAt(fmt, rows, k);
    ListingsArePermutations(order, keys, Selected(rows, ReviewFilter(restaurantId)));
    ListedRatings(fmt, rows, order);
    assert RatingsOf(reviews) == Map(keys, g);
    MapPermutation(order, keys, g);
    MeanPermutation(Map(order, g), Map(keys, g));
  }

  /** A new restaurant in a fresh partition holds no reviews. */
  lemma CreateRestaurantStep(fmt: NumberFormat, rows: Rows, summary: RestaurantSummary, newId: Guid)
    requires KeysAgree(rows)
    requires forall k | k in rows :: k.partition != GuidText(newId)
    ensures Stores(fmt, Put(rows, SummaryMapper.SummaryAttributes(fmt, NewRestaurant(summary, newId))),
                   NewRestaurant(summary, newId), [], [])
  {
    var created := NewRestaurant(summary, newId);
    var item := SummaryMapper.SummaryAttributes(fmt, created);
    var f := ReviewFilter(GuidText(newId));
    CreatedRestaurantIsFound(fmt, rows, summary, newId);
    PutKeepsKeysAgree(rows, item);
    SelectedAfterPut(rows, item, f);
    SummaryIsNoReviewKey(GuidText(newId), "");
    assert Selected(rows, f) == {};
  }

  /** Recomputing over the listed reviews writes their mean and keeps everything else. */
  lemma RecomputeStep(fmt: NumberFormat, written: Rows, summary: RestaurantSummary, keys: seq<Key>,
                      reviews: seq<RestaurantReview>, order: seq<Key>)
    requires StoresReviews(fmt, written, GuidText(summary.id), keys, reviews)
    requires SummaryKey(GuidText(summary.id)) in written
    requires IsListing(written, ReviewFilter(GuidText(summary.id)), order)
    requires reviews != [] && RoundTrips(fmt, Mean(RatingsOf(reviews)).value)
    ensures Recompute(fmt, written, Some(summary), order).0 == Ok(())
    ensures Stores(fmt, Recompute(fmt, written, Some(summary), order).1,
                   summary.(averageRating := Mean(RatingsOf(reviews))), keys, reviews)
  {
    var id := GuidText(summary.id);
    var updatedSummary := summary.(averageRating := Mean(RatingsOf(reviews)));
    var document := SummaryMapper.SummaryDocument(fmt, updatedSummary);
    ListingMean(fmt, written, id, keys, reviews, order);
    var after := Recompute(fmt, written, Some(summary), order).1;
    assert after == Updated(written, document);
    UpdateWithAverageIsFound(fmt, written, updatedSummary);
    UpdatedKeepsKeysAgree(written, document);
    SelectedAfterUpdate(written, document, ReviewFilter(id));
    SummaryIsNoReviewKey(id, "");
    forall i | 0 <= i < |keys|
      ensures keys[i] in after && after[keys[i]] == written[keys[i]]
    {
      assert keys[i] in Selected(written, ReviewFilter(id));
      assert keys[i] != SummaryKey(id);
    }
  }

  lemma EnumeratesSnoc(keys: seq<Key>, selected: set<Key>, k: Key)
    requires Enumerates(keys, selected) && k !in selected
    ensures Enumerates(keys + [k], selected + {k})
  {
  }

  lemma EnumeratesWithout(keys: seq<Key>, selected: set<Key>, j: nat)
    requires Enumerates(keys, selected) && j < |keys|
    ensures Enumerates(keys[..j] + keys[j + 1..], selected - {keys[j]})
  {
    var rest := keys[..j] + keys[j + 1..];
    forall k | k in selected - {keys[j]}
      ensures k in rest
    {
      var i :| 0 <= i < |keys| && keys[i] == k;
      if i < j {
        assert rest[i] == k;
      } else {
        assert rest[i - 1] == k;
      }
    }
  }

  /** Putting a new review of the restaurant adds it to the restaurant's reviews and keeps the summary row. */
  lemma PutReviewStep(fmt: NumberFormat, rows: Rows, summary: RestaurantSummary, keys: seq<Key>,
                      reviews: seq<RestaurantReview>, created: RestaurantReview)
    requires Stores(fmt, rows, summary, keys, reviews)
    requires created.restaurantId == summary.id && RoundTrips(fmt, created.rating)
    requires ReviewKey(GuidText(summary.id), GuidText(created.id)) !in keys
    ensures var written := Put(rows, ReviewAttributes(fmt, created));
            && StoresReviews(fmt, written, GuidText(summary.id),
                             keys + [ReviewKey(GuidText(summary.id), GuidText(created.id))], reviews + [created])
            && SummaryKey(GuidText(summary.id)) in written
  {
    var id := GuidText(summary.id);
    var f := ReviewFilter(id);
    var key := ReviewKey(id, GuidText(created.id));
    var item := ReviewAttributes(fmt, created);
    var written := Put(rows, item);
    assert Matches(f, key);
    assert key !in rows by {
      assert key !in Selected(rows, f);
    }
    PutKeepsKeysAgree(rows, item);
    SelectedAfterPut(rows, item, f);
    EnumeratesSnoc(keys, Selected(rows, f), key);
    RoundTrip(fmt, created);
    var all := reviews + [created];
    var allKeys := keys + [key];
    forall i | 0 <= i < |allKeys|
      ensures allKeys[i] in written && MapFromDynamoDocument(fmt, written[allKeys[i]]) == Ok(all[i])
    {
      if i < |keys| {
        assert allKeys[i] == keys[i] && all[i] == reviews[i];
      }
    }
  }

  /**
   * `CreateNewReview` on a restaurant it finds adds the review, rating pinned to 0..5,
   * and sets the average to the mean of all its reviews, the new one included.
   */
  lemma CreateReviewStep(fmt: NumberFormat, rows: Rows, summary: RestaurantSummary, keys: seq<Key>,
                         reviews: seq<RestaurantReview>, review: RestaurantReview, newId: Guid,
                         r: Result<Option<Guid>, Fault>, after: Rows, order: seq<Key>)
    requires Stores(fmt, rows, summary, keys, reviews)
    requires ReviewKey(GuidText(summary.id), GuidText(newId)) !in keys
    requires CreatedReview(fmt, rows, review, GuidText(summary.id), newId, r, after, order)
    requires RoundTrips(fmt, Clamp(review.rating))
    requires RoundTrips(fmt, Mean(RatingsOf(reviews + [NewReview(review, summary.id, newId)])).value)
    ensures r == Ok(Some(newId))
    ensures var all := reviews + [NewReview(review, summary.id, newId)];
            Stores(fmt, after, summary.(averageRating := Mean(RatingsOf(all))),
                   keys + [ReviewKey(GuidText(summary.id), GuidText(newId))], all)
  {
    var created := NewReview(review, summary.id, newId);
    var written := Put(rows, ReviewAttributes(fmt, created));
    PutReviewStep(fmt, rows, summary, keys, reviews, created);
    RecomputeStep(fmt, written, summary, keys + [ReviewKey(GuidText(summary.id), GuidText(newId))],
                  reviews + [created], order);
  }

  /**
   * `UpdateReview` of one of a restaurant's reviews replaces it, rating as given, and
   * sets the average to the mean of the reviews after the change.
   */
  lemma UpdateReviewStep(fmt: NumberFormat, rows: Rows, summary: RestaurantSummary, keys: seq<Key>,
                         reviews: seq<RestaurantReview>, j: nat, review: RestaurantReview,
                         r: Result<(), Fault>, after: Rows, order: seq<Key>)
    requires Stores(fmt, rows, summary, keys, reviews)
    requires j < |keys| && review.restaurantId == summary.id
    requires keys[j] == ReviewKey(GuidText(summary.id), GuidText(review.id))
    requires RecomputedAfter(false, fmt, Updated(rows, ReviewDocument(fmt, review)), GuidText(review.restaurantId), r, after, order)
    requires RoundTrips(fmt, review.rating)
    requires RoundTrips(fmt, Mean(RatingsOf(reviews[j := review])).value)
    ensures r == Ok(())
    ensures Stores(fmt, after, summary.(averageRating := Mean(RatingsOf(reviews[j := review]))), keys, reviews[j := review])
  {
    var id := GuidText(summary.id);
    var document := ReviewDocument(fmt, review);
    var written := Updated(rows, document);
    var changed := reviews[j := review];
    UpdatedKeepsKeysAgree(rows, document);
    SelectedAfterUpdate(rows, document, ReviewFilter(id));
    UpdatedReviewKeepsRating(fmt, rows, review);
    SummaryIsNoReviewKey(id, GuidText(review.id));
    assert FindRestaurant(fmt, written, id) == Ok(Some(summary)) by {
      assert written[SummaryKey(id)] == rows[SummaryKey(id)];
    }
    forall i | 0 <= i < |keys|
      ensures keys[i] in written && MapFromDynamoDocument(fmt, written[keys[i]]) == Ok(changed[i])
    {
      if i != j {
        assert keys[i] != keys[j];
      }
    }
    RecomputeStep(fmt, written, summary, keys, changed, order);
  }

  /** Removing one of a restaurant's review rows drops it from its reviews and keeps the summary row. */
  lemma RemoveReviewStep(fmt: NumberFormat, rows: Rows, summary: RestaurantSummary, keys: seq<Key>,
                         reviews: seq<RestaurantReview>, j: nat, reviewId: string)
    requires Stores(fmt, rows, summary, keys, reviews)
    requires j < |keys| && keys[j] == ReviewKey(GuidText(summary.id), reviewId)
    ensures var written := Removed(rows, keys[j]);
            && StoresReviews(fmt, written, GuidText(summary.id), keys[..j] + keys[j + 1..], reviews[..j] + reviews[j + 1..])
            && SummaryKey(GuidText(summary.id)) in written
            && FindRestaurant(fmt, written, GuidText(summary.id)) == Ok(Some(summary))
  {
    var id := GuidText(summary.id);
    var written := Removed(rows, keys[j]);
    var remaining := reviews[..j] + reviews[j + 1..];
    var remainingKeys := keys[..j] + keys[j + 1..];
    RemovedKeepsKeysAgree(rows, keys[j]);
    SelectedAfterRemove(rows, keys[j], ReviewFilter(id));
    EnumeratesWithout(keys, Selected(rows, ReviewFilter(id)), j);
    SummaryIsNoReviewKey(id, reviewId);
    assert FindRestaurant(fmt, written, id) == Ok(Some(summary)) by {
      assert written[SummaryKey(id)] == rows[SummaryKey(id)];
    }
    forall i | 0 <= i < |remainingKeys|
      ensures remainingKeys[i] in written && MapFromDynamoDocument(fmt, written[remainingKeys[i]]) == Ok(remaining[i])
    {
      var source := if i < j then i else i + 1;
      assert remainingKeys[i] == keys[source] && remaining[i] == reviews[source];
      assert keys[source] != keys[j];
    }
  }

  /**
   * `DeleteReview` of one of a restaurant's reviews removes it and, while others remain,
   * sets the average to the mean of those.
   */
  lemma DeleteReviewStep(fmt: NumberFormat, rows: Rows, summary: RestaurantSummary, keys: seq<Key>,
                         reviews: seq<RestaurantReview>, j: nat, reviewId: string,
                         r: Result<(), Fault>, after: Rows, order: seq<Key>)
    requires Stores(fmt, rows, summary, keys, reviews)
    requires j < |keys| && keys[j] == ReviewKey(GuidText(summary.id), reviewId)
    requires RecomputedAfter(false, fmt, Removed(rows, keys[j]), GuidText(summary.id), r, after, order)
    requires |keys| >= 2
    requires RoundTrips(fmt, Mean(RatingsOf(reviews[..j] + reviews[j + 1..])).value)
    ensures r == Ok(())
    ensures var remaining := reviews[..j] + reviews[j + 1..];
            Stores(fmt, after, summary.(averageRating := Mean(RatingsOf(remaining))), keys[..j] + keys[j + 1..], remaining)
  {
    RemoveReviewStep(fmt, rows, summary, keys, reviews, j, reviewId);
    RecomputeStep(fmt, Removed(rows, keys[j]), summary, keys[..j] + keys[j + 1..], reviews[..j] + reviews[j + 1..], order);
  }

  /**
   * The corrected recompute keeps the invariant whether or not reviews remain: the summary
   * then holds the mean of the reviews, which is no average when there are none.
   */
  lemma RecomputeCorrectedStep(fmt: NumberFormat, written: Rows, summary: RestaurantSummary, keys: seq<Key>,
                               reviews: seq<RestaurantReview>, order: seq<Key>)
    requires StoresReviews(fmt, written, GuidText(summary.id), keys, reviews)
    requires SummaryKey(GuidText(summary.id)) in written
    requires IsListing(written, ReviewFilter(GuidText(summary.id)), order)
    requires reviews != [] ==> RoundTrips(fmt, Mean(RatingsOf(reviews)).value)
    ensures RecomputeCorrected(fmt, written, Some(summary), order).0 == Ok(())
    ensures Stores(fmt, RecomputeCorrected(fmt, written, Some(summary), order).1,
                   summary.(averageRating := Mean(RatingsOf(reviews))), keys, reviews)
  {
    var id := GuidText(summary.id);
    var f := ReviewFilter(id);
    EnumerationSize(order, Selected(written, f));
    EnumerationSize(keys, Selected(written, f));
    if reviews != [] {
      RecomputeStep(fmt, written, summary, keys, reviews, order);
    } else {
      assert order == [];
      var cleared := summary.(averageRating := None);
      var document := SummaryMapper.SummaryDocument(fmt, cleared);
      var updated := Updated(written, document);
      var after := RecomputeCorrected(fmt, written, Some(summary), order).1;
      assert RowsAt(written, []) == [];
      assert Mean(RatingsOf([])) == None;
      assert after == AttributeRemoved(updated, SummaryKey(id), SummaryMapper.AverageRatingAttribute);
      RecomputeCorrectedClearsAverage(fmt, written, summary);
      SummaryMapper.EncodingsFixSortKey(fmt, cleared);
      SummaryMapper.EncodingsCopyFields(fmt, cleared);
      UpdatedKeepsKeysAgree(written, document);
      AttributeRemovedKeepsKeysAgree(updated, SummaryKey(id), SummaryMapper.AverageRatingAttribute);
      SelectedAfterUpdate(written, document, f);
      assert Selected(after, f) == Selected(updated, f);
    }
  }

  /**
   * The corrected `DeleteReview` of any one of a restaurant's reviews removes it and sets
   * the average to the mean of the reviews left: no average once the last one is gone.
   */
  lemma DeleteReviewCorrectedStep(fmt: NumberFormat, rows: Rows, summary: RestaurantSummary, keys: seq<Key>,
                                  reviews: seq<RestaurantReview>, j: nat, reviewId: string,
                                  r: Result<(), Fault>, after: Rows, order: seq<Key>)
    requires Stores(fmt, rows, summary, keys, reviews)
    requires j < |keys| && keys[j] == ReviewKey(GuidText(summary.id), reviewId)
    requires RecomputedAfter(true, fmt, Removed(rows, keys[j]), GuidText(summary.id), r, after, order)
    requires |keys| >= 2 ==> RoundTrips(fmt, Mean(RatingsOf(reviews[..j] + reviews[j + 1..])).value)
    ensures r == Ok(())
    ensures var remaining := reviews[..j] + reviews[j + 1..];
            Stores(fmt, after, summary.(averageRating := Mean(RatingsOf(remaining))), keys[..j] + keys[j + 1..], remaining)
    ensures |keys| == 1 ==> FindRestaurant(fmt, after, GuidText(summary.id)) == Ok(Some(summary.(averageRating := None)))
  {
    RemoveReviewStep(fmt, rows, summary, keys, reviews, j, reviewId);
    RecomputeCorrectedStep(fmt, Removed(rows, keys[j]), summary, keys[..j] + keys[j + 1..],
                           reviews[..j] + reviews[j + 1..], order);
  }
}
