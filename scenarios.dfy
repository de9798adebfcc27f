/**
 * The service test cases, replayed on a fresh, empty table: each method builds the
 * services, makes the calls a test makes, and states what the test asserts.
 */
module Scenarios {
  import opened Wrappers
  import opened Guids
  import opened Conversions
  import opened Models
  import opened DocumentModel
  import opened Keys
  import opened Table
  import opened Ratings
  import SummaryMapper
  import opened Restaurants
  import opened Reviews
  import opened ReviewConsistency

  /** `CreateNewReview` on a restaurant holding `keys`/`reviews`, restated in terms of the invariant. */
  method CreateReview(service: ReviewService, restaurant: RestaurantSummary, keys: seq<Key>,
                      reviews: seq<RestaurantReview>, review: RestaurantReview, newId: Guid)
    requires service.Valid() && Stores(service.fmt, service.store.rows, restaurant, keys, reviews)
    requires ReviewKey(GuidText(restaurant.id), GuidText(newId)) !in keys
    requires RoundTrips(service.fmt, Clamp(review.rating))
    requires RoundTrips(service.fmt, Mean(RatingsOf(reviews + [NewReview(review, restaurant.id, newId)])).value)
    modifies service.store
    ensures service.Valid()
    ensures var all := reviews + [NewReview(review, restaurant.id, newId)];
            Stores(service.fmt, service.store.rows, restaurant.(averageRating := Mean(RatingsOf(all))),
                   keys + [ReviewKey(GuidText(restaurant.id), GuidText(newId))], all)
  {
    ghost var rows := service.store.rows;
    var r, order := service.CreateNewReview(review, GuidText(restaurant.id), newId);
    CreateReviewStep(service.fmt, rows, restaurant, keys, reviews, review, newId, r, service.store.rows, order);
  }

  /** `UpdateReview` of the `j`-th review, restated in terms of the invariant. */
  method UpdateReview(service: ReviewService, restaurant: RestaurantSummary, keys: seq<Key>,
                      reviews: seq<RestaurantReview>, j: nat, review: RestaurantReview)
    requires service.Valid() && Stores(service.fmt, service.store.rows, restaurant, keys, reviews)
    requires j < |keys| && review.restaurantId == restaurant.id
    requires keys[j] == ReviewKey(GuidText(restaurant.id), GuidText(review.id))
    requires RoundTrips(service.fmt, review.rating)
    requires RoundTrips(service.fmt, Mean(RatingsOf(reviews[j := review])).value)
    modifies service.store
    ensures service.Valid()
    ensures Stores(service.fmt, service.store.rows, restaurant.(averageRating := Mean(RatingsOf(reviews[j := review]))),
                   keys, reviews[j := review])
  {
    ghost var rows := service.store.rows;
    var r, order := service.UpdateReview(review);
    UpdateReviewStep(service.fmt, rows, restaurant, keys, reviews, j, review, r, service.store.rows, order);
  }

  /** `DeleteReview` of the `j`-th of at least two reviews, restated in terms of the invariant. */
  method DeleteReview(service: ReviewService, restaurant: RestaurantSummary, keys: seq<Key>,
                      reviews: seq<RestaurantReview>, j: nat, reviewId: string)
    requires service.Valid() && Stores(service.fmt, service.store.rows, restaurant, keys, reviews)
    requires j < |keys| && keys[j] == ReviewKey(GuidText(restaurant.id), reviewId) && |keys| >= 2
    requires RoundTrips(service.fmt, Mean(RatingsOf(reviews[..j] + reviews[j + 1..])).value)
    modifies service.store
    ensures service.Valid()
    ensures var remaining := reviews[..j] + reviews[j + 1..];
            Stores(service.fmt, service.store.rows, restaurant.(averageRating := Mean(RatingsOf(remaining))),
                   keys[..j] + keys[j + 1..], remaining)
  {
    ghost var rows := service.store.rows;
    var r, order := service.DeleteReview(GuidText(restaurant.id), reviewId);
    DeleteReviewStep(service.fmt, rows, restaurant, keys, reviews, j, reviewId, r, service.store.rows, order);
  }

  /**
   * The corrected `DeleteReview` of a restaurant's only review: the restaurant is left
   * with no reviews and reads back with no average.
   */
  method DeleteOnlyReview(service: ReviewService, restaurant: RestaurantSummary, key: Key,
                          review: RestaurantReview, reviewId: string) returns (average: Option<real>)
    requires service.Valid() && Stores(service.fmt, service.store.rows, restaurant, [key], [review])
    requires key == ReviewKey(GuidText(restaurant.id), reviewId)
    modifies service.store
    ensures service.Valid()
    ensures Stores(service.fmt, service.store.rows, restaurant.(averageRating := None), [], [])
    ensures average == None
  {
    ghost var rows := service.store.rows;
    var r, order := service.DeleteReviewCorrected(GuidText(restaurant.id), reviewId);
    DeleteOnlyStep(service.fmt, rows, restaurant, key, review, reviewId, r, service.store.rows, order);
    average := ReadAverage(service, restaurant.(averageRating := None), [], []);
  }

  /** Deleting a restaurant's only review with the corrected recompute leaves it with no reviews and no average. */
  lemma DeleteOnlyStep(fmt: NumberFormat, rows: Rows, restaurant: RestaurantSummary, key: Key,
                       review: RestaurantReview, reviewId: string, r: Result<(), Fault>, after: Rows, order: seq<Key>)
    requires Stores(fmt, rows, restaurant, [key], [review])
    requires key == ReviewKey(GuidText(restaurant.id), reviewId)
    requires RecomputedAfter(true, fmt, Removed(rows, key), GuidText(restaurant.id), r, after, order)
    ensures Stores(fmt, after, restaurant.(averageRating := None), [], [])
  {
    DeleteReviewCorrectedStep(fmt, rows, restaurant, [key], [review], 0, reviewId, r, after, order);
    assert [key][..0] + [key][1..] == [] && [review][..0] + [review][1..] == [];
    assert Mean(RatingsOf([])) == None;
  }

  /** The restaurant's average as `GetRestaurantById` reads it. */
  method ReadAverage(service: ReviewService, restaurant: RestaurantSummary, keys: seq<Key>,
                     reviews: seq<RestaurantReview>) returns (average: Option<real>)
    requires service.Valid() && Stores(service.fmt, service.store.rows, restaurant, keys, reviews)
    ensures average == restaurant.averageRating
  {
    var found := service.restaurants.GetRestaurantById(GuidText(restaurant.id));
    average := found.value.value.averageRating;
  }

  /** The review the tests post: `template` with the given rating, for restaurant `restaurantId` under id `id`. */
  function Posted(template: RestaurantReview, restaurantId: Guid, id: Guid, rating: real): RestaurantReview {
    NewReview(template.(rating := rating), restaurantId, id)
  }

  function RowOf(restaurantId: Guid, id: Guid): Key {
    ReviewKey(GuidText(restaurantId), GuidText(id))
  }

  /** A first review, rated 2, posted to a restaurant with none. */
  method PostFirst(service: ReviewService, restaurant: RestaurantSummary, template: RestaurantReview, firstId: Guid)
    requires RoundTrips(service.fmt, 2.0)
    requires service.Valid() && Stores(service.fmt, service.store.rows, restaurant, [], [])
    modifies service.store
    ensures service.Valid()
    ensures Stores(service.fmt, service.store.rows, restaurant.(averageRating := Some(2.0)),
                   [RowOf(restaurant.id, firstId)], [Posted(template, restaurant.id, firstId, 2.0)])
  {
    var first := Posted(template, restaurant.id, firstId, 2.0);
    assert [] + [first] == [first];
    assert Mean(RatingsOf([first])) == Some(2.0) by {
      assert RatingsOf([first]) == [2.0];
      assert Sum([2.0]) == 2.0 + Sum([]);
    }
    assert [] + [RowOf(restaurant.id, firstId)] == [RowOf(restaurant.id, firstId)];
    CreateReview(service, restaurant, [], [], template.(rating := 2.0), firstId);
  }

  /** A second review, rated 4, posted after one rated 2. */
  method PostSecond(service: ReviewService, restaurant: RestaurantSummary, template: RestaurantReview,
                    first: RestaurantReview, firstId: Guid, secondId: Guid)
    requires firstId != secondId && first.rating == 2.0
    requires RoundTrips(service.fmt, 4.0) && RoundTrips(service.fmt, 3.0)
    requires service.Valid()
    requires Stores(service.fmt, service.store.rows, restaurant, [RowOf(restaurant.id, firstId)], [first])
    modifies service.store
    ensures service.Valid()
    ensures Stores(service.fmt, service.store.rows, restaurant.(averageRating := Some(3.0)),
                   [RowOf(restaurant.id, firstId), RowOf(restaurant.id, secondId)],
                   [first, Posted(template, restaurant.id, secondId, 4.0)])
  {
    var key1, key2 := RowOf(restaurant.id, firstId), RowOf(restaurant.id, secondId);
    if key1 == key2 {
      ReviewKeyInjective(GuidText(restaurant.id), GuidText(firstId), GuidText(secondId));
      GuidTextInjective(firstId, secondId);
    }
    assert [key1] + [key2] == [key1, key2];
    var second := Posted(template, restaurant.id, secondId, 4.0);
    assert [first] + [second] == [first, second];
    assert Mean(RatingsOf([first, second])) == Some(3.0) by {
      assert RatingsOf([first, second]) == [2.0, 4.0];
      assert [2.0, 4.0][1..] == [4.0];
      assert Sum([2.0, 4.0]) == 2.0 + Sum([4.0]);
      assert Sum([4.0]) == 4.0 + Sum([]);
    }
    CreateReview(service, restaurant, [key1], [first], template.(rating := 4.0), secondId);
  }

  /** The second of two reviews re-rated to 5. */
  method RateSecondFive(service: ReviewService, restaurant: RestaurantSummary, keys: seq<Key>,
                        first: RestaurantReview, second: RestaurantReview)
    requires RoundTrips(service.fmt, 5.0) && RoundTrips(service.fmt, (first.rating + 5.0) / 2.0)
    requires |keys| == 2 && second.restaurantId == restaurant.id
    requires keys[1] == ReviewKey(GuidText(restaurant.id), GuidText(second.id))
    requires service.Valid() && Stores(service.fmt, service.store.rows, restaurant, keys, [first, second])
    modifies service.store
    ensures service.Valid()
    ensures Stores(service.fmt, service.store.rows, restaurant.(averageRating := Some((first.rating + 5.0) / 2.0)),
                   keys, [first, second.(rating := 5.0)])
  {
    var rated := second.(rating := 5.0);
    assert [first, second][1 := rated] == [first, rated];
    assert Mean(RatingsOf([first, rated])) == Some((first.rating + 5.0) / 2.0) by {
      assert RatingsOf([first, rated]) == [first.rating, 5.0];
      assert [first.rating, 5.0][1..] == [5.0];
      assert Sum([first.rating, 5.0]) == first.rating + Sum([5.0]);
      assert Sum([5.0]) == 5.0 + Sum([]);
    }
    UpdateReview(service, restaurant, keys, [first, second], 1, second.(rating := 5.0));
  }

  /** The second of two reviews deleted. */
  method DeleteSecond(service: ReviewService, restaurant: RestaurantSummary, keys: seq<Key>,
                      first: RestaurantReview, second: RestaurantReview, secondId: Guid)
    requires RoundTrips(service.fmt, first.rating)
    requires |keys| == 2 && keys[1] == ReviewKey(GuidText(restaurant.id), GuidText(secondId))
    requires service.Valid() && Stores(service.fmt, service.store.rows, restaurant, keys, [first, second])
    modifies service.store
    ensures service.Valid()
    ensures Stores(service.fmt, service.store.rows, restaurant.(averageRating := Some(first.rating)),
                   [keys[0]], [first])
  {
    assert [first, second][..1] + [first, second][2..] == [first];
    assert keys[..1] + keys[2..] == [keys[0]];
    assert Mean(RatingsOf([first])) == Some(first.rating) by {
      assert RatingsOf([first]) == [first.rating];
      assert Sum([first.rating]) == first.rating + Sum([]);
    }
    DeleteReview(service, restaurant, keys, [first, second], 1, GuidText(secondId));
  }

  /**
   * Reviews rated 2 and 4 give the restaurant an average of 3; updating the second to 5
   * makes it 3.5; deleting the second leaves 2.
   */
  method AverageFollowsReviews(fmt: NumberFormat, summary: RestaurantSummary, template: RestaurantReview,
                               restaurantId: Guid, firstId: Guid, secondId: Guid)
    returns (afterCreates: Option<real>, afterUpdate: Option<real>, afterDelete: Option<real>)
    requires firstId != secondId
    requires RoundTrips(fmt, 2.0) && RoundTrips(fmt, 4.0) && RoundTrips(fmt, 5.0)
    requires RoundTrips(fmt, 3.0) && RoundTrips(fmt, 3.5)
    ensures afterCreates == Some(3.0) && afterUpdate == Some(3.5) && afterDelete == Some(2.0)
  {
    var store := new Store(1);
    var restaurants := new RestaurantService(store, fmt);
    var reviews := new ReviewService(restaurants, store);
    var _ := restaurants.CreateNewRestaurant(summary, restaurantId);
    var restaurant := NewRestaurant(summary, restaurantId);
    CreateRestaurantStep(fmt, map[], summary, restaurantId);

    var keys := [RowOf(restaurantId, firstId), RowOf(restaurantId, secondId)];
    var first := Posted(template, restaurantId, firstId, 2.0);
    var second := Posted(template, restaurantId, secondId, 4.0);
    PostFirst(reviews, restaurant, template, firstId);
    PostSecond(reviews, restaurant.(averageRating := Some(2.0)), template, first, firstId, secondId);
    restaurant := restaurant.(averageRating := Some(3.0));
    afterCreates := ReadAverage(reviews, restaurant, keys, [first, second]);

    RateSecondFive(reviews, restaurant, keys, first, second);
    restaurant := restaurant.(averageRating := Some(3.5));
    afterUpdate := ReadAverage(reviews, restaurant, keys, [first, second.(rating := 5.0)]);

    DeleteSecond(reviews, restaurant, keys, first, second.(rating := 5.0), secondId);
    restaurant := restaurant.(averageRating := Some(2.0));
    afterDelete := ReadAverage(reviews, restaurant, [keys[0]], [first]);
  }

  /**
   * With the empty case corrected: a review rated 2 gives the restaurant an average of 2,
   * and deleting it leaves the restaurant with no average, not the stale 2.
   */
  method LastReviewDeleted(fmt: NumberFormat, summary: RestaurantSummary, template: RestaurantReview,
                           restaurantId: Guid, reviewId: Guid)
    returns (afterCreate: Option<real>, afterDelete: Option<real>)
    requires RoundTrips(fmt, 2.0)
    ensures afterCreate == Some(2.0) && afterDelete == None
  {
    var store := new Store(1);
    var restaurants := new RestaurantService(store, fmt);
    var reviews := new ReviewService(restaurants, store);
    var _ := restaurants.CreateNewRestaurant(summary, restaurantId);
    var restaurant := NewRestaurant(summary, restaurantId);
    CreateRestaurantStep(fmt, map[], summary, restaurantId);

    var review := Posted(template, restaurantId, reviewId, 2.0);
    PostFirst(reviews, restaurant, template, reviewId);
    restaurant := restaurant.(averageRating := Some(2.0));
    afterCreate := ReadAverage(reviews, restaurant, [RowOf(restaurantId, reviewId)], [review]);

    afterDelete := DeleteOnlyReview(reviews, restaurant, RowOf(restaurantId, reviewId), review, GuidText(reviewId));
  }

  /** A created restaurant reads back with its four texts and no average, whatever average it was given. */
  method CreateThenRead(fmt: NumberFormat, summary: RestaurantSummary, newId: Guid)
    returns (found: Result<Option<RestaurantSummary>, Fault>)
    ensures found.Ok? && found.value.Some?
    ensures var read := found.value.value;
            && read.id == newId && read.averageRating == None
            && read.name == summary.name && read.address == summary.address
            && read.description == summary.description && read.hours == summary.hours
  {
    var store := new Store(1);
    var restaurants := new RestaurantService(store, fmt);
    var id := restaurants.CreateNewRestaurant(summary, newId);
    found := restaurants.GetRestaurantById(GuidText(id));
    CreatedRestaurantIsFound(fmt, map[], summary, newId);
  }

  /** An update of a just-created restaurant reads back as exactly the update, average included. */
  method UpdateThenRead(fmt: NumberFormat, summary: RestaurantSummary, update: RestaurantSummary, newId: Guid)
    returns (found: Result<Option<RestaurantSummary>, Fault>)
    requires update.id == newId
    requires update.averageRating.Some? ==> RoundTrips(fmt, update.averageRating.value)
    ensures found == Ok(Some(update))
  {
    var store := new Store(1);
    var restaurants := new RestaurantService(store, fmt);
    var id := restaurants.CreateNewRestaurant(summary, newId);
    ghost var created := store.rows;
    restaurants.UpdateRestaurant(update);
    found := restaurants.GetRestaurantById(GuidText(id));
    if update.averageRating.Some? {
      UpdateWithAverageIsFound(fmt, created, update);
    } else {
      var previous := created[SummaryKey(GuidText(newId))];
      SummaryMapper.EncodingKeySet(fmt, NewRestaurant(summary, newId));
      assert AccessDocumentAttribute(previous, SummaryMapper.AverageRatingAttribute).None?;
      UpdateWithoutAverageKeepsStored(fmt, created, update);
    }
  }

  /** Of two restaurants, deleting the second leaves a listing of exactly the first. */
  method DeleteOneOfTwo(fmt: NumberFormat, first: RestaurantSummary, second: RestaurantSummary,
                        firstId: Guid, secondId: Guid)
    returns (listed: Result<seq<RestaurantSummary>, Fault>)
    requires firstId != secondId
    ensures listed.Ok? && |listed.value| == 1 && listed.value[0].id == firstId
  {
    var store := new Store(1);
    var restaurants := new RestaurantService(store, fmt);
    var id1 := restaurants.CreateNewRestaurant(first, firstId);
    var id2 := restaurants.CreateNewRestaurant(second, secondId);
    restaurants.DeleteRestaurant(GuidText(id2));
    ghost var order;
    listed, order := restaurants.GetAllRestaurants();
    OnlyFirstIsListed(fmt, first, second, firstId, secondId, order);
  }

  /** The table `DeleteOneOfTwo` ends with, and what listing it decodes to. */
  lemma OnlyFirstIsListed(fmt: NumberFormat, first: RestaurantSummary, second: RestaurantSummary,
                          firstId: Guid, secondId: Guid, order: seq<Key>)
    requires firstId != secondId
    requires var rows := Removed(Put(Put(map[], SummaryMapper.SummaryAttributes(fmt, NewRestaurant(first, firstId))),
                                     SummaryMapper.SummaryAttributes(fmt, NewRestaurant(second, secondId))),
                                 SummaryKey(GuidText(secondId)));
             IsListing(rows, SummaryFilter, order)
    ensures var rows := Removed(Put(Put(map[], SummaryMapper.SummaryAttributes(fmt, NewRestaurant(first, firstId))),
                                    SummaryMapper.SummaryAttributes(fmt, NewRestaurant(second, secondId))),
                                SummaryKey(GuidText(secondId)));
            SummaryMapper.MapAllFromDynamoDocuments(fmt, RowsAt(rows, order)) == Ok([NewRestaurant(first, firstId)])
  {
    var item1 := SummaryMapper.SummaryAttributes(fmt, NewRestaurant(first, firstId));
    var item2 := SummaryMapper.SummaryAttributes(fmt, NewRestaurant(second, secondId));
    var k1, k2 := SummaryKey(GuidText(firstId)), SummaryKey(GuidText(secondId));
    if k1 == k2 {
      GuidTextInjective(firstId, secondId);
    }
    var rows1 := Put(map[], item1);
    var rows2 := Put(rows1, item2);
    var rows := Removed(rows2, k2);
    SelectedAfterPut(map[], item1, SummaryFilter);
    SelectedAfterPut(rows1, item2, SummaryFilter);
    SelectedAfterRemove(rows2, k2, SummaryFilter);
    assert Selected(rows, SummaryFilter) == {k1};
    EnumeratesOne(order, k1);
    assert RowsAt(rows, order) == [item1];
    SummaryMapper.RoundTrip(fmt, NewRestaurant(first, firstId));
    assert SummaryMapper.MapFromDynamoDocument(fmt, item1) == Ok(NewRestaurant(first, firstId));
    assert [item1][1..] == [];
    assert SummaryMapper.MapAllFromDynamoDocuments(fmt, []) == Ok([]);
    assert [NewRestaurant(first, firstId)] + [] == [NewRestaurant(first, firstId)];
  }
}
