/**
 * `MKEToolInterview.Service.RestaurantService`: create, list, read, update and
 * delete restaurants, each a row at sort key "Summary" of its own partition.
 *
 * `Guid.NewGuid()` is the parameter `newId`; the table is the `Store` the
 * service shares with the review service.
 */
module Restaurants {
  import opened Wrappers
  import opened Guids
  import opened Conversions
  import opened Models
  import opened DocumentModel
  import opened Keys
  import opened Table
  import opened SummaryMapper

  /**
   * What `GetRestaurantById(id)` returns for the rows: null exactly when there is no summary
   * row; otherwise the decoded row, or the fault decoding it throws.
   */
  function FindRestaurant(fmt: NumberFormat, rows: Rows, id: string): (r: Result<Option<RestaurantSummary>, Fault>)
    ensures r == Ok(None) <==> SummaryKey(id) !in rows
    ensures SummaryKey(id) in rows ==> r.Ok? == MapFromDynamoDocument(fmt, rows[SummaryKey(id)]).Ok?
    ensures SummaryKey(id) in rows && r.Ok? ==> r.value.Some?
    ensures SummaryKey(id) in rows && r.Err? ==> r.error == MapFromDynamoDocument(fmt, rows[SummaryKey(id)]).error
    ensures r.Ok? && r.value.Some? ==> SummaryKey(id) in rows
                                       && MapFromDynamoDocument(fmt, rows[SummaryKey(id)]) == Ok(r.value.value)
  {
    if SummaryKey(id) in rows then
      var summary :- MapFromDynamoDocument(fmt, rows[SummaryKey(id)]);
      Ok(Some(summary))
    else
      Ok(None)
  }

  /** The restaurant `CreateNewRestaurant` stores: the new id, and no average until there are reviews. */
  function NewRestaurant(summary: RestaurantSummary, newId: Guid): (created: RestaurantSummary)
    ensures created.id == newId && created.averageRating == None
    ensures created.(id := summary.id, averageRating := summary.averageRating) == summary
  {
    summary.(id := newId, averageRating := None)
  }

  class RestaurantService {
    const store: Store
    const fmt: NumberFormat

    ghost predicate Valid()
      reads this, store
    {
      store.Valid()
    }

    constructor (store: Store, fmt: NumberFormat)
      ensures this.store == store && this.fmt == fmt
    {
      this.store := store;
      this.fmt := fmt;
    }

    /** Stores the summary under a new id with no average, replacing nothing else. */
    method CreateNewRestaurant(summary: RestaurantSummary, newId: Guid) returns (id: Guid)
      requires Valid()
      modifies store
      ensures Valid()
      ensures id == newId
      ensures store.rows == Put(old(store.rows), SummaryAttributes(fmt, NewRestaurant(summary, newId)))
    {
      var created := summary.(id := newId);
      created := created.(averageRating := None);
      var attributeValues := MapToDynamoAttributes(fmt, created);
      store.BatchWritePut(attributeValues);
      id := created.id;
    }

    /** Scans every summary row, drains the pages, and decodes them in the order they came. */
    method GetAllRestaurants() returns (r: Result<seq<RestaurantSummary>, Fault>, ghost order: seq<Key>)
      requires Valid()
      ensures IsListing(store.rows, SummaryFilter, order)
      ensures r == MapAllFromDynamoDocuments(fmt, RowsAt(store.rows, order))
      ensures r.Ok? ==> && |r.value| == |Selected(store.rows, SummaryFilter)|
                        && forall i | 0 <= i < |r.value| ::
                             FindRestaurant(fmt, store.rows, GuidText(r.value[i].id)) == Ok(Some(r.value[i]))
    {
      var search := store.Search(SummaryFilter);
      order := search.order;
      var results: seq<Document> := [];
      var page := search.GetNextSet();
      results := results + page;
      while !search.IsDone()
        invariant 1 <= search.position <= |search.pages|
        invariant results == Flatten(search.pages[..search.position])
        decreases |search.pages| - search.position
      {
        FlattenSnoc(search.pages, search.position);
        page := search.GetNextSet();
        results := results + page;
      }
      assert search.pages[..search.position] == search.pages;
      r := MapAllFromDynamoDocuments(fmt, results);
      if r.Ok? {
        ListedRestaurantsAreTheSummaryRows(fmt, store.rows, order);
      }
    }

    /** The summary row at `(id, "Summary")` decoded; null exactly when there is no such row. */
    method GetRestaurantById(id: string) returns (r: Result<Option<RestaurantSummary>, Fault>)
      requires Valid()
      ensures r == FindRestaurant(fmt, store.rows, id)
      ensures r == Ok(None) <==> SummaryKey(id) !in store.rows
      ensures SummaryKey(id) in store.rows ==>
                r == (match MapFromDynamoDocument(fmt, store.rows[SummaryKey(id)])
                      case Ok(summary) => Ok(Some(summary))
                      case Err(e) => Err(e))
    {
      var restaurantDoc := store.GetItem(id, SummarySortKey);
      r := Ok(None);
      if restaurantDoc.Some? {
        var summary :- MapFromDynamoDocument(fmt, restaurantDoc.value);
        r := Ok(Some(summary));
      }
    }

    /** Merges the summary's document into its row (creating the row if there is none). */
    method UpdateRestaurant(summary: RestaurantSummary)
      requires Valid()
      modifies store
      ensures Valid()
      ensures store.rows == Updated(old(store.rows), SummaryDocument(fmt, summary))
    {
      var document := MapToDynamoDocument(fmt, summary);
      store.UpdateItem(document);
    }

    /** Deletes the summary row only; the restaurant's reviews stay. */
    method DeleteRestaurant(id: string)
      requires Valid()
      modifies store
      ensures Valid()
      ensures store.rows == Removed(old(store.rows), SummaryKey(id))
    {
      store.DeleteItem(id, SummarySortKey);
    }
  }

  /** A restaurant found by id carries that id: the id text is a Guid's and parses back to it. */
  lemma FoundRestaurantHasItsId(fmt: NumberFormat, rows: Rows, id: string)
    requires KeysAgree(rows)
    requires FindRestaurant(fmt, rows, id).Ok? && FindRestaurant(fmt, rows, id).value.Some?
    ensures GuidText(FindRestaurant(fmt, rows, id).value.value.id) == id
    ensures ParseGuid(id) == Some(FindRestaurant(fmt, rows, id).value.value.id)
  {
    var document := rows[SummaryKey(id)];
    assert KeyOf(document) == Some(SummaryKey(id));
    assert AccessDocumentAttribute(document, "RestaurantId") == Some(id);
    ParseGuidText(FindRestaurant(fmt, rows, id).value.value.id);
  }

  /** After a create, reading the new id gives the stored restaurant back. */
  lemma CreatedRestaurantIsFound(fmt: NumberFormat, rows: Rows, summary: RestaurantSummary, newId: Guid)
    ensures var created := NewRestaurant(summary, newId);
            FindRestaurant(fmt, Put(rows, SummaryAttributes(fmt, created)), GuidText(newId)) == Ok(Some(created))
  {
    RoundTrip(fmt, NewRestaurant(summary, newId));
  }

  /** Every listed restaurant is the decoded summary row of its own partition, and all are listed. */
  lemma ListedRestaurantsAreTheSummaryRows(fmt: NumberFormat, rows: Rows, order: seq<Key>)
    requires KeysAgree(rows) && IsListing(rows, SummaryFilter, order)
    requires MapAllFromDynamoDocuments(fmt, RowsAt(rows, order)).Ok?
    ensures var listed := MapAllFromDynamoDocuments(fmt, RowsAt(rows, order)).value;
            && |listed| == |Selected(rows, SummaryFilter)|
            && forall i | 0 <= i < |listed| ::
                 order[i] == SummaryKey(GuidText(listed[i].id))
                 && FindRestaurant(fmt, rows, GuidText(listed[i].id)) == Ok(Some(listed[i]))
  {
    EnumerationSize(order, Selected(rows, SummaryFilter));
    var listed := MapAllFromDynamoDocuments(fmt, RowsAt(rows, order)).value;
    forall i | 0 <= i < |listed|
      ensures order[i] == SummaryKey(GuidText(listed[i].id))
      ensures FindRestaurant(fmt, rows, GuidText(listed[i].id)) == Ok(Some(listed[i]))
    {
      var document := rows[order[i]];
      assert MapFromDynamoDocument(fmt, document) == Ok(listed[i]);
      assert KeyOf(document) == Some(order[i]);
      assert AccessDocumentAttribute(document, "RestaurantId") == Some(order[i].partition);
      assert GuidText(listed[i].id) == order[i].partition;
    }
  }

  /** An update that carries an average stores the whole summary: reading it back gives exactly it. */
  lemma UpdateWithAverageIsFound(fmt: NumberFormat, rows: Rows, summary: RestaurantSummary)
    requires summary.averageRating.Some? && RoundTrips(fmt, summary.averageRating.value)
    ensures FindRestaurant(fmt, Updated(rows, SummaryDocument(fmt, summary)), GuidText(summary.id)) == Ok(Some(summary))
  {
    var document := SummaryDocument(fmt, summary);
    var updated := Updated(rows, document);
    EncodingKeySet(fmt, summary);
    DecodeReadsOnly(fmt, updated[SummaryKey(GuidText(summary.id))], document);
    RoundTrip(fmt, summary);
  }

  /**
   * An update without an average leaves the stored one as it was: the document omits
   * `AverageRating`, and the merge keeps the row's attribute.
   */
  lemma UpdateWithoutAverageKeepsStored(fmt: NumberFormat, rows: Rows, summary: RestaurantSummary)
    requires summary.averageRating.None?
    requires SummaryKey(GuidText(summary.id)) in rows
    ensures var k := SummaryKey(GuidText(summary.id));
            var previous := rows[k];
            var updated := Updated(rows, SummaryDocument(fmt, summary))[k];
            && (AverageRatingAttribute in updated <==> AverageRatingAttribute in previous)
            && (AverageRatingAttribute in previous ==> updated[AverageRatingAttribute] == previous[AverageRatingAttribute])
            && (ReadAverageRating(fmt, previous).Ok? ==>
                  FindRestaurant(fmt, Updated(rows, SummaryDocument(fmt, summary)), GuidText(summary.id))
                  == Ok(Some(summary.(averageRating := ReadAverageRating(fmt, previous).value))))
  {
    var k := SummaryKey(GuidText(summary.id));
    var document := SummaryDocument(fmt, summary);
    var previous := rows[k];
    var updated := Updated(rows, document)[k];
    EncodingKeySet(fmt, summary);
    assert AccessDocumentAttribute(updated, AverageRatingAttribute) == AccessDocumentAttribute(previous, AverageRatingAttribute);
    if ReadAverageRating(fmt, previous).Ok? {
      var stored := summary.(averageRating := ReadAverageRating(fmt, previous).value);
      ParseGuidText(summary.id);
      assert AccessDocumentAttribute(updated, "RestaurantId") == Some(GuidText(summary.id));
      assert MapFromDynamoDocument(fmt, updated) == Ok(stored);
    }
  }

  /** Deleting a restaurant removes its summary row and nothing else: its reviews stay. */
  lemma DeleteRestaurantKeepsReviews(fmt: NumberFormat, rows: Rows, id: string)
    ensures FindRestaurant(fmt, Removed(rows, SummaryKey(id)), id) == Ok(None)
    ensures Selected(Removed(rows, SummaryKey(id)), ReviewFilter(id)) == Selected(rows, ReviewFilter(id))
  {
    forall k | k in Selected(rows, ReviewFilter(id))
      ensures k != SummaryKey(id)
    {
      SummaryIsNoReviewKey(id, "");
    }
  }
}
