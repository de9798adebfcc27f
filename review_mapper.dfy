/**
 * `MKEToolInterview.Service.Mappers.RestaurantReviewMapper`: a review to and from
 * its row. The sort key is "Review#" followed by the review id's text; the decoder
 * takes the id back as the last `#`-separated segment of the sort key.
 */
module ReviewMapper {
  import opened Wrappers
  import opened Guids
  import opened Text
  import opened Conversions
  import opened Models
  import opened DocumentModel
  import opened Keys

  const RatingAttribute := "Rating"

  /** The attributes of every review encoding. */
  const ReviewAttributeNames: set<string> := {"RestaurantId", "SortKey", "Rating", "User", "ReviewText"}

  /** The item `MapToDynamoAttributes` builds. */
  function ReviewAttributes(fmt: NumberFormat, review: RestaurantReview): (values: Document)
    ensures KeyOf(values) == Some(ReviewKey(GuidText(review.restaurantId), GuidText(review.id)))
  {
    map[
      "RestaurantId" := S(GuidText(review.restaurantId)),
      SortKeyAttribute := S(ReviewSortKey(GuidText(review.id))),
      RatingAttribute := N(fmt.show(review.rating)),
      "User" := TextValue(review.user),
      "ReviewText" := TextValue(review.reviewText)]
  }

  /** The document `MapToDynamoDocument` builds. */
  function ReviewDocument(fmt: NumberFormat, review: RestaurantReview): (document: Document)
    ensures KeyOf(document) == Some(ReviewKey(GuidText(review.restaurantId), GuidText(review.id)))
  {
    map[
      "RestaurantId" := S(GuidText(review.restaurantId)),
      SortKeyAttribute := S(ReviewSortKey(GuidText(review.id))),
      RatingAttribute := S(fmt.show(review.rating)),
      "User" := TextValue(review.user),
      "ReviewText" := TextValue(review.reviewText)]
  }

  method MapToDynamoAttributes(fmt: NumberFormat, review: RestaurantReview) returns (values: Document)
    ensures values == ReviewAttributes(fmt, review)
  {
    values := map[];
    values := values["RestaurantId" := S(GuidText(review.restaurantId))];
    values := values[SortKeyAttribute := S(ReviewSortKey(GuidText(review.id)))];
    values := values[RatingAttribute := N(fmt.show(review.rating))];
    values := values["User" := TextValue(review.user)];
    values := values["ReviewText" := TextValue(review.reviewText)];
  }

  method MapToDynamoDocument(fmt: NumberFormat, review: RestaurantReview) returns (document: Document)
    ensures document == ReviewDocument(fmt, review)
  {
    document := map[];
    document := document["RestaurantId" := S(GuidText(review.restaurantId))];
    document := document[SortKeyAttribute := S(ReviewSortKey(GuidText(review.id)))];
    document := document[RatingAttribute := S(fmt.show(review.rating))];
    document := document["User" := TextValue(review.user)];
    document := document["ReviewText" := TextValue(review.reviewText)];
  }

  /** `sortKey.Split("#").Last()`: the text after the last `#`, or all of it. */
  function ReviewIdOfSortKey(sortKey: string): string {
    Last(Split(sortKey, '#'))
  }

  function MapFromDynamoDocument(fmt: NumberFormat, document: Document): Result<RestaurantReview, Fault> {
    var sortKey := AccessDocumentAttribute(document, SortKeyAttribute);
    if sortKey.None? then
      Err(NullReference(SortKeyAttribute))
    else
      var reviewId := ReviewIdOfSortKey(sortKey.value);
      var restaurantId :- GuidParse(AccessDocumentAttribute(document, "RestaurantId"), "RestaurantId");
      var id :- GuidParse(Some(reviewId), SortKeyAttribute);
      var rating :- DoubleParse(fmt, AccessDocumentAttribute(document, RatingAttribute), RatingAttribute);
      Ok(RestaurantReview(
        restaurantId,
        id,
        rating,
        AccessDocumentAttribute(document, "User"),
        AccessDocumentAttribute(document, "ReviewText")))
  }

  /** `documents.Select(MapFromDynamoDocument)`, enumerated: the first failure is thrown. */
  function MapAllFromDynamoDocuments(fmt: NumberFormat, documents: seq<Document>): (r: Result<seq<RestaurantReview>, Fault>)
    ensures r.Ok? <==> forall i | 0 <= i < |documents| :: MapFromDynamoDocument(fmt, documents[i]).Ok?
    ensures r.Ok? ==> |r.value| == |documents|
                      && forall i | 0 <= i < |documents| :: MapFromDynamoDocument(fmt, documents[i]) == Ok(r.value[i])
  {
    if documents == [] then
      Ok([])
    else
      var first :- MapFromDynamoDocument(fmt, documents[0]);
      var rest :- MapAllFromDynamoDocuments(fmt, documents[1..]);
      Ok([first] + rest)
  }

  /**
   * Both encoders key the row by the owning restaurant's id text and "Review#" + the
   * review id's text, and have exactly the five review attributes, `Rating` included.
   */
  lemma EncodingShape(fmt: NumberFormat, review: RestaurantReview)
    ensures forall e | e in {ReviewAttributes(fmt, review), ReviewDocument(fmt, review)} ::
      && e.Keys == ReviewAttributeNames
      && e["RestaurantId"] == S(GuidText(review.restaurantId))
      && e[SortKeyAttribute] == S(ReviewPrefix + GuidText(review.id))
      && e["User"] == TextValue(review.user)
      && e["ReviewText"] == TextValue(review.reviewText)
    ensures ReviewAttributes(fmt, review)[RatingAttribute] == N(fmt.show(review.rating))
    ensures ReviewDocument(fmt, review)[RatingAttribute] == S(fmt.show(review.rating))
  {
  }

  /** The id the decoder takes from a review sort key is the review id's text. */
  lemma IdOfReviewSortKey(id: Guid)
    ensures ReviewIdOfSortKey(ReviewSortKey(GuidText(id))) == GuidText(id)
  {
    GuidTextHasNoHash(id);
    assert ReviewSortKey(GuidText(id)) == "Review" + ['#'] + GuidText(id);
    LastSegment("Review", '#', GuidText(id));
  }

  /** A sort key without `#` is taken whole as the id. */
  lemma IdOfPlainSortKey(sortKey: string)
    requires '#' !in sortKey
    ensures ReviewIdOfSortKey(sortKey) == sortKey
  {
    SplitWithoutSeparator(sortKey, '#');
  }

  /** The summary row's sort key gives the id "Summary", which is no Guid: a summary row is no review. */
  lemma SummaryRowIsNoReview(fmt: NumberFormat, document: Document)
    requires AccessDocumentAttribute(document, SortKeyAttribute) == Some(SummarySortKey)
    requires GuidParse(AccessDocumentAttribute(document, "RestaurantId"), "RestaurantId").Ok?
    ensures ReviewIdOfSortKey(SummarySortKey) == SummarySortKey
    ensures MapFromDynamoDocument(fmt, document) == Err(GuidFormat(SummarySortKey))
  {
    IdOfPlainSortKey(SummarySortKey);
  }

  /** Decoding fails when the sort key or the rating is missing. */
  lemma MissingAttributesFail(fmt: NumberFormat, document: Document)
    requires SortKeyAttribute !in document || RatingAttribute !in document
    ensures MapFromDynamoDocument(fmt, document).Err?
    ensures SortKeyAttribute !in document ==> MapFromDynamoDocument(fmt, document) == Err(NullReference(SortKeyAttribute))
  {
  }

  /** Decoding either encoding gives back every field of the review. */
  lemma RoundTrip(fmt: NumberFormat, review: RestaurantReview)
    requires RoundTrips(fmt, review.rating)
    ensures MapFromDynamoDocument(fmt, ReviewAttributes(fmt, review)) == Ok(review)
    ensures MapFromDynamoDocument(fmt, ReviewDocument(fmt, review)) == Ok(review)
  {
    ParseGuidText(review.restaurantId);
    ParseGuidText(review.id);
    IdOfReviewSortKey(review.id);
    var text := fmt.show(review.rating);
    assert DoubleParse(fmt, Some(text), RatingAttribute) == Ok(review.rating);
  }

  /** The decoder reads only the five review attributes: a row that agrees with a document on them decodes alike. */
  lemma DecodeReadsOnly(fmt: NumberFormat, row: Document, document: Document)
    requires forall a | a in ReviewAttributeNames ::
               (a in row <==> a in document) && (a in row ==> row[a] == document[a])
    ensures MapFromDynamoDocument(fmt, row) == MapFromDynamoDocument(fmt, document)
  {
    assert AccessDocumentAttribute(row, SortKeyAttribute) == AccessDocumentAttribute(document, SortKeyAttribute);
    assert AccessDocumentAttribute(row, "RestaurantId") == AccessDocumentAttribute(document, "RestaurantId");
    assert AccessDocumentAttribute(row, RatingAttribute) == AccessDocumentAttribute(document, RatingAttribute);
  }
}
