/**
 * `MKEToolInterview.Service.Mappers.RestaurantSummaryMapper`: a restaurant to and
 * from its summary row. Both encoders force the sort key to "Summary" and omit
 * `AverageRating` when it is null; the attribute-map encoder tags the rating as a
 * number, the document encoder stores it as text.
 */
module SummaryMapper {
  import opened Wrappers
  import opened Guids
  import opened Conversions
  import opened Models
  import opened DocumentModel
  import opened Keys

  const AverageRatingAttribute := "AverageRating"

  /** The attributes every summary encoding has; `AverageRating` comes on top when set. */
  const SummaryAttributeNames: set<string> := {"RestaurantId", "Name", "Address", "Description", "Hours", "SortKey"}

  /** The item `MapToDynamoAttributes` builds. */
  function SummaryAttributes(fmt: NumberFormat, summary: RestaurantSummary): (values: Document)
    ensures KeyOf(values) == Some(SummaryKey(GuidText(summary.id)))
  {
    var values := map[
      "RestaurantId" := S(GuidText(summary.id)),
      "Name" := TextValue(summary.name),
      "Address" := TextValue(summary.address),
      "Description" := TextValue(summary.description),
      "Hours" := TextValue(summary.hours)];
    var values := if summary.averageRating.Some? then values[AverageRatingAttribute := N(fmt.show(summary.averageRating.value))] else values;
    values[SortKeyAttribute := S(SummarySortKey)]
  }

  /** The document `MapToDynamoDocument` builds. */
  function SummaryDocument(fmt: NumberFormat, summary: RestaurantSummary): (document: Document)
    ensures KeyOf(document) == Some(SummaryKey(GuidText(summary.id)))
  {
    var document := map[
      "RestaurantId" := S(GuidText(summary.id)),
      "Name" := TextValue(summary.name),
      "Address" := TextValue(summary.address),
      "Description" := TextValue(summary.description),
      "Hours" := TextValue(summary.hours)];
    var document := if summary.averageRating.Some? then document[AverageRatingAttribute := S(fmt.show(summary.averageRating.value))] else document;
    document[SortKeyAttribute := S(SummarySortKey)]
  }

  method MapToDynamoAttributes(fmt: NumberFormat, summary: RestaurantSummary) returns (values: Document)
    ensures values == SummaryAttributes(fmt, summary)
  {
    values := map[];
    values := values["RestaurantId" := S(GuidText(summary.id))];
    values := values["Name" := TextValue(summary.name)];
    values := values["Address" := TextValue(summary.address)];
    values := values["Description" := TextValue(summary.description)];
    values := values["Hours" := TextValue(summary.hours)];
    if summary.averageRating.Some? {
      values := values[AverageRatingAttribute := N(fmt.show(summary.averageRating.value))];
    }
    values := values[SortKeyAttribute := S(SummarySortKey)];
  }

  method MapToDynamoDocument(fmt: NumberFormat, summary: RestaurantSummary) returns (document: Document)
    ensures document == SummaryDocument(fmt, summary)
  {
    document := map[];
    document := document["RestaurantId" := S(GuidText(summary.id))];
    document := document["Name" := TextValue(summary.name)];
    document := document["Address" := TextValue(summary.address)];
    document := document["Description" := TextValue(summary.description)];
    document := document["Hours" := TextValue(summary.hours)];
    if summary.averageRating.Some? {
      document := document[AverageRatingAttribute := S(fmt.show(summary.averageRating.value))];
    }
    document := document[SortKeyAttribute := S(SummarySortKey)];
  }

  /** The average rating a document holds: null when absent or empty, else its parse. */
  function ReadAverageRating(fmt: NumberFormat, document: Document): Result<Option<real>, Fault> {
    var averageRatingText := AccessDocumentAttribute(document, AverageRatingAttribute);
    if averageRatingText.None? || averageRatingText.value == "" then
      Ok(None)
    else
      var averageRating :- DoubleParse(fmt, averageRatingText, AverageRatingAttribute);
      Ok(Some(averageRating))
  }

  function MapFromDynamoDocument(fmt: NumberFormat, document: Document): Result<RestaurantSummary, Fault> {
    var averageRating :- ReadAverageRating(fmt, document);
    var id :- GuidParse(AccessDocumentAttribute(document, "RestaurantId"), "RestaurantId");
    Ok(RestaurantSummary(
      id,
      AccessDocumentAttribute(document, "Name"),
      AccessDocumentAttribute(document, "Address"),
      AccessDocumentAttribute(document, "Description"),
      AccessDocumentAttribute(document, "Hours"),
      averageRating))
  }

  /** `documents.Select(MapFromDynamoDocument)`, enumerated: the first failure is thrown. */
  function MapAllFromDynamoDocuments(fmt: NumberFormat, documents: seq<Document>): (r: Result<seq<RestaurantSummary>, Fault>)
    ensures r.Ok? <==> forall i | 0 <= i < |documents| :: MapFromDynamoDocument(fmt, documents[i]).Ok?
    ensures r.Ok? ==> |r.value| == |documents|
                      && forall i | 0 <= i < |documents| :: MapFromDynamoDocument(fmt, documents[i]) == Ok(r.value[i])
  {
    if documents == [] then
      Ok([])
    else
      var first :- MapFromDynamoDocument(fmt, documents[0]);
      var rest :- MapAllFromDynamoDocuments(fmt, documents[1..]);
      Ok([first] + rest)
  }

  /** Whatever the input, both encoders put the row at sort key "Summary" of the restaurant's partition. */
  lemma EncodingsFixSortKey(fmt: NumberFormat, summary: RestaurantSummary)
    ensures SummaryAttributes(fmt, summary)[SortKeyAttribute] == S(SummarySortKey)
    ensures SummaryDocument(fmt, summary)[SortKeyAttribute] == S(SummarySortKey)
  {
  }

  /** Both encoders store the id's text and copy the four texts as they are (null as DynamoDB null). */
  lemma EncodingsCopyFields(fmt: NumberFormat, summary: RestaurantSummary)
    ensures forall e | e in {SummaryAttributes(fmt, summary), SummaryDocument(fmt, summary)} ::
      && e["RestaurantId"] == S(GuidText(summary.id))
      && e["Name"] == TextValue(summary.name)
      && e["Address"] == TextValue(summary.address)
      && e["Description"] == TextValue(summary.description)
      && e["Hours"] == TextValue(summary.hours)
  {
  }

  /** The encodings have exactly the six fixed attributes, plus `AverageRating` exactly when it is set. */
  lemma EncodingKeySet(fmt: NumberFormat, summary: RestaurantSummary)
    ensures SummaryAttributes(fmt, summary).Keys
         == SummaryAttributeNames + (if summary.averageRating.Some? then {AverageRatingAttribute} else {})
    ensures SummaryDocument(fmt, summary).Keys == SummaryAttributes(fmt, summary).Keys
    ensures AverageRatingAttribute in SummaryAttributes(fmt, summary) <==> summary.averageRating.Some?
  {
  }

  /**
   * The two encoders agree key for key and text for text; the one difference is
   * the tag of `AverageRating`: a number in the attribute map, a string in the document.
   */
  lemma EncodingsAgree(fmt: NumberFormat, summary: RestaurantSummary)
    ensures var values, document := SummaryAttributes(fmt, summary), SummaryDocument(fmt, summary);
      && values.Keys == document.Keys
      && (forall a | a in values && a != AverageRatingAttribute :: values[a] == document[a])
      && (summary.averageRating.Some? ==>
            var text := fmt.show(summary.averageRating.value);
            values[AverageRatingAttribute] == N(text) && document[AverageRatingAttribute] == S(text))
  {
  }

  /** An absent or empty `AverageRating` decodes to null, never to zero. */
  lemma AbsentAverageIsNull(fmt: NumberFormat, document: Document)
    requires AccessDocumentAttribute(document, AverageRatingAttribute) in {None, Some("")}
    ensures ReadAverageRating(fmt, document) == Ok(None)
    ensures MapFromDynamoDocument(fmt, document).Ok? ==> MapFromDynamoDocument(fmt, document).value.averageRating.None?
  {
  }

  /** Decoding either encoding gives back every field of the summary. */
  lemma RoundTrip(fmt: NumberFormat, summary: RestaurantSummary)
    requires summary.averageRating.Some? ==> RoundTrips(fmt, summary.averageRating.value)
    ensures MapFromDynamoDocument(fmt, SummaryDocument(fmt, summary)) == Ok(summary)
    ensures MapFromDynamoDocument(fmt, SummaryAttributes(fmt, summary)) == Ok(summary)
  {
    ParseGuidText(summary.id);
    var document := SummaryDocument(fmt, summary);
    assert GuidParse(AccessDocumentAttribute(document, "RestaurantId"), "RestaurantId") == Ok(summary.id);
    assert ReadAverageRating(fmt, document) == Ok(summary.averageRating) by {
      if summary.averageRating.Some? {
        var v := summary.averageRating.value;
        assert AccessDocumentAttribute(document, AverageRatingAttribute) == Some(fmt.show(v));
        assert fmt.show(v) != "";
        assert DoubleParse(fmt, Some(fmt.show(v)), AverageRatingAttribute) == Ok(v);
      }
    }
  }

  /**
   * The decoder reads only the six summary attributes and the key: a row that agrees with
   * a document on them decodes as the document does.
   */
  lemma DecodeReadsOnly(fmt: NumberFormat, row: Document, document: Document)
    requires forall a | a in SummaryAttributeNames + {AverageRatingAttribute} ::
               (a in row <==> a in document) && (a in row ==> row[a] == document[a])
    ensures MapFromDynamoDocument(fmt, row) == MapFromDynamoDocument(fmt, document)
  {
    assert AccessDocumentAttribute(row, AverageRatingAttribute) == AccessDocumentAttribute(document, AverageRatingAttribute);
    assert AccessDocumentAttribute(row, "RestaurantId") == AccessDocumentAttribute(document, "RestaurantId");
  }
}
