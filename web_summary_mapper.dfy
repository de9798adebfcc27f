/**
 * `MKEToolInterview.Models.RestaurantSummaryMapper`, the web project's own copy of
 * the summary mapper, which works on the low-level attribute dictionary.
 *
 * Its encoder builds the same item as the service mapper. Its decoder indexes the
 * dictionary directly (a missing key throws) and reads the `S` or `N` slot of an
 * attribute (null when the value has the other tag). As written it fills `Hours`
 * and `AverageRating` from `RestaurantId`, so it never succeeds;
 * `MapFromDynamoAttributesCorrected` reads them from their own attributes.
 */
module WebSummaryMapper {
  import opened Wrappers
  import opened Guids
  import opened Conversions
  import opened Models
  import opened DocumentModel
  import opened Keys
  import SummaryMapper

  method MapToDynamoAttributes(fmt: NumberFormat, summary: RestaurantSummary) returns (values: Document)
    ensures values == SummaryMapper.SummaryAttributes(fmt, summary)
  {
    values := map[];
    values := values["RestaurantId" := S(GuidText(summary.id))];
    values := values["Name" := TextValue(summary.name)];
    values := values["Address" := TextValue(summary.address)];
    values := values["Description" := TextValue(summary.description)];
    values := values["Hours" := TextValue(summary.hours)];
    if summary.averageRating.Some? {
      values := values[SummaryMapper.AverageRatingAttribute := N(fmt.show(summary.averageRating.value))];
    }
    values := values[SortKeyAttribute := S(SummarySortKey)];
  }

  /** `attributeValues[key]`: a missing key throws `KeyNotFoundException`. */
  function Index(attributeValues: Document, key: string): (r: Result<Value, Fault>)
    ensures r.Ok? <==> key in attributeValues
    ensures r.Ok? ==> r.value == attributeValues[key]
    ensures r.Err? ==> r.error == KeyNotFound(key)
  {
    if key in attributeValues then Ok(attributeValues[key]) else Err(KeyNotFound(key))
  }

  /** `AttributeValue.S`: the text of a string value, null for any other tag. */
  function StringSlot(v: Value): (r: Option<string>)
    ensures r.Some? <==> v.S?
    ensures r.Some? ==> v == S(r.value)
  {
    if v.S? then Some(v.text) else None
  }

  /** `AttributeValue.N`: the text of a number value, null for any other tag. */
  function NumberSlot(v: Value): (r: Option<string>)
    ensures r.Some? <==> v.N?
    ensures r.Some? ==> v == N(r.value)
  {
    if v.N? then Some(v.text) else None
  }

  /** The decoder as written: `Hours` and `AverageRating` come from `RestaurantId`. */
  function MapFromDynamoAttributes(fmt: NumberFormat, attributeValues: Document): Result<RestaurantSummary, Fault> {
    var idValue :- Index(attributeValues, "RestaurantId");
    var id :- GuidParse(StringSlot(idValue), "RestaurantId");
    var name :- Index(attributeValues, "Name");
    var address :- Index(attributeValues, "Address");
    var description :- Index(attributeValues, "Description");
    // `Hours` and `AverageRating` index `RestaurantId` again, which is present by now.
    var averageRating :- DoubleParse(fmt, NumberSlot(idValue), "RestaurantId");
    Ok(RestaurantSummary(
      id, StringSlot(name), StringSlot(address), StringSlot(description),
      StringSlot(idValue), Some(averageRating)))
  }

  /**
   * The decoder as written fails on every input: once `RestaurantId` parses as a
   * Guid it is string-tagged, so its number slot is null and `double.Parse` throws.
   */
  lemma MapFromDynamoAttributesNeverSucceeds(fmt: NumberFormat, attributeValues: Document)
    ensures MapFromDynamoAttributes(fmt, attributeValues).Err?
    ensures "RestaurantId" in attributeValues && attributeValues["RestaurantId"].S?
            && IsGuidText(attributeValues["RestaurantId"].text)
            && "Name" in attributeValues && "Address" in attributeValues && "Description" in attributeValues
            ==> MapFromDynamoAttributes(fmt, attributeValues) == Err(ArgumentNull("RestaurantId"))
  {
  }

  /** In particular it cannot read back what its own encoder wrote. */
  lemma WebDecodeOfEncodeFails(fmt: NumberFormat, summary: RestaurantSummary)
    ensures MapFromDynamoAttributes(fmt, SummaryMapper.SummaryAttributes(fmt, summary))
         == Err(ArgumentNull("RestaurantId"))
  {
    GuidTextHasNoHash(summary.id);
  }

  /** `RestaurantId` is present and holds Guid text, so the decoder reads on past it. */
  predicate IdParses(attributeValues: Document) {
    "RestaurantId" in attributeValues && attributeValues["RestaurantId"].S?
    && IsGuidText(attributeValues["RestaurantId"].text)
  }

  /**
   * The first of the four attributes it indexes that is missing throws `KeyNotFoundException`,
   * in the order the initializer reads them: `RestaurantId`, then (once that parses) `Name`,
   * `Address` and `Description`.
   */
  lemma MissingKeyThrows(fmt: NumberFormat, attributeValues: Document)
    ensures "RestaurantId" !in attributeValues
            ==> MapFromDynamoAttributes(fmt, attributeValues) == Err(KeyNotFound("RestaurantId"))
    ensures IdParses(attributeValues) && "Name" !in attributeValues
            ==> MapFromDynamoAttributes(fmt, attributeValues) == Err(KeyNotFound("Name"))
    ensures IdParses(attributeValues) && "Name" in attributeValues && "Address" !in attributeValues
            ==> MapFromDynamoAttributes(fmt, attributeValues) == Err(KeyNotFound("Address"))
    ensures IdParses(attributeValues) && "Name" in attributeValues && "Address" in attributeValues
            && "Description" !in attributeValues
            ==> MapFromDynamoAttributes(fmt, attributeValues) == Err(KeyNotFound("Description"))
  {
  }

  /**
   * The decoder the code evidently intends: `Hours` from `Hours`, and `AverageRating`
   * null when the encoder left it out, otherwise parsed from its number slot.
   */
  function MapFromDynamoAttributesCorrected(fmt: NumberFormat, attributeValues: Document): Result<RestaurantSummary, Fault> {
    var idValue :- Index(attributeValues, "RestaurantId");
    var id :- GuidParse(StringSlot(idValue), "RestaurantId");
    var name :- Index(attributeValues, "Name");
    var address :- Index(attributeValues, "Address");
    var description :- Index(attributeValues, "Description");
    var hours :- Index(attributeValues, "Hours");
    var averageRating :-
      if SummaryMapper.AverageRatingAttribute in attributeValues then
        var rating :- DoubleParse(fmt, NumberSlot(attributeValues[SummaryMapper.AverageRatingAttribute]),
                                  SummaryMapper.AverageRatingAttribute);
        Ok(Some(rating))
      else
        Ok(None);
    Ok(RestaurantSummary(
      id, StringSlot(name), StringSlot(address), StringSlot(description),
      StringSlot(hours), averageRating))
  }

  /** The corrected decoder reads back every field the encoder wrote. */
  lemma CorrectedRoundTrip(fmt: NumberFormat, summary: RestaurantSummary)
    requires summary.averageRating.Some? ==> RoundTrips(fmt, summary.averageRating.value)
    ensures MapFromDynamoAttributesCorrected(fmt, SummaryMapper.SummaryAttributes(fmt, summary)) == Ok(summary)
  {
    ParseGuidText(summary.id);
    var values := SummaryMapper.SummaryAttributes(fmt, summary);
    assert GuidParse(StringSlot(values["RestaurantId"]), "RestaurantId") == Ok(summary.id);
    assert StringSlot(TextValue(summary.name)) == summary.name;
    assert StringSlot(TextValue(summary.address)) == summary.address;
    assert StringSlot(TextValue(summary.description)) == summary.description;
    assert StringSlot(TextValue(summary.hours)) == summary.hours;
    if summary.averageRating.Some? {
      var v := summary.averageRating.value;
      assert NumberSlot(values[SummaryMapper.AverageRatingAttribute]) == Some(fmt.show(v));
      assert DoubleParse(fmt, Some(fmt.show(v)), SummaryMapper.AverageRatingAttribute) == Ok(v);
    }
  }
}
