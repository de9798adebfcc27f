/**
 * Stored items and the attribute lookup helper.
 *
 * DynamoDB's low-level attribute dictionary and the higher-level `Document`
 * are both a map from attribute name to a tagged value: `S` for string text,
 * `N` for number text, `Null` for DynamoDB's null, `L` for a list.
 */
module DocumentModel {
  import opened Wrappers

  datatype Value = S(text: string) | N(text: string) | Null | L(items: seq<Value>)

  type Document = map<string, Value>

  /** Whether a value is a `Primitive` of the document model (a string or a number). */
  predicate IsPrimitive(v: Value) {
    v.S? || v.N?
  }

  /** The value stored when a C# string, possibly null, is assigned to an attribute. */
  function TextValue(t: Option<string>): Value {
    match t
    case None => Null
    case Some(s) => S(s)
  }

  /**
   * `DynamoDBDocumentAccessHelper.AccessDocumentAttribute`: the text of a present
   * primitive attribute, otherwise null. Being a function, it leaves the document as it is.
   */
  function AccessDocumentAttribute(document: Document, attributeName: string): (r: Option<string>)
    ensures attributeName !in document ==> r == None
    ensures r.Some? <==> attributeName in document && IsPrimitive(document[attributeName])
    ensures r.Some? ==> document[attributeName] in {S(r.value), N(r.value)}
  {
    if attributeName in document && IsPrimitive(document[attributeName]) then
      Some(document[attributeName].text)
    else
      None
  }

  /** Reading back a text assigned to an attribute gives the text, null included. */
  lemma AccessTextValue(document: Document, attributeName: string, t: Option<string>)
    requires attributeName in document && document[attributeName] == TextValue(t)
    ensures AccessDocumentAttribute(document, attributeName) == t
  {
  }

  /** A list attribute reads as null: lists are not handled. */
  lemma AccessList(document: Document, attributeName: string, items: seq<Value>)
    requires attributeName in document && document[attributeName] == L(items)
    ensures AccessDocumentAttribute(document, attributeName) == None
  {
  }
}
