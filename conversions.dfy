/**
 * The text conversions the mappers rely on, and the exceptions they throw.
 *
 * Number formatting (`double.ToString`) and parsing (`double.Parse`) are not
 * modelled digit by digit: a `NumberFormat` supplies them, and `RoundTrips` states,
 * for one number, the law the mappers need: parsing its text gives it back.
 */
module Conversions {
  import opened Wrappers
  import opened Guids

  /** `double.ToString()` and `double.Parse` (None where .NET throws a FormatException). */
  datatype NumberFormat = NumberFormat(show: real -> string, parse: string -> Option<real>)

  /** `double.Parse(x.ToString()) == x`, and the text is not empty. */
  predicate RoundTrips(fmt: NumberFormat, x: real) {
    fmt.show(x) != "" && fmt.parse(fmt.show(x)) == Some(x)
  }

  /** The .NET exceptions the core can raise. */
  datatype Fault =
    | ArgumentNull(attribute: string)   // null given to Guid.Parse or double.Parse
    | NullReference(what: string)       // a member called on null
    | KeyNotFound(key: string)          // a dictionary indexed at a missing key
    | GuidFormat(text: string)          // Guid.Parse of a text that is no Guid
    | NumberFormatError(text: string)   // double.Parse of a text that is no number

  /** `Guid.Parse(text)` where `text` was read from `attribute`. */
  function GuidParse(text: Option<string>, attribute: string): (r: Result<Guid, Fault>)
    ensures text.None? ==> r == Err(ArgumentNull(attribute))
    ensures r.Ok? <==> text.Some? && IsGuidText(text.value)
    ensures r.Ok? ==> GuidText(r.value) == text.value
  {
    match text
    case None => Err(ArgumentNull(attribute))
    case Some(t) =>
      match ParseGuid(t)
      case None => Err(GuidFormat(t))
      case Some(g) => GuidTextOfParse(t); Ok(g)
  }

  /** `double.Parse(text)` where `text` was read from `attribute`. */
  function DoubleParse(fmt: NumberFormat, text: Option<string>, attribute: string): (r: Result<real, Fault>)
    ensures text.None? ==> r == Err(ArgumentNull(attribute))
    ensures text.Some? ==> (r.Ok? <==> fmt.parse(text.value).Some?)
    ensures r.Ok? ==> fmt.parse(text.value) == Some(r.value)
  {
    match text
    case None => Err(ArgumentNull(attribute))
    case Some(t) =>
      match fmt.parse(t)
      case None => Err(NumberFormatError(t))
      case Some(x) => Ok(x)
  }
}
