/**
 * Globally unique identifiers and their canonical text.
 *
 * A Guid is kept as the 32 lower-case hexadecimal digits of its text. Its text
 * is the hyphenated 8-4-4-4-12 form that .NET's `Guid.ToString()` produces,
 * and `ParseGuid` accepts exactly that form, so the two are inverse.
 */
module Guids {
  import opened Wrappers

  predicate IsHexDigit(c: char) {
    '0' <= c <= '9' || 'a' <= c <= 'f'
  }

  type HexDigit = c: char | IsHexDigit(c) witness '0'

  type Guid = d: seq<HexDigit> | |d| == 32 witness seq(32, _ => '0')

  /** The positions of the four hyphens in a Guid's text. */
  predicate IsHyphenAt(i: int) {
    i == 8 || i == 13 || i == 18 || i == 23
  }

  /** The index of the digit shown at text position `i` (not a hyphen position). */
  function DigitIndex(i: int): int {
    if i < 8 then i else if i < 13 then i - 1 else if i < 18 then i - 2 else if i < 23 then i - 3 else i - 4
  }

  /** The text position at which digit `j` is shown. */
  function TextIndex(j: int): int {
    if j < 8 then j else if j < 12 then j + 1 else if j < 16 then j + 2 else if j < 20 then j + 3 else j + 4
  }

  /** `Guid.ToString()`: the digits with hyphens after the 8th, 12th, 16th and 20th. */
  function GuidText(g: Guid): (s: string)
    ensures |s| == 36
  {
    seq(36, i requires 0 <= i < 36 => if IsHyphenAt(i) then '-' else g[DigitIndex(i)])
  }

  /** Whether `s` is the text of some Guid. */
  predicate IsGuidText(s: string) {
    |s| == 36 && forall i | 0 <= i < 36 :: if IsHyphenAt(i) then s[i] == '-' else IsHexDigit(s[i])
  }

  /** `Guid.Parse` on a non-null text: None where .NET throws a FormatException. */
  function ParseGuid(s: string): (r: Option<Guid>)
    ensures r.Some? <==> IsGuidText(s)
  {
    if IsGuidText(s) then
      var d: seq<HexDigit> := seq(32, j requires 0 <= j < 32 => s[TextIndex(j)]);
      Some(d)
    else
      None
  }

  /** A Guid's text never contains the separator `#` of the sort keys. */
  lemma GuidTextHasNoHash(g: Guid)
    ensures '#' !in GuidText(g)
    ensures IsGuidText(GuidText(g))
  {
    var s := GuidText(g);
    forall i | 0 <= i < 36
      ensures s[i] != '#'
    {
      if !IsHyphenAt(i) {
        assert IsHexDigit(g[DigitIndex(i)]);
      }
    }
  }

  /** Parsing a Guid's text gives the Guid back. */
  lemma ParseGuidText(g: Guid)
    ensures ParseGuid(GuidText(g)) == Some(g)
  {
    GuidTextHasNoHash(g);
    var d := ParseGuid(GuidText(g)).value;
    forall j | 0 <= j < 32
      ensures d[j] == g[j]
    {
      assert !IsHyphenAt(TextIndex(j)) && DigitIndex(TextIndex(j)) == j;
    }
    assert d == g;
  }

  /** A text that parses is exactly the text of the Guid it parses to. */
  lemma GuidTextOfParse(s: string)
    requires ParseGuid(s).Some?
    ensures GuidText(ParseGuid(s).value) == s
  {
    var t := GuidText(ParseGuid(s).value);
    forall i | 0 <= i < 36
      ensures t[i] == s[i]
    {
      if !IsHyphenAt(i) {
        assert TextIndex(DigitIndex(i)) == i;
      }
    }
  }

  /** Distinct Guids have distinct texts. */
  lemma GuidTextInjective(g: Guid, h: Guid)
    requires GuidText(g) == GuidText(h)
    ensures g == h
  {
    ParseGuidText(g);
    ParseGuidText(h);
  }
}
