/** `string.Split` on a one-character separator, and LINQ's `Last`. */
module Text {

  /** `s.Split(sep)`: the segments between occurrences of `sep`, empty ones included. */
  function Split(s: string, sep: char): (parts: seq<string>)
    ensures |parts| >= 1
    ensures forall i | 0 <= i < |parts| :: sep !in parts[i]
    ensures Join(parts, sep) == s
    decreases |s|
  {
    if s == [] then
      [""]
    else
      var rest := Split(s[1..], sep);
      if s[0] == sep then
        [""] + rest
      else
        assert Join(rest, sep) == s[1..];
        JoinConsFirst(s[0], rest, sep);
        [[s[0]] + rest[0]] + rest[1..]
  }

  /** `string.Join(sep, parts)`: the segments with `sep` between neighbours. */
  function Join(parts: seq<string>, sep: char): string
    requires |parts| >= 1
  {
    if |parts| == 1 then parts[0] else parts[0] + [sep] + Join(parts[1..], sep)
  }

  lemma JoinConsFirst(c: char, parts: seq<string>, sep: char)
    requires |parts| >= 1
    ensures Join([[c] + parts[0]] + parts[1..], sep) == [c] + Join(parts, sep)
  {
    var q := [[c] + parts[0]] + parts[1..];
    assert q[1..] == parts[1..];
  }

  /** LINQ's `Last()` on a non-empty sequence. */
  function Last<T>(s: seq<T>): T
    requires |s| > 0
  {
    s[|s| - 1]
  }

  /** A string without the separator splits into itself alone. */
  lemma {:induction false} SplitWithoutSeparator(s: string, sep: char)
    requires sep !in s
    ensures Split(s, sep) == [s]
    decreases |s|
  {
    if s != [] {
      SplitWithoutSeparator(s[1..], sep);
      assert [s[0]] + s[1..] == s;
    }
  }

  /** The last segment of `s + [sep] + t` is `t` when `t` has no separator. */
  lemma {:induction false} LastSegment(s: string, sep: char, t: string)
    requires sep !in t
    ensures |Split(s + [sep] + t, sep)| >= 2
    ensures Last(Split(s + [sep] + t, sep)) == t
    decreases |s|
  {
    var whole := s + [sep] + t;
    if s == [] {
      assert whole[1..] == t;
      SplitWithoutSeparator(t, sep);
    } else {
      assert whole[1..] == s[1..] + [sep] + t;
      LastSegment(s[1..], sep, t);
    }
  }
}
