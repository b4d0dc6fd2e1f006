/** String helpers with the meaning of the Swift standard-library calls the
    builder makes: `hasSuffix`, `joined(separator:)` and `suffix(_:)`. */
module Strings {
  import opened Wrappers

  predicate HasPrefix(s: string, prefix: string) {
    |prefix| <= |s| && s[..|prefix|] == prefix
  }

  predicate HasSuffix(s: string, suffix: string) {
    |suffix| <= |s| && s[|s| - |suffix|..] == suffix
  }

  /** `parts.joined(separator: separator)`. */
  function Join(parts: seq<string>, separator: string): string
    decreases |parts|
  {
    if |parts| == 0 then ""
    else if |parts| == 1 then parts[0]
    else parts[0] + separator + Join(parts[1..], separator)
  }

  /** `s.suffix(maxLength)`: the last `maxLength` characters, or all of `s`
      when it is shorter. */
  function Tail(s: string, maxLength: nat): (r: string)
    ensures |r| == if |s| <= maxLength then |s| else maxLength
    ensures HasSuffix(s, r)
  {
    if |s| <= maxLength then s else s[|s| - maxLength..]
  }

  /** Wraps `s` in double quotes, as the archive arguments do for the
      project and the scheme. */
  function Quote(s: string): string {
    "\"" + s + "\""
  }

  /** Strips one pair of surrounding double quotes, if present. */
  function Unquote(s: string): (r: Option<string>)
    ensures r.Some? ==> Quote(r.value) == s
  {
    if 2 <= |s| && s[0] == '"' && s[|s| - 1] == '"' then Some(s[1..|s| - 1]) else None
  }

  lemma UnquoteQuote(s: string)
    ensures Unquote(Quote(s)) == Some(s)
  {
  }

  lemma PrefixOfConcat(a: string, b: string)
    ensures HasPrefix(a + b, a)
  {
  }

  lemma SuffixOfConcat(a: string, b: string)
    ensures HasSuffix(a + b, b)
  {
  }

  /** `a + b + c` starts with `a` and ends with `c`. */
  lemma PrefixSuffixOfConcat(a: string, b: string, c: string)
    ensures HasPrefix(a + b + c, a) && HasSuffix(a + b + c, c)
  {
    assert a + b + c == a + (b + c);
    PrefixOfConcat(a, b + c);
    SuffixOfConcat(a + b, c);
  }
}
