/** The few string predicates of Rust's `str` that the client relies on. */
module Strings {

  /** `s.starts_with(prefix)` */
  predicate StartsWith(s: string, prefix: string) {
    prefix <= s
  }

  /** `s.ends_with(c)` for a single character */
  predicate EndsWithChar(s: string, c: char) {
    |s| > 0 && s[|s| - 1] == c
  }

  /** `needle` occurs in `hay` starting at index `i` */
  predicate OccursAt(needle: string, hay: string, i: int) {
    0 <= i <= |hay| - |needle| && hay[i..i + |needle|] == needle
  }

  /** `hay.contains(needle)` for a string needle */
  predicate IsSubstring(needle: string, hay: string) {
    exists i | 0 <= i <= |hay| :: OccursAt(needle, hay, i)
  }

  /** `char::is_whitespace`: the Unicode White_Space property. */
  predicate IsWhitespace(c: char) {
    var n := c as int;
    || (0x09 <= n <= 0x0D)
    || n == 0x20
    || n == 0x85
    || n == 0xA0
    || n == 0x1680
    || (0x2000 <= n <= 0x200A)
    || n == 0x2028
    || n == 0x2029
    || n == 0x202F
    || n == 0x205F
    || n == 0x3000
  }

  /** `s.contains(char::is_whitespace)` */
  predicate HasWhitespace(s: string) {
    exists i :: 0 <= i < |s| && IsWhitespace(s[i])
  }

  /** Every character of a substring occurs in the string that contains it. */
  lemma SubstringCharsOccur(needle: string, hay: string, j: nat)
    requires IsSubstring(needle, hay)
    requires j < |needle|
    ensures needle[j] in hay
  {
    var i :| 0 <= i <= |hay| && OccursAt(needle, hay, i);
    assert needle[j] == hay[i..i + |needle|][j] == hay[i + j];
  }
}
