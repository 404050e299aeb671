/**
 * String helpers with JavaScript's meaning: the white-space set shared by
 * `String.prototype.trim` and the regular-expression class `\s`
 * (WhiteSpace and LineTerminator code points of ECMAScript).
 */
module Text {

  /** A code point in ECMAScript's WhiteSpace or LineTerminator set. */
  predicate IsWhitespace(c: char) {
    var n := c as int;
    || n == 0x09 || n == 0x0A || n == 0x0B || n == 0x0C || n == 0x0D
    || n == 0x20 || n == 0xA0 || n == 0x1680
    || (0x2000 <= n <= 0x200A)
    || n == 0x2028 || n == 0x2029 || n == 0x202F || n == 0x205F
    || n == 0x3000 || n == 0xFEFF
  }

  predicate AllWhitespace(s: string) {
    forall i | 0 <= i < |s| :: IsWhitespace(s[i])
  }

  predicate NoWhitespace(s: string) {
    forall i | 0 <= i < |s| :: !IsWhitespace(s[i])
  }

  /** Drops the leading white space: what is left is a suffix of `s`. */
  function TrimStart(s: string): (r: string)
    ensures |r| <= |s| && r == s[|s| - |r|..]
    ensures AllWhitespace(s[..|s| - |r|])
    ensures r != [] ==> !IsWhitespace(r[0])
  {
    if s != [] && IsWhitespace(s[0]) then TrimStart(s[1..]) else s
  }

  /** Drops the trailing white space: what is left is a prefix of `s`. */
  function TrimEnd(s: string): (r: string)
    ensures |r| <= |s| && r == s[..|r|]
    ensures AllWhitespace(s[|r|..])
    ensures r != [] ==> !IsWhitespace(r[|r| - 1])
  {
    if s != [] && IsWhitespace(s[|s| - 1]) then TrimEnd(s[..|s| - 1]) else s
  }

  /**
   * `s.trim()`: the part of `s` left once the white space at both ends is
   * dropped; empty exactly when `s` is all white space.
   */
  function Trim(s: string): (r: string)
    ensures |r| <= |s|
    ensures exists a, b | 0 <= a <= b <= |s| ::
      r == s[a..b] && AllWhitespace(s[..a]) && AllWhitespace(s[b..])
    ensures r == [] <==> AllWhitespace(s)
    ensures r != [] ==> !IsWhitespace(r[0]) && !IsWhitespace(r[|r| - 1])
  {
    var t := TrimStart(s);
    assert AllWhitespace(s) <==> t == [] by {
      if t == [] {
        assert s[..|s|] == s;
      } else {
        assert s[|s| - |t|] == t[0];
      }
    }
    var r := TrimEnd(t);
    var a, b := |s| - |t|, |s| - |t| + |r|;
    assert t == s[a..];
    assert r == s[a..b];
    assert s[b..] == t[|r|..];
    assert AllWhitespace(s[..a]) && AllWhitespace(s[b..]);
    r
  }

  /**
   * JavaScript's truthiness test `!s.trim()`, stated by what it means: every
   * character is white space (see BlankIffTrimEmpty).
   */
  predicate IsBlank(s: string) {
    AllWhitespace(s)
  }

  lemma BlankIffTrimEmpty(s: string)
    ensures IsBlank(s) <==> Trim(s) == ""
  {
  }
}
