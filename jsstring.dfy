/**
 * The two JavaScript string built-ins the handler depends on: `String.prototype.trim`
 * and `length`. A Dafny `char` is a Unicode scalar value, whereas a JavaScript string
 * is a sequence of UTF-16 code units: a character above U+FFFF (an emoji, say) is two
 * code units there, a surrogate pair. A JavaScript string holding a lone surrogate has
 * no counterpart as a Dafny `string` and is outside this model. `Utf16` gives the code
 * units of a string, so that tests the source applies to code units can be stated.
 */
module JsString {

  /** ECMAScript WhiteSpace and LineTerminator code points: what `trim` strips. */
  predicate IsWhiteSpace(c: char) {
    c == '\t' || c == '\n' || c == '\U{B}' || c == '\U{C}' || c == '\r' || c == ' '
    || c == '\U{A0}' || c == '\U{1680}' || ('\U{2000}' <= c <= '\U{200A}')
    || c == '\U{2028}' || c == '\U{2029}' || c == '\U{202F}' || c == '\U{205F}'
    || c == '\U{3000}' || c == '\U{FEFF}'
  }

  /** The number of white-space characters at the start of `s`. */
  function LeadingSpace(s: string): (k: nat)
    ensures k <= |s|
    ensures forall i :: 0 <= i < k ==> IsWhiteSpace(s[i])
    ensures k < |s| ==> !IsWhiteSpace(s[k])
  {
    if |s| > 0 && IsWhiteSpace(s[0]) then 1 + LeadingSpace(s[1..]) else 0
  }

  /** The number of white-space characters at the end of `s`. */
  function TrailingSpace(s: string): (k: nat)
    ensures k <= |s|
    ensures forall i :: |s| - k <= i < |s| ==> IsWhiteSpace(s[i])
    ensures k < |s| ==> !IsWhiteSpace(s[|s| - 1 - k])
  {
    if |s| > 0 && IsWhiteSpace(s[|s| - 1]) then 1 + TrailingSpace(s[..|s| - 1]) else 0
  }

  /**
   * `s.trim()`: the infix of `s` left after removing white space at both ends.
   * Everything removed is white space and the result neither starts nor ends with it.
   */
  function Trim(s: string): (t: string)
    ensures |t| <= |s|
    ensures LeadingSpace(s) + |t| <= |s| && t == s[LeadingSpace(s)..LeadingSpace(s) + |t|]
    ensures forall i :: 0 <= i < LeadingSpace(s) ==> IsWhiteSpace(s[i])
    ensures forall i :: LeadingSpace(s) + |t| <= i < |s| ==> IsWhiteSpace(s[i])
    ensures t != [] ==> !IsWhiteSpace(t[0]) && !IsWhiteSpace(t[|t| - 1])
    ensures t == [] <==> forall i :: 0 <= i < |s| ==> IsWhiteSpace(s[i])
  {
    var k := LeadingSpace(s);
    var j := TrailingSpace(s[k..]);
    TrimmedInfix(s, k, j);
    s[k..k + (|s| - k - j)]
  }

  /** The infix between the leading and the trailing white space has the properties of `trim`. */
  lemma TrimmedInfix(s: string, k: nat, j: nat)
    requires k == LeadingSpace(s) && j == TrailingSpace(s[k..])
    ensures k + j <= |s|
    ensures var t := s[k..k + (|s| - k - j)];
      (forall i :: k + |t| <= i < |s| ==> IsWhiteSpace(s[i]))
      && (t != [] ==> !IsWhiteSpace(t[0]) && !IsWhiteSpace(t[|t| - 1]))
      && (t == [] <==> forall i :: 0 <= i < |s| ==> IsWhiteSpace(s[i]))
  {
    var rest := s[k..];
    assert forall i :: k + |rest| - j <= i < |s| ==> s[i] == rest[i - k];
    assert rest[..|rest| - j] == s[k..k + (|rest| - j)];
  }

  /** Trimming twice is trimming once. */
  lemma TrimIdempotent(s: string)
    ensures Trim(Trim(s)) == Trim(s)
  {
    var t := Trim(s);
    if t != [] {
      assert LeadingSpace(t) == 0;
      assert TrailingSpace(t) == 0;
    }
  }

  /** A character of the trimmed text sits at the same place in the text, shifted by the leading run. */
  lemma TrimmedCharOfText(s: string, i: nat)
    requires i < |Trim(s)|
    ensures LeadingSpace(s) + i < |s| && s[LeadingSpace(s) + i] == Trim(s)[i]
  {
  }

  /** A character that is not white space survives trimming. */
  lemma SolidCharSurvivesTrim(s: string, j: nat)
    requires j < |s| && !IsWhiteSpace(s[j])
    ensures LeadingSpace(s) <= j < LeadingSpace(s) + |Trim(s)| && Trim(s)[j - LeadingSpace(s)] == s[j]
  {
  }

  /** The UTF-16 length of one Unicode scalar value. */
  function CodeUnits(c: char): nat {
    if c as int > 0xFFFF then 2 else 1
  }

  /** `s.length` in JavaScript: the number of UTF-16 code units of `s`. */
  function JsLength(s: string): (n: nat)
    ensures |s| <= n <= 2 * |s|
    ensures (forall i :: 0 <= i < |s| ==> s[i] as int <= 0xFFFF) ==> n == |s|
    ensures n == 0 <==> s == []
  {
    if s == [] then 0 else CodeUnits(s[0]) + JsLength(s[1..])
  }

  /** The UTF-16 encoding of one scalar value: itself, or a high and a low surrogate. */
  function CodeUnitsOf(c: char): (units: seq<int>)
    ensures |units| == CodeUnits(c)
    ensures forall k :: 0 <= k < |units| ==> 0 <= units[k] <= 0xFFFF
    ensures c as int <= 0xFFFF ==> units == [c as int]
    ensures c as int > 0xFFFF ==> forall k :: 0 <= k < |units| ==> 0xD800 <= units[k] <= 0xDFFF
  {
    var v := c as int;
    if v > 0xFFFF then [0xD800 + (v - 0x10000) / 0x400, 0xDC00 + (v - 0x10000) % 0x400]
    else [v]
  }

  /** The code units JavaScript stores for `s`; `s.length` counts them. */
  function Utf16(s: string): (units: seq<int>)
    ensures |units| == JsLength(s)
  {
    if s == [] then [] else CodeUnitsOf(s[0]) + Utf16(s[1..])
  }

  /** A string with no white space at either end is its own trim. */
  lemma TrimOfTrimmed(s: string)
    requires s != [] && !IsWhiteSpace(s[0]) && !IsWhiteSpace(s[|s| - 1])
    ensures Trim(s) == s
  {
    assert LeadingSpace(s) == 0;
  }
}
