/**
 * The string operations the handler applies to its input: `String.prototype.trim`,
 * the test `/^\d+$/`, `Number` on a digit string, and `replace(/^@/, "")`.
 */
module Text {

  /**
   * The code points `trim` removes: ECMAScript's WhiteSpace (tab, vertical tab,
   * form feed, space, no-break space, the byte order mark and the Unicode "Zs"
   * separators) and LineTerminator (line feed, carriage return, U+2028, U+2029).
   */
  predicate IsSpace(c: char) {
    c in Spaces
  }

  const Spaces: set<char> := {
    '\U{9}', '\U{A}', '\U{B}', '\U{C}', '\U{D}', '\U{20}', '\U{A0}', '\U{1680}',
    '\U{2000}', '\U{2001}', '\U{2002}', '\U{2003}', '\U{2004}', '\U{2005}', '\U{2006}', '\U{2007}',
    '\U{2008}', '\U{2009}', '\U{200A}', '\U{2028}', '\U{2029}', '\U{202F}', '\U{205F}', '\U{3000}', '\U{FEFF}'
  }

  /** Every character of `s` is white space (the empty string included). */
  predicate Blank(s: string) {
    forall i | 0 <= i < |s| :: IsSpace(s[i])
  }

  /** The number of white-space characters `s` starts with. */
  function LeadingSpaces(s: string): (n: nat)
    ensures n <= |s|
    ensures forall i | 0 <= i < n :: IsSpace(s[i])
    ensures n == |s| || !IsSpace(s[n])
    decreases |s|
  {
    if |s| > 0 && IsSpace(s[0]) then
      var m := LeadingSpaces(s[1..]);
      assert forall i | 1 <= i < 1 + m :: s[i] == s[1..][i - 1];
      1 + m
    else 0
  }

  /** The number of white-space characters `s` ends with. */
  function TrailingSpaces(s: string): (n: nat)
    ensures n <= |s|
    ensures forall i | |s| - n <= i < |s| :: IsSpace(s[i])
    ensures n == |s| || !IsSpace(s[|s| - n - 1])
    decreases |s|
  {
    if |s| > 0 && IsSpace(s[|s| - 1]) then
      var m := TrailingSpaces(s[..|s| - 1]);
      assert forall i | |s| - 1 - m <= i < |s| - 1 :: s[i] == s[..|s| - 1][i];
      1 + m
    else 0
  }

  /**
   * `s.trim()`: the middle of `s` left between its longest white-space prefix
   * and the longest white-space suffix of the rest; empty exactly for blank
   * strings, otherwise without white space at either end.
   */
  function Trim(s: string): (r: string)
    ensures var k := LeadingSpaces(s);
      k + |r| <= |s| && r == s[k..k + |r|]
      && (forall i | 0 <= i < k :: IsSpace(s[i]))
      && (forall i | k + |r| <= i < |s| :: IsSpace(s[i]))
    ensures r == [] <==> Blank(s)
    ensures r == [] || (!IsSpace(r[0]) && !IsSpace(r[|r| - 1]))
    ensures |r| <= |s|
  {
    var k := LeadingSpaces(s);
    var rest := s[k..];
    var j := TrailingSpaces(rest);
    assert forall i | k + (|rest| - j) <= i < |s| :: s[i] == rest[i - k];
    s[k..k + (|rest| - j)]
  }

  /** A string without white space at either end is left as it is by `trim`. */
  lemma TrimKeeps(s: string)
    requires s != [] && !IsSpace(s[0]) && !IsSpace(s[|s| - 1])
    ensures Trim(s) == s
  {
  }

  /** Trimming a second time changes nothing. */
  lemma TrimIdempotent(s: string)
    ensures Trim(Trim(s)) == Trim(s)
  {
    var r := Trim(s);
    if r != [] {
      assert LeadingSpaces(r) == 0;
      assert TrailingSpaces(r) == 0;
    }
  }

  predicate IsDigit(c: char) {
    '0' <= c <= '9'
  }

  /** `/^\d+$/.test(s)`: one digit or more, and nothing else. */
  predicate IsDigits(s: string) {
    |s| > 0 && forall i | 0 <= i < |s| :: IsDigit(s[i])
  }

  predicate AllZeros(s: string) {
    forall i | 0 <= i < |s| :: s[i] == '0'
  }

  /** `Number(s)` for a string of decimal digits. */
  function DecimalValue(s: string): nat
    requires forall i | 0 <= i < |s| :: IsDigit(s[i])
    decreases |s|
  {
    if s == [] then 0
    else
      var last := s[|s| - 1];
      assert IsDigit(last);
      10 * DecimalValue(s[..|s| - 1]) + (last as int - '0' as int)
  }

  /** A digit string denotes zero exactly when all its digits are `0`. */
  lemma {:induction false} DecimalZeroIff(s: string)
    requires forall i | 0 <= i < |s| :: IsDigit(s[i])
    ensures DecimalValue(s) == 0 <==> AllZeros(s)
    decreases |s|
  {
    if s != [] {
      var init := s[..|s| - 1];
      DecimalZeroIff(init);
      assert AllZeros(s) <==> AllZeros(init) && s[|s| - 1] == '0' by {
        assert forall i | 0 <= i < |init| :: init[i] == s[i];
      }
    }
  }

  /** `s.replace(/^@/, "")`: removes one leading `@`, and only one. */
  function StripAt(s: string): (r: string)
    ensures s == r || s == ['@'] + r
    ensures r != s <==> |s| > 0 && s[0] == '@'
  {
    if |s| > 0 && s[0] == '@' then s[1..] else s
  }
}
