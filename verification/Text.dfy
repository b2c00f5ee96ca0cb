/**
 * The two JavaScript string operations the core relies on:
 * `String.prototype.trim` (used only for its truthiness, "is there any
 * non-blank character") and `Array.prototype.join`.
 */
module Text {

  /** The code points `trim` removes: ECMAScript WhiteSpace and LineTerminator. */
  predicate IsWhitespace(c: char) {
    c == '\t' || c == '\n' || c == '\U{000B}' || c == '\U{000C}' || c == '\r' || c == ' '
    || c == '\U{00A0}' || c == '\U{1680}' || ('\U{2000}' <= c <= '\U{200A}')
    || c == '\U{2028}' || c == '\U{2029}' || c == '\U{202F}' || c == '\U{205F}'
    || c == '\U{3000}' || c == '\U{FEFF}'
  }

  ghost predicate AllWhitespace(s: string) {
    forall i :: 0 <= i < |s| ==> IsWhitespace(s[i])
  }

  /** How many whitespace characters `s` starts with. */
  function LeadingWhitespace(s: string): (n: nat)
    ensures n <= |s|
    ensures forall i :: 0 <= i < n ==> IsWhitespace(s[i])
    ensures n < |s| ==> !IsWhitespace(s[n])
  {
    if |s| > 0 && IsWhitespace(s[0]) then 1 + LeadingWhitespace(s[1..]) else 0
  }

  /** How many whitespace characters `s` ends with. */
  function TrailingWhitespace(s: string): (n: nat)
    ensures n <= |s|
    ensures forall i :: |s| - n <= i < |s| ==> IsWhitespace(s[i])
    ensures n < |s| ==> !IsWhitespace(s[|s| - 1 - n])
  {
    if |s| > 0 && IsWhitespace(s[|s| - 1]) then 1 + TrailingWhitespace(s[..|s| - 1]) else 0
  }

  /**
   * `s.trim()`: the leading whitespace goes, then the trailing whitespace of
   * what is left. The result is the middle of `s`, everything around it is
   * whitespace, and neither of its ends is.
   */
  function Trim(s: string): (r: string)
    ensures var a := LeadingWhitespace(s);
      && a + |r| <= |s| && r == s[a..a + |r|]
      && (forall i :: 0 <= i < a ==> IsWhitespace(s[i]))
      && (forall i :: a + |r| <= i < |s| ==> IsWhitespace(s[i]))
    ensures r != [] ==> !IsWhitespace(r[0]) && !IsWhitespace(r[|r| - 1])
  {
    var a := LeadingWhitespace(s);
    var t := s[a..];
    var k := |t| - TrailingWhitespace(t);
    assert forall i :: a + k <= i < |s| ==> s[i] == t[i - a];
    assert k > 0 ==> s[a + k - 1] == t[k - 1];
    s[a..a + k]
  }

  /** `!s.trim()` in the source: blank exactly when every character is whitespace. */
  predicate IsBlank(s: string): (b: bool)
    ensures b <==> AllWhitespace(s)
  {
    Trim(s) == ""
  }

  /**
   * `parts.join(sep)`: the parts in order with `sep` between neighbours, so
   * no parts give the empty string and the result starts with the first part.
   */
  function Join(parts: seq<string>, sep: string): (r: string)
    ensures |parts| == 0 ==> r == ""
    ensures |parts| > 0 ==> parts[0] <= r
  {
    if |parts| == 0 then ""
    else if |parts| == 1 then parts[0]
    else parts[0] + sep + Join(parts[1..], sep)
  }

  /** Joining a concatenation joins the two halves with one more separator. */
  lemma {:induction false} JoinAppend(a: seq<string>, b: seq<string>, sep: string)
    requires |a| > 0 && |b| > 0
    ensures Join(a + b, sep) == Join(a, sep) + sep + Join(b, sep)
  {
    if |a| == 1 {
      assert (a + b)[1..] == b;
    } else {
      assert (a + b)[1..] == a[1..] + b;
      JoinAppend(a[1..], b, sep);
    }
  }

  /** Joining blank parts with a blank separator gives a blank string. */
  lemma {:induction false} JoinAllWhitespace(parts: seq<string>, sep: string)
    requires forall i :: 0 <= i < |parts| ==> AllWhitespace(parts[i])
    requires AllWhitespace(sep)
    ensures AllWhitespace(Join(parts, sep))
  {
    if |parts| > 1 {
      JoinAllWhitespace(parts[1..], sep);
      var a, b := parts[0] + sep, Join(parts[1..], sep);
      assert AllWhitespace(parts[0]);
      forall i | 0 <= i < |a + b| ensures IsWhitespace((a + b)[i]) {
        if i < |parts[0]| {
          assert (a + b)[i] == parts[0][i];
        } else if i < |a| {
          assert (a + b)[i] == sep[i - |parts[0]|];
        } else {
          assert (a + b)[i] == b[i - |a|];
        }
      }
    } else if |parts| == 1 {
      assert AllWhitespace(parts[0]);
    }
  }
}
