/**
 * The string operations of JavaScript the extension relies on:
 * `String.prototype.trim`, and the substring search behind `includes` and
 * behind locating the tags of the reply's regular expression.
 * Strings are sequences of characters; every character the extension
 * searches for or trims is in the Basic Multilingual Plane, so this agrees
 * with JavaScript's UTF-16 strings on all of them.
 */
module Text {
  import opened Wrappers

  /** The characters `trim` removes: ECMAScript's WhiteSpace and LineTerminator. */
  predicate IsWhitespace(c: char) {
    || c == '\t' || c == '\n' || c == '\U{B}' || c == '\U{C}' || c == '\r' || c == ' '
    || c == '\U{A0}' || c == '\U{1680}' || ('\U{2000}' <= c <= '\U{200A}')
    || c == '\U{2028}' || c == '\U{2029}' || c == '\U{202F}' || c == '\U{205F}'
    || c == '\U{3000}' || c == '\U{FEFF}'
  }

  ghost predicate AllWhitespace(s: string) {
    forall i :: 0 <= i < |s| ==> IsWhitespace(s[i])
  }

  /** Neither end of `s` is whitespace. */
  predicate IsTrimmed(s: string) {
    s == [] || (!IsWhitespace(s[0]) && !IsWhitespace(s[|s| - 1]))
  }

  /** The length of the longest all-whitespace prefix of `s`. */
  function LeadingWhitespace(s: string): (n: nat)
    ensures n <= |s|
    ensures forall i :: 0 <= i < n ==> IsWhitespace(s[i])
    ensures n < |s| ==> !IsWhitespace(s[n])
  {
    if s != [] && IsWhitespace(s[0]) then 1 + LeadingWhitespace(s[1..]) else 0
  }

  /** The length of the longest all-whitespace suffix of `s`. */
  function TrailingWhitespace(s: string): (n: nat)
    ensures n <= |s|
    ensures forall i :: |s| - n <= i < |s| ==> IsWhitespace(s[i])
    ensures n < |s| ==> !IsWhitespace(s[|s| - 1 - n])
  {
    if s != [] && IsWhitespace(s[|s| - 1]) then 1 + TrailingWhitespace(s[..|s| - 1]) else 0
  }

  /**
   * `s.trim()`: `s` without its leading and trailing whitespace. The result
   * is a slice of `s`, everything cut off on either side is whitespace, and
   * the result neither starts nor ends with whitespace.
   */
  function Trim(s: string): (r: string)
    ensures IsTrimmed(r)
    ensures |r| <= |s|
    ensures exists k :: 0 <= k <= |s| - |r| && IsSliceAt(s, r, k)
                        && AllWhitespace(s[..k]) && AllWhitespace(s[k + |r|..])
  {
    var a := LeadingWhitespace(s);
    var t := s[a..];
    var b := TrailingWhitespace(t);
    var r := t[..|t| - b];
    assert IsSliceAt(s, r, a) && AllWhitespace(s[..a]) && AllWhitespace(s[a + |r|..]) by {
      assert s[a + |r|..] == t[|t| - b..];
    }
    r
  }

  /** `r` occurs in `s` starting at index `k`. */
  predicate IsSliceAt(s: string, r: string, k: int) {
    0 <= k && k + |r| <= |s| && s[k..k + |r|] == r
  }

  /** Trimming a string that has no whitespace at either end changes nothing. */
  lemma TrimmedIsFixed(s: string)
    requires IsTrimmed(s)
    ensures Trim(s) == s
  {
    assert LeadingWhitespace(s) == 0;
    assert TrailingWhitespace(s) == 0;
  }

  /** `trim` is idempotent. */
  lemma TrimIdempotent(s: string)
    ensures Trim(Trim(s)) == Trim(s)
  {
    TrimmedIsFixed(Trim(s));
  }

  /** A string trims to nothing exactly when it is all whitespace. */
  lemma TrimEmptyIffBlank(s: string)
    ensures Trim(s) == [] <==> AllWhitespace(s)
  {
    var r := Trim(s);
    var k :| 0 <= k <= |s| - |r| && IsSliceAt(s, r, k) && AllWhitespace(s[..k]) && AllWhitespace(s[k + |r|..]);
    if r == [] {
      forall i | 0 <= i < |s|
        ensures IsWhitespace(s[i])
      {
        if i < k {
          assert s[..k][i] == s[i];
        } else {
          assert s[k..][i - k] == s[i];
        }
      }
    } else {
      assert s[k..k + |r|][0] == s[k];
    }
  }

  /** `pat` occurs in `s` at index `i`. */
  predicate OccursAt(s: string, pat: string, i: int) {
    IsSliceAt(s, pat, i)
  }

  ghost predicate Contains(s: string, pat: string) {
    exists i :: OccursAt(s, pat, i)
  }

  /**
   * Substring search: the first index at or after `from` where `pat` occurs,
   * or None when there is none. (Unlike JavaScript's `indexOf`, a `from`
   * past the end finds nothing even for the empty pattern; the extension
   * never searches from there.)
   */
  function IndexOf(s: string, pat: string, from: nat): (r: Option<nat>)
    ensures r.Some? ==> from <= r.value && OccursAt(s, pat, r.value)
    ensures forall k :: from <= k && (r.None? || k < r.value) ==> !OccursAt(s, pat, k)
    decreases |s| - from
  {
    if from + |pat| > |s| then None
    else if s[from..from + |pat|] == pat then Some(from)
    else IndexOf(s, pat, from + 1)
  }

  /** `s.includes(pat)`. */
  function Includes(s: string, pat: string): (b: bool)
    ensures b <==> Contains(s, pat)
  {
    IndexOf(s, pat, 0).Some?
  }

  /** An occurrence of `pat` inside a slice of `s` is an occurrence in `s`. */
  lemma OccursInSlice(s: string, r: string, k: int, pat: string, i: int)
    requires IsSliceAt(s, r, k) && OccursAt(r, pat, i)
    ensures OccursAt(s, pat, k + i)
  {
    forall j | 0 <= j < |pat|
      ensures s[k + i..k + i + |pat|][j] == pat[j]
    {
      assert r[i..i + |pat|][j] == r[i + j] == s[k..k + |r|][i + j];
    }
  }
}
