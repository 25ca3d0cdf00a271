/** The JavaScript string operations the storefront applies to codes and
    search terms: `trim`, `toUpperCase`, `toLowerCase` and `includes`. */
module Strings {

  /** ECMAScript WhiteSpace and LineTerminator code points, the set `trim`
      strips: TAB, LF, VT, FF, CR, SPACE, NBSP, the Zs space separators,
      LINE and PARAGRAPH SEPARATOR, and the byte-order mark. */
  predicate IsWhitespace(c: char)
  {
    var n := c as int;
    || 0x09 <= n <= 0x0D
    || n == 0x20
    || n == 0xA0
    || n == 0x1680
    || 0x2000 <= n <= 0x200A
    || n == 0x2028 || n == 0x2029
    || n == 0x202F || n == 0x205F
    || n == 0x3000
    || n == 0xFEFF
  }

  /** The index of the first character at or after `i` that is not white
      space, or `|s|`. */
  function LeadingEnd(s: string, i: nat): (n: nat)
    requires i <= |s|
    ensures i <= n <= |s|
    ensures forall k :: i <= k < n ==> IsWhitespace(s[k])
    ensures n < |s| ==> !IsWhitespace(s[n])
    decreases |s| - i
  {
    if i < |s| && IsWhitespace(s[i]) then LeadingEnd(s, i + 1) else i
  }

  /** The index just after the last character before `j` that is not white
      space, or 0. */
  function TrailingStart(s: string, j: nat): (n: nat)
    requires j <= |s|
    ensures n <= j
    ensures forall k :: n <= k < j ==> IsWhitespace(s[k])
    ensures n > 0 ==> !IsWhitespace(s[n - 1])
  {
    if j > 0 && IsWhitespace(s[j - 1]) then TrailingStart(s, j - 1) else j
  }

  /** Drops the leading white space: the result is a suffix of `s`, every
      character dropped is white space, and the result does not start with
      white space. */
  function TrimStart(s: string): (r: string)
    ensures |r| <= |s| && r == s[|s| - |r|..]
    ensures forall k :: 0 <= k < |s| - |r| ==> IsWhitespace(s[k])
    ensures |r| > 0 ==> !IsWhitespace(r[0])
  {
    s[LeadingEnd(s, 0)..]
  }

  /** Drops the trailing white space: the result is a prefix of `s`, every
      character dropped is white space, and the result does not end with
      white space. */
  function TrimEnd(s: string): (r: string)
    ensures |r| <= |s| && r == s[..|r|]
    ensures forall k :: |r| <= k < |s| ==> IsWhitespace(s[k])
    ensures |r| > 0 ==> !IsWhitespace(r[|r| - 1])
  {
    s[..TrailingStart(s, |s|)]
  }

  /** `String.prototype.trim`. */
  function Trim(s: string): string
  {
    TrimEnd(TrimStart(s))
  }

  /** The trimmed string is a contiguous slice of the input, surrounded only
      by white space, with no white space at either end. */
  lemma {:induction false} TrimIsCore(s: string)
    ensures var r := Trim(s);
            var i := |s| - |TrimStart(s)|;
            && i + |r| <= |s| && r == s[i..i + |r|]
            && (forall k :: 0 <= k < i ==> IsWhitespace(s[k]))
            && (forall k :: i + |r| <= k < |s| ==> IsWhitespace(s[k]))
            && (|r| > 0 ==> !IsWhitespace(r[0]) && !IsWhitespace(r[|r| - 1]))
  {
    CoreOfSuffixPrefix(s, TrimStart(s), Trim(s));
  }

  /** The shape argument behind `TrimIsCore`, for any suffix `t` of `s`
      that starts after white space and any prefix `r` of `t` followed by
      white space. */
  lemma {:induction false} CoreOfSuffixPrefix(s: string, t: string, r: string)
    requires |t| <= |s| && t == s[|s| - |t|..]
    requires forall k :: 0 <= k < |s| - |t| ==> IsWhitespace(s[k])
    requires |t| > 0 ==> !IsWhitespace(t[0])
    requires |r| <= |t| && r == t[..|r|]
    requires forall k :: |r| <= k < |t| ==> IsWhitespace(t[k])
    requires |r| > 0 ==> !IsWhitespace(r[|r| - 1])
    ensures var i := |s| - |t|;
            && i + |r| <= |s| && r == s[i..i + |r|]
            && (forall k :: 0 <= k < i ==> IsWhitespace(s[k]))
            && (forall k :: i + |r| <= k < |s| ==> IsWhitespace(s[k]))
            && (|r| > 0 ==> !IsWhitespace(r[0]) && !IsWhitespace(r[|r| - 1]))
  {
    var i := |s| - |t|;
    assert s[i..][..|r|] == s[i..i + |r|];
    forall k | i + |r| <= k < |s|
      ensures IsWhitespace(s[k])
    {
      assert s[k] == t[k - i];
    }
    if |r| > 0 {
      assert r[0] == t[0];
    }
  }

  /** A string that neither starts nor ends with white space is its own
      trim. */
  lemma {:induction false} TrimKeepsUnpadded(s: string)
    requires |s| > 0 ==> !IsWhitespace(s[0]) && !IsWhitespace(s[|s| - 1])
    ensures Trim(s) == s
  {
    if |s| > 0 {
      assert LeadingEnd(s, 0) == 0 by {
        assert !IsWhitespace(s[0]);
      }
      assert TrailingStart(s, |s|) == |s| by {
        assert !IsWhitespace(s[|s| - 1]);
      }
      assert TrimStart(s) == s;
    }
  }

  /** ASCII upper-casing of one character. */
  function UpperChar(c: char): char
  {
    if 'a' <= c <= 'z' then (c as int - 32) as char else c
  }

  /** ASCII lower-casing of one character. */
  function LowerChar(c: char): char
  {
    if 'A' <= c <= 'Z' then (c as int + 32) as char else c
  }

  /** `toUpperCase`, restricted to the ASCII letters. */
  function ToUpper(s: string): string
  {
    seq(|s|, i requires 0 <= i < |s| => UpperChar(s[i]))
  }

  /** `toLowerCase`, restricted to the ASCII letters. */
  function ToLower(s: string): string
  {
    seq(|s|, i requires 0 <= i < |s| => LowerChar(s[i]))
  }

  /** Two strings are equal up to ASCII letter case. */
  lemma UpperCaseEqualityIsCaseInsensitive(s: string, t: string)
    ensures ToUpper(s) == ToUpper(t) <==>
              |s| == |t| && forall k :: 0 <= k < |s| ==> UpperChar(s[k]) == UpperChar(t[k])
  {
    if |s| == |t| && forall k :: 0 <= k < |s| ==> UpperChar(s[k]) == UpperChar(t[k]) {
      assert forall k :: 0 <= k < |s| ==> ToUpper(s)[k] == ToUpper(t)[k];
    }
    if ToUpper(s) == ToUpper(t) {
      assert forall k :: 0 <= k < |s| ==> ToUpper(s)[k] == UpperChar(s[k]);
    }
  }

  /** `t` occurs in `s` starting at position 0. */
  predicate StartsWith(s: string, t: string)
  {
    |t| <= |s| && s[..|t|] == t
  }

  /** `String.prototype.includes`: `t` occurs somewhere in `s`. */
  predicate Includes(s: string, t: string)
    decreases |s|
  {
    StartsWith(s, t) || (|s| > 0 && Includes(s[1..], t))
  }

  /** `includes` holds whenever `t` is the slice of `s` at some offset. */
  lemma {:induction false} IncludesAt(s: string, t: string, i: nat)
    requires i + |t| <= |s| && s[i..i + |t|] == t
    ensures Includes(s, t)
  {
    if i > 0 {
      assert s[1..][i - 1..i - 1 + |t|] == t;
      IncludesAt(s[1..], t, i - 1);
    }
  }

  /** Every string includes the empty string and itself. */
  lemma IncludesEmptyAndSelf(s: string)
    ensures Includes(s, "") && Includes(s, s)
  {
    assert StartsWith(s, "") && StartsWith(s, s);
  }
}
