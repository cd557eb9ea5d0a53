/** The three string primitives of JavaScript that the analysis relies on:
    String.prototype.trim, String.prototype.toLowerCase and
    String.prototype.includes. */
module JsText {

  /** The characters trim removes at either end: the ECMAScript WhiteSpace
      code points (TAB, VT, FF, ZWNBSP and every space separator) and the
      LineTerminator code points (LF, CR, LS, PS). */
  predicate IsWhitespace(c: char)
  {
    c == '\t' || c == '\n' || c == '\U{000B}' || c == '\U{000C}' || c == '\r' || c == ' '
    || c == '\U{00A0}' || c == '\U{1680}' || ('\U{2000}' <= c <= '\U{200A}')
    || c == '\U{2028}' || c == '\U{2029}' || c == '\U{202F}' || c == '\U{205F}'
    || c == '\U{3000}' || c == '\U{FEFF}'
  }

  /** Every character of s is whitespace (the empty string included). */
  ghost predicate AllWhitespace(s: string)
  {
    forall i :: 0 <= i < |s| ==> IsWhitespace(s[i])
  }

  /** s with its leading whitespace removed: a suffix of s whose dropped
      prefix is all whitespace and which does not itself start with
      whitespace. */
  function TrimStart(s: string): (r: string)
    ensures |r| <= |s| && r == s[|s| - |r|..]
    ensures forall i :: 0 <= i < |s| - |r| ==> IsWhitespace(s[i])
    ensures r != [] ==> !IsWhitespace(r[0])
  {
    if s != [] && IsWhitespace(s[0]) then TrimStart(s[1..]) else s
  }

  /** s with its trailing whitespace removed: a prefix of s whose dropped
      suffix is all whitespace and which does not itself end with
      whitespace. */
  function TrimEnd(s: string): (r: string)
    ensures |r| <= |s| && r == s[..|r|]
    ensures forall i :: |r| <= i < |s| ==> IsWhitespace(s[i])
    ensures r != [] ==> !IsWhitespace(r[|r| - 1])
  {
    if s != [] && IsWhitespace(s[|s| - 1]) then TrimEnd(s[..|s| - 1]) else s
  }

  /** String.prototype.trim: no longer than s, neither starting nor ending
      with whitespace, and empty exactly when s is whitespace only. */
  function Trim(s: string): (r: string)
    ensures |r| <= |s|
    ensures r != [] ==> !IsWhitespace(r[0]) && !IsWhitespace(r[|r| - 1])
    ensures r == [] <==> AllWhitespace(s)
  {
    var t := TrimStart(s);
    // a non-empty t starts with a character that is not whitespace, which
    // TrimEnd keeps
    assert t != [] ==> !IsWhitespace(s[|s| - |t|]) && TrimEnd(t) != [] by {
      if t != [] {
        assert !IsWhitespace(t[0]);
      }
    }
    TrimEnd(t)
  }

  /** `!s.trim()`: the trimmed string is empty, hence falsy, which happens
      exactly when s consists of whitespace only. */
  predicate IsBlank(s: string)
    ensures IsBlank(s) <==> AllWhitespace(s)
  {
    Trim(s) == ""
  }

  /** toLowerCase on one character, for the ASCII letters A to Z. */
  function LowerChar(c: char): (d: char)
  {
    if 'A' <= c <= 'Z' then (c as int + 32) as char else c
  }

  predicate IsAsciiUpper(c: char)
  {
    'A' <= c <= 'Z'
  }

  /** String.prototype.toLowerCase, restricted to ASCII case mapping: the
      result has the same length and is lowered character by character. */
  function ToLower(s: string): (r: string)
    ensures |r| == |s|
    ensures forall i :: 0 <= i < |s| ==> r[i] == LowerChar(s[i])
  {
    if s == [] then [] else [LowerChar(s[0])] + ToLower(s[1..])
  }

  /** Lower-casing leaves no upper-case ASCII letter behind ... */
  lemma ToLowerHasNoUpper(s: string)
    ensures forall i :: 0 <= i < |s| ==> !IsAsciiUpper(ToLower(s)[i])
  {
  }

  /** ... so lower-casing twice is lower-casing once. */
  lemma ToLowerIdempotent(s: string)
    ensures ToLower(ToLower(s)) == ToLower(s)
  {
    var l := ToLower(s);
    assert forall i :: 0 <= i < |l| ==> ToLower(l)[i] == l[i];
  }

  /** s begins with k. */
  predicate StartsWith(s: string, k: string)
    ensures StartsWith(s, k) <==> |k| <= |s| && s[..|k|] == k
  {
    k == [] || (s != [] && k != [] && s[0] == k[0] && StartsWith(s[1..], k[1..]))
  }

  /** k occurs in s starting at position i. */
  predicate OccursAt(s: string, k: string, i: int)
  {
    0 <= i <= |s| - |k| && s[i..i + |k|] == k
  }

  /** String.prototype.includes: k occurs in s at some position. The empty
      string occurs in every string. */
  predicate Includes(s: string, k: string)
    ensures Includes(s, k) ==> |k| <= |s|
    ensures k == [] ==> Includes(s, k)
  {
    StartsWith(s, k) || (s != [] && Includes(s[1..], k))
  }

  /** includes finds an occurrence exactly when there is one. */
  lemma {:induction false} IncludesIff(s: string, k: string)
    ensures Includes(s, k) <==> exists i :: OccursAt(s, k, i)
  {
    if StartsWith(s, k) {
      assert OccursAt(s, k, 0);
    } else if s != [] {
      IncludesIff(s[1..], k);
      if Includes(s[1..], k) {
        var i :| OccursAt(s[1..], k, i);
        assert s[1..][i..i + |k|] == s[i + 1..i + 1 + |k|];
        assert OccursAt(s, k, i + 1);
      }
      forall i | OccursAt(s, k, i)
        ensures Includes(s[1..], k)
      {
        assert i != 0;
        assert s[1..][i - 1..i - 1 + |k|] == s[i..i + |k|];
        assert OccursAt(s[1..], k, i - 1);
      }
    }
  }

  /** A string that contains a character which s lacks does not occur in s. */
  lemma ExcludedByChar(s: string, k: string, c: char)
    requires c in k && c !in s
    ensures !Includes(s, k)
  {
    IncludesIff(s, k);
    var j :| 0 <= j < |k| && k[j] == c;
    forall i | 0 <= i <= |s| - |k|
      ensures !OccursAt(s, k, i)
    {
      assert s[i..i + |k|][j] == s[i + j];
    }
  }
}
