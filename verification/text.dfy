/**
  The two Python string operations the contact handler applies to every
  field: `str.strip()` (drop leading and trailing whitespace) and the slice
  `s[:n]` (keep at most the first n characters).

  Which characters count as whitespace is left abstract: every operation
  takes the classifier `isSpace` as a parameter, and nothing here depends on
  which characters it accepts.
*/
module Text {

  /** Every character of `s` at an index in [lo, hi) is whitespace. */
  predicate SpaceBetween(isSpace: char -> bool, s: string, lo: int, hi: int)
    requires 0 <= lo && hi <= |s|
  {
    forall k :: lo <= k < hi ==> isSpace(s[k])
  }

  /** Every character of `s` is whitespace (true of the empty string). */
  predicate AllSpace(isSpace: char -> bool, s: string) {
    SpaceBetween(isSpace, s, 0, |s|)
  }

  /** Python's `s[:n]` for a non-negative n. */
  function Take(s: string, n: nat): (r: string)
    ensures r <= s
    ensures |r| == if |s| <= n then |s| else n
  {
    if |s| <= n then s else s[..n]
  }

  /** The length of the leading whitespace run of `s`: where `s.lstrip()` starts. */
  function LeadingSpaces(isSpace: char -> bool, s: string): (n: nat)
    ensures n <= |s|
    ensures SpaceBetween(isSpace, s, 0, n)
    ensures n < |s| ==> !isSpace(s[n])
    decreases |s|
  {
    if s != [] && isSpace(s[0]) then
      var n := 1 + LeadingSpaces(isSpace, s[1..]);
      assert forall k :: 1 <= k < n ==> s[k] == s[1..][k - 1];
      n
    else
      0
  }

  /** Where the trailing whitespace run of `s` begins: where `s.rstrip()` ends. */
  function TrailingStart(isSpace: char -> bool, s: string): (j: nat)
    ensures j <= |s|
    ensures SpaceBetween(isSpace, s, j, |s|)
    ensures 0 < j ==> !isSpace(s[j - 1])
    decreases |s|
  {
    if s != [] && isSpace(s[|s| - 1]) then
      var j := TrailingStart(isSpace, s[..|s| - 1]);
      assert forall k :: j <= k < |s| - 1 ==> s[k] == s[..|s| - 1][k];
      j
    else
      |s|
  }

  /**
    `s[i..j]` is what remains of `s` once its leading and trailing
    whitespace is gone: everything before i and from j on is whitespace, and
    a non-empty remainder starts and ends with a non-whitespace character.
  */
  predicate StripBounds(isSpace: char -> bool, s: string, i: int, j: int) {
    && 0 <= i <= j <= |s|
    && SpaceBetween(isSpace, s, 0, i)
    && SpaceBetween(isSpace, s, j, |s|)
    && (i < j ==> !isSpace(s[i]) && !isSpace(s[j - 1]))
  }

  /** Python's `s.strip()`. */
  function Strip(isSpace: char -> bool, s: string): (r: string)
    ensures exists i, j :: StripBounds(isSpace, s, i, j) && r == s[i..j]
    ensures r == [] <==> AllSpace(isSpace, s)
    ensures r != [] ==> !isSpace(r[0]) && !isSpace(r[|r| - 1])
  {
    var i := LeadingSpaces(isSpace, s);
    if i == |s| then
      assert StripBounds(isSpace, s, i, i);
      []
    else
      var j := TrailingStart(isSpace, s);
      assert StripBounds(isSpace, s, i, j);
      s[i..j]
  }

  /**
    The reference definition of `strip`: whatever bounds delimit the
    non-whitespace part of `s`, `Strip` returns exactly that slice.
  */
  lemma StripIsSlice(isSpace: char -> bool, s: string, i: int, j: int)
    requires StripBounds(isSpace, s, i, j)
    ensures Strip(isSpace, s) == s[i..j]
  {
  }

  /** Stripping twice is stripping once. */
  lemma StripIdempotent(isSpace: char -> bool, s: string)
    ensures Strip(isSpace, Strip(isSpace, s)) == Strip(isSpace, s)
  {
  }
}
