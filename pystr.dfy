/**
 * The pieces of Python's `str` behaviour that the report script relies on:
 * `str.isspace`, `str.strip()`, `str.endswith` and the ordering `<` on strings
 * (which pandas uses to order group keys). Strings are sequences of Unicode
 * code points, as Python's are.
 */
module PyStr {

  /** Python's `str.isspace` on one character: the code points Python treats as whitespace. */
  predicate IsSpace(c: char)
    ensures IsSpace(c) && ' ' <= c <= '~' ==> c == ' '
  {
    || ('\t' <= c <= '\r')
    || ('\U{1C}' <= c <= '\U{1F}')
    || c == ' '
    || c == '\U{85}'
    || c == '\U{A0}'
    || c == '\U{1680}'
    || ('\U{2000}' <= c <= '\U{200A}')
    || c == '\U{2028}'
    || c == '\U{2029}'
    || c == '\U{202F}'
    || c == '\U{205F}'
    || c == '\U{3000}'
  }

  /** True when the characters of `s` at positions `lo` up to (not including) `hi` are all whitespace. */
  predicate SpaceBetween(s: string, lo: int, hi: int)
    requires 0 <= lo && hi <= |s|
  {
    forall k :: lo <= k < hi ==> IsSpace(s[k])
  }

  /** True when every character of `s` is whitespace (vacuously so for the empty string). */
  predicate AllSpace(s: string)
  {
    SpaceBetween(s, 0, |s|)
  }

  /** The index of the first non-whitespace character of `s` at or after `i` (`|s|` if none). */
  function SkipSpaceForward(s: string, i: nat): (j: nat)
    requires i <= |s|
    ensures i <= j <= |s|
    ensures SpaceBetween(s, i, j)
    ensures j < |s| ==> !IsSpace(s[j])
    decreases |s| - i
  {
    if i < |s| && IsSpace(s[i]) then SkipSpaceForward(s, i + 1) else i
  }

  /**
   * The end of `s[lo..j]` once its trailing whitespace is dropped: the smallest `k`
   * not below `lo` such that `s[k..j]` is all whitespace.
   */
  function SkipSpaceBackward(s: string, lo: nat, j: nat): (k: nat)
    requires lo <= j <= |s|
    ensures lo <= k <= j
    ensures SpaceBetween(s, k, j)
    ensures lo < k ==> !IsSpace(s[k - 1])
  {
    if lo < j && IsSpace(s[j - 1]) then SkipSpaceBackward(s, lo, j - 1) else j
  }

  /**
   * `s.strip()`: the text between the leading and the trailing whitespace. It is empty
   * exactly when `s` is all whitespace, and otherwise neither begins nor ends with whitespace.
   */
  function Strip(s: string): (r: string)
    ensures |r| <= |s|
    ensures r != [] ==> !IsSpace(r[0]) && !IsSpace(r[|r| - 1])
    ensures r == [] <==> AllSpace(s)
  {
    var i := SkipSpaceForward(s, 0);
    var j := SkipSpaceBackward(s, i, |s|);
    assert i == j ==> i == |s|;
    assert i < j ==> s[i..j][0] == s[i] && s[i..j][j - i - 1] == s[j - 1];
    s[i..j]
  }

  /**
   * `s.strip()` removes exactly the leading and the trailing whitespace: the result is
   * an infix `s[i..j]` of `s`, and everything before `i` and from `j` on is whitespace.
   */
  lemma StripIsInfix(s: string) returns (i: nat, j: nat)
    ensures i <= j <= |s| && Strip(s) == s[i..j]
    ensures SpaceBetween(s, 0, i) && SpaceBetween(s, j, |s|)
  {
    i := SkipSpaceForward(s, 0);
    j := SkipSpaceBackward(s, i, |s|);
  }

  /** A string with no whitespace at either end is its own `strip()`. */
  lemma StripFixed(s: string)
    requires s != [] ==> !IsSpace(s[0]) && !IsSpace(s[|s| - 1])
    ensures Strip(s) == s
  {
  }

  /** `str.strip()` is idempotent. */
  lemma StripIdempotent(s: string)
    ensures Strip(Strip(s)) == Strip(s)
  {
    StripFixed(Strip(s));
  }

  /** `s.endswith(suffix)`. */
  predicate EndsWith(s: string, suffix: string)
    ensures EndsWith(s, suffix) ==> |suffix| <= |s| && s == s[..|s| - |suffix|] + suffix
  {
    |suffix| <= |s| && s[|s| - |suffix|..] == suffix
  }

  /** `a < b` on Python strings: lexicographic by code point, a proper prefix first. */
  predicate Below(a: string, b: string)
    ensures Below(a, b) ==> a != b
  {
    if a == [] then b != []
    else if b == [] then false
    else a[0] < b[0] || (a[0] == b[0] && Below(a[1..], b[1..]))
  }

  /** No string sorts before itself. */
  lemma {:induction false} BelowIrreflexive(a: string)
    ensures !Below(a, a)
  {
    if a != [] {
      BelowIrreflexive(a[1..]);
    }
  }

  /** The string order is transitive. */
  lemma {:induction false} BelowTransitive(a: string, b: string, c: string)
    requires Below(a, b) && Below(b, c)
    ensures Below(a, c)
  {
    if a != [] && a[0] == b[0] && b[0] == c[0] {
      BelowTransitive(a[1..], b[1..], c[1..]);
    }
  }

  /** Any two different strings are ordered one way or the other. */
  lemma {:induction false} BelowTotal(a: string, b: string)
    requires a != b
    ensures Below(a, b) || Below(b, a)
  {
    if a != [] && b != [] && a[0] == b[0] {
      assert a == [a[0]] + a[1..] && b == [b[0]] + b[1..];
      BelowTotal(a[1..], b[1..]);
    }
  }
}
