/** Character classes and string helpers with Python's semantics: whitespace as
    `str.isspace` and the `\s` regex class see it, `str.strip`, substring tests
    (`x in s`), the case folding `str.lower` performs where it matters for
    ASCII keywords, and decimal rendering of integers for f-strings. */
module Text {
  import opened Sequences

  /** Python's whitespace: `str.isspace`, `str.strip` and `\s` in a str regex
      all use this set. */
  predicate IsSpace(c: char) {
    if c <= ' ' then
      '\t' <= c <= '\r' || '\U{1C}' <= c
    else
      '\U{85}' <= c
      && (c == '\U{85}' || c == '\U{A0}' || c == '\U{1680}' || '\U{2000}' <= c <= '\U{200A}'
          || c == '\U{2028}' || c == '\U{2029}' || c == '\U{202F}' || c == '\U{205F}' || c == '\U{3000}')
  }

  predicate NotSpace(c: char) { !IsSpace(c) }

  predicate IsAsciiDigit(c: char) { '0' <= c <= '9' }

  predicate AllSpace(s: string) { forall k :: 0 <= k < |s| ==> IsSpace(s[k]) }

  predicate NoSpace(s: string) { forall k :: 0 <= k < |s| ==> !IsSpace(s[k]) }

  /** What `.` matches: anything but a newline. */
  predicate NoNewline(s: string) { forall k :: 0 <= k < |s| ==> s[k] != '\n' }

  /** The end of the longest run of characters satisfying `p` that starts at `i`. */
  function SkipWhile(s: string, i: nat, p: char -> bool): (j: nat)
    requires i <= |s|
    ensures i <= j <= |s|
    ensures forall k :: i <= k < j ==> p(s[k])
    ensures j == |s| || !p(s[j])
    decreases |s| - i
  {
    if i == |s| || !p(s[i]) then i else SkipWhile(s, i + 1, p)
  }

  /** A run is the longest one when it ends where `p` first fails. */
  lemma {:induction false} SkipWhileAt(s: string, i: nat, j: nat, p: char -> bool)
    requires i <= j <= |s|
    requires forall k :: i <= k < j ==> p(s[k])
    requires j == |s| || !p(s[j])
    ensures SkipWhile(s, i, p) == j
    decreases j - i
  {
    if i < j {
      SkipWhileAt(s, i + 1, j, p);
    }
  }

  /** A run starting at `i` ends at the latest where `p` first fails. */
  lemma SkipWhileStops(s: string, i: nat, k: nat, p: char -> bool)
    requires i <= k < |s| && !p(s[k])
    ensures SkipWhile(s, i, p) <= k
  {
  }

  /** A run starting at `i` reaches at least as far as `p` holds throughout. */
  lemma {:induction false} SkipWhileCovers(s: string, i: nat, k: nat, p: char -> bool)
    requires i <= k <= |s| && forall j :: i <= j < k ==> p(s[j])
    ensures k <= SkipWhile(s, i, p)
    decreases k - i
  {
    if i < k {
      SkipWhileCovers(s, i + 1, k, p);
    }
  }

  /** A stretch of whitespace positions makes a whitespace slice. */
  lemma AllSpaceSlice(s: string, lo: nat, hi: nat)
    requires lo <= hi <= |s| && forall k :: lo <= k < hi ==> IsSpace(s[k])
    ensures AllSpace(s[lo..hi])
  {
    forall j | 0 <= j < hi - lo ensures IsSpace(s[lo..hi][j]) {
      assert s[lo..hi][j] == s[lo + j];
    }
  }

  /** The start of the longest run of whitespace that ends at `hi`, not going below `lo`. */
  function TrimEndIndex(s: string, lo: nat, hi: nat): (j: nat)
    requires lo <= hi <= |s|
    ensures lo <= j <= hi
    ensures forall k :: j <= k < hi ==> IsSpace(s[k])
    ensures j == lo || !IsSpace(s[j - 1])
    decreases hi - lo
  {
    if hi == lo || !IsSpace(s[hi - 1]) then hi else TrimEndIndex(s, lo, hi - 1)
  }

  /** Python's `str.strip()`: the input with leading and trailing whitespace removed.
      The result is a slice of the input, everything cut off is whitespace, and the
      result neither starts nor ends with whitespace. */
  function Strip(s: string): (r: string)
    ensures exists lo, hi :: 0 <= lo <= hi <= |s| && r == s[lo..hi]
              && AllSpace(s[..lo]) && AllSpace(s[hi..])
    ensures r != [] ==> !IsSpace(r[0]) && !IsSpace(r[|r| - 1])
  {
    var lo := SkipWhile(s, 0, IsSpace);
    var hi := TrimEndIndex(s, lo, |s|);
    assert AllSpace(s[..lo]) && AllSpace(s[hi..]);
    s[lo..hi]
  }

  /** A stripped string is what `str.strip()` leaves: no whitespace at either end. */
  predicate IsStripped(s: string) {
    s == [] || (!IsSpace(s[0]) && !IsSpace(s[|s| - 1]))
  }

  /** `strip()` leaves the empty string exactly when the input is all whitespace. */
  lemma StripEmptyIffAllSpace(s: string)
    ensures Strip(s) == [] <==> AllSpace(s)
  {
    var lo := SkipWhile(s, 0, IsSpace);
    if AllSpace(s) {
      assert lo == |s|;
    } else {
      var k :| 0 <= k < |s| && !IsSpace(s[k]);
      assert lo <= k;
      assert lo < |s| && !IsSpace(s[lo]);
      assert TrimEndIndex(s, lo, |s|) > lo;
    }
  }

  /** `pat` occurs in `s` at position `i`. */
  predicate OccursAt(s: string, pat: string, i: nat) {
    i + |pat| <= |s| && s[i..i + |pat|] == pat
  }

  /** Python's `s.endswith(suffix)`. */
  predicate EndsWith(s: string, suffix: string) {
    |suffix| <= |s| && OccursAt(s, suffix, |s| - |suffix|)
  }

  /** Python's `pat in s` for strings. */
  predicate Contains(s: string, pat: string) {
    exists i :: 0 <= i <= |s| - |pat| && OccursAt(s, pat, i)
  }

  /** What Python's `str.lower()` makes of one character, as far as a search for
      ASCII keywords can tell: ASCII capitals become small letters, the Kelvin sign
      becomes `k`, the capital I with dot above becomes `i` and a combining dot,
      and every other character is kept (its lower-case form, if any, is not ASCII). */
  function LowerChar(c: char): (r: string)
    ensures |r| >= 1
  {
    if 'A' <= c <= 'Z' then [(c as int + 32) as char]
    else if c as int == 0x212A then "k"
    else if c as int == 0x130 then "i\U{307}"
    else [c]
  }

  /** `str.lower()` as far as containment of ASCII keywords is concerned. */
  function Lower(s: string): (r: string)
    ensures forall k :: 0 <= k < |r| ==> !('A' <= r[k] <= 'Z')
    ensures |r| >= |s|
  {
    if s == [] then [] else LowerChar(s[0]) + Lower(s[1..])
  }

  /** On an ASCII text, lower-casing keeps the length and turns each capital
      into its small letter in place, leaving every other character. */
  lemma {:induction false} LowerAscii(s: string)
    requires forall k :: 0 <= k < |s| ==> s[k] as int < 128
    ensures |Lower(s)| == |s|
    ensures forall k :: 0 <= k < |s| ==>
              Lower(s)[k] == if 'A' <= s[k] <= 'Z' then (s[k] as int + 32) as char else s[k]
  {
    if s != [] {
      LowerAscii(s[1..]);
      assert forall k :: 1 <= k < |s| ==> s[1..][k - 1] == s[k];
    }
  }

  /** Lower-casing works character by character: that of a concatenation is
      the concatenation of the lower-cased pieces. */
  lemma {:induction false} LowerAppend(a: string, b: string)
    ensures Lower(a + b) == Lower(a) + Lower(b)
  {
    if a != [] {
      assert (a + b)[0] == a[0] && (a + b)[1..] == a[1..] + b;
      LowerAppend(a[1..], b);
      AppendRegroup(LowerChar(a[0]), Lower(a[1..]), Lower(b));
    } else {
      assert a + b == b;
    }
  }

  function DigitChar(d: nat): (c: char)
    requires d < 10
    ensures IsAsciiDigit(c)
  {
    "0123456789"[d]
  }

  /** The decimal rendering of a natural number, as `str(n)` gives it. */
  function NatToString(n: nat): (r: string)
    ensures |r| >= 1 && forall k :: 0 <= k < |r| ==> IsAsciiDigit(r[k])
  {
    if n < 10 then [DigitChar(n)] else NatToString(n / 10) + [DigitChar(n % 10)]
  }

  /** The decimal rendering of an integer, with a leading minus sign when negative. */
  function IntToString(n: int): string {
    if n < 0 then "-" + NatToString(-n) else NatToString(n)
  }
}
