/**
 * The few Python `str` operations the request-shaping code relies on:
 * `startswith`, `endswith`, the `in` test for substrings, `rsplit(sep, 1)[0]`,
 * `strip()` and `str(int)`.  Strings are sequences of Unicode scalar values;
 * a Python `str` may also hold lone surrogate code points, which are not modelled.
 */
module PyStr {
  import opened Maybe

  predicate StartsWith(s: string, prefix: string) {
    |prefix| <= |s| && s[..|prefix|] == prefix
  }

  predicate EndsWith(s: string, suffix: string) {
    |suffix| <= |s| && s[|s| - |suffix|..] == suffix
  }

  /** `sub` occurs in `s` starting at index `i`. */
  predicate OccursAt(s: string, sub: string, i: int) {
    0 <= i && i + |sub| <= |s| && s[i..i + |sub|] == sub
  }

  /** Python's `sub in s`. */
  predicate Contains(s: string, sub: string) {
    exists i :: 0 <= i <= |s| - |sub| && OccursAt(s, sub, i)
  }

  /** The index of the last `c` in `s`, if there is one. */
  function LastIndexOf(s: string, c: char): (r: Option<nat>)
    ensures r.Some? ==> r.value < |s| && s[r.value] == c
    ensures r.Some? ==> forall j :: r.value < j < |s| ==> s[j] != c
    ensures r.None? ==> forall j :: 0 <= j < |s| ==> s[j] != c
  {
    if |s| == 0 then None
    else if s[|s| - 1] == c then Some(|s| - 1)
    else LastIndexOf(s[..|s| - 1], c)
  }

  /** Python's `s.rsplit(c, 1)[0]`: everything before the last `c`, or all of `s` when there is none. */
  function RSplitHead(s: string, c: char): string {
    match LastIndexOf(s, c)
    case None => s
    case Some(i) => s[..i]
  }

  /** When `s` ends in `c` followed by a tail free of `c`, the head is everything before that `c`. */
  lemma RSplitHeadBeforeTail(s: string, c: char, tail: string)
    requires EndsWith(s, [c] + tail)
    requires forall j :: 0 <= j < |tail| ==> tail[j] != c
    ensures RSplitHead(s, c) == s[..|s| - |tail| - 1]
  {
    var k := |s| - |tail| - 1;
    assert s[k] == ([c] + tail)[0] == c;
    forall j | k < j < |s|
      ensures s[j] != c
    {
      assert s[j] == s[|s| - |[c] + tail|..][j - k] == ([c] + tail)[j - k] == tail[j - k - 1];
    }
    match LastIndexOf(s, c)
    case None =>
    case Some(i) =>
  }

  /**
   * The characters `str.strip()` removes: Python's `str.isspace` table
   * (the ASCII controls TAB to CR and FS to US, SPACE, NEL, NBSP, OGHAM SPACE MARK,
   * EN QUAD to HAIR SPACE, LINE and PARAGRAPH SEPARATOR, NARROW NBSP,
   * MEDIUM MATHEMATICAL SPACE and IDEOGRAPHIC SPACE).
   */
  predicate IsSpace(c: char) {
    || ('\t' <= c <= '\r')
    || ('\U{1c}' <= c <= '\U{1f}')
    || c == ' '
    || c == '\U{85}'
    || c == '\U{a0}'
    || c == '\U{1680}'
    || ('\U{2000}' <= c <= '\U{200a}')
    || c == '\U{2028}'
    || c == '\U{2029}'
    || c == '\U{202f}'
    || c == '\U{205f}'
    || c == '\U{3000}'
  }

  predicate AllSpace(s: string) {
    forall i :: 0 <= i < |s| ==> IsSpace(s[i])
  }

  /** `s.lstrip()`: a suffix of `s`, after a run of whitespace, that does not start with whitespace. */
  function TrimStart(s: string): (r: string)
    ensures |r| <= |s| && r == s[|s| - |r|..]
    ensures forall i :: 0 <= i < |s| - |r| ==> IsSpace(s[i])
    ensures r != [] ==> !IsSpace(r[0])
  {
    if |s| > 0 && IsSpace(s[0]) then TrimStart(s[1..]) else s
  }

  /** `s.rstrip()`: a prefix of `s`, before a run of whitespace, that does not end with whitespace. */
  function TrimEnd(s: string): (r: string)
    ensures |r| <= |s| && r == s[..|r|]
    ensures forall i :: |r| <= i < |s| ==> IsSpace(s[i])
    ensures r != [] ==> !IsSpace(r[|r| - 1])
  {
    if |s| > 0 && IsSpace(s[|s| - 1]) then TrimEnd(s[..|s| - 1]) else s
  }

  /** `r` is `s` with a whitespace run cut from each end, leaving no whitespace at either end. */
  ghost predicate IsStripOf(s: string, r: string) {
    && (r != [] ==> !IsSpace(r[0]) && !IsSpace(r[|r| - 1]))
    && exists lo :: 0 <= lo <= |s| - |r| && StripWindow(s, r, lo)
  }

  /** `r` sits at `lo` in `s`, and everything around it is whitespace. */
  ghost predicate StripWindow(s: string, r: string, lo: int)
    requires 0 <= lo <= |s| - |r|
  {
    s[lo..lo + |r|] == r && AllSpace(s[..lo]) && AllSpace(s[lo + |r|..])
  }

  /** Python's `s.strip()`. */
  function Strip(s: string): (r: string)
    ensures IsStripOf(s, r)
    ensures r == [] <==> AllSpace(s)
  {
    assert TrimmedStart(s, TrimStart(s));
    assert TrimmedEnd(TrimStart(s), TrimEnd(TrimStart(s)));
    TrimsAreStrip(s, TrimStart(s), TrimEnd(TrimStart(s)));
    TrimEnd(TrimStart(s))
  }

  /** `t` is `s` after a whitespace run, and does not start with whitespace. */
  ghost predicate TrimmedStart(s: string, t: string) {
    && |t| <= |s| && t == s[|s| - |t|..]
    && (forall i :: 0 <= i < |s| - |t| ==> IsSpace(s[i]))
    && (t != [] ==> !IsSpace(t[0]))
  }

  /** `r` is `t` before a whitespace run, and does not end with whitespace. */
  ghost predicate TrimmedEnd(t: string, r: string) {
    && |r| <= |t| && r == t[..|r|]
    && (forall i :: |r| <= i < |t| ==> IsSpace(t[i]))
    && (r != [] ==> !IsSpace(r[|r| - 1]))
  }

  /** Trimming the start and then the end cuts a whitespace run from each end. */
  lemma TrimsAreStrip(s: string, t: string, r: string)
    requires TrimmedStart(s, t) && TrimmedEnd(t, r)
    ensures IsStripOf(s, r)
    ensures r == [] <==> AllSpace(s)
  {
    var lo := |s| - |t|;
    var mid := s[lo..lo + |r|];
    forall k | 0 <= k < |r| ensures mid[k] == r[k] {
      assert r[k] == t[k] == s[lo + k];
    }
    var pre := s[..lo];
    forall i | 0 <= i < |pre| ensures IsSpace(pre[i]) {
      assert pre[i] == s[i];
    }
    var post := s[lo + |r|..];
    forall i | 0 <= i < |post| ensures IsSpace(post[i]) {
      assert post[i] == t[|r| + i];
    }
    assert StripWindow(s, r, lo);
    if r == [] {
      if t != [] {
        assert false;
      }
    } else {
      assert s[lo] == t[0] == r[0];
    }
  }

  /** `strip()` only ever removes whitespace: a string with no whitespace at either end is kept whole. */
  lemma StripKeepsTrimmed(s: string)
    requires s != [] && !IsSpace(s[0]) && !IsSpace(s[|s| - 1])
    ensures Strip(s) == s
  {
    assert TrimStart(s) == s;
    assert TrimEnd(s) == s;
  }

  /** Stripping twice is stripping once. */
  lemma StripIdempotent(s: string)
    ensures Strip(Strip(s)) == Strip(s)
  {
    var r := Strip(s);
    if r != [] {
      assert !IsSpace(r[0]) && !IsSpace(r[|r| - 1]);
      StripKeepsTrimmed(r);
    } else {
      assert TrimStart(r) == [] && TrimEnd(r) == [];
    }
  }

  /** Decimal digit characters. */
  predicate IsDigit(c: char) {
    '0' <= c <= '9'
  }

  predicate AllDigits(s: string) {
    forall i :: 0 <= i < |s| ==> IsDigit(s[i])
  }

  function DigitChar(d: nat): (c: char)
    requires d < 10
    ensures IsDigit(c) && c as int - '0' as int == d
  {
    ('0' as int + d) as char
  }

  /** The value of a string of decimal digits (0 for the empty string). */
  function DecimalValue(s: string): nat
    requires AllDigits(s)
  {
    if s == [] then 0 else DecimalValue(s[..|s| - 1]) * 10 + (s[|s| - 1] as int - '0' as int)
  }

  /** `str(n)` for a non-negative `n`: decimal digits with no leading zero. */
  function NatToDecimal(n: nat): (r: string)
    ensures |r| >= 1 && AllDigits(r)
    ensures |r| > 1 ==> r[0] != '0'
  {
    if n < 10 then [DigitChar(n)] else NatToDecimal(n / 10) + [DigitChar(n % 10)]
  }

  /** Python's `str(n)` for an integer: a minus sign before the digits of a negative number. */
  function IntToDecimal(n: int): (r: string)
    ensures |r| >= 1 && (r[0] == '-' <==> n < 0)
    ensures n >= 0 ==> AllDigits(r)
  {
    if n < 0 then "-" + NatToDecimal(-n) else NatToDecimal(n)
  }

  lemma {:induction false} NatToDecimalRoundTrip(n: nat)
    ensures DecimalValue(NatToDecimal(n)) == n
  {
    if n >= 10 {
      var s := NatToDecimal(n);
      assert s[..|s| - 1] == NatToDecimal(n / 10);
      NatToDecimalRoundTrip(n / 10);
    }
  }

  /** `str(n)` can be read back: its sign says whether `n` is negative, and its digits give `|n|`. */
  lemma IntToDecimalRoundTrip(n: int)
    ensures var s := IntToDecimal(n);
      && |s| >= 1
      && (s[0] == '-' <==> n < 0)
      && (n >= 0 ==> AllDigits(s) && DecimalValue(s) == n)
      && (n < 0 ==> AllDigits(s[1..]) && DecimalValue(s[1..]) == -n)
  {
    var s := IntToDecimal(n);
    if n < 0 {
      assert s[1..] == NatToDecimal(-n);
      NatToDecimalRoundTrip(-n);
    } else {
      NatToDecimalRoundTrip(n);
    }
  }
}
