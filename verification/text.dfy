/** The pieces of Python's string handling the router relies on:
    `str.strip()`, `str.lower()`, `int(str)` and decimal rendering of an int.

    `IsSpace` is Python's full `str.isspace` set. `ToLower` folds only ASCII
    letters, and `ParseInt` accepts an optional sign followed by ASCII digits;
    Python's `int` also takes `_` separators and non-ASCII decimal digits. */
module Text {
  import opened Wrappers

  // ---------------------------------------------------------------------------
  // Whitespace and stripping
  // ---------------------------------------------------------------------------

  /** The characters for which Python's `str.isspace()` holds. */
  predicate IsSpace(c: char) {
    || ('\t' <= c <= '\r')
    || ('\U{1c}' <= c <= ' ')
    || c == '\U{85}' || c == '\U{a0}' || c == '\U{1680}'
    || ('\U{2000}' <= c <= '\U{200a}')
    || c == '\U{2028}' || c == '\U{2029}' || c == '\U{202f}'
    || c == '\U{205f}' || c == '\U{3000}'
  }

  predicate AllSpace(s: string) {
    forall k :: 0 <= k < |s| ==> IsSpace(s[k])
  }

  /** Neither end of `t` is whitespace. */
  predicate Trimmed(t: string) {
    t == [] || (!IsSpace(t[0]) && !IsSpace(t[|t| - 1]))
  }

  /** Every character of `s` from `lo` up to (not including) `hi` is
      whitespace. */
  predicate SpaceIn(s: string, lo: int, hi: int) {
    && 0 <= lo <= hi <= |s|
    && forall k :: lo <= k < hi ==> IsSpace(s[k])
  }

  /** `t` is what is left of `s` once its whitespace borders are removed:
      `s` is `t` with some whitespace before it and some after it. This is the
      reference definition that `Strip` is proved against. */
  ghost predicate IsStripOf(s: string, t: string) {
    exists i :: StrippedAt(s, t, i)
  }

  ghost predicate StrippedAt(s: string, t: string, i: int) {
    && 0 <= i && i + |t| <= |s|
    && s[i..i + |t|] == t
    && SpaceIn(s, 0, i)
    && SpaceIn(s, i + |t|, |s|)
    && Trimmed(t)
  }

  /** The first position at or after `i` that is not whitespace (or the end). */
  function SkipSpace(s: string, i: nat): (j: nat)
    requires i <= |s|
    ensures i <= j <= |s| && SpaceIn(s, i, j)
    ensures j < |s| ==> !IsSpace(s[j])
    decreases |s| - i
  {
    if i < |s| && IsSpace(s[i]) then SkipSpace(s, i + 1) else i
  }

  /** The position just after the last non-whitespace character in
      `s[lo..hi]` (or `lo`). */
  function SkipSpaceBack(s: string, lo: nat, hi: nat): (e: nat)
    requires lo <= hi <= |s|
    ensures lo <= e <= hi && SpaceIn(s, e, hi)
    ensures e > lo ==> !IsSpace(s[e - 1])
    decreases hi
  {
    if hi > lo && IsSpace(s[hi - 1]) then SkipSpaceBack(s, lo, hi - 1) else hi
  }

  /** Python's `s.strip()` with no argument. */
  function Strip(s: string): (r: string)
    ensures IsStripOf(s, r)
  {
    var i := SkipSpace(s, 0);
    var e := SkipSpaceBack(s, i, |s|);
    var r := s[i..e];
    assert r != [] ==> r[0] == s[i] && r[|r| - 1] == s[e - 1];
    assert StrippedAt(s, r, i);
    r
  }

  /** There is only one way to strip a string, so any two results agree. */
  lemma StripOfUnique(s: string, t1: string, t2: string)
    requires IsStripOf(s, t1) && IsStripOf(s, t2)
    ensures t1 == t2
  {
    var i1 :| StrippedAt(s, t1, i1);
    var i2 :| StrippedAt(s, t2, i2);
    StrippedAtFacts(s, t1, i1);
    StrippedAtFacts(s, t2, i2);
    if t1 != [] && t2 != [] {
      SameStart(s, t1, t2, i1, i2);
      SameStart(s, t2, t1, i2, i1);
      SameEnd(s, t1, t2, i1, i2);
      SameEnd(s, t2, t1, i2, i1);
      assert i1 == i2 && |t1| == |t2|;
    }
  }

  /** An empty strip means `s` is all whitespace; a non-empty one starts and
      ends at characters that are not. */
  lemma StrippedAtFacts(s: string, t: string, i: int)
    requires StrippedAt(s, t, i)
    ensures t == [] ==> SpaceIn(s, 0, |s|)
    ensures t != [] ==> !IsSpace(s[i]) && !IsSpace(s[i + |t| - 1])
  {
    if t != [] {
      assert s[i..i + |t|][0] == t[0];
      assert s[i..i + |t|][|t| - 1] == t[|t| - 1];
    }
  }

  lemma SameStart(s: string, t1: string, t2: string, i1: int, i2: int)
    requires StrippedAt(s, t1, i1) && StrippedAt(s, t2, i2)
    requires t1 != [] && t2 != []
    ensures i1 <= i2
  {
    StrippedAtFacts(s, t2, i2);
  }

  lemma SameEnd(s: string, t1: string, t2: string, i1: int, i2: int)
    requires StrippedAt(s, t1, i1) && StrippedAt(s, t2, i2)
    requires t1 != [] && t2 != []
    ensures i1 + |t1| <= i2 + |t2|
  {
    StrippedAtFacts(s, t1, i1);
  }

  /** A string whose ends are not whitespace is its own strip. */
  lemma StripTrimmed(s: string)
    requires Trimmed(s)
    ensures Strip(s) == s
  {
    assert StrippedAt(s, s, 0);
    StripOfUnique(s, Strip(s), s);
  }

  /** Surrounding whitespace, on either side, is exactly what stripping
      removes. */
  lemma StripPadded(before: string, t: string, after: string)
    requires AllSpace(before) && AllSpace(after) && Trimmed(t)
    ensures Strip(before + t + after) == t
  {
    PaddedStrippedAt(before, t, after);
    StripOfUnique(before + t + after, Strip(before + t + after), t);
  }

  lemma PaddedStrippedAt(before: string, t: string, after: string)
    requires AllSpace(before) && AllSpace(after) && Trimmed(t)
    ensures StrippedAt(before + t + after, t, |before|)
  {
    var r := before + t + after;
    var e := |before| + |t|;
    assert r[|before|..e] == t;
    assert forall k :: 0 <= k < |before| ==> r[k] == before[k];
    assert forall k :: e <= k < |r| ==> r[k] == after[k - e];
  }

  /** Stripping twice is stripping once. */
  lemma StripIdempotent(s: string)
    ensures Strip(Strip(s)) == Strip(s)
  {
    var t := Strip(s);
    var i :| StrippedAt(s, t, i);
    StripTrimmed(t);
  }

  // ---------------------------------------------------------------------------
  // Lower-casing
  // ---------------------------------------------------------------------------

  predicate IsUpper(c: char) {
    'A' <= c <= 'Z'
  }

  function LowerChar(c: char): (d: char)
    ensures !IsUpper(d)
    ensures IsUpper(c) ==> d as int == c as int + 32
    ensures !IsUpper(c) ==> d == c
  {
    if IsUpper(c) then (c as int + 32) as char else c
  }

  /** ASCII `s.lower()`: every upper-case letter replaced by its lower-case
      form, everything else kept in place. */
  function ToLower(s: string): (r: string)
    ensures |r| == |s|
    ensures forall k :: 0 <= k < |s| ==> r[k] == LowerChar(s[k])
  {
    if s == [] then [] else [LowerChar(s[0])] + ToLower(s[1..])
  }

  /** The lower-cased text holds no upper-case letter, so lower-casing it again
      changes nothing. */
  lemma ToLowerIdempotent(s: string)
    ensures forall k :: 0 <= k < |s| ==> !IsUpper(ToLower(s)[k])
    ensures ToLower(ToLower(s)) == ToLower(s)
  {
  }

  // ---------------------------------------------------------------------------
  // Integers
  // ---------------------------------------------------------------------------

  predicate IsDigit(c: char) {
    '0' <= c <= '9'
  }

  predicate AllDigits(s: string) {
    forall k :: 0 <= k < |s| ==> IsDigit(s[k])
  }

  function DigitValue(c: char): (n: nat)
    requires IsDigit(c)
    ensures n < 10
  {
    c as int - '0' as int
  }

  function DigitChar(n: nat): (c: char)
    requires n < 10
    ensures IsDigit(c) && DigitValue(c) == n
  {
    (n + '0' as int) as char
  }

  /** The value of a string of decimal digits, most significant first. This is
      the reference reading of a digit string, peeling the last digit off;
      `ParseInt` instead accumulates from the first digit on. */
  function DigitsValue(d: string): nat
    requires AllDigits(d)
  {
    if d == [] then 0 else DigitsValue(d[..|d| - 1]) * 10 + DigitValue(d[|d| - 1])
  }

  /** The shape of a decimal literal in this model: an optional `+` or `-`
      followed by at least one decimal digit. */
  predicate IsIntLiteral(s: string) {
    var body := SignlessPart(s);
    |body| > 0 && AllDigits(body)
  }

  function SignlessPart(s: string): string {
    if |s| > 0 && (s[0] == '+' || s[0] == '-') then s[1..] else s
  }

  /** Python's default `sys.int_max_str_digits`: from CPython 3.11, and in
      the 3.10.7, 3.9.14, 3.8.14 and 3.7.14 security releases that fixed
      CVE-2020-10735, `int()` refuses a decimal string of more digits than
      this, leading zeros included. */
  const MaxStrDigits: nat := 4300

  /** What Python's `int()` accepts: a literal of at most `MaxStrDigits`
      digits. */
  predicate ParsesAsInt(s: string) {
    IsIntLiteral(s) && |SignlessPart(s)| <= MaxStrDigits
  }

  /** The integer a literal denotes. */
  function LiteralValue(s: string): int
    requires IsIntLiteral(s)
  {
    var n: int := DigitsValue(SignlessPart(s));
    if |s| > 0 && s[0] == '-' then -n else n
  }

  /** Reads digits left to right from position `i`, `acc` being the value of
      the digits already read from `start`. */
  function ScanDigits(s: string, start: nat, i: nat, acc: nat): (r: Option<nat>)
    requires start <= i <= |s|
    requires AllDigits(s[start..i]) && acc == DigitsValue(s[start..i])
    ensures r.Some? <==> AllDigits(s[start..])
    ensures r.Some? ==> r.value == DigitsValue(s[start..])
    decreases |s| - i
  {
    if i == |s| then
      assert s[start..i] == s[start..];
      Some(acc)
    else if !IsDigit(s[i]) then
      assert s[start..][i - start] == s[i];
      None
    else
      var next := s[start..i + 1];
      assert next[..|next| - 1] == s[start..i];
      assert AllDigits(next);
      ScanDigits(s, start, i + 1, acc * 10 + DigitValue(s[i]))
  }

  /** Python's `int(s)` on a stripped string: the integer when `s` is a
      literal of at most `MaxStrDigits` digits, `None` where Python raises
      `ValueError`. */
  function ParseInt(s: string): (r: Option<int>)
    ensures r.Some? <==> ParsesAsInt(s)
    ensures r.Some? ==> r.value == LiteralValue(s)
  {
    var negative := |s| > 0 && s[0] == '-';
    var body := SignlessPart(s);
    if body == [] || |body| > MaxStrDigits then None
    else
      match ScanDigits(body, 0, 0, 0)
      case None => None
      case Some(n) =>
        assert body[0..] == body;
        var v: int := n;
        Some(if negative then -v else v)
  }

  /** Decimal digits of a natural number, no leading zeros. */
  function FormatNat(n: nat): (s: string)
    ensures |s| > 0 && AllDigits(s)
    ensures DigitsValue(s) == n
    ensures s[0] == '0' ==> s == "0" && n == 0
  {
    if n < 10 then [DigitChar(n)]
    else
      var init := FormatNat(n / 10);
      var s := init + [DigitChar(n % 10)];
      assert s[..|s| - 1] == init;
      s
  }

  /** The number of decimal digits of `|n|`. */
  function DigitCount(n: int): nat {
    |FormatNat(if n < 0 then -n else n)|
  }

  /** Python's `str(n)` for an int: a literal denoting `n`, with a `-` exactly
      when `n` is negative, never a `+`, and no leading zero. */
  function FormatInt(n: int): (s: string)
    ensures IsIntLiteral(s) && LiteralValue(s) == n
    ensures s[0] != '+'
    ensures s[0] == '-' <==> n < 0
    ensures SignlessPart(s)[0] == '0' ==> s == "0"
    ensures |SignlessPart(s)| == DigitCount(n)
  {
    if n < 0 then
      var d := FormatNat(-n);
      var s := "-" + d;
      assert s[1..] == d;
      s
    else
      var d := FormatNat(n);
      assert IsDigit(d[0]);
      d
  }

  /** `int(str(n)) == n`: rendering an integer and reading it back is lossless,
      for every integer short enough for `int()` to accept. */
  lemma ParseFormatRoundTrip(n: int)
    requires DigitCount(n) <= MaxStrDigits
    ensures ParseInt(FormatInt(n)) == Some(n)
  {
  }

  /** A string of more than `MaxStrDigits` digits is refused by `int()`. */
  lemma OverlongLiteralRefused(d: string)
    requires |d| > MaxStrDigits && AllDigits(d)
    ensures ParseInt(d) == None
  {
    assert IsDigit(d[0]);
  }
}
