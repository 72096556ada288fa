/**
 * The handful of Python `str` operations the summariser relies on, written
 * out over `seq<char>`: whitespace stripping, `sep.join(parts)`, the
 * open-ended slice `s[start:]` and `str(n)` for integers.
 */
module PyText {
  import opened Wrappers

  // ---------------------------------------------------------------------
  // Whitespace and str.strip()
  // ---------------------------------------------------------------------

  /** The characters Python's `str.isspace` accepts, which are the ones
      `str.strip()` without arguments removes. */
  predicate IsWhitespace(c: char) {
    || ('\t' <= c <= '\r')
    || ('\U{1C}' <= c <= '\U{1F}')
    || c == ' '
    || c == '\U{85}'
    || c == '\U{A0}'
    || c == '\U{1680}'
    || ('\U{2000}' <= c <= '\U{200A}')
    || c == '\U{2028}'
    || c == '\U{2029}'
    || c == '\U{202F}'
    || c == '\U{205F}'
    || c == '\U{3000}'
  }

  /** `s[i..j]` is what stripping leaves of `s`: everything outside it is
      whitespace and, unless it is empty, it starts and ends with a
      non-whitespace character. This is the reference meaning of `strip`. */
  ghost predicate StrippedSpan(s: string, i: int, j: int) {
    && 0 <= i <= j <= |s|
    && (forall k :: 0 <= k < i ==> IsWhitespace(s[k]))
    && (forall k :: j <= k < |s| ==> IsWhitespace(s[k]))
    && (i < j ==> !IsWhitespace(s[i]) && !IsWhitespace(s[j - 1]))
  }

  /** Index of the first non-whitespace character at or after `i`, or
      `|s|` when there is none: where `lstrip` cuts. */
  function SkipLeading(s: string, i: nat): (r: nat)
    requires i <= |s|
    ensures i <= r <= |s|
    ensures forall k :: i <= k < r ==> IsWhitespace(s[k])
    ensures r < |s| ==> !IsWhitespace(s[r])
    decreases |s| - i
  {
    if i < |s| && IsWhitespace(s[i]) then SkipLeading(s, i + 1) else i
  }

  /** End of `s[lo..j]` once its trailing whitespace is dropped: where
      `rstrip` cuts. */
  function SkipTrailing(s: string, lo: nat, j: nat): (r: nat)
    requires lo <= j <= |s|
    ensures lo <= r <= j
    ensures forall k :: r <= k < j ==> IsWhitespace(s[k])
    ensures lo < r ==> !IsWhitespace(s[r - 1])
    decreases j
  {
    if lo < j && IsWhitespace(s[j - 1]) then SkipTrailing(s, lo, j - 1) else j
  }

  /** Python's `s.strip()`. */
  function Strip(s: string): (r: string)
    ensures exists i, j :: StrippedSpan(s, i, j) && r == s[i..j]
    ensures |r| > 0 ==> !IsWhitespace(r[0]) && !IsWhitespace(r[|r| - 1])
  {
    var i := SkipLeading(s, 0);
    var j := SkipTrailing(s, i, |s|);
    assert StrippedSpan(s, i, j);
    s[i..j]
  }

  /** There is only one way to strip a string: the reference meaning pins
      the result down completely. */
  lemma StrippedSpanUnique(s: string, i1: int, j1: int, i2: int, j2: int)
    requires StrippedSpan(s, i1, j1) && StrippedSpan(s, i2, j2)
    ensures s[i1..j1] == s[i2..j2]
  {
    // Either both spans are empty (s is all whitespace) or neither is,
    assert i1 < j1 <==> i2 < j2;
    // and non-empty spans run from the first to the last non-whitespace character.
    assert i1 < j1 ==> i1 == i2 && j1 == j2;
  }

  /** `Strip` agrees with any span meeting the reference meaning. */
  lemma StripMatchesSpan(s: string, i: int, j: int)
    requires StrippedSpan(s, i, j)
    ensures Strip(s) == s[i..j]
  {
    var r := Strip(s);
    assert exists i', j' :: StrippedSpan(s, i', j') && r == s[i'..j'];
    var i', j' :| StrippedSpan(s, i', j') && r == s[i'..j'];
    StrippedSpanUnique(s, i, j, i', j');
  }

  /** Stripping twice is stripping once. */
  lemma StripIdempotent(s: string)
    ensures Strip(Strip(s)) == Strip(s)
  {
    var t := Strip(s);
    assert t[0..|t|] == t;
    StripMatchesSpan(t, 0, |t|);
  }

  // ---------------------------------------------------------------------
  // sep.join(parts)
  // ---------------------------------------------------------------------

  /** Total number of characters in `parts`. */
  function SumLengths(parts: seq<string>): nat {
    if |parts| == 0 then 0 else SumLengths(parts[..|parts| - 1]) + |parts[|parts| - 1]|
  }

  /** Python's `sep.join(parts)`. */
  function Join(sep: string, parts: seq<string>): string
  {
    if |parts| == 0 then ""
    else if |parts| == 1 then parts[0]
    else
      Join(sep, parts[..|parts| - 1]) + sep + parts[|parts| - 1]
  }

  /** The joined length is the parts' total length plus one separator
      between each neighbouring pair. */
  lemma {:induction false} JoinLength(sep: string, parts: seq<string>)
    requires |parts| > 0
    ensures |Join(sep, parts)| == SumLengths(parts) + |sep| * (|parts| - 1)
    decreases |parts|
  {
    var n := |parts|;
    if n > 1 {
      JoinLength(sep, parts[..n - 1]);
      assert |sep| * (n - 1) == |sep| * (n - 2) + |sep|;
    }
  }

  /** The joined text ends with the last part. */
  lemma JoinEndsWithLast(sep: string, parts: seq<string>)
    requires |parts| > 0
    ensures var r := Join(sep, parts); var last := parts[|parts| - 1];
      |last| <= |r| && r[|r| - |last|..] == last
  {
  }

  /** Appending one more part adds one separator and that part. */
  lemma JoinSnoc(sep: string, parts: seq<string>, x: string)
    requires |parts| > 0
    ensures Join(sep, parts + [x]) == Join(sep, parts) + sep + x
  {
    assert (parts + [x])[..|parts|] == parts;
  }

  /** Joining two non-empty lists is joining each and gluing the results
      with one more separator. */
  lemma {:induction false} JoinConcat(sep: string, a: seq<string>, b: seq<string>)
    requires |a| > 0 && |b| > 0
    ensures Join(sep, a + b) == Join(sep, a) + sep + Join(sep, b)
    decreases |b|
  {
    if |b| == 1 {
      JoinSnoc(sep, a, b[0]);
      assert a + b == a + [b[0]];
    } else {
      var b', last := b[..|b| - 1], b[|b| - 1];
      assert b == b' + [last];
      assert a + b == (a + b') + [last];
      JoinSnoc(sep, a + b', last);
      JoinConcat(sep, a, b');
      JoinSnoc(sep, b', last);
    }
  }

  // ---------------------------------------------------------------------
  // s[start:]
  // ---------------------------------------------------------------------

  /** Python's open-ended slice `s[start:]`: a negative `start` counts from
      the end, and an index past either end is clamped to it. */
  function SliceFrom(s: string, start: int): (r: string)
    ensures |r| <= |s| && r == s[|s| - |r|..]
    ensures start < 0 ==> |r| == if -start < |s| then -start else |s|
    ensures start >= 0 ==> |r| == if start < |s| then |s| - start else 0
  {
    var k := if start < 0 then (if start + |s| < 0 then 0 else start + |s|)
             else (if start > |s| then |s| else start);
    s[k..]
  }

  // ---------------------------------------------------------------------
  // str(n) for integers
  // ---------------------------------------------------------------------

  predicate IsDigit(c: char) {
    '0' <= c <= '9'
  }

  predicate AllDigits(s: string) {
    forall i :: 0 <= i < |s| ==> IsDigit(s[i])
  }

  function DigitChar(d: nat): (c: char)
    requires d < 10
    ensures IsDigit(c)
  {
    ('0' as int + d) as char
  }

  function DigitValue(c: char): (d: nat)
    requires IsDigit(c)
    ensures d < 10
  {
    (c as int - '0' as int) as nat
  }

  /** Decimal digits of `n`, most significant first, without leading zeros. */
  function NatToDigits(n: nat): (s: string)
    ensures |s| > 0 && AllDigits(s)
    ensures |s| > 1 ==> s[0] != '0'
    decreases n
  {
    if n < 10 then [DigitChar(n)] else NatToDigits(n / 10) + [DigitChar(n % 10)]
  }

  /** Python's `str(n)` for an `int`. */
  function IntToString(n: int): (s: string)
    ensures |s| > 0
    ensures n < 0 <==> s[0] == '-'
    ensures var d := if n < 0 then s[1..] else s;
      |d| > 0 && AllDigits(d) && (|d| > 1 ==> d[0] != '0')
  {
    if n < 0 then "-" + NatToDigits(-n) else NatToDigits(n)
  }

  /** The number a non-empty run of decimal digits denotes. */
  function DigitsValue(s: string): nat
    requires AllDigits(s)
  {
    if |s| == 0 then 0 else DigitsValue(s[..|s| - 1]) * 10 + DigitValue(s[|s| - 1])
  }

  /** Python's `int(s)` restricted to an optional minus sign followed by
      decimal digits; anything else is rejected. */
  function ParseInt(s: string): Option<int> {
    if |s| > 1 && s[0] == '-' && AllDigits(s[1..]) then Some(-(DigitsValue(s[1..]) as int))
    else if |s| > 0 && AllDigits(s) then Some(DigitsValue(s))
    else None
  }

  lemma {:induction false} DigitsRoundTrip(n: nat)
    ensures DigitsValue(NatToDigits(n)) == n
    decreases n
  {
    var s := NatToDigits(n);
    if n < 10 {
      assert s == [DigitChar(n)];
      assert s[..0] == [];
    } else {
      var front := NatToDigits(n / 10);
      assert s == front + [DigitChar(n % 10)];
      assert s[..|s| - 1] == front;
      DigitsRoundTrip(n / 10);
    }
  }

  /** `int(str(n)) == n`: the rendered timestamp reads back as the number. */
  lemma IntToStringRoundTrip(n: int)
    ensures ParseInt(IntToString(n)) == Some(n)
  {
    var s := IntToString(n);
    if n < 0 {
      assert s[1..] == NatToDigits(-n);
      DigitsRoundTrip(-n);
    } else {
      DigitsRoundTrip(n);
    }
  }
}
