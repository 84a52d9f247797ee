/**
 * Decimal text of integers: Python's `str(n)` and `f"{n:0{w}d}"` for
 * non-negative `n`, and `int(text)` for base-10 text.
 */
module Decimal {
  import opened Wrappers
  import opened Text

  predicate IsDigit(c: char)
  {
    '0' <= c <= '9'
  }

  predicate AllDigits(s: string)
  {
    forall i :: 0 <= i < |s| ==> IsDigit(s[i])
  }

  function DigitChar(d: nat): (c: char)
    requires d < 10
    ensures IsDigit(c)
  {
    ('0' as int + d) as char
  }

  function DigitValue(c: char): (d: nat)
    requires IsDigit(c)
    ensures d < 10
  {
    c as int - '0' as int
  }

  function Pow10(k: nat): (p: nat)
    ensures p >= 1
  {
    if k == 0 then 1 else 10 * Pow10(k - 1)
  }

  /** `str(n)`: the shortest decimal text of `n`, without leading zeros. */
  function Digits(n: nat): (s: string)
    ensures |s| >= 1 && AllDigits(s)
    ensures |s| > 1 ==> s[0] != '0'
  {
    if n < 10 then [DigitChar(n)] else Digits(n / 10) + [DigitChar(n % 10)]
  }

  /** The number a string of decimal digits denotes; leading zeros are allowed. */
  function Value(s: string): nat
    requires AllDigits(s)
  {
    if s == [] then 0 else Value(s[..|s| - 1]) * 10 + DigitValue(s[|s| - 1])
  }

  /** A run of `k` zero digits. */
  function Zeros(k: nat): (s: string)
    ensures |s| == k && AllDigits(s)
    ensures forall i :: 0 <= i < k ==> s[i] == '0'
  {
    seq(k, _ => '0')
  }

  /**
   * `f"{n:0{width}d}"`: `str(n)` padded on the left with zeros up to `width`
   * characters; a number wider than `width` is not cut.
   */
  function PadDigits(n: nat, width: nat): (s: string)
    ensures AllDigits(s) && |s| >= width
  {
    var d := Digits(n);
    if |d| < width then Zeros(width - |d|) + d else d
  }

  /** `str(n)` for any integer. */
  function FormatInt(n: int): string
  {
    if n < 0 then "-" + Digits(-n) else Digits(n)
  }

  /**
   * The information separators U+001C-U+001F: whitespace to `str.strip()`,
   * but not to `int()`, which fails on text holding one.
   */
  predicate IsSeparatorControl(c: char)
  {
    0x1C <= c as int <= 0x1F
  }

  predicate HasSeparatorControl(s: string)
  {
    exists i :: 0 <= i < |s| && IsSeparatorControl(s[i])
  }

  /**
   * `int(s)`: surrounding whitespace, an optional sign and at least one ASCII
   * digit; anything else raises `ValueError`, modelled as `None`. `int()`
   * skips the `str.isspace()` characters except U+001C-U+001F around the
   * number, so one of those anywhere in the text makes it fail: around the
   * number it is not skipped, and inside it is not a digit.
   */
  function ParseInt(s: string): (r: Option<int>)
    ensures IsBlank(s) ==> r == None
  {
    if HasSeparatorControl(s) then None else ParseLiteral(Strip(s))
  }

  /** An optional sign followed by at least one digit, and nothing else. */
  function ParseLiteral(t: string): Option<int>
  {
    if t != [] && (t[0] == '-' || t[0] == '+') then
      var body := t[1..];
      if body != [] && AllDigits(body) then
        Some(if t[0] == '-' then -(Value(body) as int) else Value(body))
      else
        None
    else if t != [] && AllDigits(t) then
      Some(Value(t))
    else
      None
  }

  lemma {:induction false} ValueOfDigits(n: nat)
    ensures Value(Digits(n)) == n
  {
    if n >= 10 {
      var s := Digits(n);
      assert s[..|s| - 1] == Digits(n / 10);
      ValueOfDigits(n / 10);
    }
  }

  lemma {:induction false} ValueOfZeros(k: nat)
    ensures Value(Zeros(k)) == 0
  {
    if k > 0 {
      assert Zeros(k)[..k - 1] == Zeros(k - 1);
      ValueOfZeros(k - 1);
    }
  }

  lemma {:induction false} LeadingZerosIgnored(k: nat, s: string)
    requires AllDigits(s)
    ensures AllDigits(Zeros(k) + s) && Value(Zeros(k) + s) == Value(s)
    decreases |s|
  {
    if s == [] {
      assert Zeros(k) + s == Zeros(k);
      ValueOfZeros(k);
    } else {
      var t := Zeros(k) + s;
      assert t[..|t| - 1] == Zeros(k) + s[..|s| - 1];
      LeadingZerosIgnored(k, s[..|s| - 1]);
    }
  }

  /** Reading a zero-padded index back gives the index. */
  lemma PadDigitsValue(n: nat, width: nat)
    ensures Value(PadDigits(n, width)) == n
  {
    var d := Digits(n);
    ValueOfDigits(n);
    var s := PadDigits(n, width);
    if |d| < width {
      var z := Zeros(width - |d|);
      LeadingZerosIgnored(width - |d|, d);
      assert s == z + d;
      assert Value(s) == Value(z + d) == Value(d);
    } else {
      assert s == d;
    }
  }

  /** Distinct indices get distinct zero-padded texts. */
  lemma PadDigitsInjective(m: nat, n: nat, width: nat)
    requires PadDigits(m, width) == PadDigits(n, width)
    ensures m == n
  {
    PadDigitsValue(m, width);
    PadDigitsValue(n, width);
  }

  lemma {:induction false} DigitsLength(n: nat, k: nat)
    requires 1 <= k && n < Pow10(k)
    ensures |Digits(n)| <= k
  {
    if n >= 10 {
      assert k >= 2;
      assert n / 10 < Pow10(k - 1);
      DigitsLength(n / 10, k - 1);
    }
  }

  /** The padded text is exactly `width` characters long while the number fits in `width` digits. */
  lemma PadDigitsLength(n: nat, width: nat)
    ensures 1 <= width && n < Pow10(width) ==> |PadDigits(n, width)| == width
  {
    if 1 <= width && n < Pow10(width) {
      DigitsLength(n, width);
    }
  }

  /** `int(str(n)) == n` for every integer `n`. */
  lemma ParseFormatInt(n: int)
    ensures ParseInt(FormatInt(n)) == Some(n)
  {
    var m: nat := if n < 0 then -n else n;
    var d := Digits(m);
    ValueOfDigits(m);
    assert Value(d) == m;
    if n < 0 {
      assert FormatInt(n) == "-" + d;
      ParseSigned(d);
    } else {
      assert FormatInt(n) == d;
      ParseUnsigned(d);
    }
  }

  /** A non-empty run of digits reads as its value. */
  lemma ParseUnsigned(d: string)
    requires d != [] && AllDigits(d)
    ensures ParseInt(d) == Some(Value(d) as int)
  {
    DigitsNoSeparatorControl(d);
    LiteralKept(d);
    ParseViaLiteral(d);
    UnsignedLiteral(d);
  }

  lemma UnsignedLiteral(d: string)
    requires d != [] && AllDigits(d)
    ensures ParseLiteral(d) == Some(Value(d) as int)
  {
    assert IsDigit(d[0]);
  }

  /** A minus sign before a non-empty run of digits negates its value. */
  lemma ParseSigned(d: string)
    requires d != [] && AllDigits(d)
    ensures ParseInt("-" + d) == Some(-(Value(d) as int))
  {
    var f := "-" + d;
    DigitsNoSeparatorControl(d);
    NoSeparatorControlJoined("-", d);
    assert f[|f| - 1] == d[|d| - 1];
    LiteralKept(f);
    ParseViaLiteral(f);
    NegativeLiteral(d);
  }

  lemma NegativeLiteral(d: string)
    requires d != [] && AllDigits(d)
    ensures ParseLiteral("-" + d) == Some(-(Value(d) as int))
  {
    assert ("-" + d)[1..] == d;
  }

  /** Without U+001C-U+001F, `int()` reads the literal that `strip()` leaves. */
  lemma ParseViaLiteral(s: string)
    requires !HasSeparatorControl(s)
    ensures ParseInt(s) == ParseLiteral(Strip(s))
  {
  }

  lemma DigitsNoSeparatorControl(d: string)
    requires AllDigits(d)
    ensures !HasSeparatorControl(d)
  {
    assert forall i :: 0 <= i < |d| ==> IsDigit(d[i]) && !IsSeparatorControl(d[i]);
  }

  /** A text ending in a digit and starting with a digit or a sign is kept by `strip()`. */
  lemma LiteralKept(t: string)
    requires t != [] && (IsDigit(t[0]) || t[0] == '-') && IsDigit(t[|t| - 1])
    ensures Strip(t) == t
  {
    assert [] + t + [] == t;
    StripSurrounded([], t, []);
  }

  /** Joining two texts free of U+001C-U+001F gives one free of them. */
  lemma NoSeparatorControlJoined(a: string, b: string)
    requires !HasSeparatorControl(a) && !HasSeparatorControl(b)
    ensures !HasSeparatorControl(a + b)
  {
    forall i | 0 <= i < |a + b|
      ensures !IsSeparatorControl((a + b)[i])
    {
      if i >= |a| {
        assert (a + b)[i] == b[i - |a|];
      }
    }
  }

  /**
   * `int()` ignores whitespace around the number, other than U+001C-U+001F:
   * `int(w1 + str(n) + w2) == n`.
   */
  lemma ParsePaddedInt(w1: string, n: int, w2: string)
    requires IsBlank(w1) && IsBlank(w2)
    requires !HasSeparatorControl(w1) && !HasSeparatorControl(w2)
    ensures ParseInt(w1 + FormatInt(n) + w2) == Some(n)
  {
    var f := FormatInt(n);
    ParseFormatInt(n);
    ParsedParts(f);
    FormatIntEnds(n);
    StripSurrounded(w1, f, w2);
    NoSeparatorControlJoined(w1, f);
    NoSeparatorControlJoined(w1 + f, w2);
  }

  /** Text `int()` accepts holds no U+001C-U+001F, and its stripped form is the literal. */
  lemma ParsedParts(s: string)
    requires ParseInt(s).Some?
    ensures !HasSeparatorControl(s) && ParseLiteral(Strip(s)) == ParseInt(s)
  {
  }

  /** `str(n)` neither starts nor ends with whitespace, and `strip()` keeps it. */
  lemma FormatIntEnds(n: int)
    ensures var f := FormatInt(n);
            f != [] && !IsSpace(f[0]) && !IsSpace(f[|f| - 1]) && Strip(f) == f
  {
    var f := FormatInt(n);
    var d := Digits(if n < 0 then -n else n);
    assert f[|f| - 1] == d[|d| - 1];
    assert IsDigit(d[0]) && IsDigit(d[|d| - 1]);
    assert [] + f + [] == f;
    StripSurrounded([], f, []);
  }

  /**
   * A run of digits followed by a non-digit is recovered unambiguously from
   * the text it starts.
   */
  lemma DigitRunPrefix(d1: string, rest1: string, d2: string, rest2: string)
    requires AllDigits(d1) && AllDigits(d2)
    requires rest1 != [] && !IsDigit(rest1[0]) && rest2 != [] && !IsDigit(rest2[0])
    requires d1 + rest1 == d2 + rest2
    ensures d1 == d2 && rest1 == rest2
  {
    var s := d1 + rest1;
    assert d1 == s[..|d1|] && d2 == (d2 + rest2)[..|d2|];
    assert rest1 == s[|d1|..] && rest2 == (d2 + rest2)[|d2|..];
  }
}
