/** Decimal numerals, zero padding, lexical order and the digest, as the key builders and
    the fingerprint use them. */
module Text {

  /** A UTF-16 code unit: what `charCodeAt`, `JSON.stringify` and `<` on strings work on. */
  type CodeUnit = u: nat | u < 0x1_0000
  type JsString = seq<CodeUnit>

  type Code = c: nat | c < 0x11_0000

  function Codes(s: string): (codes: seq<Code>)
    ensures |codes| == |s|
    ensures forall i :: 0 <= i < |s| ==> codes[i] == s[i] as int
  {
    seq(|s|, i requires 0 <= i < |s| => s[i] as int)
  }

  // -------------------------------------------------------------------------
  // Decimal numerals
  // -------------------------------------------------------------------------

  const DIGITS: string := "0123456789"

  function Digit(d: nat): (c: char)
    requires d < 10
    ensures IsDigit(c) && DigitValue(c) == d
  {
    DIGITS[d]
  }

  predicate IsDigit(c: char) {
    '0' <= c <= '9'
  }

  function DigitValue(c: char): (d: nat)
    requires IsDigit(c)
    ensures d < 10
  {
    c as int - '0' as int
  }

  ghost predicate AllDigits(s: string) {
    forall i :: 0 <= i < |s| ==> IsDigit(s[i])
  }

  function Decimal(n: nat): (s: string)
    ensures |s| > 0 && AllDigits(s)
  {
    if n < 10 then [Digit(n)] else Decimal(n / 10) + [Digit(n % 10)]
  }

  function Value(s: string): nat
    requires AllDigits(s)
  {
    if s == "" then 0 else 10 * Value(s[..|s| - 1]) + DigitValue(s[|s| - 1])
  }

  function Pow10(n: nat): (p: nat)
    ensures p > 0
  {
    if n == 0 then 1 else 10 * Pow10(n - 1)
  }

  lemma {:induction false} ValueOfDecimal(n: nat)
    ensures Value(Decimal(n)) == n
  {
    if n >= 10 {
      ValueOfDecimal(n / 10);
      assert Decimal(n)[..|Decimal(n)| - 1] == Decimal(n / 10);
    } else {
      assert Decimal(n)[..0] == "";
    }
  }

  lemma {:induction false} DecimalLength(n: nat, width: nat)
    requires width > 0 && n < Pow10(width)
    ensures |Decimal(n)| <= width
  {
    if n >= 10 {
      DecimalLength(n / 10, width - 1);
    }
  }

  function Zeros(n: nat): (s: string)
    ensures |s| == n && AllDigits(s)
  {
    seq(n, _ => '0')
  }

  /** `padStart(width, "0")`. */
  function PadStart(s: string, width: nat): (r: string)
    ensures |s| <= width ==> |r| == width
    ensures |s| > width ==> r == s
    ensures AllDigits(s) ==> AllDigits(r)
  {
    if |s| < width then Zeros(width - |s|) + s else s
  }

  lemma {:induction false} ValueAfterZeros(n: nat, s: string)
    requires AllDigits(s)
    ensures AllDigits(Zeros(n) + s) && Value(Zeros(n) + s) == Value(s)
  {
    if s == "" {
      assert Zeros(n) + s == Zeros(n);
      if n > 0 {
        ValueAfterZeros(n - 1, "");
        assert Zeros(n - 1) + "" == Zeros(n)[..n - 1];
      }
    } else {
      ValueAfterZeros(n, s[..|s| - 1]);
      assert (Zeros(n) + s)[..n + |s| - 1] == Zeros(n) + s[..|s| - 1];
    }
  }

  lemma ValueOfPadded(n: nat, width: nat)
    ensures AllDigits(PadStart(Decimal(n), width)) && Value(PadStart(Decimal(n), width)) == n
  {
    ValueOfDecimal(n);
    if |Decimal(n)| < width {
      ValueAfterZeros(width - |Decimal(n)|, Decimal(n));
    }
  }

  // -------------------------------------------------------------------------
  // Lexical order
  // -------------------------------------------------------------------------

  /** The order of string sort keys: by character, a proper prefix first. */
  predicate LexLess(a: string, b: string) {
    b != "" && (a == "" || a[0] < b[0] || (a[0] == b[0] && LexLess(a[1..], b[1..])))
  }

  lemma {:induction false} ValueBound(s: string)
    requires AllDigits(s)
    ensures Value(s) < Pow10(|s|)
  {
    if s != "" {
      ValueBound(s[..|s| - 1]);
    }
  }

  /** Reading a numeral from its first digit. */
  lemma {:induction false} ValueFromFront(s: string)
    requires AllDigits(s) && s != ""
    ensures Value(s) == DigitValue(s[0]) * Pow10(|s| - 1) + Value(s[1..])
  {
    if |s| == 1 {
      assert s[..0] == "" && s[1..] == "";
    } else {
      var n := |s| - 1;
      var front, back := s[..n], s[1..];
      ValueFromFront(front);
      assert front[0] == s[0] && front[1..] == back[..n - 1] && back[n - 1] == s[n];
      TenTimes(DigitValue(s[0]), Pow10(n - 1), Value(front[1..]), DigitValue(s[n]));
    }
  }

  lemma TenTimes(d: nat, p: nat, v: nat, last: nat)
    ensures 10 * (d * p + v) + last == d * (10 * p) + (10 * v + last)
  {}

  /** Between numerals of one width, lexical order is numeric order; what follows the
      left-hand numeral (`#` and the identifier) never changes the answer. */
  lemma {:induction false} LexLessIsNumeric(a: string, suffix: string, b: string)
    requires AllDigits(a) && AllDigits(b) && |a| == |b|
    ensures LexLess(a + suffix, b) <==> Value(a) < Value(b)
  {
    if a == "" {
      assert Value(a) == 0 && Value(b) == 0;
    } else {
      var x, y := a + suffix, b;
      ValueFromFront(a);
      ValueFromFront(b);
      ValueBound(a[1..]);
      ValueBound(b[1..]);
      assert x[1..] == a[1..] + suffix;
      LexLessIsNumeric(a[1..], suffix, b[1..]);
      if a[0] < b[0] {
        FirstDigitDecides(DigitValue(a[0]), DigitValue(b[0]), Pow10(|a| - 1), Value(a[1..]), Value(b[1..]));
      } else if b[0] < a[0] {
        FirstDigitDecides(DigitValue(b[0]), DigitValue(a[0]), Pow10(|a| - 1), Value(b[1..]), Value(a[1..]));
      }
    }
  }

  lemma FirstDigitDecides(x: nat, y: nat, p: nat, v: nat, w: nat)
    requires x < y && v < p
    ensures x * p + v < y * p + w
  {
    assert (x + 1) * p <= y * p;
  }

  // -------------------------------------------------------------------------
  // Splitting at a separator
  // -------------------------------------------------------------------------

  /** The part of `s` before the first `c`, as `s.split(c)[0]`. */
  function Before(s: string, c: char): (r: string)
    ensures c !in r
  {
    if s == "" || s[0] == c then "" else [s[0]] + Before(s[1..], c)
  }

  lemma {:induction false} BeforeSeparator(a: string, c: char, b: string)
    requires c !in a
    ensures Before(a + [c] + b, c) == a
  {
    if a != "" {
      BeforeSeparator(a[1..], c, b);
      assert (a + [c] + b)[1..] == a[1..] + [c] + b;
    }
  }

  /** Text up to a separator determines both halves. */
  lemma SplitUnique(a: string, x: string, b: string, y: string, c: char)
    requires c !in a && c !in b
    requires a + [c] + x == b + [c] + y
    ensures a == b && x == y
  {
    BeforeSeparator(a, c, x);
    BeforeSeparator(b, c, y);
    assert x == (a + [c] + x)[|a| + 1..] && y == (b + [c] + y)[|b| + 1..];
  }

  // -------------------------------------------------------------------------
  // Digest
  // -------------------------------------------------------------------------

  const HEX: string := "0123456789abcdef"

  predicate IsHex(c: char) {
    '0' <= c <= '9' || 'a' <= c <= 'f'
  }

  function HexDigit(n: nat): (c: char)
    requires n < 16
    ensures IsHex(c)
  {
    HEX[n]
  }

  /** The last `width` hex digits of `n`. */
  function Hex(n: nat, width: nat): (h: string)
    ensures |h| == width && forall i :: 0 <= i < width ==> IsHex(h[i])
  {
    if width == 0 then "" else Hex(n / 16, width - 1) + [HexDigit(n % 16)]
  }

  function HexValue(c: char): nat
    requires IsHex(c)
  {
    if c <= '9' then c as int - '0' as int else c as int - 'a' as int + 10
  }

  function Pow16(width: nat): nat {
    if width == 0 then 1 else 16 * Pow16(width - 1)
  }

  lemma {:induction false} HexInjective(a: nat, b: nat, width: nat)
    requires a < Pow16(width) && b < Pow16(width)
    requires Hex(a, width) == Hex(b, width)
    ensures a == b
  {
    if width > 0 {
      var x, y := Hex(a, width), Hex(b, width);
      assert x[..width - 1] == Hex(a / 16, width - 1) && y[..width - 1] == Hex(b / 16, width - 1);
      assert x[width - 1] == HexDigit(a % 16) && y[width - 1] == HexDigit(b % 16);
      forall n: nat | n < 16 ensures HexValue(HexDigit(n)) == n {}
      HexInjective(a / 16, b / 16, width - 1);
    }
  }

  /** Stands for SHA-256 in hex. It is collision free and yields lower-case hex digits, and
      nothing else about it is used; the real digest's fixed length is not modelled. */
  function Sha256Hex(input: seq<Code>): (h: string)
    ensures forall i :: 0 <= i < |h| ==> IsHex(h[i])
    ensures |h| == 6 * |input|
  {
    if input == [] then "" else Hex(input[0], 6) + Sha256Hex(input[1..])
  }

  lemma {:induction false} Sha256HexInjective(a: seq<Code>, b: seq<Code>)
    requires Sha256Hex(a) == Sha256Hex(b)
    ensures a == b
  {
    if a == [] || b == [] {
      assert |a| == |b|;
    } else {
      assert Sha256Hex(a)[..6] == Hex(a[0], 6) && Sha256Hex(b)[..6] == Hex(b[0], 6);
      assert Sha256Hex(a)[6..] == Sha256Hex(a[1..]) && Sha256Hex(b)[6..] == Sha256Hex(b[1..]);
      assert Pow16(6) == 0x100_0000 by { assert Pow16(3) == 0x1000; }
      HexInjective(a[0], b[0], 6);
      Sha256HexInjective(a[1..], b[1..]);
      assert a == [a[0]] + a[1..] && b == [b[0]] + b[1..];
    }
  }

  lemma TextDigestInjective(a: string, b: string)
    requires Sha256Hex(Codes(a)) == Sha256Hex(Codes(b))
    ensures a == b
  {
    Sha256HexInjective(Codes(a), Codes(b));
    assert |a| == |b|;
    forall i | 0 <= i < |a| ensures a[i] == b[i] {
      assert Codes(a)[i] == Codes(b)[i];
    }
  }
}
