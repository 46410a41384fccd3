/** The quoted form `JSON.stringify` gives a string, and the reader that undoes it.
    The escapes are those of section 7 of RFC 8259; a surrogate that is not part of a pair
    is written as an escape, as ECMAScript's QuoteJSONString does. */
module JsonString {
  import opened Text
  import opened Contracts

  const QUOTE: CodeUnit := 0x22
  const BACKSLASH: CodeUnit := 0x5C
  const LETTER_U: CodeUnit := 0x75

  predicate IsLead(u: CodeUnit) { 0xD800 <= u <= 0xDBFF }
  predicate IsTrail(u: CodeUnit) { 0xDC00 <= u <= 0xDFFF }
  predicate IsSurrogate(u: CodeUnit) { 0xD800 <= u <= 0xDFFF }

  /** The letter of a two-character escape. */
  function ShortEscape(u: CodeUnit): Option<CodeUnit> {
    match u
    case 0x08 => Some(0x62)
    case 0x09 => Some(0x74)
    case 0x0A => Some(0x6E)
    case 0x0C => Some(0x66)
    case 0x0D => Some(0x72)
    case 0x22 => Some(0x22)
    case 0x5C => Some(0x5C)
    case _ => None
  }

  function ShortUnescape(letter: CodeUnit): Option<CodeUnit> {
    match letter
    case 0x62 => Some(0x08)
    case 0x74 => Some(0x09)
    case 0x6E => Some(0x0A)
    case 0x66 => Some(0x0C)
    case 0x72 => Some(0x0D)
    case 0x22 => Some(0x22)
    case 0x5C => Some(0x5C)
    case _ => None
  }

  function HexUnit(n: nat): CodeUnit
    requires n < 16
  {
    if n < 10 then 0x30 + n else 0x57 + n
  }

  function HexUnitValue(u: CodeUnit): Option<nat> {
    if 0x30 <= u <= 0x39 then Some(u - 0x30)
    else if 0x61 <= u <= 0x66 then Some(u - 0x57)
    else None
  }

  /** `\uXXXX`. */
  function LongEscape(u: CodeUnit): (text: JsString)
    ensures |text| == 6
  {
    [BACKSLASH, LETTER_U, HexUnit(u / 0x1000), HexUnit(u / 0x100 % 16), HexUnit(u / 0x10 % 16), HexUnit(u % 16)]
  }

  predicate StartsWithPair(s: JsString) {
    |s| > 1 && IsLead(s[0]) && IsTrail(s[1])
  }

  function QuoteUnit(u: CodeUnit): JsString {
    if ShortEscape(u).Some? then [BACKSLASH, ShortEscape(u).value]
    else if u < 0x20 || IsSurrogate(u) then LongEscape(u)
    else [u]
  }

  function QuoteBody(s: JsString): JsString {
    if s == [] then []
    else if StartsWithPair(s) then s[..2] + QuoteBody(s[2..])
    else QuoteUnit(s[0]) + QuoteBody(s[1..])
  }

  /** `JSON.stringify` of a string. */
  function Quote(s: JsString): JsString {
    [QUOTE] + QuoteBody(s) + [QUOTE]
  }

  datatype Read<+T> = Read(value: T, rest: JsString)

  /** One escape, after its backslash. */
  function Unescape(s: JsString): (r: Option<Read<CodeUnit>>)
    ensures r.Some? ==> |r.value.rest| < |s|
  {
    if s == [] then None
    else if ShortUnescape(s[0]).Some? then Some(Read(ShortUnescape(s[0]).value, s[1..]))
    else if s[0] == LETTER_U && |s| >= 5 then
      match (HexUnitValue(s[1]), HexUnitValue(s[2]), HexUnitValue(s[3]), HexUnitValue(s[4]))
      case (Some(a), Some(b), Some(c), Some(d)) =>
        var code := 0x1000 * a + 0x100 * b + 0x10 * c + d;
        if code < 0x1_0000 then Some(Read(code, s[5..])) else None
      case _ => None
    else None
  }

  /** A quoted string, after its opening quote. */
  function Unquote(s: JsString): (r: Option<Read<JsString>>)
    ensures r.Some? ==> |r.value.rest| < |s|
    decreases |s|
  {
    if s == [] then None
    else if s[0] == QUOTE then Some(Read([], s[1..]))
    else if s[0] == BACKSLASH then
      match Unescape(s[1..])
      case None => None
      case Some(unit) => Prepend(unit.value, Unquote(unit.rest))
    else
      Prepend(s[0], Unquote(s[1..]))
  }

  lemma HexUnitReads(n: nat)
    requires n < 16
    ensures HexUnitValue(HexUnit(n)) == Some(n)
  {}

  lemma HexDigitsOf(u: CodeUnit)
    ensures u / 0x1000 < 16
    ensures 0x1000 * (u / 0x1000) + 0x100 * (u / 0x100 % 16) + 0x10 * (u / 0x10 % 16) + u % 16 == u
  {}

  lemma UnescapeLong(u: CodeUnit, rest: JsString)
    ensures Unescape(LongEscape(u)[1..] + rest) == Some(Read(u, rest))
  {
    var s := LongEscape(u)[1..] + rest;
    HexDigitsOf(u);
    HexUnitReads(u / 0x1000);
    HexUnitReads(u / 0x100 % 16);
    HexUnitReads(u / 0x10 % 16);
    HexUnitReads(u % 16);
    assert s[..5] == LongEscape(u)[1..];
    assert s[5..] == rest;
  }

  function Prepend(u: CodeUnit, tail: Option<Read<JsString>>): Option<Read<JsString>> {
    match tail
    case None => None
    case Some(read) => Some(Read([u] + read.value, read.rest))
  }

  lemma UnquoteEscape(u: CodeUnit, escape: JsString, rest: JsString)
    requires Unescape(escape + rest) == Some(Read(u, rest))
    ensures Unquote([BACKSLASH] + escape + rest) == Prepend(u, Unquote(rest))
  {
    var text := [BACKSLASH] + escape + rest;
    assert text[0] == BACKSLASH && text[1..] == escape + rest;
  }

  lemma UnquotePlain(u: CodeUnit, rest: JsString)
    requires u != QUOTE && u != BACKSLASH
    ensures Unquote([u] + rest) == Prepend(u, Unquote(rest))
  {
    assert ([u] + rest)[1..] == rest;
  }

  lemma UnescapeShort(u: CodeUnit, rest: JsString)
    requires ShortEscape(u).Some?
    ensures Unescape([ShortEscape(u).value] + rest) == Some(Read(u, rest))
  {
    assert ([ShortEscape(u).value] + rest)[1..] == rest;
  }

  /** One quoted unit reads back as itself. */
  lemma UnquoteUnit(u: CodeUnit, rest: JsString)
    ensures Unquote(QuoteUnit(u) + rest) == Prepend(u, Unquote(rest))
  {
    if ShortEscape(u).Some? {
      UnescapeShort(u, rest);
      UnquoteEscape(u, [ShortEscape(u).value], rest);
      assert QuoteUnit(u) == [BACKSLASH] + [ShortEscape(u).value];
    } else if u < 0x20 || IsSurrogate(u) {
      UnescapeLong(u, rest);
      UnquoteEscape(u, LongEscape(u)[1..], rest);
      assert QuoteUnit(u) == [BACKSLASH] + LongEscape(u)[1..];
    } else {
      UnquotePlain(u, rest);
    }
  }

  lemma UnquotePair(s: JsString, rest: JsString)
    requires StartsWithPair(s)
    ensures Unquote(s[..2] + rest) == Prepend(s[0], Prepend(s[1], Unquote(rest)))
  {
    UnquotePlain(s[1], rest);
    UnquotePlain(s[0], [s[1]] + rest);
    assert s[..2] + rest == [s[0]] + ([s[1]] + rest);
  }

  ghost predicate ReadsBack(s: JsString, rest: JsString) {
    Unquote(QuoteBody(s) + [QUOTE] + rest) == Some(Read(s, rest))
  }

  lemma ReadsBackPair(s: JsString, rest: JsString)
    requires StartsWithPair(s) && ReadsBack(s[2..], rest)
    ensures ReadsBack(s, rest)
  {
    var tail := QuoteBody(s[2..]) + [QUOTE] + rest;
    UnquotePair(s, tail);
    assert QuoteBody(s) + [QUOTE] + rest == s[..2] + tail;
    assert s == [s[0]] + ([s[1]] + s[2..]);
  }

  lemma ReadsBackUnit(s: JsString, rest: JsString)
    requires s != [] && !StartsWithPair(s) && ReadsBack(s[1..], rest)
    ensures ReadsBack(s, rest)
  {
    var tail := QuoteBody(s[1..]) + [QUOTE] + rest;
    UnquoteUnit(s[0], tail);
    assert QuoteBody(s) + [QUOTE] + rest == QuoteUnit(s[0]) + tail;
    assert s == [s[0]] + s[1..];
  }

  /** Reading a quoted string gives the string back and leaves what follows it. */
  lemma {:induction false} UnquoteQuote(s: JsString, rest: JsString)
    ensures ReadsBack(s, rest)
    decreases |s|
  {
    if s == [] {
      assert QuoteBody(s) + [QUOTE] + rest == [QUOTE] + rest;
    } else if StartsWithPair(s) {
      UnquoteQuote(s[2..], rest);
      ReadsBackPair(s, rest);
    } else {
      UnquoteQuote(s[1..], rest);
      ReadsBackUnit(s, rest);
    }
  }

  // -------------------------------------------------------------------------
  // Well-formed UTF-16
  // -------------------------------------------------------------------------

  /** No surrogate outside a pair, so that encoding as UTF-8 loses nothing. */
  predicate WellFormedUtf16(s: JsString) {
    s == [] ||
    (StartsWithPair(s) && WellFormedUtf16(s[2..])) ||
    (!IsSurrogate(s[0]) && WellFormedUtf16(s[1..]))
  }

  lemma {:induction false} WellFormedConcat(a: JsString, b: JsString)
    requires WellFormedUtf16(a) && WellFormedUtf16(b)
    ensures WellFormedUtf16(a + b)
    decreases |a|
  {
    if a == [] {
      assert a + b == b;
    } else if StartsWithPair(a) {
      WellFormedConcat(a[2..], b);
      assert (a + b)[2..] == a[2..] + b;
    } else {
      WellFormedConcat(a[1..], b);
      assert (a + b)[1..] == a[1..] + b;
    }
  }

  lemma {:induction false} PlainIsWellFormed(s: JsString)
    requires forall i :: 0 <= i < |s| ==> !IsSurrogate(s[i])
    ensures WellFormedUtf16(s)
  {
    if s != [] {
      PlainIsWellFormed(s[1..]);
    }
  }

  lemma {:induction false} QuoteBodyIsWellFormed(s: JsString)
    ensures WellFormedUtf16(QuoteBody(s))
    decreases |s|
  {
    if s == [] {
    } else if StartsWithPair(s) {
      QuoteBodyIsWellFormed(s[2..]);
      assert QuoteBody(s)[2..] == QuoteBody(s[2..]);
    } else {
      QuoteBodyIsWellFormed(s[1..]);
      PlainIsWellFormed(QuoteUnit(s[0]));
      WellFormedConcat(QuoteUnit(s[0]), QuoteBody(s[1..]));
    }
  }

  lemma QuoteIsWellFormed(s: JsString)
    ensures WellFormedUtf16(Quote(s))
  {
    QuoteBodyIsWellFormed(s);
    PlainIsWellFormed([QUOTE]);
    WellFormedConcat([QUOTE], QuoteBody(s));
    WellFormedConcat([QUOTE] + QuoteBody(s), [QUOTE]);
  }
}
