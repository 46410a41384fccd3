/** Canonical JSON and the identities derived by hashing.
    Models packages/idempotency/src/fingerprint.ts. */
module Fingerprint {
  import opened Text
  import opened Contracts
  import opened JsonString

  // -------------------------------------------------------------------------
  // Values
  // -------------------------------------------------------------------------

  predicate IsNumeralUnit(u: CodeUnit) {
    0x30 <= u <= 0x39 || u == 0x2D || u == 0x2B || u == 0x2E || u == 0x65
  }

  predicate IsNumeral(s: JsString) {
    s != [] && forall i :: 0 <= i < |s| ==> IsNumeralUnit(s[i])
  }

  /** The text JavaScript gives a finite number, which identifies the number. */
  type Numeral = s: JsString | IsNumeral(s) witness [0x30]

  datatype Number = Finite(text: Numeral) | NegativeZero | NaNOrInfinite

  /** A JavaScript value made of JSON parts and `undefined`. */
  datatype Value =
    | Undefined
    | Null
    | Bool(truth: bool)
    | Num(number: Number)
    | Str(text: JsString)
    | Arr(elements: seq<Value>)
    | Obj(members: seq<Member>)

  /** One own property, in the order `Object.entries` lists it. */
  datatype Member = Member(key: JsString, value: Value)

  ghost predicate DistinctKeys(members: seq<Member>) {
    forall i, j :: 0 <= i < j < |members| ==> members[i].key != members[j].key
  }

  /** The objects inside have distinct property names. */
  ghost predicate WellFormed(v: Value) {
    match v
    case Arr(elements) => forall e | e in elements :: WellFormed(e)
    case Obj(members) => DistinctKeys(members) && forall m | m in members :: WellFormed(m.value)
    case _ => true
  }

  /** No number inside makes `canonicalize` throw. */
  predicate Fingerprintable(v: Value) {
    match v
    case Num(n) => !n.NaNOrInfinite?
    case Arr(elements) => forall e | e in elements :: Fingerprintable(e)
    case Obj(members) => forall m | m in members :: Fingerprintable(m.value)
    case _ => true
  }

  // -------------------------------------------------------------------------
  // canonicalize
  // -------------------------------------------------------------------------

  const COMMA: CodeUnit := 0x2C
  const COLON: CodeUnit := 0x3A
  const OPEN_BRACKET: CodeUnit := 0x5B
  const CLOSE_BRACKET: CodeUnit := 0x5D
  const OPEN_BRACE: CodeUnit := 0x7B
  const CLOSE_BRACE: CodeUnit := 0x7D
  const NULL_TEXT: JsString := [0x6E, 0x75, 0x6C, 0x6C]
  const TRUE_TEXT: JsString := [0x74, 0x72, 0x75, 0x65]
  const FALSE_TEXT: JsString := [0x66, 0x61, 0x6C, 0x73, 0x65]
  const ZERO_TEXT: Numeral := [0x30]

  /** `<` on strings: by UTF-16 code unit, a proper prefix first. */
  predicate UnitLess(a: JsString, b: JsString) {
    b != [] && (a == [] || a[0] < b[0] || (a[0] == b[0] && UnitLess(a[1..], b[1..])))
  }

  function Defined(members: seq<Member>): (r: seq<Member>)
    ensures forall m :: m in r <==> m in members && !m.value.Undefined?
  {
    if members == [] then []
    else if members[0].value.Undefined? then Defined(members[1..])
    else [members[0]] + Defined(members[1..])
  }

  function Insert(m: Member, sorted: seq<Member>): (r: seq<Member>)
    ensures forall x :: x in r <==> x == m || x in sorted
  {
    if sorted == [] || UnitLess(m.key, sorted[0].key) then [m] + sorted
    else [sorted[0]] + Insert(m, sorted[1..])
  }

  function SortByKey(members: seq<Member>): (r: seq<Member>)
    ensures forall x :: x in r <==> x in members
  {
    if members == [] then [] else Insert(members[0], SortByKey(members[1..]))
  }

  function NumberText(n: Number): Numeral
    requires !n.NaNOrInfinite?
  {
    if n.NegativeZero? then ZERO_TEXT else n.text
  }

  function Render(v: Value): JsString
    requires Fingerprintable(v)
    decreases v, 2, 0
  {
    match v
    case Undefined => NULL_TEXT
    case Null => NULL_TEXT
    case Bool(b) => if b then TRUE_TEXT else FALSE_TEXT
    case Num(n) => NumberText(n)
    case Str(s) => Quote(s)
    case Arr(elements) => [OPEN_BRACKET] + RenderElements(v, elements) + [CLOSE_BRACKET]
    case Obj(members) => [OPEN_BRACE] + RenderMembers(v, SortByKey(Defined(members))) + [CLOSE_BRACE]
  }

  /** `elements.map(canonicalize).join(",")`. */
  function RenderElements(ghost whole: Value, elements: seq<Value>): JsString
    requires forall e | e in elements :: e < whole && Fingerprintable(e)
    decreases whole, 1, |elements|
  {
    if elements == [] then []
    else if |elements| == 1 then Render(elements[0])
    else
      assert forall e | e in elements[1..] :: e in elements;
      Render(elements[0]) + [COMMA] + RenderElements(whole, elements[1..])
  }

  function RenderMember(ghost whole: Value, m: Member): JsString
    requires m.value < whole && Fingerprintable(m.value)
    decreases whole, 0, 0
  {
    Quote(m.key) + [COLON] + Render(m.value)
  }

  function RenderMembers(ghost whole: Value, members: seq<Member>): JsString
    requires forall m | m in members :: m.value < whole && Fingerprintable(m.value)
    decreases whole, 1, |members|
  {
    if members == [] then []
    else if |members| == 1 then RenderMember(whole, members[0])
    else RenderMember(whole, members[0]) + [COMMA] + RenderMembers(whole, members[1..])
  }

  /** `None` is the TypeError for a number that is not finite. */
  function Canonicalize(v: Value): Option<JsString> {
    if Fingerprintable(v) then Some(Render(v)) else None
  }

  // -------------------------------------------------------------------------
  // What a value means
  // -------------------------------------------------------------------------

  /** A value up to what a caller may vary: property order, undefined members, the sign of
      zero, and `undefined` where JSON has only null. */
  datatype Meaning =
    | MNull
    | MBool(truth: bool)
    | MNum(numeral: Numeral)
    | MStr(text: JsString)
    | MArr(elements: seq<Meaning>)
    | MObj(members: map<JsString, Meaning>)

  function MeaningOf(v: Value): Meaning
    requires Fingerprintable(v)
    decreases v, 1, 0
  {
    match v
    case Undefined => MNull
    case Null => MNull
    case Bool(b) => MBool(b)
    case Num(n) => MNum(NumberText(n))
    case Str(s) => MStr(s)
    case Arr(elements) => MArr(ElementMeanings(v, elements))
    case Obj(members) => MObj(MemberMeanings(v, members))
  }

  function ElementMeanings(ghost whole: Value, elements: seq<Value>): (r: seq<Meaning>)
    requires forall e | e in elements :: e < whole && Fingerprintable(e)
    decreases whole, 0, |elements|
  {
    if elements == [] then []
    else
      assert forall e | e in elements[1..] :: e in elements;
      [MeaningOf(elements[0])] + ElementMeanings(whole, elements[1..])
  }

  function MemberMeanings(ghost whole: Value, members: seq<Member>): (r: map<JsString, Meaning>)
    requires forall m | m in members :: m.value < whole && Fingerprintable(m.value)
    decreases whole, 0, |members|
  {
    if members == [] then map[]
    else
      var rest := MemberMeanings(whole, members[1..]);
      if members[0].value.Undefined? then rest else rest[members[0].key := MeaningOf(members[0].value)]
  }

  // -------------------------------------------------------------------------
  // A reader for canonical text
  // -------------------------------------------------------------------------

  function TakeNumeral(s: JsString): (r: Read<JsString>)
    ensures r.value + r.rest == s
    ensures forall i :: 0 <= i < |r.value| ==> IsNumeralUnit(r.value[i])
  {
    if s == [] || !IsNumeralUnit(s[0]) then Read([], s)
    else
      var tail := TakeNumeral(s[1..]);
      Read([s[0]] + tail.value, tail.rest)
  }

  function Literal(s: JsString, text: JsString, meaning: Meaning): (r: Option<Read<Meaning>>)
    requires text != []
    ensures r.Some? ==> |r.value.rest| < |s|
  {
    if text <= s then Some(Read(meaning, s[|text|..])) else None
  }

  function ParseValue(s: JsString): (r: Option<Read<Meaning>>)
    ensures r.Some? ==> |r.value.rest| < |s|
    decreases |s|, 0
  {
    if s == [] then None
    else if s[0] == 0x6E then Literal(s, NULL_TEXT, MNull)
    else if s[0] == 0x74 then Literal(s, TRUE_TEXT, MBool(true))
    else if s[0] == 0x66 then Literal(s, FALSE_TEXT, MBool(false))
    else if s[0] == QUOTE then
      match Unquote(s[1..])
      case None => None
      case Some(read) => Some(Read(MStr(read.value), read.rest))
    else if s[0] == OPEN_BRACKET then ParseArray(s[1..])
    else if s[0] == OPEN_BRACE then ParseObject(s[1..])
    else
      var read := TakeNumeral(s);
      if read.value == [] then None else Some(Read(MNum(read.value), read.rest))
  }

  function ParseArray(s: JsString): (r: Option<Read<Meaning>>)
    ensures r.Some? ==> |r.value.rest| < |s|
    decreases |s|, 2
  {
    if s != [] && s[0] == CLOSE_BRACKET then Some(Read(MArr([]), s[1..]))
    else
      match ParseElements(s)
      case None => None
      case Some(read) => Some(Read(MArr(read.value), read.rest))
  }

  function ParseElements(s: JsString): (r: Option<Read<seq<Meaning>>>)
    ensures r.Some? ==> |r.value.rest| < |s|
    decreases |s|, 1
  {
    match ParseValue(s)
    case None => None
    case Some(first) =>
      if first.rest == [] then None
      else if first.rest[0] == CLOSE_BRACKET then Some(Read([first.value], first.rest[1..]))
      else if first.rest[0] == COMMA then
        match ParseElements(first.rest[1..])
        case None => None
        case Some(read) => Some(Read([first.value] + read.value, read.rest))
      else None
  }

  function ParseObject(s: JsString): (r: Option<Read<Meaning>>)
    ensures r.Some? ==> |r.value.rest| < |s|
    decreases |s|, 3
  {
    if s != [] && s[0] == CLOSE_BRACE then Some(Read(MObj(map[]), s[1..]))
    else
      match ParseMembers(s)
      case None => None
      case Some(read) => Some(Read(MObj(read.value), read.rest))
  }

  /** One `"key":value`. */
  function ParseMember(s: JsString): (r: Option<Read<(JsString, Meaning)>>)
    ensures r.Some? ==> |r.value.rest| < |s|
    decreases |s|, 1
  {
    if s == [] || s[0] != QUOTE then None
    else
      match Unquote(s[1..])
      case None => None
      case Some(key) =>
        if key.rest == [] || key.rest[0] != COLON then None
        else
          match ParseValue(key.rest[1..])
          case None => None
          case Some(value) => Some(Read((key.value, value.value), value.rest))
  }

  function ParseMembers(s: JsString): (r: Option<Read<map<JsString, Meaning>>>)
    ensures r.Some? ==> |r.value.rest| < |s|
    decreases |s|, 2
  {
    match ParseMember(s)
    case None => None
    case Some(first) =>
      if first.rest == [] then None
      else if first.rest[0] == CLOSE_BRACE then Some(Read(map[first.value.0 := first.value.1], first.rest[1..]))
      else if first.rest[0] == COMMA then
        match ParseMembers(first.rest[1..])
        case None => None
        case Some(read) => Some(Read(read.value[first.value.0 := first.value.1], read.rest))
      else None
  }
}
