/** Canonical text determines what a value means, and nothing more. */
module CanonicalJson {
  import opened Text
  import opened Contracts
  import opened JsonString
  import opened Fingerprint

  // -------------------------------------------------------------------------
  // Property order
  // -------------------------------------------------------------------------

  lemma {:induction false} UnitLessTotal(a: JsString, b: JsString)
    ensures a == b || UnitLess(a, b) || UnitLess(b, a)
  {
    if a != [] && b != [] && a[0] == b[0] {
      UnitLessTotal(a[1..], b[1..]);
      assert a == [a[0]] + a[1..] && b == [b[0]] + b[1..];
    }
  }

  lemma {:induction false} UnitLessAsymmetric(a: JsString, b: JsString)
    requires UnitLess(a, b)
    ensures !UnitLess(b, a)
  {
    if a != [] && a[0] == b[0] {
      UnitLessAsymmetric(a[1..], b[1..]);
    }
  }

  lemma {:induction false} UnitLessTransitive(a: JsString, b: JsString, c: JsString)
    requires UnitLess(a, b) && UnitLess(b, c)
    ensures UnitLess(a, c)
  {
    if a != [] && a[0] == b[0] == c[0] {
      UnitLessTransitive(a[1..], b[1..], c[1..]);
    }
  }

  ghost predicate Ascending(members: seq<Member>) {
    members == [] ||
    ((forall m | m in members[1..] :: UnitLess(members[0].key, m.key)) && Ascending(members[1..]))
  }

  ghost predicate FreshKey(key: JsString, members: seq<Member>) {
    forall m | m in members :: m.key != key
  }

  lemma {:induction false} InsertAscending(m: Member, sorted: seq<Member>)
    requires Ascending(sorted) && FreshKey(m.key, sorted)
    ensures Ascending(Insert(m, sorted))
  {
    if sorted == [] {
    } else if UnitLess(m.key, sorted[0].key) {
      assert Insert(m, sorted)[1..] == sorted;
      forall x | x in sorted ensures UnitLess(m.key, x.key) {
        if x != sorted[0] {
          assert x in sorted[1..];
          UnitLessTransitive(m.key, sorted[0].key, x.key);
        }
      }
    } else {
      assert sorted[0] in sorted;
      UnitLessTotal(m.key, sorted[0].key);
      assert forall x | x in sorted[1..] :: x in sorted;
      InsertAscending(m, sorted[1..]);
      assert Insert(m, sorted)[1..] == Insert(m, sorted[1..]);
    }
  }

  lemma {:induction false} SortAscending(members: seq<Member>)
    requires DistinctKeys(members)
    ensures Ascending(SortByKey(members))
  {
    if members != [] {
      SortAscending(members[1..]);
      InsertAscending(members[0], SortByKey(members[1..]));
    }
  }

  lemma {:induction false} DefinedDistinct(members: seq<Member>)
    requires DistinctKeys(members)
    ensures DistinctKeys(Defined(members))
  {
    if members != [] {
      DefinedDistinct(members[1..]);
      assert FreshKey(members[0].key, members[1..]);
    }
  }

  lemma {:induction false} AscendingFresh(members: seq<Member>)
    requires Ascending(members) && members != []
    ensures FreshKey(members[0].key, members[1..])
  {
    forall m | m in members[1..] ensures m.key != members[0].key {
      if m.key == members[0].key {
        UnitLessAsymmetric(m.key, members[0].key);
      }
    }
  }

  /** The properties `canonicalize` prints: the defined ones, in order of key. */
  function Printed(members: seq<Member>): (r: seq<Member>)
    ensures forall m :: m in r <==> m in members && !m.value.Undefined?
  {
    SortByKey(Defined(members))
  }

  lemma PrintedAscending(members: seq<Member>)
    requires DistinctKeys(members)
    ensures Ascending(Printed(members))
  {
    DefinedDistinct(members);
    SortAscending(Defined(members));
  }

  // -------------------------------------------------------------------------
  // The meaning of an object does not depend on property order
  // -------------------------------------------------------------------------

  ghost predicate Inside(whole: Value, members: seq<Member>) {
    forall m | m in members :: m.value < whole && Fingerprintable(m.value)
  }

  ghost predicate UniqueKeys(members: seq<Member>) {
    members == [] || (FreshKey(members[0].key, members[1..]) && UniqueKeys(members[1..]))
  }

  lemma {:induction false} DistinctAreUnique(members: seq<Member>)
    requires DistinctKeys(members)
    ensures UniqueKeys(members)
  {
    if members != [] {
      DistinctAreUnique(members[1..]);
    }
  }

  lemma {:induction false} AscendingAreUnique(members: seq<Member>)
    requires Ascending(members)
    ensures UniqueKeys(members)
  {
    if members != [] {
      AscendingFresh(members);
      AscendingAreUnique(members[1..]);
    }
  }

  /** The entries of `MemberMeanings`. */
  ghost predicate Entry(members: seq<Member>, key: JsString, meaning: Meaning) {
    exists m :: m in members && m.key == key && !m.value.Undefined? && Fingerprintable(m.value) &&
                MeaningOf(m.value) == meaning
  }

  lemma {:induction false} MeaningEntries(whole: Value, members: seq<Member>, key: JsString, meaning: Meaning)
    requires Inside(whole, members) && UniqueKeys(members)
    ensures (key in MemberMeanings(whole, members) && MemberMeanings(whole, members)[key] == meaning)
            <==> Entry(members, key, meaning)
  {
    if members != [] {
      var rest := members[1..];
      assert Inside(whole, rest);
      MeaningEntries(whole, rest, key, meaning);
      assert members == [members[0]] + rest;
      if key == members[0].key {
        assert !Entry(rest, key, meaning);
      } else {
        assert Entry(members, key, meaning) <==> Entry(rest, key, meaning);
      }
    }
  }

  lemma SameEntriesSameMeaning(a: Value, left: seq<Member>, b: Value, right: seq<Member>)
    requires Inside(a, left) && UniqueKeys(left) && Inside(b, right) && UniqueKeys(right)
    requires forall m: Member | !m.value.Undefined? :: m in left <==> m in right
    ensures MemberMeanings(a, left) == MemberMeanings(b, right)
  {
    var x, y := MemberMeanings(a, left), MemberMeanings(b, right);
    forall key | key in x ensures key in y && x[key] == y[key] {
      MeaningEntries(a, left, key, x[key]);
      MeaningEntries(b, right, key, x[key]);
    }
    forall key | key in y ensures key in x {
      MeaningEntries(a, left, key, y[key]);
      MeaningEntries(b, right, key, y[key]);
    }
  }

  lemma PrintedMeaning(whole: Value, members: seq<Member>)
    requires Inside(whole, members) && DistinctKeys(members)
    ensures Inside(whole, Printed(members))
    ensures MemberMeanings(whole, Printed(members)) == MemberMeanings(whole, members)
  {
    PrintedAscending(members);
    AscendingAreUnique(Printed(members));
    DistinctAreUnique(members);
    SameEntriesSameMeaning(whole, Printed(members), whole, members);
  }

  ghost predicate SameSlot(a: Value, b: Value)
    requires Fingerprintable(a) && Fingerprintable(b)
  {
    (a.Undefined? <==> b.Undefined?) && (!a.Undefined? ==> MeaningOf(a) == MeaningOf(b))
  }

  ghost predicate SameKeys(a: Value, b: Value)
    requires a.Obj? && b.Obj?
  {
    |a.members| == |b.members| && DistinctKeys(a.members) &&
    forall i :: 0 <= i < |a.members| ==> a.members[i].key == b.members[i].key
  }

  ghost predicate SameSlots(a: Value, b: Value)
    requires a.Obj? && b.Obj? && SameKeys(a, b) && Fingerprintable(a) && Fingerprintable(b)
  {
    forall i :: 0 <= i < |a.members| ==> SameSlot(a.members[i].value, b.members[i].value)
  }

  lemma SlotEntry(v: Value, i: nat, key: JsString, meaning: Meaning)
    requires v.Obj? && Fingerprintable(v) && DistinctKeys(v.members) && i < |v.members|
    requires key == v.members[i].key
    ensures Entry(v.members, key, meaning)
            <==> !v.members[i].value.Undefined? && MeaningOf(v.members[i].value) == meaning
  {
    assert v.members[i] in v.members;
  }

  /** Objects listing the same keys mean the same exactly when they agree slot by slot. */
  lemma SameShape(a: Value, b: Value)
    requires a.Obj? && b.Obj? && Fingerprintable(a) && Fingerprintable(b) && SameKeys(a, b)
    ensures MeaningOf(a) == MeaningOf(b) <==> SameSlots(a, b)
  {
    assert DistinctKeys(b.members);
    DistinctAreUnique(a.members);
    DistinctAreUnique(b.members);
    var x, y := MemberMeanings(a, a.members), MemberMeanings(b, b.members);
    forall i | 0 <= i < |a.members| && x == y
      ensures SameSlot(a.members[i].value, b.members[i].value)
    {
      var m, n := a.members[i], b.members[i];
      MeaningEntries(a, a.members, m.key, MeaningOf(m.value));
      MeaningEntries(b, b.members, m.key, MeaningOf(m.value));
      SlotEntry(a, i, m.key, MeaningOf(m.value));
      SlotEntry(b, i, m.key, MeaningOf(m.value));
      MeaningEntries(a, a.members, m.key, MeaningOf(n.value));
      MeaningEntries(b, b.members, m.key, MeaningOf(n.value));
      SlotEntry(a, i, m.key, MeaningOf(n.value));
      SlotEntry(b, i, m.key, MeaningOf(n.value));
    }
    if SameSlots(a, b) {
      SubMeaning(a, b);
      SubMeaning(b, a);
    }
  }

  lemma SubMeaning(a: Value, b: Value)
    requires a.Obj? && b.Obj? && Fingerprintable(a) && Fingerprintable(b) && SameKeys(a, b) && SameSlots(a, b)
    ensures forall key | key in MemberMeanings(a, a.members) ::
              key in MemberMeanings(b, b.members) &&
              MemberMeanings(a, a.members)[key] == MemberMeanings(b, b.members)[key]
  {
    DistinctAreUnique(a.members);
    DistinctAreUnique(b.members);
    var x := MemberMeanings(a, a.members);
    forall key | key in x
      ensures key in MemberMeanings(b, b.members) && x[key] == MemberMeanings(b, b.members)[key]
    {
      MeaningEntries(a, a.members, key, x[key]);
      var m :| m in a.members && m.key == key && !m.value.Undefined? && MeaningOf(m.value) == x[key];
      var i :| 0 <= i < |a.members| && a.members[i] == m;
      assert SameSlot(a.members[i].value, b.members[i].value);
      SlotEntry(b, i, key, x[key]);
      MeaningEntries(b, b.members, key, x[key]);
    }
  }

  // -------------------------------------------------------------------------
  // Reading canonical text back
  // -------------------------------------------------------------------------

  /** What follows a value never continues a number. */
  predicate Stops(rest: JsString) {
    rest == [] || !IsNumeralUnit(rest[0])
  }

  lemma {:induction false} TakeNumeralStops(text: JsString, rest: JsString)
    requires Stops(rest) && forall i :: 0 <= i < |text| ==> IsNumeralUnit(text[i])
    ensures TakeNumeral(text + rest) == Read(text, rest)
  {
    if text == [] {
      assert text + rest == rest;
    } else {
      TakeNumeralStops(text[1..], rest);
      assert (text + rest)[1..] == text[1..] + rest;
      assert text == [text[0]] + text[1..];
    }
  }

  lemma RenderHead(v: Value)
    requires Fingerprintable(v)
    ensures Render(v) != [] && Render(v)[0] != CLOSE_BRACKET
  {
    match v
    case Num(n) => assert IsNumeral(NumberText(n));
    case Str(s) => assert Quote(s)[0] == QUOTE;
    case _ =>
  }

  ghost predicate Parses(v: Value, rest: JsString)
    requires Fingerprintable(v)
  {
    ParseValue(Render(v) + rest) == Some(Read(MeaningOf(v), rest))
  }

  lemma ParseLiteral(text: JsString, meaning: Meaning, rest: JsString)
    requires text != []
    ensures Literal(text + rest, text, meaning) == Some(Read(meaning, rest))
  {
    assert text <= text + rest && (text + rest)[|text|..] == rest;
  }

  lemma ParseNumeral(s: JsString)
    requires s != [] && IsNumeralUnit(s[0]) && TakeNumeral(s).value != []
    ensures ParseValue(s) == Some(Read(MNum(TakeNumeral(s).value), TakeNumeral(s).rest))
  {}

  lemma ParseNumber(text: Numeral, rest: JsString)
    requires Stops(rest)
    ensures ParseValue(text + rest) == Some(Read(MNum(text), rest))
  {
    TakeNumeralStops(text, rest);
    assert (text + rest)[0] == text[0];
    ParseNumeral(text + rest);
  }

  lemma ParseText(text: JsString, rest: JsString)
    ensures ParseValue(Quote(text) + rest) == Some(Read(MStr(text), rest))
  {
    UnquoteQuote(text, rest);
    var s := Quote(text) + rest;
    assert s[0] == QUOTE && s[1..] == QuoteBody(text) + [QUOTE] + rest;
  }

  lemma ParseScalar(v: Value, rest: JsString)
    requires Fingerprintable(v) && Stops(rest) && !v.Arr? && !v.Obj?
    ensures Parses(v, rest)
  {
    ParseLiteral(NULL_TEXT, MNull, rest);
    ParseLiteral(TRUE_TEXT, MBool(true), rest);
    ParseLiteral(FALSE_TEXT, MBool(false), rest);
    if v.Num? {
      ParseNumber(NumberText(v.number), rest);
    } else if v.Str? {
      ParseText(v.text, rest);
    }
  }

  ghost predicate ElementsInside(whole: Value, elements: seq<Value>) {
    forall e | e in elements :: e < whole && Fingerprintable(e) && WellFormed(e)
  }

  /** The reader inverts the printer on every fingerprintable value. */
  lemma {:induction false} ParseRender(v: Value, rest: JsString)
    requires Fingerprintable(v) && WellFormed(v) && Stops(rest)
    ensures Parses(v, rest)
    decreases v, 3, 0
  {
    match v
    case Arr(elements) =>
      ParseRenderArray(v, rest);
    case Obj(members) =>
      ParseRenderObject(v, rest);
    case _ =>
      ParseScalar(v, rest);
  }

  lemma ParseBrackets(body: JsString)
    requires body != [] && body[0] != CLOSE_BRACKET && ParseElements(body).Some?
    ensures ParseValue([OPEN_BRACKET] + body)
         == Some(Read(MArr(ParseElements(body).value.value), ParseElements(body).value.rest))
  {
    assert ([OPEN_BRACKET] + body)[1..] == body;
  }

  lemma ParseEmptyArray(rest: JsString)
    ensures ParseValue([OPEN_BRACKET, CLOSE_BRACKET] + rest) == Some(Read(MArr([]), rest))
  {
    var s := [OPEN_BRACKET, CLOSE_BRACKET] + rest;
    assert s[1..][0] == CLOSE_BRACKET && s[1..][1..] == rest;
  }

  lemma ElementsHead(whole: Value, elements: seq<Value>)
    requires ElementsInside(whole, elements) && elements != []
    ensures RenderElements(whole, elements) != [] && RenderElements(whole, elements)[0] != CLOSE_BRACKET
  {
    assert elements[0] in elements;
    RenderHead(elements[0]);
  }

  lemma ArrayText(v: Value, rest: JsString)
    requires v.Arr? && Fingerprintable(v)
    ensures Render(v) + rest == [OPEN_BRACKET] + (RenderElements(v, v.elements) + ([CLOSE_BRACKET] + rest))
  {}

  lemma {:induction false} ParseRenderArray(v: Value, rest: JsString)
    requires v.Arr? && Fingerprintable(v) && WellFormed(v)
    ensures Parses(v, rest)
    decreases v, 1, 0
  {
    if v.elements == [] {
      ParseEmptyArray(rest);
      assert Render(v) == [OPEN_BRACKET, CLOSE_BRACKET];
    } else {
      ArrayText(v, rest);
      ElementsHead(v, v.elements);
      ParseRenderElements(v, v.elements, rest);
      ParseBrackets(RenderElements(v, v.elements) + ([CLOSE_BRACKET] + rest));
    }
  }

  lemma ParseLastElement(s: JsString, m: Meaning, rest: JsString)
    requires ParseValue(s) == Some(Read(m, [CLOSE_BRACKET] + rest))
    ensures ParseElements(s) == Some(Read([m], rest))
  {
    assert ([CLOSE_BRACKET] + rest)[1..] == rest;
  }

  lemma ParseNextElement(s: JsString, m: Meaning, tail: JsString)
    requires ParseValue(s) == Some(Read(m, [COMMA] + tail)) && ParseElements(tail).Some?
    ensures ParseElements(s) == Some(Read([m] + ParseElements(tail).value.value, ParseElements(tail).value.rest))
  {
    assert ([COMMA] + tail)[1..] == tail;
  }

  lemma ElementsText(whole: Value, elements: seq<Value>, after: JsString)
    requires ElementsInside(whole, elements) && |elements| > 1
    ensures ElementsInside(whole, elements[1..])
    ensures RenderElements(whole, elements) + after
         == Render(elements[0]) + ([COMMA] + (RenderElements(whole, elements[1..]) + after))
  {
    assert forall e | e in elements[1..] :: e in elements;
  }

  lemma {:induction false} ParseRenderElements(whole: Value, elements: seq<Value>, rest: JsString)
    requires ElementsInside(whole, elements) && elements != []
    ensures ParseElements(RenderElements(whole, elements) + ([CLOSE_BRACKET] + rest))
         == Some(Read(ElementMeanings(whole, elements), rest))
    decreases whole, 0, |elements|
  {
    var first, after := elements[0], [CLOSE_BRACKET] + rest;
    var text := RenderElements(whole, elements) + after;
    assert first in elements;
    if |elements| == 1 {
      ParseRender(first, after);
      ParseLastElement(text, MeaningOf(first), rest);
      assert ElementMeanings(whole, elements) == [MeaningOf(first)];
    } else {
      ElementsText(whole, elements, after);
      var tail := RenderElements(whole, elements[1..]) + after;
      ParseRender(first, [COMMA] + tail);
      ParseRenderElements(whole, elements[1..], rest);
      ParseNextElement(text, MeaningOf(first), tail);
    }
  }

  ghost predicate MembersInside(whole: Value, members: seq<Member>) {
    forall m | m in members :: m.value < whole && Fingerprintable(m.value) && WellFormed(m.value) && !m.value.Undefined?
  }

  lemma ParseBraces(body: JsString)
    requires body != [] && body[0] != CLOSE_BRACE && ParseMembers(body).Some?
    ensures ParseValue([OPEN_BRACE] + body)
         == Some(Read(MObj(ParseMembers(body).value.value), ParseMembers(body).value.rest))
  {
    assert ([OPEN_BRACE] + body)[1..] == body;
  }

  lemma ParseEmptyObject(rest: JsString)
    ensures ParseValue([OPEN_BRACE, CLOSE_BRACE] + rest) == Some(Read(MObj(map[]), rest))
  {
    var s := [OPEN_BRACE, CLOSE_BRACE] + rest;
    assert s[1..][0] == CLOSE_BRACE && s[1..][1..] == rest;
  }

  lemma MembersHead(whole: Value, members: seq<Member>)
    requires Inside(whole, members) && members != []
    ensures RenderMembers(whole, members) != [] && RenderMembers(whole, members)[0] == QUOTE
  {
    assert RenderMember(whole, members[0])[0] == QUOTE;
  }

  lemma ObjectText(v: Value, rest: JsString)
    requires v.Obj? && Fingerprintable(v)
    ensures Inside(v, Printed(v.members))
    ensures Render(v) + rest == [OPEN_BRACE] + (RenderMembers(v, Printed(v.members)) + ([CLOSE_BRACE] + rest))
  {}

  lemma {:induction false} ParseRenderObject(v: Value, rest: JsString)
    requires v.Obj? && Fingerprintable(v) && WellFormed(v)
    ensures Parses(v, rest)
    decreases v, 2, 0
  {
    var printed := Printed(v.members);
    PrintedMeaning(v, v.members);
    if printed == [] {
      ParseEmptyObject(rest);
      assert Render(v) == [OPEN_BRACE, CLOSE_BRACE];
    } else {
      ObjectText(v, rest);
      MembersHead(v, printed);
      ParseRenderMembers(v, printed, rest);
      ParseBraces(RenderMembers(v, printed) + ([CLOSE_BRACE] + rest));
    }
  }

  lemma UnquoteKey(key: JsString, rest: JsString)
    ensures (Quote(key) + rest)[0] == QUOTE
    ensures Unquote((Quote(key) + rest)[1..]) == Some(Read(key, rest))
  {
    UnquoteQuote(key, rest);
    assert (Quote(key) + rest)[1..] == QuoteBody(key) + [QUOTE] + rest;
  }

  lemma ParseKeyAndValue(key: JsString, value: JsString)
    requires ParseValue(value).Some?
    ensures ParseMember(Quote(key) + ([COLON] + value))
         == Some(Read((key, ParseValue(value).value.value), ParseValue(value).value.rest))
  {
    UnquoteKey(key, [COLON] + value);
    assert ([COLON] + value)[1..] == value;
  }

  lemma MemberText(whole: Value, m: Member, rest: JsString)
    requires m.value < whole && Fingerprintable(m.value)
    ensures RenderMember(whole, m) + rest == Quote(m.key) + ([COLON] + (Render(m.value) + rest))
  {
    var key, value := Quote(m.key), Render(m.value);
    assert key + [COLON] + value + rest == key + ([COLON] + (value + rest));
  }

  lemma {:induction false} ParseRenderMember(whole: Value, m: Member, rest: JsString)
    requires m.value < whole && Fingerprintable(m.value) && WellFormed(m.value) && Stops(rest)
    ensures ParseMember(RenderMember(whole, m) + rest) == Some(Read((m.key, MeaningOf(m.value)), rest))
    decreases whole, 0, 0
  {
    MemberText(whole, m, rest);
    ParseRender(m.value, rest);
    ParseKeyAndValue(m.key, Render(m.value) + rest);
  }

  lemma ParseLastMember(s: JsString, key: JsString, m: Meaning, rest: JsString)
    requires ParseMember(s) == Some(Read((key, m), [CLOSE_BRACE] + rest))
    ensures ParseMembers(s) == Some(Read(map[key := m], rest))
  {
    assert ([CLOSE_BRACE] + rest)[1..] == rest;
  }

  lemma ParseNextMember(s: JsString, key: JsString, m: Meaning, tail: JsString)
    requires ParseMember(s) == Some(Read((key, m), [COMMA] + tail)) && ParseMembers(tail).Some?
    ensures ParseMembers(s) == Some(Read(ParseMembers(tail).value.value[key := m], ParseMembers(tail).value.rest))
  {
    assert ([COMMA] + tail)[1..] == tail;
  }

  lemma MembersText(whole: Value, members: seq<Member>, after: JsString)
    requires MembersInside(whole, members) && |members| > 1
    ensures RenderMembers(whole, members) + after
         == RenderMember(whole, members[0]) + ([COMMA] + (RenderMembers(whole, members[1..]) + after))
  {}

  lemma {:induction false} ParseRenderMembers(whole: Value, members: seq<Member>, rest: JsString)
    requires MembersInside(whole, members) && members != []
    ensures ParseMembers(RenderMembers(whole, members) + ([CLOSE_BRACE] + rest))
         == Some(Read(MemberMeanings(whole, members), rest))
    decreases whole, 1, |members|
  {
    var first, after := members[0], [CLOSE_BRACE] + rest;
    var text := RenderMembers(whole, members) + after;
    if |members| == 1 {
      ParseRenderMember(whole, first, after);
      ParseLastMember(text, first.key, MeaningOf(first.value), rest);
      assert MemberMeanings(whole, members[1..]) == map[];
    } else {
      MembersText(whole, members, after);
      var tail := RenderMembers(whole, members[1..]) + after;
      ParseRenderMember(whole, first, [COMMA] + tail);
      ParseRenderMembers(whole, members[1..], rest);
      ParseNextMember(text, first.key, MeaningOf(first.value), tail);
    }
  }

  // -------------------------------------------------------------------------
  // Equal meaning, equal text
  // -------------------------------------------------------------------------

  lemma {:induction false} SameMeaningSameText(a: Value, b: Value)
    requires Fingerprintable(a) && WellFormed(a) && Fingerprintable(b) && WellFormed(b)
    requires MeaningOf(a) == MeaningOf(b)
    ensures Render(a) == Render(b)
    decreases a, 1, 0
  {
    match MeaningOf(a)
    case MArr(_) =>
      SameElements(a, a.elements, b, b.elements);
    case MObj(_) =>
      PrintedMeaning(a, a.members);
      PrintedMeaning(b, b.members);
      PrintedAscending(a.members);
      PrintedAscending(b.members);
      SameMembers(a, Printed(a.members), b, Printed(b.members));
    case _ =>
  }

  lemma {:induction false} SameElements(a: Value, left: seq<Value>, b: Value, right: seq<Value>)
    requires ElementsInside(a, left) && ElementsInside(b, right)
    requires ElementMeanings(a, left) == ElementMeanings(b, right)
    ensures RenderElements(a, left) == RenderElements(b, right)
    decreases a, 0, |left|
  {
    if left == [] || right == [] {
      assert |ElementMeanings(a, left)| == 0 ==> left == [];
    } else {
      var x, y := ElementMeanings(a, left), ElementMeanings(b, right);
      assert x[0] == MeaningOf(left[0]) && y[0] == MeaningOf(right[0]);
      assert x[1..] == ElementMeanings(a, left[1..]) && y[1..] == ElementMeanings(b, right[1..]);
      assert forall e | e in left[1..] :: e in left;
      assert forall e | e in right[1..] :: e in right;
      assert left[0] in left && right[0] in right;
      SameMeaningSameText(left[0], right[0]);
      SameElements(a, left[1..], b, right[1..]);
      assert |left| == 1 ==> x[1..] == [];
      assert |right| == 1 ==> y[1..] == [];
    }
  }

  lemma KeysOfMeaning(whole: Value, members: seq<Member>, key: JsString)
    requires MembersInside(whole, members) && Ascending(members)
    ensures key in MemberMeanings(whole, members) <==> exists m :: m in members && m.key == key
  {
    AscendingAreUnique(members);
    if key in MemberMeanings(whole, members) {
      MeaningEntries(whole, members, key, MemberMeanings(whole, members)[key]);
    }
    forall m | m in members && m.key == key ensures key in MemberMeanings(whole, members) {
      MeaningEntries(whole, members, key, MeaningOf(m.value));
    }
  }

  lemma LeastKey(a: Value, left: seq<Member>, b: Value, right: seq<Member>)
    requires MembersInside(a, left) && Ascending(left) && left != []
    requires MembersInside(b, right) && Ascending(right) && right != []
    requires MemberMeanings(a, left) == MemberMeanings(b, right)
    ensures left[0].key == right[0].key
  {
    var x, y := left[0].key, right[0].key;
    KeysOfMeaning(a, left, x);
    KeysOfMeaning(b, right, x);
    KeysOfMeaning(a, left, y);
    KeysOfMeaning(b, right, y);
    assert left[0] in left && right[0] in right;
    if x != y {
      var m :| m in right && m.key == x;
      var n :| n in left && n.key == y;
      assert m in right[1..] && n in left[1..];
      UnitLessAsymmetric(x, y);
    }
  }

  lemma TailMeanings(whole: Value, members: seq<Member>)
    requires MembersInside(whole, members) && Ascending(members) && members != []
    ensures MemberMeanings(whole, members[1..]) == MemberMeanings(whole, members) - {members[0].key}
    ensures MemberMeanings(whole, members)[members[0].key] == MeaningOf(members[0].value)
  {
    AscendingFresh(members);
    KeysOfMeaning(whole, members[1..], members[0].key);
  }

  lemma {:induction false} SameMembers(a: Value, left: seq<Member>, b: Value, right: seq<Member>)
    requires MembersInside(a, left) && Ascending(left)
    requires MembersInside(b, right) && Ascending(right)
    requires MemberMeanings(a, left) == MemberMeanings(b, right)
    ensures RenderMembers(a, left) == RenderMembers(b, right)
    ensures left == [] <==> right == []
    decreases a, 0, |left|
  {
    if left == [] || right == [] {
      if left != [] { TailMeanings(a, left); }
      if right != [] { TailMeanings(b, right); }
    } else {
      LeastKey(a, left, b, right);
      TailMeanings(a, left);
      TailMeanings(b, right);
      SameMeaningSameText(left[0].value, right[0].value);
      SameMembers(a, left[1..], b, right[1..]);
    }
  }

  // -------------------------------------------------------------------------
  // Canonical text is safe to hash as UTF-8
  // -------------------------------------------------------------------------

  lemma {:induction false} RenderIsWellFormed(v: Value)
    requires Fingerprintable(v)
    ensures WellFormedUtf16(Render(v))
    decreases v, 1, 0
  {
    match v
    case Str(s) => QuoteIsWellFormed(s);
    case Arr(elements) =>
      ElementsAreWellFormed(v, elements);
      Enclosed(OPEN_BRACKET, RenderElements(v, elements), CLOSE_BRACKET);
    case Obj(members) =>
      MembersAreWellFormed(v, Printed(members));
      Enclosed(OPEN_BRACE, RenderMembers(v, Printed(members)), CLOSE_BRACE);
    case _ => PlainIsWellFormed(Render(v));
  }

  lemma Enclosed(open: CodeUnit, body: JsString, close: CodeUnit)
    requires !IsSurrogate(open) && WellFormedUtf16(body) && !IsSurrogate(close)
    ensures WellFormedUtf16([open] + body + [close])
  {
    PlainIsWellFormed([open]);
    PlainIsWellFormed([close]);
    WellFormedConcat([open], body);
    WellFormedConcat([open] + body, [close]);
  }

  lemma Separated(a: JsString, separator: CodeUnit, b: JsString)
    requires WellFormedUtf16(a) && !IsSurrogate(separator) && WellFormedUtf16(b)
    ensures WellFormedUtf16(a + [separator] + b)
  {
    PlainIsWellFormed([separator]);
    WellFormedConcat(a, [separator]);
    WellFormedConcat(a + [separator], b);
  }

  lemma {:induction false} ElementsAreWellFormed(whole: Value, elements: seq<Value>)
    requires forall e | e in elements :: e < whole && Fingerprintable(e)
    ensures WellFormedUtf16(RenderElements(whole, elements))
    decreases whole, 0, |elements|
  {
    if elements != [] {
      assert elements[0] in elements;
      RenderIsWellFormed(elements[0]);
      assert forall e | e in elements[1..] :: e in elements;
      ElementsAreWellFormed(whole, elements[1..]);
      Separated(Render(elements[0]), COMMA, RenderElements(whole, elements[1..]));
    }
  }

  lemma {:induction false} MembersAreWellFormed(whole: Value, members: seq<Member>)
    requires Inside(whole, members)
    ensures WellFormedUtf16(RenderMembers(whole, members))
    decreases whole, 0, |members|
  {
    if members != [] {
      var m := members[0];
      QuoteIsWellFormed(m.key);
      RenderIsWellFormed(m.value);
      Separated(Quote(m.key), COLON, Render(m.value));
      MembersAreWellFormed(whole, members[1..]);
      Separated(RenderMember(whole, m), COMMA, RenderMembers(whole, members[1..]));
    }
  }

  // -------------------------------------------------------------------------
  // Main results
  // -------------------------------------------------------------------------

  /** parse(canonicalize(v)) is what v means, with nothing left over. */
  lemma ParseCanonical(v: Value)
    requires Fingerprintable(v) && WellFormed(v)
    ensures Canonicalize(v).Some?
    ensures ParseValue(Canonicalize(v).value) == Some(Read(MeaningOf(v), []))
  {
    ParseRender(v, []);
    assert Render(v) + [] == Render(v);
  }

  /** Two values have the same canonical text exactly when they mean the same. */
  lemma CanonicalEquality(a: Value, b: Value)
    requires Fingerprintable(a) && WellFormed(a) && Fingerprintable(b) && WellFormed(b)
    ensures Canonicalize(a) == Canonicalize(b) <==> MeaningOf(a) == MeaningOf(b)
  {
    ParseCanonical(a);
    ParseCanonical(b);
    if MeaningOf(a) == MeaningOf(b) {
      SameMeaningSameText(a, b);
    }
  }

  // -------------------------------------------------------------------------
  // The same result without the reader
  // -------------------------------------------------------------------------

  predicate SameNumber(m: Number, n: Number) {
    !m.NaNOrInfinite? && !n.NaNOrInfinite? &&
    (m == n || (m.NegativeZero? && n == Finite(ZERO_TEXT)) || (n.NegativeZero? && m == Finite(ZERO_TEXT)))
  }

  /** The same value but for what a caller may vary: null for undefined, the sign of zero, the
      order of properties and undefined ones, all of it at any depth. */
  ghost predicate Alike(a: Value, b: Value)
    decreases a, 1
  {
    match a
    case Undefined => b.Undefined? || b.Null?
    case Null => b.Undefined? || b.Null?
    case Bool(truth) => b == Bool(truth)
    case Num(number) => b.Num? && SameNumber(number, b.number)
    case Str(text) => b == Str(text)
    case Arr(elements) =>
      b.Arr? && |elements| == |b.elements| && forall i | 0 <= i < |elements| :: Alike(elements[i], b.elements[i])
    case Obj(members) =>
      b.Obj? &&
      (forall m | m in members && !m.value.Undefined? :: HasPartner(a, m, b)) &&
      (forall n | n in b.members && !n.value.Undefined? :: IsPartner(a, n))
  }

  ghost predicate HasPartner(a: Value, m: Member, b: Value)
    requires a.Obj? && m in a.members && b.Obj?
    decreases a, 0
  {
    exists n :: n in b.members && n.key == m.key && !n.value.Undefined? && Alike(m.value, n.value)
  }

  ghost predicate IsPartner(a: Value, n: Member)
    requires a.Obj?
    decreases a, 0
  {
    exists m :: m in a.members && m.key == n.key && !m.value.Undefined? && Alike(m.value, n.value)
  }

  lemma {:induction false} ElementMeaningAt(whole: Value, elements: seq<Value>, i: nat)
    requires (forall e | e in elements :: e < whole && Fingerprintable(e)) && i < |elements|
    ensures |ElementMeanings(whole, elements)| == |elements|
    ensures ElementMeanings(whole, elements)[i] == MeaningOf(elements[i])
    decreases |elements|
  {
    assert forall e | e in elements[1..] :: e in elements;
    if i > 0 {
      ElementMeaningAt(whole, elements[1..], i - 1);
    } else if |elements| > 1 {
      ElementMeaningAt(whole, elements[1..], 0);
    }
  }

  /** Being alike, defined by the values alone, is meaning the same. */
  lemma {:induction false} AlikeMeansTheSame(a: Value, b: Value)
    requires Fingerprintable(a) && WellFormed(a) && Fingerprintable(b) && WellFormed(b)
    ensures Alike(a, b) <==> MeaningOf(a) == MeaningOf(b)
    decreases a, 1
  {
    if a.Arr? && b.Arr? {
      AlikeArrays(a, b);
    } else if a.Obj? && b.Obj? {
      AlikeObjects(a, b);
    }
  }

  lemma {:induction false} AlikeArrays(a: Value, b: Value)
    requires a.Arr? && b.Arr? && Fingerprintable(a) && WellFormed(a) && Fingerprintable(b) && WellFormed(b)
    ensures Alike(a, b) <==> MeaningOf(a) == MeaningOf(b)
    decreases a, 0
  {
    var x, y := ElementMeanings(a, a.elements), ElementMeanings(b, b.elements);
    forall i | 0 <= i < |a.elements| ensures |x| == |a.elements| && x[i] == MeaningOf(a.elements[i]) {
      ElementMeaningAt(a, a.elements, i);
    }
    forall i | 0 <= i < |b.elements| ensures |y| == |b.elements| && y[i] == MeaningOf(b.elements[i]) {
      ElementMeaningAt(b, b.elements, i);
    }
    forall i | 0 <= i < |a.elements| && i < |b.elements|
      ensures Alike(a.elements[i], b.elements[i]) <==> MeaningOf(a.elements[i]) == MeaningOf(b.elements[i])
    {
      AlikeMeansTheSame(a.elements[i], b.elements[i]);
    }
    assert |x| == |a.elements| && |y| == |b.elements|;
  }

  ghost predicate ComparedByMeaning(a: Value, b: Value)
    requires a.Obj? && b.Obj? && Fingerprintable(a) && Fingerprintable(b)
  {
    forall m, n | m in a.members && n in b.members :: Alike(m.value, n.value) <==> MeaningOf(m.value) == MeaningOf(n.value)
  }

  ghost predicate SameEntries(a: Value, b: Value)
    requires a.Obj? && b.Obj?
  {
    forall key, meaning :: Entry(a.members, key, meaning) <==> Entry(b.members, key, meaning)
  }

  lemma SameEntriesAlike(a: Value, b: Value)
    requires a.Obj? && b.Obj? && Fingerprintable(a) && Fingerprintable(b) && ComparedByMeaning(a, b) && SameEntries(a, b)
    ensures Alike(a, b)
  {
    forall m | m in a.members && !m.value.Undefined? ensures HasPartner(a, m, b) {
      assert Entry(a.members, m.key, MeaningOf(m.value));
      var n :| n in b.members && n.key == m.key && !n.value.Undefined? && MeaningOf(n.value) == MeaningOf(m.value);
    }
    forall n | n in b.members && !n.value.Undefined? ensures IsPartner(a, n) {
      assert Entry(b.members, n.key, MeaningOf(n.value));
      var m :| m in a.members && m.key == n.key && !m.value.Undefined? && MeaningOf(m.value) == MeaningOf(n.value);
    }
  }

  lemma OpenEntry(members: seq<Member>, key: JsString, meaning: Meaning) returns (m: Member)
    requires Entry(members, key, meaning)
    ensures m in members && m.key == key && !m.value.Undefined? && Fingerprintable(m.value) && MeaningOf(m.value) == meaning
  {
    m :| m in members && m.key == key && !m.value.Undefined? && Fingerprintable(m.value) && MeaningOf(m.value) == meaning;
  }

  lemma EntryOf(members: seq<Member>, m: Member)
    requires m in members && !m.value.Undefined? && Fingerprintable(m.value)
    ensures Entry(members, m.key, MeaningOf(m.value))
  {}

  lemma AlikeMembers(a: Value, b: Value)
    requires a.Obj? && b.Obj? && Alike(a, b)
    ensures forall m | m in a.members && !m.value.Undefined? :: HasPartner(a, m, b)
    ensures forall n | n in b.members && !n.value.Undefined? :: IsPartner(a, n)
  {
    hide HasPartner, IsPartner;
  }

  lemma RightPartner(a: Value, m: Member, b: Value) returns (n: Member)
    requires a.Obj? && b.Obj? && m in a.members && HasPartner(a, m, b)
    ensures n in b.members && n.key == m.key && !n.value.Undefined? && Alike(m.value, n.value)
  {
    hide Alike;
    n :| n in b.members && n.key == m.key && !n.value.Undefined? && Alike(m.value, n.value);
  }

  lemma LeftPartner(a: Value, n: Member) returns (m: Member)
    requires a.Obj? && IsPartner(a, n)
    ensures m in a.members && m.key == n.key && !m.value.Undefined? && Alike(m.value, n.value)
  {
    hide Alike;
    m :| m in a.members && m.key == n.key && !m.value.Undefined? && Alike(m.value, n.value);
  }

  lemma Compared(a: Value, b: Value, m: Member, n: Member)
    requires a.Obj? && b.Obj? && Fingerprintable(a) && Fingerprintable(b) && ComparedByMeaning(a, b)
    requires m in a.members && n in b.members && Alike(m.value, n.value)
    ensures MeaningOf(m.value) == MeaningOf(n.value)
  {
    hide Alike, MeaningOf;
  }

  lemma EntryGoesRight(a: Value, b: Value, key: JsString, meaning: Meaning)
    requires a.Obj? && b.Obj? && Fingerprintable(a) && Fingerprintable(b) && ComparedByMeaning(a, b)
    requires (forall m | m in a.members && !m.value.Undefined? :: HasPartner(a, m, b)) && Entry(a.members, key, meaning)
    ensures Entry(b.members, key, meaning)
  {
    hide Alike, Entry, MeaningOf, HasPartner, ComparedByMeaning;
    var m := OpenEntry(a.members, key, meaning);
    var n := RightPartner(a, m, b);
    Compared(a, b, m, n);
    EntryOf(b.members, n);
  }

  lemma EntryGoesLeft(a: Value, b: Value, key: JsString, meaning: Meaning)
    requires a.Obj? && b.Obj? && Fingerprintable(a) && Fingerprintable(b) && ComparedByMeaning(a, b)
    requires (forall n | n in b.members && !n.value.Undefined? :: IsPartner(a, n)) && Entry(b.members, key, meaning)
    ensures Entry(a.members, key, meaning)
  {
    hide Alike, Entry, MeaningOf, IsPartner, ComparedByMeaning;
    var n := OpenEntry(b.members, key, meaning);
    var m := LeftPartner(a, n);
    Compared(a, b, m, n);
    EntryOf(a.members, m);
  }

  lemma AlikeSameEntries(a: Value, b: Value)
    requires a.Obj? && b.Obj? && Fingerprintable(a) && Fingerprintable(b) && ComparedByMeaning(a, b) && Alike(a, b)
    ensures SameEntries(a, b)
  {
    hide Entry, MeaningOf, HasPartner, IsPartner, ComparedByMeaning, Alike;
    AlikeMembers(a, b);
    forall key, meaning | Entry(a.members, key, meaning) ensures Entry(b.members, key, meaning) {
      EntryGoesRight(a, b, key, meaning);
    }
    forall key, meaning | Entry(b.members, key, meaning) ensures Entry(a.members, key, meaning) {
      EntryGoesLeft(a, b, key, meaning);
    }
  }

  lemma EntriesMeanTheSame(a: Value, b: Value)
    requires a.Obj? && b.Obj? && Fingerprintable(a) && WellFormed(a) && Fingerprintable(b) && WellFormed(b)
    ensures SameEntries(a, b) <==> MemberMeanings(a, a.members) == MemberMeanings(b, b.members)
  {
    hide Entry;
    DistinctAreUnique(a.members);
    DistinctAreUnique(b.members);
    var x, y := MemberMeanings(a, a.members), MemberMeanings(b, b.members);
    forall key, meaning ensures (key in x && x[key] == meaning) <==> Entry(a.members, key, meaning) {
      MeaningEntries(a, a.members, key, meaning);
    }
    forall key, meaning ensures (key in y && y[key] == meaning) <==> Entry(b.members, key, meaning) {
      MeaningEntries(b, b.members, key, meaning);
    }
    if SameEntries(a, b) {
      forall key | key in x ensures key in y && y[key] == x[key] { assert Entry(a.members, key, x[key]); }
      forall key | key in y ensures key in x { assert Entry(b.members, key, y[key]); }
    }
  }

  lemma {:induction false} AlikeObjects(a: Value, b: Value)
    requires a.Obj? && b.Obj? && Fingerprintable(a) && WellFormed(a) && Fingerprintable(b) && WellFormed(b)
    ensures Alike(a, b) <==> MeaningOf(a) == MeaningOf(b)
    decreases a, 0
  {
    hide SameEntries;
    forall m, n | m in a.members && n in b.members ensures Alike(m.value, n.value) <==> MeaningOf(m.value) == MeaningOf(n.value) {
      AlikeMeansTheSame(m.value, n.value);
    }
    EntriesMeanTheSame(a, b);
    if SameEntries(a, b) { SameEntriesAlike(a, b); }
    if Alike(a, b) { AlikeSameEntries(a, b); }
  }

  /** Two values have the same canonical text exactly when they are alike. */
  lemma CanonicalIffAlike(a: Value, b: Value)
    requires Fingerprintable(a) && WellFormed(a) && Fingerprintable(b) && WellFormed(b)
    ensures Canonicalize(a) == Canonicalize(b) <==> Alike(a, b)
  {
    hide Alike, Render;
    CanonicalEquality(a, b);
    AlikeMeansTheSame(a, b);
  }
}
