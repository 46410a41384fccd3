/** The request body as the JavaScript value that is fingerprinted.
    Models `processRequestSchema` and the call in apps/api/src/app.ts. */
module Payload {
  import opened Text
  import opened Contracts
  import opened Fingerprint
  import opened CanonicalJson
  import opened Identity

  ghost predicate Ascii(s: string) {
    forall i :: 0 <= i < |s| ==> s[i] < '\U{80}'
  }

  function Units(s: string): (u: JsString)
    requires Ascii(s)
    ensures |u| == |s| && forall i :: 0 <= i < |s| ==> u[i] == s[i] as int
  {
    seq(|s|, i requires 0 <= i < |s| => s[i] as int)
  }

  lemma UnitsInjective(a: string, b: string)
    requires Ascii(a) && Ascii(b) && Units(a) == Units(b)
    ensures a == b
  {
    assert |a| == |b|;
    forall i | 0 <= i < |a| ensures a[i] == b[i] {
      assert Units(a)[i] == Units(b)[i];
    }
  }

  function NumberValue(n: nat): Value {
    Num(Finite(Units(Decimal(n))))
  }

  function MetadataMembers(entries: seq<(JsString, JsString)>): (r: seq<Member>)
    ensures |r| == |entries|
    ensures forall i :: 0 <= i < |r| ==> r[i] == Member(entries[i].0, Str(entries[i].1))
  {
    seq(|entries|, i requires 0 <= i < |entries| => Member(entries[i].0, Str(entries[i].1)))
  }

  const CURRENCY_CODE: JsString := Units("currencyCode")
  const MINOR_UNITS: JsString := Units("minorUnits")
  const OPERATION: JsString := Units("operation")
  const AMOUNT: JsString := Units("amount")
  const REFERENCE: JsString := Units("reference")
  const METADATA: JsString := Units("metadata")

  lemma KeysDiffer()
    ensures CURRENCY_CODE != MINOR_UNITS
    ensures OPERATION != AMOUNT && OPERATION != REFERENCE && OPERATION != METADATA
    ensures AMOUNT != REFERENCE && AMOUNT != METADATA && REFERENCE != METADATA
  {
    assert CURRENCY_CODE[0] != MINOR_UNITS[0];
    assert OPERATION[0] == 'o' as int && AMOUNT[0] == 'a' as int && REFERENCE[0] == 'r' as int && METADATA[0] == 'm' as int;
  }

  function AmountValue(amount: Money): Value {
    Obj([Member(CURRENCY_CODE, Str(Units(amount.currencyCode))),
         Member(MINOR_UNITS, NumberValue(amount.minorUnits))])
  }

  function OperationText(operation: OperationKind): string {
    if operation.Charge? then "CHARGE" else "REFUND"
  }

  function MetadataValue(metadata: Option<seq<(JsString, JsString)>>): Value {
    match metadata
    case None => Undefined
    case Some(entries) => Obj(MetadataMembers(entries))
  }

  function PayloadOf(input: OperationInput): Value {
    Obj([Member(OPERATION, Str(Units(OperationText(input.operation)))),
         Member(AMOUNT, AmountValue(input.amount)),
         Member(REFERENCE, Str(input.reference)),
         Member(METADATA, MetadataValue(input.metadata))])
  }

  function PayloadHash(input: OperationInput): string {
    PayloadFingerprintable(input);
    PayloadFingerprint(PayloadOf(input)).value
  }

  /** The metadata record has no key twice. */
  ghost predicate ValidRecord(metadata: Option<seq<(JsString, JsString)>>) {
    metadata.Some? ==>
      forall i, j :: 0 <= i < j < |metadata.value| ==> metadata.value[i].0 != metadata.value[j].0
  }

  function RecordOf(entries: seq<(JsString, JsString)>): map<JsString, JsString> {
    if entries == [] then map[] else RecordOf(entries[1..])[entries[0].0 := entries[0].1]
  }

  /** The same business input: metadata compares as a record, whatever its order. */
  ghost predicate SameInput(a: OperationInput, b: OperationInput) {
    a.operation == b.operation && a.amount == b.amount && a.reference == b.reference &&
    match (a.metadata, b.metadata)
    case (None, None) => true
    case (Some(x), Some(y)) => RecordOf(x) == RecordOf(y)
    case _ => false
  }

  lemma PayloadFingerprintable(input: OperationInput)
    ensures Fingerprintable(PayloadOf(input))
  {
    assert Fingerprintable(AmountValue(input.amount));
    assert Fingerprintable(MetadataValue(input.metadata));
  }

  lemma PayloadWellFormed(input: OperationInput)
    requires ValidRecord(input.metadata)
    ensures WellFormed(PayloadOf(input))
  {
    KeysDiffer();
    assert WellFormed(AmountValue(input.amount));
    assert WellFormed(MetadataValue(input.metadata));
  }

  function Texts(record: map<JsString, JsString>): map<JsString, Meaning> {
    map k | k in record :: MStr(record[k])
  }

  lemma TextsInjective(a: map<JsString, JsString>, b: map<JsString, JsString>)
    requires Texts(a) == Texts(b)
    ensures a == b
  {
    assert a.Keys == Texts(a).Keys == Texts(b).Keys == b.Keys;
    forall k | k in a ensures a[k] == b[k] {
      assert Texts(a)[k] == Texts(b)[k];
    }
  }

  lemma {:induction false} RecordMeaning(whole: Value, entries: seq<(JsString, JsString)>)
    requires Inside(whole, MetadataMembers(entries))
    ensures MemberMeanings(whole, MetadataMembers(entries)) == Texts(RecordOf(entries))
  {
    if entries != [] {
      assert MetadataMembers(entries)[1..] == MetadataMembers(entries[1..]);
      RecordMeaning(whole, entries[1..]);
    }
  }

  lemma MetadataIsRecord(entries: seq<(JsString, JsString)>)
    ensures MeaningOf(MetadataValue(Some(entries))) == MObj(Texts(RecordOf(entries)))
  {
    RecordMeaning(MetadataValue(Some(entries)), entries);
  }

  lemma MetadataMeaning(a: seq<(JsString, JsString)>, b: seq<(JsString, JsString)>)
    ensures MeaningOf(MetadataValue(Some(a))) == MeaningOf(MetadataValue(Some(b))) <==> RecordOf(a) == RecordOf(b)
  {
    MetadataIsRecord(a);
    MetadataIsRecord(b);
    if Texts(RecordOf(a)) == Texts(RecordOf(b)) {
      TextsInjective(RecordOf(a), RecordOf(b));
    }
  }

  lemma NumberMeaning(a: nat, b: nat)
    ensures MeaningOf(NumberValue(a)) == MeaningOf(NumberValue(b)) <==> a == b
  {
    if MeaningOf(NumberValue(a)) == MeaningOf(NumberValue(b)) {
      UnitsInjective(Decimal(a), Decimal(b));
      ValueOfDecimal(a);
      ValueOfDecimal(b);
    }
  }

  lemma AmountMeaning(a: Money, b: Money)
    ensures MeaningOf(AmountValue(a)) == MeaningOf(AmountValue(b)) <==> a == b
  {
    KeysDiffer();
    var x, y := AmountValue(a), AmountValue(b);
    SameShape(x, y);
    NumberMeaning(a.minorUnits, b.minorUnits);
    if SameSlots(x, y) {
      assert SameSlot(x.members[0].value, y.members[0].value);
      assert SameSlot(x.members[1].value, y.members[1].value);
      UnitsInjective(a.currencyCode, b.currencyCode);
    }
  }

  lemma OperationMeaning(a: OperationKind, b: OperationKind)
    requires Units(OperationText(a)) == Units(OperationText(b))
    ensures a == b
  {
    UnitsInjective(OperationText(a), OperationText(b));
    assert OperationText(a)[0] == OperationText(b)[0];
  }

  lemma SlotsAreFields(a: OperationInput, b: OperationInput)
    requires Fingerprintable(PayloadOf(a)) && Fingerprintable(PayloadOf(b))
    requires SameKeys(PayloadOf(a), PayloadOf(b))
    ensures SameSlots(PayloadOf(a), PayloadOf(b)) <==> SameInput(a, b)
  {
    var x, y := PayloadOf(a), PayloadOf(b);
    AmountMeaning(a.amount, b.amount);
    if a.metadata.Some? && b.metadata.Some? {
      MetadataMeaning(a.metadata.value, b.metadata.value);
    }
    if SameSlots(x, y) {
      assert SameSlot(x.members[0].value, y.members[0].value);
      assert SameSlot(x.members[1].value, y.members[1].value);
      assert SameSlot(x.members[2].value, y.members[2].value);
      assert SameSlot(x.members[3].value, y.members[3].value);
      OperationMeaning(a.operation, b.operation);
    }
  }

  lemma PayloadKeys(a: OperationInput, b: OperationInput)
    ensures SameKeys(PayloadOf(a), PayloadOf(b))
  {
    KeysDiffer();
  }

  lemma PayloadMeaning(a: OperationInput, b: OperationInput)
    requires ValidRecord(a.metadata) && ValidRecord(b.metadata)
    ensures Fingerprintable(PayloadOf(a)) && Fingerprintable(PayloadOf(b))
    ensures WellFormed(PayloadOf(a)) && WellFormed(PayloadOf(b))
    ensures MeaningOf(PayloadOf(a)) == MeaningOf(PayloadOf(b)) <==> SameInput(a, b)
  {
    PayloadFingerprintable(a);
    PayloadFingerprintable(b);
    PayloadWellFormed(a);
    PayloadWellFormed(b);
    PayloadKeys(a, b);
    SameShape(PayloadOf(a), PayloadOf(b));
    SlotsAreFields(a, b);
  }

  /** Two request bodies get the same hash exactly when they ask for the same thing. */
  lemma PayloadHashEquality(a: OperationInput, b: OperationInput)
    requires ValidRecord(a.metadata) && ValidRecord(b.metadata)
    ensures PayloadHash(a) == PayloadHash(b) <==> SameInput(a, b)
  {
    var x, y := PayloadOf(a), PayloadOf(b);
    PayloadMeaning(a, b);
    FingerprintEquality(x, y);
  }
}
