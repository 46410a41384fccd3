/** The ENRICH step's business rules and the outcome a workflow is for.
    Models apps/worker-a/src/enrich.ts. */
module Enriching {
  import opened Text
  import opened Contracts
  import opened Payload

  const HIGH_FROM: nat := 500_000
  const MEDIUM_FROM: nat := 100_000

  function RiskBandFor(input: OperationInput): RiskBand {
    if input.amount.minorUnits >= HIGH_FROM then High
    else if input.amount.minorUnits >= MEDIUM_FROM then Medium
    else Low
  }

  function ToUpper(s: JsString): JsString {
    seq(|s|, i requires 0 <= i < |s| => if 0x61 <= s[i] <= 0x7A then s[i] - 0x20 else s[i])
  }

  const MAX_REFERENCE: nat := 80
  const COLON_TEXT: JsString := [0x3A]

  function NormalizeReference(input: OperationInput): JsString {
    var upper := ToUpper(Units(OperationText(input.operation)) + COLON_TEXT + input.reference);
    if |upper| > MAX_REFERENCE then upper[..MAX_REFERENCE] else upper
  }

  predicate IsLower(u: CodeUnit) {
    0x61 <= u <= 0x7A
  }

  predicate SameLetter(a: CodeUnit, b: CodeUnit) {
    a == b || (IsLower(a) && b == a - 0x20) || (IsLower(b) && a == b - 0x20)
  }

  /** The same text but for the case of ASCII letters, as far as it is kept. */
  predicate SameIgnoringCase(a: JsString, b: JsString, limit: nat) {
    (|a| == |b| || (|a| >= limit && |b| >= limit)) &&
    forall i | 0 <= i < |a| && i < |b| && i < limit :: SameLetter(a[i], b[i])
  }

  lemma NormalizedUnits(input: OperationInput)
    ensures |NormalizeReference(input)| == (if |input.reference| + 7 > MAX_REFERENCE then MAX_REFERENCE else |input.reference| + 7)
    ensures forall i | 7 <= i < |NormalizeReference(input)| ::
              NormalizeReference(input)[i] == if IsLower(input.reference[i - 7]) then input.reference[i - 7] - 0x20
                                              else input.reference[i - 7]
  {
    assert |Units(OperationText(input.operation)) + COLON_TEXT| == 7;
  }

  /** A normalized reference says what kind of operation it is for. */
  lemma NormalizedPrefix(input: OperationInput)
    ensures |NormalizeReference(input)| >= 7
    ensures NormalizeReference(input)[..7] == Units(if input.operation == Charge then "CHARGE:" else "REFUND:")
  {
    NormalizedUnits(input);
    var text := if input.operation == Charge then "CHARGE:" else "REFUND:";
    var kind := OperationText(input.operation);
    assert kind == text[..6];
    forall i | 0 <= i < 7 ensures NormalizeReference(input)[i] == Units(text)[i] {
      if i < 6 {
        assert kind[i] == text[i] && 'A' <= text[i] <= 'Z';
      } else {
        assert text[6] == ':';
      }
    }
  }

  /** Two references to the same kind of operation are normalized alike exactly when their kept
      part differs in case only; the prefix counts against the limit. */
  lemma NormalizationIgnoresCase(a: OperationInput, b: OperationInput)
    requires a.operation == b.operation
    ensures NormalizeReference(a) == NormalizeReference(b)
            <==> SameIgnoringCase(a.reference, b.reference, MAX_REFERENCE - 7)
    ensures |NormalizeReference(a)| <= MAX_REFERENCE
    ensures forall i | 0 <= i < |NormalizeReference(a)| :: !IsLower(NormalizeReference(a)[i])
  {
    var x, y := NormalizeReference(a), NormalizeReference(b);
    NormalizedUnits(a);
    NormalizedUnits(b);
    assert forall i | 0 <= i < 7 && i < |x| && i < |y| :: x[i] == y[i];
    if x == y {
      forall i | 0 <= i < |a.reference| && i < |b.reference| && i < MAX_REFERENCE - 7
        ensures SameLetter(a.reference[i], b.reference[i])
      {
        assert x[i + 7] == y[i + 7];
      }
    }
    if SameIgnoringCase(a.reference, b.reference, MAX_REFERENCE - 7) {
      assert |x| == |y|;
      forall i | 0 <= i < |x| ensures x[i] == y[i] {
        if i >= 7 { assert SameLetter(a.reference[i - 7], b.reference[i - 7]); }
      }
    }
  }

  const SUPPORTED_CURRENCIES: set<string> := {"USD", "EUR", "GBP", "ILS"}

  predicate Supported(input: OperationInput) {
    input.amount.currencyCode in SUPPORTED_CURRENCIES
  }

  function UnsupportedCurrency(input: OperationInput): AppError {
    AppError(UNSUPPORTED_CURRENCY, "currency " + input.amount.currencyCode + " is not supported", NON_RETRYABLE)
  }

  function Enrich(input: OperationInput, at: nat): Enrichment {
    Enrichment(NormalizeReference(input), RiskBandFor(input), at)
  }

  /** All of an enrichment but the moment it was made. */
  predicate EnrichmentFor(e: Enrichment, input: OperationInput) {
    e.normalizedReference == NormalizeReference(input) && e.riskBand == RiskBandFor(input)
  }

  // -------------------------------------------------------------------------
  // What a workflow should come to
  // -------------------------------------------------------------------------

  datatype Conclusion =
    | Settles(amount: Money, riskBand: RiskBand)
    | Fails(error: AppError)

  /** The outcome as one function of the stored input, with no steps, queues or retries, and in
      terms of nothing but that input. */
  function OneShot(input: OperationInput): Conclusion {
    var currency, units := input.amount.currencyCode, input.amount.minorUnits;
    if currency != "USD" && currency != "EUR" && currency != "GBP" && currency != "ILS" then
      Fails(AppError(UNSUPPORTED_CURRENCY, "currency " + currency + " is not supported", NON_RETRYABLE))
    else if units >= 500_000 then
      Fails(AppError(PROVIDER_REJECTED, "risk band HIGH", NON_RETRYABLE))
    else Settles(input.amount, if units >= 100_000 then Medium else Low)
  }

  lemma UnsupportedOutcome(input: OperationInput)
    ensures !Supported(input) <==> OneShot(input).Fails? && OneShot(input).error.code == UNSUPPORTED_CURRENCY
    ensures !Supported(input) ==> OneShot(input) == Fails(UnsupportedCurrency(input))
  {}
}
