/** Identities derived by hashing. Models packages/idempotency/src/fingerprint.ts. */
module Identity {
  import opened Text
  import opened Contracts
  import opened Fingerprint
  import opened CanonicalJson

  /** `None` is the TypeError `canonicalize` throws. */
  function PayloadFingerprint(payload: Value): Option<string> {
    match Canonicalize(payload)
    case None => None
    case Some(text) => Some(Sha256Hex(text))
  }

  /** Two payloads have the same fingerprint exactly when they mean the same. */
  lemma FingerprintEquality(a: Value, b: Value)
    requires Fingerprintable(a) && WellFormed(a) && Fingerprintable(b) && WellFormed(b)
    ensures PayloadFingerprint(a) == PayloadFingerprint(b) <==> MeaningOf(a) == MeaningOf(b)
  {
    CanonicalEquality(a, b);
    if PayloadFingerprint(a) == PayloadFingerprint(b) {
      Sha256HexInjective(Render(a), Render(b));
    }
  }

  function EventIdText(requestId: RequestId, step: string, workflowVersion: nat): string {
    requestId + "|" + step + "|" + Decimal(workflowVersion)
  }

  function ExternalRefText(requestId: RequestId, step: string): string {
    "external|" + requestId + "|" + step
  }

  /** sha256(requestId|step|workflowVersion). */
  function DeriveEventId(requestId: RequestId, step: string, workflowVersion: nat): (id: EventId)
    ensures forall i :: 0 <= i < |id| ==> IsHex(id[i])
  {
    Sha256Hex(Codes(EventIdText(requestId, step, workflowVersion)))
  }

  /** sha256(external|requestId|stepId). */
  function DeriveExternalRef(requestId: RequestId, step: string): ExternalRef {
    Sha256Hex(Codes(ExternalRefText(requestId, step)))
  }

  lemma EventIdInjective(r1: RequestId, s1: string, v1: nat, r2: RequestId, s2: string, v2: nat)
    requires '|' !in r1 && '|' !in s1 && '|' !in r2 && '|' !in s2
    requires DeriveEventId(r1, s1, v1) == DeriveEventId(r2, s2, v2)
    ensures r1 == r2 && s1 == s2 && v1 == v2
  {
    TextDigestInjective(EventIdText(r1, s1, v1), EventIdText(r2, s2, v2));
    var x, y := s1 + "|" + Decimal(v1), s2 + "|" + Decimal(v2);
    assert EventIdText(r1, s1, v1) == r1 + ['|'] + x && EventIdText(r2, s2, v2) == r2 + ['|'] + y;
    SplitUnique(r1, x, r2, y, '|');
    SplitUnique(s1, Decimal(v1), s2, Decimal(v2), '|');
    ValueOfDecimal(v1);
    ValueOfDecimal(v2);
  }

  lemma ExternalRefInjective(r1: RequestId, s1: string, r2: RequestId, s2: string)
    requires '|' !in r1 && '|' !in r2
    requires DeriveExternalRef(r1, s1) == DeriveExternalRef(r2, s2)
    ensures r1 == r2 && s1 == s2
  {
    TextDigestInjective(ExternalRefText(r1, s1), ExternalRefText(r2, s2));
    var x, y := r1 + ['|'] + s1, r2 + ['|'] + s2;
    assert ExternalRefText(r1, s1) == "external|" + x && ExternalRefText(r2, s2) == "external|" + y;
    assert x == ("external|" + x)[9..] && y == ("external|" + y)[9..];
    SplitUnique(r1, s1, r2, s2, '|');
  }

  /** An external reference is never an event id, whatever the steps and versions. */
  lemma IdentitiesNeverCoincide(r1: RequestId, s1: string, v1: nat, r2: RequestId, s2: string)
    requires '|' !in r1 && r1 != "external"
    ensures DeriveEventId(r1, s1, v1) != DeriveExternalRef(r2, s2)
  {
    if DeriveEventId(r1, s1, v1) == DeriveExternalRef(r2, s2) {
      TextDigestInjective(EventIdText(r1, s1, v1), ExternalRefText(r2, s2));
      var x, y := s1 + "|" + Decimal(v1), r2 + "|" + s2;
      assert EventIdText(r1, s1, v1) == r1 + ['|'] + x;
      assert ExternalRefText(r2, s2) == "external" + ['|'] + y;
      SplitUnique(r1, x, "external", y, '|');
    }
  }

  /** One workflow's two events differ, whatever characters its request id has. */
  lemma StepEventsDiffer(requestId: RequestId, v: nat)
    ensures DeriveEventId(requestId, "ENRICH", v) != DeriveEventId(requestId, "FINALIZE", v)
  {
    var a, b := EventIdText(requestId, "ENRICH", v), EventIdText(requestId, "FINALIZE", v);
    assert |a| != |b|;
    if DeriveEventId(requestId, "ENRICH", v) == DeriveEventId(requestId, "FINALIZE", v) {
      TextDigestInjective(a, b);
    }
  }

  /** The FINALIZE reference alone identifies the workflow. */
  lemma FinalizeRefInjective(r1: RequestId, r2: RequestId)
    requires DeriveExternalRef(r1, "FINALIZE") == DeriveExternalRef(r2, "FINALIZE")
    ensures r1 == r2
  {
    var a, b := ExternalRefText(r1, "FINALIZE"), ExternalRefText(r2, "FINALIZE");
    TextDigestInjective(a, b);
    assert |a| == |b|;
    assert r1 == a[9..|a| - 9] && r2 == b[9..|b| - 9];
  }
}
