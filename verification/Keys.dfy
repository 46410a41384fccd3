/** Table keys and sparse index keys. Models packages/persistence/src/keys.ts and
    `toStaleRef` of workflow-repository.ts. */
module Keys {
  import opened Text
  import opened Contracts

  // -------------------------------------------------------------------------
  // Table keys
  // -------------------------------------------------------------------------

  datatype PhysicalKey = PhysicalKey(pk: string, sk: string)

  function WorkflowKey(requestId: RequestId): PhysicalKey {
    PhysicalKey("REQ#" + requestId, "WORKFLOW")
  }

  function IdempotencyKeyItem(tenantId: TenantId, idempotencyKey: IdempotencyKey): PhysicalKey {
    PhysicalKey("IDEM#" + tenantId + "#" + idempotencyKey, "IDEM")
  }

  function StepKey(requestId: RequestId, step: StepId): PhysicalKey {
    PhysicalKey("REQ#" + requestId, "STEP#" + StepName(step))
  }

  function OutboxKey(requestId: RequestId, eventId: EventId): PhysicalKey {
    PhysicalKey("REQ#" + requestId, "OUTBOX#" + eventId)
  }

  /** The four kinds of item in the single table. */
  datatype ItemKey =
    | WorkflowAt(requestId: RequestId)
    | IdempotencyAt(tenantId: TenantId, idempotencyKey: IdempotencyKey)
    | StepAt(requestId: RequestId, step: StepId)
    | OutboxAt(requestId: RequestId, eventId: EventId)

  function Physical(key: ItemKey): PhysicalKey {
    match key
    case WorkflowAt(r) => WorkflowKey(r)
    case IdempotencyAt(t, k) => IdempotencyKeyItem(t, k)
    case StepAt(r, s) => StepKey(r, s)
    case OutboxAt(r, e) => OutboxKey(r, e)
  }

  /** The one charset rule the keys rest on: no separator in a tenant id. */
  predicate SafeTenant(key: ItemKey) {
    key.IdempotencyAt? ==> '#' !in key.tenantId
  }

  /** Items of different kinds or with different identifiers never share a table key. */
  lemma PhysicalInjective(a: ItemKey, b: ItemKey)
    requires SafeTenant(a) && SafeTenant(b)
    requires Physical(a) == Physical(b)
    ensures a == b
  {
    var x, y := Physical(a), Physical(b);
    assert x.pk[0] == y.pk[0] && x.pk[4..] == y.pk[4..];
    if a.IdempotencyAt? {
      assert b.IdempotencyAt?;
      assert x.pk[5..] == a.tenantId + ['#'] + a.idempotencyKey;
      assert y.pk[5..] == b.tenantId + ['#'] + b.idempotencyKey;
      SplitUnique(a.tenantId, a.idempotencyKey, b.tenantId, b.idempotencyKey, '#');
    } else {
      assert !b.IdempotencyAt?;
      assert x.pk[4..] == a.requestId && y.pk[4..] == b.requestId;
      assert x.sk[0] == y.sk[0];
      match a
      case StepAt(_, s) => assert x.sk[5] == StepName(s)[0] && y.sk[5] == StepName(b.step)[0];
      case OutboxAt(_, e) => assert x.sk[7..] == e && y.sk[7..] == b.eventId;
      case _ =>
    }
  }

  /** A tenant id with a separator in it does forge a boundary. */
  lemma UnsafeTenantForgesKey()
    ensures Physical(IdempotencyAt("a#b", "c")) == Physical(IdempotencyAt("a", "b#c"))
    ensures IdempotencyAt("a#b", "c") != IdempotencyAt("a", "b#c")
  {
    assert "IDEM#" + "a#b" + "#" + "c" == "IDEM#" + "a" + "#" + "b#c";
  }

  /** Every tenant id the API lets through is safe in a key. */
  lemma ValidatedTenantsAreSafe(tenantId: TenantId, idempotencyKey: IdempotencyKey)
    requires ValidTenantId(tenantId)
    ensures SafeTenant(IdempotencyAt(tenantId, idempotencyKey))
  {}

  // -------------------------------------------------------------------------
  // Shards
  // -------------------------------------------------------------------------

  const PENDING_SHARDS: nat := 10

  function Shard(value: string): (shard: nat)
    ensures shard < PENDING_SHARDS
  {
    if value == "" then 0
    else (Shard(value[..|value| - 1]) * 31 + value[|value| - 1] as int) % PENDING_SHARDS
  }

  method ShardOf(value: string) returns (hash: nat)
    ensures hash == Shard(value)
  {
    hash := 0;
    for index := 0 to |value|
      invariant hash == Shard(value[..index])
    {
      assert value[..index + 1][..index] == value[..index];
      hash := (hash * 31 + value[index] as int) % PENDING_SHARDS;
    }
    assert value[..|value|] == value;
  }

  function CodeSum(value: string): nat {
    if value == "" then 0 else CodeSum(value[..|value| - 1]) + value[|value| - 1] as int
  }

  /** 31 is 1 modulo the shard count, so the multiplier does nothing: the shard is the sum of
      the character codes, and reordering an identifier never moves it. */
  lemma {:induction false} ShardIsCodeSum(value: string)
    ensures Shard(value) == CodeSum(value) % PENDING_SHARDS
  {
    if value != "" {
      ShardIsCodeSum(value[..|value| - 1]);
      var sum: int, c: int := CodeSum(value[..|value| - 1]), value[|value| - 1] as int;
      SameLastDigit(sum % 10 * 31 + c, sum + c, 3 * (sum % 10) - sum / 10);
    }
  }

  lemma SameLastDigit(x: int, y: int, k: int)
    requires x == y + 10 * k
    ensures x % 10 == y % 10
  {}

  // -------------------------------------------------------------------------
  // Sparse index keys
  // -------------------------------------------------------------------------

  datatype IndexKeys = IndexKeys(pk: string, sk: string)

  const TIMESTAMP_WIDTH: nat := 13

  function ChronoPrefix(epochMillis: nat): (p: string)
    ensures AllDigits(p)
  {
    PadStart(Decimal(epochMillis), TIMESTAMP_WIDTH)
  }

  function PendingShardKey(shard: nat): string {
    "OUTBOX_PENDING#" + Decimal(shard)
  }

  function ProcessingShardKey(shard: nat): string {
    "WF_PROCESSING#" + Decimal(shard)
  }

  function PendingOutboxIndexKeys(requestId: RequestId, eventId: EventId, createdAt: nat): IndexKeys {
    IndexKeys(PendingShardKey(Shard(requestId)), ChronoPrefix(createdAt) + "#" + eventId)
  }

  function ProcessingIndexKeys(requestId: RequestId, deadlineAt: nat): IndexKeys {
    IndexKeys(ProcessingShardKey(Shard(requestId)), ChronoPrefix(deadlineAt) + "#" + requestId)
  }

  lemma ShardKeysDistinct(a: nat, b: nat)
    requires PendingShardKey(a) == PendingShardKey(b) || ProcessingShardKey(a) == ProcessingShardKey(b)
    ensures a == b
  {
    assert PendingShardKey(a)[15..] == Decimal(a) && PendingShardKey(b)[15..] == Decimal(b);
    assert ProcessingShardKey(a)[14..] == Decimal(a) && ProcessingShardKey(b)[14..] == Decimal(b);
    ValueOfDecimal(a);
    ValueOfDecimal(b);
  }

  /** Timestamps that fit the padded width: until the year 2286. */
  predicate FitsWidth(epochMillis: int) {
    epochMillis < 10_000_000_000_000
  }

  lemma PowerOfTen()
    ensures Pow10(TIMESTAMP_WIDTH) == 10_000_000_000_000
  {
    assert Pow10(4) == 10_000;
    assert Pow10(8) == 100_000_000;
    assert Pow10(12) == 1_000_000_000_000;
  }

  /** An index range query by string is the numeric comparison of the two timestamps. */
  lemma ChronoOrder(at: nat, id: string, boundary: nat)
    requires FitsWidth(at) && FitsWidth(boundary)
    ensures LexLess(ChronoPrefix(at) + "#" + id, ChronoPrefix(boundary)) <==> at < boundary
  {
    PowerOfTen();
    DecimalLength(at, TIMESTAMP_WIDTH);
    DecimalLength(boundary, TIMESTAMP_WIDTH);
    ValueOfPadded(at, TIMESTAMP_WIDTH);
    ValueOfPadded(boundary, TIMESTAMP_WIDTH);
    assert ChronoPrefix(at) + "#" + id == ChronoPrefix(at) + ("#" + id);
    LexLessIsNumeric(ChronoPrefix(at), "#" + id, ChronoPrefix(boundary));
  }

  lemma {:induction false} DigitsNotBelowMinus(a: string, rest: string, zeros: nat, d: string)
    requires AllDigits(a) && |a| > zeros
    ensures !LexLess(a + rest, Zeros(zeros) + ("-" + d))
    decreases zeros
  {
    var x, y := a + rest, Zeros(zeros) + ("-" + d);
    assert x[0] == a[0] && IsDigit(a[0]);
    if zeros == 0 {
      assert y[0] == '-';
    } else {
      assert y[0] == '0' && y[1..] == Zeros(zeros - 1) + ("-" + d);
      assert x[1..] == a[1..] + rest;
      DigitsNotBelowMinus(a[1..], rest, zeros - 1, d);
    }
  }

  /** A boundary before the epoch is before every key, as it is before every timestamp. */
  lemma NothingBeforeTheEpoch(at: nat, id: string, n: nat)
    requires n > 0
    ensures !LexLess(ChronoPrefix(at) + "#" + id, PadStart("-" + Decimal(n), TIMESTAMP_WIDTH))
  {
    var text := "-" + Decimal(n);
    var zeros := if |text| < TIMESTAMP_WIDTH then TIMESTAMP_WIDTH - |text| else 0;
    assert ChronoPrefix(at) + "#" + id == ChronoPrefix(at) + ("#" + id);
    assert PadStart(text, TIMESTAMP_WIDTH) == Zeros(zeros) + text;
    DigitsNotBelowMinus(ChronoPrefix(at), "#" + id, zeros, Decimal(n));
  }

  // -------------------------------------------------------------------------
  // Stale references
  // -------------------------------------------------------------------------

  datatype StaleWorkflowRef = StaleWorkflowRef(requestId: RequestId, deadlineAt: nat)

  function LeadingDigits(s: string): (r: string)
    ensures AllDigits(r)
  {
    if s == "" || !IsDigit(s[0]) then "" else [s[0]] + LeadingDigits(s[1..])
  }

  /** `Number.parseInt(s, 10)` on text without leading blanks or a sign; `None` is NaN. */
  function ParseInt(s: string): Option<nat> {
    var digits := LeadingDigits(s);
    if digits == "" then None else Some(Value(digits))
  }

  function ToStaleRef(pk: string, indexSk: string): Option<StaleWorkflowRef> {
    if !("REQ#" <= pk) then None
    else
      match ParseInt(Before(indexSk, '#'))
      case None => None
      case Some(deadlineAt) => Some(StaleWorkflowRef(pk[4..], deadlineAt))
  }

  lemma {:induction false} DigitsLead(s: string)
    requires AllDigits(s)
    ensures LeadingDigits(s) == s
  {
    if s != "" {
      DigitsLead(s[1..]);
      assert s == [s[0]] + s[1..];
    }
  }

  /** The keys of an index entry give back the exact request and deadline. */
  lemma StaleRefRecovers(requestId: RequestId, deadlineAt: nat)
    ensures ToStaleRef(WorkflowKey(requestId).pk, ProcessingIndexKeys(requestId, deadlineAt).sk)
         == Some(StaleWorkflowRef(requestId, deadlineAt))
  {
    var prefix := ChronoPrefix(deadlineAt);
    ValueOfPadded(deadlineAt, TIMESTAMP_WIDTH);
    assert '#' !in prefix;
    assert prefix + "#" + requestId == prefix + ['#'] + requestId;
    BeforeSeparator(prefix, '#', requestId);
    DigitsLead(prefix);
    assert ("REQ#" + requestId)[4..] == requestId;
  }
}
