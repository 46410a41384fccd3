/** The shared vocabulary: identities, the business operation, statuses, messages and the
    classification of failures. Models packages/contracts/src. */
module Contracts {
  import opened Text

  datatype Option<+T> = None | Some(value: T)

  type RequestId = string
  type TenantId = string
  type IdempotencyKey = string
  type EventId = string
  type ExternalRef = string

  // -------------------------------------------------------------------------
  // The business operation
  // -------------------------------------------------------------------------

  datatype OperationKind = Charge | Refund

  /** ISO 4217 alphabetic code. */
  type CurrencyCode = s: string | |s| == 3 && forall i :: 0 <= i < 3 ==> 'A' <= s[i] <= 'Z' witness "USD"

  datatype Money = Money(currencyCode: CurrencyCode, minorUnits: nat)

  datatype RiskBand = Low | Medium | High

  /** A request body that passed its schema. `metadata` lists the record's entries in the
      order the caller wrote them. */
  datatype OperationInput = OperationInput(
    operation: OperationKind,
    amount: Money,
    reference: JsString,
    metadata: Option<seq<(JsString, JsString)>>)

  predicate IsIdChar(c: char) {
    'A' <= c <= 'Z' || 'a' <= c <= 'z' || '0' <= c <= '9' || c == '.' || c == '_' || c == '-'
  }

  predicate IsHexDigit(c: char) {
    'A' <= c <= 'F' || 'a' <= c <= 'f' || '0' <= c <= '9'
  }

  predicate ValidRequestId(s: RequestId) {
    |s| == 36 && forall i | 0 <= i < 36 :: if i == 8 || i == 13 || i == 18 || i == 23 then s[i] == '-' else IsHexDigit(s[i])
  }

  predicate ValidTenantId(s: TenantId) {
    1 <= |s| <= 64 && forall i | 0 <= i < |s| :: IsIdChar(s[i])
  }

  predicate ValidIdempotencyKey(s: IdempotencyKey) {
    8 <= |s| <= 128 && forall i | 0 <= i < |s| :: IsIdChar(s[i]) || s[i] == ':'
  }

  const MAX_MINOR_UNITS: nat := 1_000_000_000
  const MAX_REFERENCE_LENGTH: nat := 64
  const MAX_METADATA: nat := 10

  predicate ValidEntry(entry: (JsString, JsString)) {
    1 <= |entry.0| <= 64 && |entry.1| <= 256
  }

  predicate ValidMetadata(entries: seq<(JsString, JsString)>) {
    |entries| <= MAX_METADATA && (forall i | 0 <= i < |entries| :: ValidEntry(entries[i]))
    && forall i, j | 0 <= i < j < |entries| :: entries[i].0 != entries[j].0
  }

  /** What the request schema asks of a body beyond its shape. */
  predicate ValidInput(input: OperationInput) {
    0 < input.amount.minorUnits <= MAX_MINOR_UNITS && 1 <= |input.reference| <= MAX_REFERENCE_LENGTH
    && (input.metadata.Some? ==> ValidMetadata(input.metadata.value))
  }

  datatype Enrichment = Enrichment(normalizedReference: JsString, riskBand: RiskBand, enrichedAt: nat)

  datatype ProviderStatus = Settled | Declined

  /** What the provider stores and answers for one operation. */
  datatype Operation = Operation(
    operationId: string,
    idempotencyKey: ExternalRef,
    status: ProviderStatus,
    declineReason: Option<string>,
    amount: Money,
    processedAt: nat)

  datatype OperationRequest = OperationRequest(
    operation: OperationKind,
    amount: Money,
    reference: JsString,
    riskBand: RiskBand)

  datatype OperationResult = OperationResult(
    providerOperationId: string,
    outcome: ProviderStatus,
    amount: Money,
    riskBand: RiskBand,
    completedAt: nat)

  // -------------------------------------------------------------------------
  // Failures
  // -------------------------------------------------------------------------

  datatype FailureClass = RETRYABLE | NON_RETRYABLE | UNKNOWN_EXTERNAL_STATE

  datatype ErrorCode =
    | INTERNAL_ERROR
    | UNSUPPORTED_CURRENCY
    | PROVIDER_REJECTED
    | PROVIDER_UNAVAILABLE
    | PROVIDER_STATE_UNKNOWN
    | STATE_CONFLICT
    | WORKFLOW_MISSING

  datatype AppError = AppError(code: ErrorCode, message: string, failureClass: FailureClass)

  // -------------------------------------------------------------------------
  // Workflow and steps
  // -------------------------------------------------------------------------

  datatype WorkflowStatus = Processing | Completed | Failed

  predicate IsTerminal(status: WorkflowStatus) {
    status == Completed || status == Failed
  }

  datatype StepId = ENRICH | FINALIZE

  function StepName(step: StepId): string {
    match step
    case ENRICH => "ENRICH"
    case FINALIZE => "FINALIZE"
  }

  datatype StepStatus = InProgress | Succeeded | StepFailed | UnknownExternalState

  const CURRENT_WORKFLOW_VERSION: nat := 1

  // -------------------------------------------------------------------------
  // Messages and outbox
  // -------------------------------------------------------------------------

  datatype Destination = START_QUEUE | STEP_QUEUE

  /** A message names a workflow and a step; FINALIZE also carries the enrichment. */
  datatype Message =
    | EnrichMessage(requestId: RequestId, tenantId: TenantId, createdAt: nat)
    | FinalizeMessage(requestId: RequestId, tenantId: TenantId, createdAt: nat, enrichment: Enrichment)

  function StepOf(message: Message): StepId {
    if message.EnrichMessage? then ENRICH else FINALIZE
  }

  /** The queue whose worker handles a step. */
  function QueueOf(step: StepId): Destination {
    match step
    case ENRICH => START_QUEUE
    case FINALIZE => STEP_QUEUE
  }
}
