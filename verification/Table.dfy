/** The items of the one table and its conditional transitions, as functions from table to
    table. Each one is a single DynamoDB write or transaction: all of it happens or none.
    Models packages/persistence/src/workflow-repository.ts and items.ts. */
module Table {
  import opened Contracts
  import opened Keys
  import opened Identity
  import opened Payload

  // -------------------------------------------------------------------------
  // Items
  // -------------------------------------------------------------------------

  datatype WorkflowItem = WorkflowItem(
    requestId: RequestId,
    tenantId: TenantId,
    idempotencyKey: IdempotencyKey,
    status: WorkflowStatus,
    stateVersion: nat,
    payloadHash: string,
    input: OperationInput,
    createdAt: nat,
    updatedAt: nat,
    syncDeadlineAt: nat,
    businessDeadlineAt: nat,
    expiresAt: nat,
    result: Option<OperationResult>,
    error: Option<AppError>,
    index: Option<IndexKeys>)

  datatype IdempotencyItem = IdempotencyItem(
    tenantId: TenantId,
    idempotencyKey: IdempotencyKey,
    requestId: RequestId,
    payloadHash: string,
    createdAt: nat,
    expiresAt: nat)

  /** `externalResult` has no schema: either step's result could be stored there. */
  datatype StepResult = EnrichmentResult(enrichment: Enrichment) | ProviderResult(operation: Operation)

  datatype StepItem = StepItem(
    requestId: RequestId,
    stepId: StepId,
    status: StepStatus,
    attempt: nat,
    externalRef: Option<ExternalRef>,
    externalResult: Option<StepResult>,
    createdAt: nat,
    updatedAt: nat,
    expiresAt: nat)

  datatype OutboxItem = OutboxItem(
    eventId: EventId,
    requestId: RequestId,
    destination: Destination,
    message: Message,
    createdAt: nat,
    expiresAt: nat,
    publishedAt: Option<nat>,
    index: Option<IndexKeys>)

  type StepRef = (RequestId, StepId)
  type EventRef = (RequestId, EventId)
  type MappingRef = (TenantId, IdempotencyKey)

  /** One map per kind of item; `Keys.PhysicalInjective` is why one table can hold them all. */
  datatype Table = Table(
    workflows: map<RequestId, WorkflowItem>,
    mappings: map<MappingRef, IdempotencyItem>,
    steps: map<StepRef, StepItem>,
    outbox: map<EventRef, OutboxItem>)

  const EMPTY: Table := Table(map[], map[], map[], map[])

  /** The clock reading of a call and the retention configured when it was made. */
  datatype When = When(now: nat, workflowTtlDays: nat, outboxTtlDays: nat)

  function TtlSeconds(nowMillis: nat, days: nat): nat {
    nowMillis / 1000 + days * 24 * 60 * 60
  }

  function EventIdOf(requestId: RequestId, step: StepId): EventId {
    DeriveEventId(requestId, StepName(step), CURRENT_WORKFLOW_VERSION)
  }

  /** The reference under which one workflow's external operation runs. */
  function FinalizeRef(requestId: RequestId): ExternalRef {
    DeriveExternalRef(requestId, StepName(FINALIZE))
  }

  function Event(requestId: RequestId, step: StepId): EventRef {
    (requestId, EventIdOf(requestId, step))
  }

  function PendingEvent(message: Message, destination: Destination, at: When): OutboxItem {
    var r := message.requestId;
    var id := EventIdOf(r, StepOf(message));
    OutboxItem(id, r, destination, message, at.now, TtlSeconds(at.now, at.outboxTtlDays), None,
               Some(PendingOutboxIndexKeys(r, id, at.now)))
  }

  // -------------------------------------------------------------------------
  // createWorkflow
  // -------------------------------------------------------------------------

  datatype CreateInput = CreateInput(
    requestId: RequestId,
    tenantId: TenantId,
    idempotencyKey: IdempotencyKey,
    payloadHash: string,
    input: OperationInput,
    syncDeadlineAt: nat,
    businessDeadlineAt: nat)

  datatype CreateResult =
    | CREATED(workflow: WorkflowItem)
    | EXISTING(workflow: WorkflowItem)
    | CONFLICT(existingRequestId: RequestId, existingPayloadHash: string)
    | CreateThrows(failureClass: FailureClass)

  function NewWorkflow(c: CreateInput, at: When): WorkflowItem {
    WorkflowItem(c.requestId, c.tenantId, c.idempotencyKey, Processing, 0, c.payloadHash, c.input,
                 at.now, at.now, c.syncDeadlineAt, c.businessDeadlineAt,
                 TtlSeconds(at.now, at.workflowTtlDays), None, None,
                 Some(ProcessingIndexKeys(c.requestId, c.businessDeadlineAt)))
  }

  function NewMapping(c: CreateInput, at: When): IdempotencyItem {
    IdempotencyItem(c.tenantId, c.idempotencyKey, c.requestId, c.payloadHash, at.now,
                    TtlSeconds(at.now, at.workflowTtlDays))
  }

  function CreateWorkflow(t: Table, c: CreateInput, at: When): (Table, CreateResult) {
    var key := (c.tenantId, c.idempotencyKey);
    var event := Event(c.requestId, ENRICH);
    if key in t.mappings then
      (t, ResolveExisting(t, t.mappings[key], c))
    else if c.requestId in t.workflows || event in t.outbox then
      // Cancelled with neither the mapping's condition nor a conflict among the reasons.
      (t, CreateThrows(NON_RETRYABLE))
    else
      var workflow := NewWorkflow(c, at);
      var message := EnrichMessage(c.requestId, c.tenantId, at.now);
      (t.(workflows := t.workflows[c.requestId := workflow],
          mappings := t.mappings[key := NewMapping(c, at)],
          outbox := t.outbox[event := PendingEvent(message, START_QUEUE, at)]),
       CREATED(workflow))
  }

  function ResolveExisting(t: Table, mapping: IdempotencyItem, c: CreateInput): CreateResult {
    if mapping.payloadHash != c.payloadHash then CONFLICT(mapping.requestId, mapping.payloadHash)
    else if mapping.requestId !in t.workflows then CreateThrows(RETRYABLE)
    else EXISTING(t.workflows[mapping.requestId])
  }

  // -------------------------------------------------------------------------
  // beginStep
  // -------------------------------------------------------------------------

  datatype BeginStepResult =
    | STARTED(step: StepItem)
    | RESUMED(step: StepItem, previous: StepStatus)
    | ALREADY_SUCCEEDED(step: StepItem)

  /** The item UpdateItem stores: plain SETs, `if_not_exists` SETs and the ADD. */
  function ClaimedItem(before: Option<StepItem>, requestId: RequestId, step: StepId,
                       externalRef: Option<ExternalRef>, at: When): StepItem {
    match before
    case None =>
      StepItem(requestId, step, InProgress, 1, externalRef, None, at.now, at.now,
               TtlSeconds(at.now, at.workflowTtlDays))
    case Some(prior) =>
      prior.(requestId := requestId, stepId := step, status := InProgress, updatedAt := at.now,
             externalRef := if prior.externalRef.Some? then prior.externalRef else externalRef,
             attempt := prior.attempt + 1)
  }

  /** The record the caller is given, rebuilt from the attributes the update returned. */
  function RebuiltStep(attributes: Option<StepItem>, requestId: RequestId, step: StepId,
                       externalRef: Option<ExternalRef>, at: When): StepItem {
    match attributes
    case None =>
      StepItem(requestId, step, InProgress, 1, externalRef, None, at.now, at.now,
               TtlSeconds(at.now, at.workflowTtlDays))
    case Some(prior) =>
      var spread := prior.(status := InProgress, attempt := prior.attempt + 1, updatedAt := at.now);
      if externalRef.None? || prior.externalRef.Some? then spread
      else spread.(externalRef := externalRef)
  }

  function StepAtKey(t: Table, requestId: RequestId, step: StepId): Option<StepItem> {
    if (requestId, step) in t.steps then Some(t.steps[(requestId, step)]) else None
  }

  function BeginStep(t: Table, requestId: RequestId, step: StepId,
                     externalRef: Option<ExternalRef>, at: When): (Table, BeginStepResult) {
    var before := StepAtKey(t, requestId, step);
    if before.Some? && before.value.status == Succeeded then (t, ALREADY_SUCCEEDED(before.value))
    else
      var stored := ClaimedItem(before, requestId, step, externalRef, at);
      var rebuilt := RebuiltStep(before, requestId, step, externalRef, at);
      (t.(steps := t.steps[(requestId, step) := stored]),
       if before.None? then STARTED(rebuilt) else RESUMED(rebuilt, before.value.status))
  }

  // -------------------------------------------------------------------------
  // markStepUnknownExternalState
  // -------------------------------------------------------------------------

  function MarkUnknown(t: Table, requestId: RequestId, step: StepId, at: When): Table {
    var before := StepAtKey(t, requestId, step);
    if before.None? || before.value.status == Succeeded then t
    else t.(steps := t.steps[(requestId, step) := before.value.(status := UnknownExternalState, updatedAt := at.now)])
  }

  // -------------------------------------------------------------------------
  // advanceStepWithOutbox
  // -------------------------------------------------------------------------

  datatype AdvanceResult = ADVANCED | ALREADY_ADVANCED | WORKFLOW_TERMINAL | WORKFLOW_MISSING

  /** ENRICH to FINALIZE, the one advance there is. */
  function AdvanceStep(t: Table, requestId: RequestId, tenantId: TenantId, enrichment: Enrichment, at: When)
    : (Table, AdvanceResult)
  {
    var step := (requestId, ENRICH);
    var event := Event(requestId, FINALIZE);
    if requestId !in t.workflows then (t, AdvanceResult.WORKFLOW_MISSING)
    else if t.workflows[requestId].status != Processing then (t, WORKFLOW_TERMINAL)
    else if step in t.steps && t.steps[step].status == Succeeded then (t, ALREADY_ADVANCED)
    else if event in t.outbox then (t, ALREADY_ADVANCED)
    else
      var message := FinalizeMessage(requestId, tenantId, at.now, enrichment);
      (t.(steps := t.steps[step := AdvancedItem(StepAtKey(t, requestId, ENRICH), requestId, enrichment, at)],
          outbox := t.outbox[event := PendingEvent(message, STEP_QUEUE, at)]),
       ADVANCED)
  }

  /** The update is an upsert; the attributes it would leave unset on a step nobody claimed
      get neutral values here. `ProtocolInvariant.HandlerOk` shows the step was claimed. */
  function AdvancedItem(before: Option<StepItem>, requestId: RequestId, enrichment: Enrichment, at: When): StepItem {
    match before
    case None =>
      StepItem(requestId, ENRICH, Succeeded, 0, None, Some(EnrichmentResult(enrichment)), at.now, at.now, 0)
    case Some(prior) =>
      prior.(status := Succeeded, updatedAt := at.now, externalResult := Some(EnrichmentResult(enrichment)))
  }

  // -------------------------------------------------------------------------
  // completeIfProcessing and failIfProcessing
  // -------------------------------------------------------------------------

  datatype Verdict = Complete(result: OperationResult) | Fail(error: AppError)

  datatype TerminalResult = APPLIED(workflow: WorkflowItem) | ALREADY_TERMINAL(workflow: WorkflowItem) | MISSING

  function TerminalItem(w: WorkflowItem, verdict: Verdict, at: When): WorkflowItem {
    var stamped := w.(stateVersion := w.stateVersion + 1, updatedAt := at.now, index := None);
    match verdict
    case Complete(result) => stamped.(status := Completed, result := Some(result))
    case Fail(error) => stamped.(status := Failed, error := Some(error))
  }

  /** Written without a condition of its own. */
  function TerminalStep(before: Option<StepItem>, requestId: RequestId, step: StepId, verdict: Verdict, at: When): StepItem {
    var status := if verdict.Complete? then Succeeded else StepFailed;
    match before
    case None =>
      StepItem(requestId, step, status, 0, None, None, at.now, at.now, TtlSeconds(at.now, at.workflowTtlDays))
    case Some(prior) =>
      prior.(requestId := requestId, stepId := step, status := status, updatedAt := at.now)
  }

  function WriteTerminal(t: Table, requestId: RequestId, step: StepId, verdict: Verdict, at: When)
    : (Table, TerminalResult)
  {
    if requestId !in t.workflows then (t, MISSING)
    else if t.workflows[requestId].status != Processing then (t, ALREADY_TERMINAL(t.workflows[requestId]))
    else
      var w := TerminalItem(t.workflows[requestId], verdict, at);
      (t.(workflows := t.workflows[requestId := w],
          steps := t.steps[(requestId, step) := TerminalStep(StepAtKey(t, requestId, step), requestId, step, verdict, at)]),
       APPLIED(w))
  }

  // -------------------------------------------------------------------------
  // markOutboxPublished
  // -------------------------------------------------------------------------

  function MarkPublished(t: Table, event: EventRef, at: When): Table {
    if event !in t.outbox then t
    else t.(outbox := t.outbox[event := t.outbox[event].(publishedAt := Some(at.now), index := None)])
  }
}
