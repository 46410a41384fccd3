/** The table as an object whose methods change it in place, each proved to be the transition
    of `Table` it stands for, and the two sweeps proved to be plain filters.
    Models packages/persistence/src/workflow-repository.ts. */
module Repository {
  import opened Text
  import opened Contracts
  import opened DynamoErrors
  import opened Keys
  import opened Identity
  import opened Payload
  import opened Enriching
  import opened TableInvariant
  import opened SparseIndex
  import T = Table

  // -------------------------------------------------------------------------
  // What the sweeps are for
  // -------------------------------------------------------------------------

  /** `chronoBoundary` of a difference of two clock readings. */
  function Boundary(epochMillis: int): string {
    if epochMillis >= 0 then ChronoPrefix(epochMillis) else PadStart("-" + Decimal(-epochMillis), TIMESTAMP_WIDTH)
  }

  function RefOf(event: T.OutboxItem): T.EventRef {
    (event.requestId, event.eventId)
  }

  predicate Stale(t: T.Table, e: T.EventRef, before: int) {
    e in t.outbox && t.outbox[e].publishedAt.None? && t.outbox[e].createdAt < before
  }

  predicate Overdue(t: T.Table, r: RequestId, now: nat) {
    r in t.workflows && t.workflows[r].status == Processing && t.workflows[r].businessDeadlineAt < now
  }

  /** The plain filter of the outbox, cut off at `limit`. */
  ghost predicate StaleEvents(t: T.Table, before: int, limit: nat, events: seq<T.OutboxItem>) {
    && |events| <= limit
    && (forall i, j | 0 <= i < j < |events| :: RefOf(events[i]) != RefOf(events[j]))
    && (forall e | e in events :: Stale(t, RefOf(e), before) && t.outbox[RefOf(e)] == e)
    && (|events| < limit ==> forall e | Stale(t, e, before) :: RefOf(t.outbox[e]) == e && t.outbox[e] in events)
  }

  /** The plain filter of the workflows, cut off at `limit`. */
  ghost predicate OverdueRefs(t: T.Table, now: nat, limit: nat, refs: seq<StaleWorkflowRef>) {
    && |refs| <= limit
    && (forall i, j | 0 <= i < j < |refs| :: refs[i].requestId != refs[j].requestId)
    && (forall ref | ref in refs ::
          Overdue(t, ref.requestId, now) && ref.deadlineAt == t.workflows[ref.requestId].businessDeadlineAt)
    && (|refs| < limit ==> forall r | Overdue(t, r, now) ::
          StaleWorkflowRef(r, t.workflows[r].businessDeadlineAt) in refs)
  }

  ghost predicate TimesFit(t: T.Table) {
    (forall e | e in t.outbox :: FitsWidth(t.outbox[e].createdAt)) &&
    (forall r | r in t.workflows :: FitsWidth(t.workflows[r].businessDeadlineAt))
  }

  function PendingIndex(t: T.Table): map<T.EventRef, IndexKeys> {
    map e | e in t.outbox && t.outbox[e].index.Some? :: t.outbox[e].index.value
  }

  function ProcessingIndex(t: T.Table): map<RequestId, IndexKeys> {
    map r | r in t.workflows && t.workflows[r].index.Some? :: t.workflows[r].index.value
  }

  lemma DueIsStale(t: T.Table, e: T.EventRef, before: int)
    requires TableInv(t) && TimesFit(t) && FitsWidth(before)
    ensures Due(PendingOutbox, PendingIndex(t), e, Boundary(before), PENDING_SHARDS) <==> Stale(t, e, before)
  {
    hide FitsWidth, Shard, ChronoPrefix, LexLess, ShardKey, WorkflowOk, StepOk, MappingOk, EnrichmentFor;
    if e in PendingIndex(t) {
      assert OutboxOk(t, e);
      if before >= 0 {
        DueByTime(PendingOutbox, PendingIndex(t), e, e.0, t.outbox[e].createdAt, e.1, before) by { KeysOfShard(e.0); }
      } else {
        NothingBeforeTheEpoch(t.outbox[e].createdAt, e.1, -before);
      }
    } else if e in t.outbox {
      assert OutboxOk(t, e);
    }
  }

  lemma StillFits(now: nat, staleAfterMs: nat)
    requires FitsWidth(now)
    ensures FitsWidth(now as int - staleAfterMs as int)
  {}

  lemma KeysOfShard(text: string)
    ensures PendingShardKey(Shard(text)) == ShardKey(PendingOutbox, Shard(text))
    ensures ProcessingShardKey(Shard(text)) == ShardKey(ProcessingWorkflows, Shard(text))
  {}

  lemma DueIsOverdue(t: T.Table, r: RequestId, now: nat)
    requires TableInv(t) && TimesFit(t) && FitsWidth(now)
    ensures Due(ProcessingWorkflows, ProcessingIndex(t), r, Boundary(now), PENDING_SHARDS) <==> Overdue(t, r, now)
  {
    hide FitsWidth, Shard, ChronoPrefix, LexLess, ShardKey, OutboxOk, StepOk, MappingOk;
    if r in ProcessingIndex(t) {
      assert WorkflowOk(t, r);
      DueByTime(ProcessingWorkflows, ProcessingIndex(t), r, r, t.workflows[r].businessDeadlineAt, r, now) by { KeysOfShard(r); }
    } else if r in t.workflows {
      assert WorkflowOk(t, r);
    }
  }

  // -------------------------------------------------------------------------
  // What the three transactions write, item by item
  // -------------------------------------------------------------------------

  const SECONDS_PER_DAY: nat := 86_400

  /** A workflow, its mapping and its first event, and nothing else. */
  ghost predicate Creates(t: T.Table, t': T.Table, c: T.CreateInput, at: T.When) {
    var key, e := (c.tenantId, c.idempotencyKey), T.Event(c.requestId, ENRICH);
    && c.requestId !in t.workflows && key !in t.mappings && e !in t.outbox
    && c.requestId in t'.workflows && key in t'.mappings && e in t'.outbox
    && t'.workflows == t.workflows[c.requestId := t'.workflows[c.requestId]]
    && t'.mappings == t.mappings[key := t'.mappings[key]] && t'.outbox == t.outbox[e := t'.outbox[e]] && t'.steps == t.steps
    && var w, m, o := t'.workflows[c.requestId], t'.mappings[key], t'.outbox[e];
       && (w.requestId, w.tenantId, w.idempotencyKey) == (c.requestId, c.tenantId, c.idempotencyKey)
       && w.status == Processing && w.stateVersion == 0 && w.result.None? && w.error.None?
       && w.payloadHash == c.payloadHash && w.input == c.input
       && w.syncDeadlineAt == c.syncDeadlineAt && w.businessDeadlineAt == c.businessDeadlineAt
       && w.createdAt == w.updatedAt == at.now && w.expiresAt == at.now / 1000 + at.workflowTtlDays * SECONDS_PER_DAY
       && w.index == Some(ProcessingIndexKeys(c.requestId, c.businessDeadlineAt))
       && (m.tenantId, m.idempotencyKey, m.requestId) == (c.tenantId, c.idempotencyKey, c.requestId)
       && m.payloadHash == c.payloadHash && m.createdAt == w.createdAt && m.expiresAt == w.expiresAt
       && FreshEvent(o, EnrichMessage(c.requestId, c.tenantId, at.now), START_QUEUE, e, at)
  }

  /** An unpublished event as it is put into the outbox. */
  ghost predicate FreshEvent(o: T.OutboxItem, message: Message, destination: Destination, e: T.EventRef, at: T.When) {
    && o.message == message && o.destination == destination && (o.requestId, o.eventId) == e
    && o.publishedAt.None? && o.createdAt == at.now && o.expiresAt == at.now / 1000 + at.outboxTtlDays * SECONDS_PER_DAY
    && o.index == Some(PendingOutboxIndexKeys(e.0, e.1, at.now))
  }

  /** The step's success with its result, and the event that carries that result on. */
  ghost predicate Advances(t: T.Table, t': T.Table, r: RequestId, tenantId: TenantId, enrichment: Enrichment, at: T.When) {
    var k, e := (r, ENRICH), T.Event(r, FINALIZE);
    && e !in t.outbox && e in t'.outbox && k in t'.steps
    && t'.workflows == t.workflows && t'.mappings == t.mappings
    && t'.steps == t.steps[k := t'.steps[k]] && t'.outbox == t.outbox[e := t'.outbox[e]]
    && t'.steps[k].status == Succeeded && t'.steps[k].externalResult == Some(T.EnrichmentResult(enrichment))
    && t'.steps[k].updatedAt == at.now
    && (k in t.steps ==> t.steps[k].status != Succeeded && t'.steps[k].attempt == t.steps[k].attempt
                         && t'.steps[k].createdAt == t.steps[k].createdAt)
    && FreshEvent(t'.outbox[e], FinalizeMessage(r, tenantId, at.now, enrichment), STEP_QUEUE, e, at)
  }

  /** The workflow's outcome and its step's, and nothing else. */
  ghost predicate Concludes(t: T.Table, t': T.Table, r: RequestId, step: StepId, verdict: T.Verdict, at: T.When) {
    var k := (r, step);
    && r in t.workflows && r in t'.workflows && k in t'.steps
    && t'.workflows == t.workflows[r := t'.workflows[r]] && t'.steps == t.steps[k := t'.steps[k]]
    && t'.mappings == t.mappings && t'.outbox == t.outbox
    && var w, w', s' := t.workflows[r], t'.workflows[r], t'.steps[k];
       && (match verdict
           case Complete(result) =>
             w'.status == Completed && w'.result == Some(result) && w'.error == w.error && s'.status == Succeeded
           case Fail(error) =>
             w'.status == Failed && w'.error == Some(error) && w'.result == w.result && s'.status == StepFailed)
       && w'.stateVersion == w.stateVersion + 1 && w'.updatedAt == s'.updatedAt == at.now && w'.index.None?
       && SameRequest(w, w')
       && (k in t.steps ==> var s := t.steps[k];
             s'.attempt == s.attempt && s'.externalRef == s.externalRef && s'.externalResult == s.externalResult
             && s'.createdAt == s.createdAt && s'.expiresAt == s.expiresAt)
       && (k !in t.steps ==> s'.attempt == 0 && s'.createdAt == at.now && s'.externalRef.None?
                             && s'.expiresAt == at.now / 1000 + at.workflowTtlDays * SECONDS_PER_DAY)
  }

  lemma CreationIsWritten(t: T.Table, c: T.CreateInput, at: T.When)
    ensures T.CreateWorkflow(t, c, at).1.CREATED? ==> Creates(t, T.CreateWorkflow(t, c, at).0, c, at)
  {
    hide T.EventIdOf, ProcessingIndexKeys, PendingOutboxIndexKeys;
  }

  lemma AdvanceIsWritten(t: T.Table, r: RequestId, tenantId: TenantId, enrichment: Enrichment, at: T.When)
    ensures T.AdvanceStep(t, r, tenantId, enrichment, at).1.ADVANCED? ==>
              Advances(t, T.AdvanceStep(t, r, tenantId, enrichment, at).0, r, tenantId, enrichment, at)
  {
    hide T.EventIdOf, PendingOutboxIndexKeys;
  }

  lemma ConclusionIsWritten(t: T.Table, r: RequestId, step: StepId, verdict: T.Verdict, at: T.When)
    ensures T.WriteTerminal(t, r, step, verdict, at).1.APPLIED? ==>
              Concludes(t, T.WriteTerminal(t, r, step, verdict, at).0, r, step, verdict, at)
  {}

  // -------------------------------------------------------------------------
  // The repository
  // -------------------------------------------------------------------------

  class WorkflowRepository {
    var workflows: map<RequestId, T.WorkflowItem>
    var mappings: map<T.MappingRef, T.IdempotencyItem>
    var steps: map<T.StepRef, T.StepItem>
    var outbox: map<T.EventRef, T.OutboxItem>
    const workflowTtlDays: nat
    const outboxTtlDays: nat

    ghost function Contents(): T.Table
      reads this
    {
      T.Table(workflows, mappings, steps, outbox)
    }

    function At(now: nat): T.When {
      T.When(now, workflowTtlDays, outboxTtlDays)
    }

    constructor (workflowTtlDays: nat, outboxTtlDays: nat)
      ensures Contents() == T.EMPTY && TableInv(Contents())
      ensures this.workflowTtlDays == workflowTtlDays && this.outboxTtlDays == outboxTtlDays
    {
      workflows, mappings, steps, outbox := map[], map[], map[], map[];
      this.workflowTtlDays, this.outboxTtlDays := workflowTtlDays, outboxTtlDays;
    }

    // Reads

    method GetWorkflow(requestId: RequestId) returns (workflow: Option<T.WorkflowItem>)
      ensures workflow == if requestId in workflows then Some(workflows[requestId]) else None
    {
      workflow := if requestId in workflows then Some(workflows[requestId]) else None;
    }

    /** Another tenant's workflow answers as a missing one. */
    method GetWorkflowForTenant(requestId: RequestId, tenantId: TenantId) returns (workflow: Option<T.WorkflowItem>)
      ensures workflow.Some? <==> requestId in workflows && workflows[requestId].tenantId == tenantId
      ensures workflow.Some? ==> workflow.value == workflows[requestId]
    {
      workflow := GetWorkflow(requestId);
      if workflow.Some? && workflow.value.tenantId != tenantId {
        workflow := None;
      }
    }

    // Creation

    /** Three puts, each on condition that its key is free; the first one's failure means the
        operation already exists. */
    method CreateWorkflow(c: T.CreateInput, now: nat) returns (result: T.CreateResult)
      modifies this
      ensures (Contents(), result) == T.CreateWorkflow(old(Contents()), c, At(now))
      ensures !result.CREATED? ==> Contents() == old(Contents())
      ensures result.CREATED? <==>
                (c.tenantId, c.idempotencyKey) !in old(mappings) && c.requestId !in old(workflows)
                && T.Event(c.requestId, ENRICH) !in old(outbox)
      ensures (c.tenantId, c.idempotencyKey) !in old(mappings) && !result.CREATED? ==> result == T.CreateThrows(NON_RETRYABLE)
      ensures result.CREATED? ==> Creates(old(Contents()), Contents(), c, At(now))
      ensures result.CREATED? ==> c.requestId in workflows && result.workflow == workflows[c.requestId]
      ensures old(TableInv(Contents())) && c.payloadHash == PayloadHash(c.input) && ValidInput(c.input) ==> TableInv(Contents())
    {
      hide TableInv, PayloadHash, T.EventIdOf, T.PendingEvent, T.NewWorkflow, T.NewMapping, Creates, Transact, ConditionFailedAt,
        ClassifyDynamoError;
      ghost var before := Contents();
      var key := (c.tenantId, c.idempotencyKey);
      var event := T.Event(c.requestId, ENRICH);
      var conditions := [key !in mappings, c.requestId !in workflows, event !in outbox];
      var error := Transact(conditions);
      assert conditions[0] == (key !in mappings) && conditions[1] == (c.requestId !in workflows);
      assert conditions[2] == (event !in outbox);
      if error.None? {
        var workflow := T.NewWorkflow(c, At(now));
        workflows := workflows[c.requestId := workflow];
        mappings := mappings[key := T.NewMapping(c, At(now))];
        outbox := outbox[event := T.PendingEvent(EnrichMessage(c.requestId, c.tenantId, now), START_QUEUE, At(now))];
        result := T.CREATED(workflow);
      } else if !ConditionFailedAt(error.value, 0) {
        FailedConditionsArePermanent(conditions);
        result := T.CreateThrows(ClassifyDynamoError(error.value).failureClass);
      } else {
        result := ResolveExistingWorkflow(c);
      }
      CreationIsWritten(before, c, At(now));
      if c.payloadHash == PayloadHash(c.input) && ValidInput(c.input) && TableInv(before) {
        CreateKeeps(before, c, At(now));
      }
    }

    /** What a used key answers. A mapping that is gone by the time it is read, or that points at
        a missing workflow, is a retryable error. */
    method ResolveExistingWorkflow(c: T.CreateInput) returns (result: T.CreateResult)
      ensures (c.tenantId, c.idempotencyKey) in mappings ==>
                result == T.ResolveExisting(Contents(), mappings[(c.tenantId, c.idempotencyKey)], c)
      ensures (c.tenantId, c.idempotencyKey) !in mappings ==> result == T.CreateThrows(RETRYABLE)
      ensures (c.tenantId, c.idempotencyKey) in mappings ==>
                var m := mappings[(c.tenantId, c.idempotencyKey)];
                if m.payloadHash != c.payloadHash then result == T.CONFLICT(m.requestId, m.payloadHash)
                else if m.requestId in workflows then result == T.EXISTING(workflows[m.requestId])
                else result == T.CreateThrows(RETRYABLE)
    {
      var key := (c.tenantId, c.idempotencyKey);
      var existing := if key in mappings then Some(mappings[key]) else None;
      if existing.None? {
        return T.CreateThrows(RETRYABLE);
      }
      var mapping := existing.value;
      if mapping.payloadHash != c.payloadHash {
        return T.CONFLICT(mapping.requestId, mapping.payloadHash);
      }
      var workflow := GetWorkflow(mapping.requestId);
      result := if workflow.None? then T.CreateThrows(RETRYABLE) else T.EXISTING(workflow.value);
    }

    // Steps

    /** Claims the step unless it has succeeded. The answer is true of the table: the record is
        the item now stored, `previous` the status it replaced, the attempt one more than
        before, and the reference the first one ever claimed with. Nothing else changes. */
    method BeginStep(requestId: RequestId, stepId: StepId, externalRef: Option<ExternalRef>, now: nat)
      returns (result: T.BeginStepResult)
      modifies this`steps
      ensures (Contents(), result) == T.BeginStep(old(Contents()), requestId, stepId, externalRef, At(now))
      ensures var key := (requestId, stepId);
              && (result.ALREADY_SUCCEEDED? <==> key in old(steps) && old(steps)[key].status == Succeeded)
              && (result.ALREADY_SUCCEEDED? ==> steps == old(steps))
              && (result.STARTED? <==> key !in old(steps))
              && (result.RESUMED? ==> result.previous == old(steps)[key].status)
      ensures old(TableInv(Contents())) ==> (requestId, stepId) in steps && result.step == steps[(requestId, stepId)]
      ensures result.STARTED? ==>
                result.step == T.StepItem(requestId, stepId, InProgress, 1, externalRef, None, now, now,
                                          now / 1000 + workflowTtlDays * SECONDS_PER_DAY)
      ensures result.RESUMED? ==>
                result.step.updatedAt == now
                && (old(steps)[(requestId, stepId)].externalRef.None? ==> result.step.externalRef == externalRef)
      ensures !result.ALREADY_SUCCEEDED? ==>
                result.step.status == InProgress
                && result.step.attempt == (if (requestId, stepId) in old(steps) then old(steps)[(requestId, stepId)].attempt + 1 else 1)
      ensures (requestId, stepId) in old(steps) ==>
                var before, after := old(steps)[(requestId, stepId)], result.step;
                && after.createdAt == before.createdAt && after.externalResult == before.externalResult
                && after.expiresAt == before.expiresAt
                && (before.externalRef.Some? ==> after.externalRef == before.externalRef)
      ensures forall k | k != (requestId, stepId) :: (k in steps <==> k in old(steps)) && (k in steps ==> steps[k] == old(steps)[k])
      ensures old(TableInv(Contents())) && requestId in workflows && T.Event(requestId, stepId) in outbox
              && externalRef == (if stepId == FINALIZE then Some(T.FinalizeRef(requestId)) else None)
              ==> TableInv(Contents())
    {
      hide TableInv, T.FinalizeRef, T.EventIdOf;
      ghost var t := Contents();
      var key := (requestId, stepId);
      var attributes := if key in steps then Some(steps[key]) else None;
      ClaimIsTrue(t, requestId, stepId, externalRef, At(now));
      if requestId in workflows && T.Event(requestId, stepId) in outbox && TableInv(t)
         && externalRef == (if stepId == FINALIZE then Some(T.FinalizeRef(requestId)) else None) {
        BeginKeeps(t, requestId, stepId, externalRef, At(now));
      }
      if attributes.Some? && attributes.value.status == Succeeded {
        return T.ALREADY_SUCCEEDED(attributes.value);
      }
      steps := steps[key := T.ClaimedItem(attributes, requestId, stepId, externalRef, At(now))];
      var rebuilt := T.RebuiltStep(attributes, requestId, stepId, externalRef, At(now));
      result := if attributes.None? then T.STARTED(rebuilt) else T.RESUMED(rebuilt, attributes.value.status);
    }

    /** Marks a step that is there and has not succeeded, and no other: whoever claims it next is
        told that its external outcome is unknown. */
    method MarkStepUnknownExternalState(requestId: RequestId, stepId: StepId, now: nat)
      modifies this`steps
      ensures Contents() == T.MarkUnknown(old(Contents()), requestId, stepId, At(now))
      ensures steps.Keys == old(steps).Keys && forall k | k in steps && k != (requestId, stepId) :: steps[k] == old(steps)[k]
      ensures (requestId, stepId) in steps ==>
                var before, after := old(steps)[(requestId, stepId)], steps[(requestId, stepId)];
                && (after != before ==> before.status != Succeeded)
                && (before.status != Succeeded ==> after.status == UnknownExternalState)
                && (before.status != Succeeded ==> after.updatedAt == now)
                && after.attempt == before.attempt && after.externalRef == before.externalRef
                && after.externalResult == before.externalResult && after.createdAt == before.createdAt
      ensures (requestId, stepId) in steps && steps[(requestId, stepId)].status != Succeeded ==>
                forall ref, later :: T.BeginStep(Contents(), requestId, stepId, ref, later).1.RESUMED?
                                     && T.BeginStep(Contents(), requestId, stepId, ref, later).1.previous == UnknownExternalState
      ensures old(TableInv(Contents())) ==> TableInv(Contents())
    {
      hide TableInv;
      ghost var t := Contents();
      var key := (requestId, stepId);
      if key in steps && steps[key].status != Succeeded {
        steps := steps[key := steps[key].(status := UnknownExternalState, updatedAt := now)];
      }
      if TableInv(t) { MarkUnknownKeeps(t, requestId, stepId, At(now)); }
    }

    /** A condition check, an update and a put; which of them failed decides the outcome. */
    method AdvanceStepWithOutbox(requestId: RequestId, tenantId: TenantId, enrichment: Enrichment, now: nat)
      returns (result: T.AdvanceResult)
      modifies this`steps, this`outbox
      ensures (Contents(), result) == T.AdvanceStep(old(Contents()), requestId, tenantId, enrichment, At(now))
      ensures !result.ADVANCED? ==> Contents() == old(Contents())
      ensures result.ADVANCED? ==> Advances(old(Contents()), Contents(), requestId, tenantId, enrichment, At(now))
    {
      hide T.EventIdOf, T.PendingEvent, Transact, ConditionFailedAt, Advances;
      AdvanceIsWritten(Contents(), requestId, tenantId, enrichment, At(now));
      var step := (requestId, ENRICH);
      var event := T.Event(requestId, FINALIZE);
      var conditions := [
        requestId in workflows && workflows[requestId].status == Processing,
        !(step in steps && steps[step].status == Succeeded),
        event !in outbox];
      var error := Transact(conditions);
      if error.None? {
        assert conditions[0] && conditions[1] && conditions[2];
        var before := if step in steps then Some(steps[step]) else None;
        steps := steps[step := T.AdvancedItem(before, requestId, enrichment, At(now))];
        outbox := outbox[event := T.PendingEvent(FinalizeMessage(requestId, tenantId, now, enrichment), STEP_QUEUE, At(now))];
        return T.ADVANCED;
      }
      if ConditionFailedAt(error.value, 0) {
        var workflow := GetWorkflow(requestId);
        return if workflow.None? then T.AdvanceResult.WORKFLOW_MISSING else T.WORKFLOW_TERMINAL;
      }
      assert ConditionFailedAt(error.value, 1) || ConditionFailedAt(error.value, 2);
      result := T.ALREADY_ADVANCED;
    }

    // Terminal transitions

    method CompleteIfProcessing(requestId: RequestId, stepId: StepId, outcome: OperationResult, now: nat)
      returns (result: T.TerminalResult)
      modifies this`workflows, this`steps
      ensures (Contents(), result) == T.WriteTerminal(old(Contents()), requestId, stepId, T.Complete(outcome), At(now))
    {
      result := WriteTerminal(requestId, stepId, T.Complete(outcome), now);
    }

    method FailIfProcessing(requestId: RequestId, stepId: StepId, error: AppError, now: nat)
      returns (result: T.TerminalResult)
      modifies this`workflows, this`steps
      ensures (Contents(), result) == T.WriteTerminal(old(Contents()), requestId, stepId, T.Fail(error), At(now))
    {
      result := WriteTerminal(requestId, stepId, T.Fail(error), now);
    }

    /** The one write that makes a workflow terminal. What it overwrites is only ever a
        workflow still in PROCESSING, whatever its step says. */
    method WriteTerminal(requestId: RequestId, stepId: StepId, verdict: T.Verdict, now: nat)
      returns (result: T.TerminalResult)
      modifies this`workflows, this`steps
      ensures (Contents(), result) == T.WriteTerminal(old(Contents()), requestId, stepId, verdict, At(now))
      ensures result.APPLIED? <==> requestId in old(workflows) && old(workflows)[requestId].status == Processing
      ensures result.MISSING? <==> requestId !in old(workflows)
      ensures !result.APPLIED? ==> Contents() == old(Contents())
      ensures result.ALREADY_TERMINAL? ==> result.workflow == workflows[requestId]
      ensures result.APPLIED? ==> result.workflow == workflows[requestId]
                                  && Concludes(old(Contents()), Contents(), requestId, stepId, verdict, At(now))
      ensures forall r | r in old(workflows) && IsTerminal(old(workflows)[r].status) ::
                r in workflows && workflows[r] == old(workflows)[r]
    {
      hide Concludes;
      ConclusionIsWritten(Contents(), requestId, stepId, verdict, At(now));
      var conditions := [requestId in workflows && workflows[requestId].status == Processing, true];
      var error := Transact(conditions);
      assert conditions[0] == (requestId in workflows && workflows[requestId].status == Processing) && conditions[1];
      if error.Some? {
        assert ConditionFailedAt(error.value, 0);
        var current := GetWorkflow(requestId);
        return if current.None? then T.MISSING else T.ALREADY_TERMINAL(current.value);
      }
      var key := (requestId, stepId);
      var before := if key in steps then Some(steps[key]) else None;
      workflows := workflows[requestId := T.TerminalItem(workflows[requestId], verdict, At(now))];
      steps := steps[key := T.TerminalStep(before, requestId, stepId, verdict, At(now))];
      result := T.APPLIED(workflows[requestId]);
    }

    // Outbox

    /** Takes an event that is there off the pending index for good: no sweep lists it again,
        and what it says is untouched. */
    method MarkOutboxPublished(requestId: RequestId, eventId: EventId, now: nat)
      modifies this`outbox
      ensures Contents() == T.MarkPublished(old(Contents()), (requestId, eventId), At(now))
      ensures outbox.Keys == old(outbox).Keys && forall e | e in outbox && e != (requestId, eventId) :: outbox[e] == old(outbox)[e]
      ensures (requestId, eventId) in outbox ==>
                EventGrows(old(outbox)[(requestId, eventId)], outbox[(requestId, eventId)])
                && outbox[(requestId, eventId)].publishedAt == Some(now) && (requestId, eventId) !in PendingIndex(Contents())
      ensures forall before :: !Stale(Contents(), (requestId, eventId), before)
      ensures old(TableInv(Contents())) ==> TableInv(Contents())
    {
      hide TableInv;
      ghost var t := Contents();
      var key := (requestId, eventId);
      if key in outbox {
        outbox := outbox[key := outbox[key].(publishedAt := Some(now), index := None)];
      }
      if TableInv(t) { PublishKeeps(t, key, At(now)); }
    }

    /** The items behind a page of the projected index. */
    method DecodeEvents(page: seq<T.EventRef>) returns (events: seq<T.OutboxItem>)
      requires forall e | e in page :: e in outbox
      ensures Events(Contents(), page, events)
    {
      events := [];
      for i := 0 to |page|
        invariant |events| == i && forall j | 0 <= j < i :: events[j] == outbox[page[j]]
      {
        events := events + [outbox[page[i]]];
      }
    }

    method ListPendingOutbox(now: nat, staleAfterMs: nat, limit: nat) returns (events: seq<T.OutboxItem>)
      requires TableInv(Contents())
      ensures |events| <= limit
      ensures TimesFit(Contents()) && FitsWidth(now) ==>
                StaleEvents(Contents(), now - staleAfterMs, limit, events)
    {
      hide TableInv, Swept, TimesFit, FitsWidth, StaleEvents, Boundary, ShardKey, Page, Events;
      var index := map e | e in outbox && outbox[e].index.Some? :: outbox[e].index.value;
      var boundary := Boundary(now as int - staleAfterMs as int);
      events := [];
      ghost var found: seq<T.EventRef> := [];
      NothingFound(PendingOutbox, index, boundary, limit);
      NoEvents(Contents());
      var shard := 0;
      while shard < PENDING_SHARDS
        invariant shard <= PENDING_SHARDS && |events| == |found|
        invariant Swept(PendingOutbox, index, boundary, limit, shard, found)
        invariant Events(Contents(), found, events)
      {
        if |events| >= limit {
          FullSweep(PendingOutbox, index, boundary, limit, shard, PENDING_SHARDS, found);
          break;
        }
        var page := Query(index, ShardKey(PendingOutbox, shard), boundary, limit - |events|);
        NextShard(PendingOutbox, index, boundary, limit, shard, found, page);
        PageInIndex(index, ShardKey(PendingOutbox, shard), boundary, limit - |events|, page);
        var items := DecodeEvents(page);
        EventsAppend(Contents(), found, events, page, items);
        events, found, shard := events + items, found + page, shard + 1;
      }
      SweptBound(PendingOutbox, index, boundary, limit, found);
      if TimesFit(Contents()) && FitsWidth(now) {
        StillFits(now, staleAfterMs);
        assert index == PendingIndex(Contents());
        SweptIsStale(Contents(), now - staleAfterMs, limit, found, events);
      }
    }

    /** The references rebuilt from a page of the keys-only index. */
    method DecodeRefs(index: map<RequestId, IndexKeys>, page: seq<RequestId>) returns (refs: seq<StaleWorkflowRef>)
      requires TableInv(Contents()) && index == ProcessingIndex(Contents())
      requires forall r | r in page :: r in index
      ensures Refs(Contents(), page, refs)
    {
      hide TableInv, ToStaleRef, WorkflowKey;
      refs := [];
      for i := 0 to |page|
        invariant |refs| == i && Refs(Contents(), page[..i], refs)
      {
        EntryIsRef(Contents(), page[i]);
        var ref := ToStaleRef(WorkflowKey(page[i]).pk, index[page[i]].sk);
        if ref.Some? { refs := refs + [ref.value]; }
      }
      assert page[..|page|] == page;
    }

    method ListStaleProcessing(now: nat, limit: nat) returns (refs: seq<StaleWorkflowRef>)
      requires TableInv(Contents())
      ensures |refs| <= limit
      ensures TimesFit(Contents()) && FitsWidth(now) ==> OverdueRefs(Contents(), now, limit, refs)
    {
      hide TableInv, Swept, TimesFit, FitsWidth, OverdueRefs, Boundary, ShardKey, Page, Refs;
      var index := map r | r in workflows && workflows[r].index.Some? :: workflows[r].index.value;
      var boundary := Boundary(now);
      refs := [];
      ghost var found: seq<RequestId> := [];
      NothingFound(ProcessingWorkflows, index, boundary, limit);
      NoRefs(Contents());
      assert index == ProcessingIndex(Contents());
      var shard := 0;
      while shard < PENDING_SHARDS
        invariant shard <= PENDING_SHARDS && |refs| == |found|
        invariant Swept(ProcessingWorkflows, index, boundary, limit, shard, found)
        invariant Refs(Contents(), found, refs)
      {
        if |refs| >= limit {
          FullSweep(ProcessingWorkflows, index, boundary, limit, shard, PENDING_SHARDS, found);
          break;
        }
        var page := Query(index, ShardKey(ProcessingWorkflows, shard), boundary, limit - |refs|);
        NextShard(ProcessingWorkflows, index, boundary, limit, shard, found, page);
        PageInIndex(index, ShardKey(ProcessingWorkflows, shard), boundary, limit - |refs|, page);
        var items := DecodeRefs(index, page);
        RefsAppend(Contents(), found, refs, page, items);
        refs, found, shard := refs + items, found + page, shard + 1;
      }
      SweptBound(ProcessingWorkflows, index, boundary, limit, found);
      if TimesFit(Contents()) && FitsWidth(now) {
        SweptIsOverdue(Contents(), now, limit, found, refs);
      }
    }
  }

  // -------------------------------------------------------------------------
  // From index entries to items
  // -------------------------------------------------------------------------

  ghost predicate Events(t: T.Table, found: seq<T.EventRef>, events: seq<T.OutboxItem>) {
    |events| == |found| && forall i | 0 <= i < |found| :: found[i] in t.outbox && events[i] == t.outbox[found[i]]
  }

  ghost predicate Refs(t: T.Table, found: seq<RequestId>, refs: seq<StaleWorkflowRef>) {
    |refs| == |found| &&
    forall i | 0 <= i < |found| ::
      found[i] in t.workflows && refs[i] == StaleWorkflowRef(found[i], t.workflows[found[i]].businessDeadlineAt)
  }

  /** The claim's own record is the stored one if the stored items are named as they should be. */
  lemma ClaimIsTrue(t: T.Table, r: RequestId, step: StepId, ref: Option<ExternalRef>, at: T.When)
    ensures TableInv(t) ==>
              var (t', result) := T.BeginStep(t, r, step, ref, at);
              (r, step) in t'.steps && result.step == t'.steps[(r, step)]
  {
    hide WorkflowOk, OutboxOk, MappingOk, T.EventIdOf, T.FinalizeRef;
    if TableInv(t) && (r, step) in t.steps { assert StepOk(t, (r, step)); }
  }

  lemma NothingFound<K(!new)>(which: Index, index: map<K, IndexKeys>, boundary: string, limit: nat)
    ensures Swept(which, index, boundary, limit, 0, [])
  {}

  lemma SweptBound<K(!new)>(which: Index, index: map<K, IndexKeys>, boundary: string, limit: nat, found: seq<K>)
    requires Swept(which, index, boundary, limit, PENDING_SHARDS, found)
    ensures |found| <= limit
  {}

  lemma PageInIndex<K(!new)>(index: map<K, IndexKeys>, shard: string, boundary: string, limit: nat, page: seq<K>)
    requires Page(index, shard, boundary, limit, page)
    ensures forall k | k in page :: k in index
  {}

  lemma NoEvents(t: T.Table)
    ensures Events(t, [], [])
  {}

  lemma NoRefs(t: T.Table)
    ensures Refs(t, [], [])
  {}

  lemma EventsAppend(t: T.Table, found: seq<T.EventRef>, events: seq<T.OutboxItem>, page: seq<T.EventRef>, items: seq<T.OutboxItem>)
    requires Events(t, found, events) && Events(t, page, items)
    ensures Events(t, found + page, events + items) && |events + items| == |found + page|
  {}

  lemma RefsAppend(t: T.Table, found: seq<RequestId>, refs: seq<StaleWorkflowRef>, page: seq<RequestId>, items: seq<StaleWorkflowRef>)
    requires Refs(t, found, refs) && Refs(t, page, items)
    ensures Refs(t, found + page, refs + items) && |refs + items| == |found + page|
  {}

  /** Every entry of the keys-only index is reconstructed, so none is dropped. */
  lemma EntryIsRef(t: T.Table, r: RequestId)
    requires TableInv(t) && r in ProcessingIndex(t)
    ensures ToStaleRef(WorkflowKey(r).pk, ProcessingIndex(t)[r].sk)
         == Some(StaleWorkflowRef(r, t.workflows[r].businessDeadlineAt))
  {
    hide OutboxOk, StepOk, MappingOk, ToStaleRef, ProcessingIndexKeys, WorkflowKey;
    assert WorkflowOk(t, r);
    StaleRefRecovers(r, t.workflows[r].businessDeadlineAt);
  }

  lemma SweptIsStale(t: T.Table, before: int, limit: nat, found: seq<T.EventRef>, events: seq<T.OutboxItem>)
    requires TableInv(t) && TimesFit(t) && FitsWidth(before) && Events(t, found, events)
    requires Swept(PendingOutbox, PendingIndex(t), Boundary(before), limit, PENDING_SHARDS, found)
    ensures StaleEvents(t, before, limit, events)
  {
    hide FitsWidth, PendingIndex, Boundary, Due, WorkflowOk, StepOk, MappingOk, EnrichmentFor;
    forall e ensures Due(PendingOutbox, PendingIndex(t), e, Boundary(before), PENDING_SHARDS) <==> Stale(t, e, before) {
      DueIsStale(t, e, before);
    }
    forall i | 0 <= i < |found| ensures RefOf(events[i]) == found[i] && Stale(t, found[i], before) {
      assert OutboxOk(t, found[i]);
      assert found[i] in found;
    }
    if |events| < limit {
      forall e | Stale(t, e, before) ensures RefOf(t.outbox[e]) == e && t.outbox[e] in events {
        assert e in found;
      }
    }
  }

  lemma SweptIsOverdue(t: T.Table, now: nat, limit: nat, found: seq<RequestId>, refs: seq<StaleWorkflowRef>)
    requires TableInv(t) && TimesFit(t) && FitsWidth(now) && Refs(t, found, refs)
    requires Swept(ProcessingWorkflows, ProcessingIndex(t), Boundary(now), limit, PENDING_SHARDS, found)
    ensures OverdueRefs(t, now, limit, refs)
  {
    hide FitsWidth, ProcessingIndex, Boundary, Due, WorkflowOk, StepOk, MappingOk, OutboxOk;
    forall r ensures Due(ProcessingWorkflows, ProcessingIndex(t), r, Boundary(now), PENDING_SHARDS) <==> Overdue(t, r, now) {
      DueIsOverdue(t, r, now);
    }
    forall i | 0 <= i < |found| ensures Overdue(t, found[i], now) {
      assert found[i] in found;
    }
    if |refs| < limit {
      forall r | Overdue(t, r, now) ensures StaleWorkflowRef(r, t.workflows[r].businessDeadlineAt) in refs {
        assert r in found;
      }
    }
  }
}
