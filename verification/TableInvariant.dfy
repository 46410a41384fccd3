/** What every transition keeps true of the table, and what no transition undoes. */
module TableInvariant {
  import opened Text
  import opened Contracts
  import opened Keys
  import opened Identity
  import opened Payload
  import opened Enriching
  import opened Table

  // -------------------------------------------------------------------------
  // The invariant, item by item
  // -------------------------------------------------------------------------

  predicate StepSucceeded(t: Table, r: RequestId, step: StepId) {
    (r, step) in t.steps && t.steps[(r, step)].status == Succeeded
  }

  ghost predicate WorkflowOk(t: Table, r: RequestId) {
    r in t.workflows &&
    var w := t.workflows[r];
    var key := (w.tenantId, w.idempotencyKey);
    && w.requestId == r
    && key in t.mappings && t.mappings[key].requestId == r && t.mappings[key].payloadHash == w.payloadHash
    && t.mappings[key].expiresAt == w.expiresAt
    && w.payloadHash == PayloadHash(w.input) && ValidInput(w.input)
    && Event(r, ENRICH) in t.outbox
    && w.index == (if w.status == Processing then Some(ProcessingIndexKeys(r, w.businessDeadlineAt)) else None)
    && w.stateVersion == (if w.status == Processing then 0 else 1)
    && (w.status == Completed <==> w.result.Some?)
    && (w.status == Failed <==> w.error.Some?)
    && (w.status == Completed <==> StepSucceeded(t, r, FINALIZE))
  }

  ghost predicate MappingOk(t: Table, key: MappingRef) {
    key in t.mappings &&
    var m := t.mappings[key];
    && (m.tenantId, m.idempotencyKey) == key
    && m.requestId in t.workflows
    && (t.workflows[m.requestId].tenantId, t.workflows[m.requestId].idempotencyKey) == key
  }

  ghost predicate StepOk(t: Table, k: StepRef) {
    k in t.steps &&
    var s := t.steps[k];
    && (s.requestId, s.stepId) == k
    && k.0 in t.workflows
    && (k.1 == ENRICH ==> s.externalRef.None? && (s.status == Succeeded ==> Event(k.0, FINALIZE) in t.outbox))
    && (k.1 == FINALIZE ==> s.externalRef == Some(FinalizeRef(k.0)) && s.externalResult.None?
                            && Event(k.0, FINALIZE) in t.outbox)
  }

  ghost predicate OutboxOk(t: Table, e: EventRef) {
    e in t.outbox &&
    var o := t.outbox[e];
    var r := o.message.requestId;
    && e == Event(r, StepOf(o.message)) && o.requestId == r && o.eventId == e.1
    && r in t.workflows
    && o.message.tenantId == t.workflows[r].tenantId
    && o.destination == QueueOf(StepOf(o.message))
    && o.index == (if o.publishedAt.None? then Some(PendingOutboxIndexKeys(r, e.1, o.createdAt)) else None)
    && (o.message.FinalizeMessage? ==>
          EnrichmentFor(o.message.enrichment, t.workflows[r].input) && Supported(t.workflows[r].input)
          && (r, ENRICH) in t.steps)
  }

  ghost predicate TableInv(t: Table) {
    && (forall r | r in t.workflows :: WorkflowOk(t, r))
    && (forall k | k in t.mappings :: MappingOk(t, k))
    && (forall k | k in t.steps :: StepOk(t, k))
    && (forall e | e in t.outbox :: OutboxOk(t, e))
  }

  /** The stored outcome is the one-shot function of the stored input. */
  predicate OutcomeOk(w: WorkflowItem) {
    match w.status
    case Processing => true
    case Completed =>
      w.result.Some? && w.result.value.outcome == Settled &&
      OneShot(w.input) == Settles(w.result.value.amount, w.result.value.riskBand)
    case Failed => w.error.Some? && OneShot(w.input) == Fails(w.error.value)
  }

  ghost predicate OutcomesOk(t: Table) {
    forall r | r in t.workflows :: OutcomeOk(t.workflows[r])
  }

  /** The FINALIZE event exists exactly when the ENRICH step has succeeded. */
  ghost predicate EnrichSettled(t: Table) {
    forall r | Event(r, FINALIZE) in t.outbox :: StepSucceeded(t, r, ENRICH)
  }

  // -------------------------------------------------------------------------
  // What only ever grows
  // -------------------------------------------------------------------------

  ghost predicate SameRequest(w: WorkflowItem, v: WorkflowItem) {
    w.requestId == v.requestId && w.tenantId == v.tenantId && w.idempotencyKey == v.idempotencyKey &&
    w.payloadHash == v.payloadHash && w.input == v.input && w.createdAt == v.createdAt &&
    w.syncDeadlineAt == v.syncDeadlineAt && w.businessDeadlineAt == v.businessDeadlineAt && w.expiresAt == v.expiresAt
  }

  ghost predicate WorkflowGrows(w: WorkflowItem, v: WorkflowItem) {
    SameRequest(w, v) && (IsTerminal(w.status) ==> v == w)
  }

  ghost predicate StepGrows(s: StepItem, s': StepItem) {
    s'.attempt >= s.attempt && s'.createdAt == s.createdAt &&
    (s.externalRef.Some? ==> s'.externalRef == s.externalRef)
  }

  ghost predicate EventGrows(o: OutboxItem, o': OutboxItem) {
    o'.message == o.message && o'.destination == o.destination && o'.createdAt == o.createdAt &&
    (o.publishedAt.Some? ==> o'.publishedAt.Some?)
  }

  /** No step loses a workflow, a mapping, an event or a reference, and none rewrites an
      outcome. */
  ghost predicate Grows(t: Table, t': Table) {
    && (forall r | r in t.workflows :: r in t'.workflows && WorkflowGrows(t.workflows[r], t'.workflows[r]))
    && (forall k | k in t.mappings :: k in t'.mappings && t'.mappings[k] == t.mappings[k])
    && (forall k | k in t.steps :: k in t'.steps && StepGrows(t.steps[k], t'.steps[k]))
    && (forall e | e in t.outbox :: e in t'.outbox && EventGrows(t.outbox[e], t'.outbox[e]))
  }

  lemma GrowsReflexive(t: Table)
    ensures Grows(t, t)
  {}

  lemma GrowsTransitive(a: Table, b: Table, c: Table)
    requires Grows(a, b) && Grows(b, c)
    ensures Grows(a, c)
  {}

  // -------------------------------------------------------------------------
  // Items a write leaves alone
  // -------------------------------------------------------------------------

  lemma WorkflowFrame(t: Table, t': Table, r: RequestId)
    requires WorkflowOk(t, r) && Grows(t, t')
    requires r in t'.workflows && t'.workflows[r] == t.workflows[r]
    requires StepSucceeded(t', r, FINALIZE) == StepSucceeded(t, r, FINALIZE)
    ensures WorkflowOk(t', r)
  {
    hide ValidInput, EventIdOf, PayloadHash, ProcessingIndexKeys;
  }

  lemma MappingFrame(t: Table, t': Table, k: MappingRef)
    requires MappingOk(t, k) && Grows(t, t')
    ensures MappingOk(t', k)
  {}

  lemma StepFrame(t: Table, t': Table, k: StepRef)
    requires StepOk(t, k) && Grows(t, t')
    requires k in t'.steps && t'.steps[k] == t.steps[k]
    ensures StepOk(t', k)
  {
    hide EventIdOf, FinalizeRef;
  }

  lemma OutboxFrame(t: Table, t': Table, e: EventRef)
    requires OutboxOk(t, e) && Grows(t, t')
    requires e in t'.outbox && t'.outbox[e] == t.outbox[e]
    ensures OutboxOk(t', e)
  {
    hide EventIdOf, PendingOutboxIndexKeys, EnrichmentFor;
  }

  /** Which items a write changed. */
  ghost predicate Untouched(t: Table, t': Table, workflows: set<RequestId>, steps: set<StepRef>, outbox: set<EventRef>) {
    && (forall r | r in t'.workflows && r !in workflows :: r in t.workflows && t'.workflows[r] == t.workflows[r])
    && (forall k | k in t'.steps && k !in steps :: k in t.steps && t'.steps[k] == t.steps[k])
    && (forall e | e in t'.outbox && e !in outbox :: e in t.outbox && t'.outbox[e] == t.outbox[e])
  }

  /** The invariant after a write follows from the items the write touched. */
  lemma InvAfterWrite(t: Table, t': Table, workflows: set<RequestId>, steps: set<StepRef>, outbox: set<EventRef>)
    requires TableInv(t) && Grows(t, t') && Untouched(t, t', workflows, steps, outbox)
    requires forall r | r in workflows :: WorkflowOk(t', r)
    requires forall r | r in t'.workflows && r !in workflows :: StepSucceeded(t', r, FINALIZE) == StepSucceeded(t, r, FINALIZE)
    requires forall k | k in steps :: StepOk(t', k)
    requires forall e | e in outbox :: OutboxOk(t', e)
    requires forall k | k in t'.mappings && k !in t.mappings :: MappingOk(t', k)
    ensures TableInv(t')
  {
    hide WorkflowOk, StepOk, OutboxOk, MappingOk, EventIdOf;
    forall r | r in t'.workflows ensures WorkflowOk(t', r) {
      if r !in workflows { WorkflowFrame(t, t', r); }
    }
    forall k | k in t'.steps ensures StepOk(t', k) {
      if k !in steps { StepFrame(t, t', k); }
    }
    forall e | e in t'.outbox ensures OutboxOk(t', e) {
      if e !in outbox { OutboxFrame(t, t', e); }
    }
    forall k | k in t'.mappings ensures MappingOk(t', k) {
      if k in t.mappings { MappingFrame(t, t', k); }
    }
  }

  /** The identities a workflow uses all its life, as texts under the hash. */
  lemma IdentityTexts(r: RequestId)
    ensures Event(r, ENRICH) == (r, Sha256Hex(Codes(r + "|ENRICH|1")))
    ensures Event(r, FINALIZE) == (r, Sha256Hex(Codes(r + "|FINALIZE|1")))
    ensures FinalizeRef(r) == Sha256Hex(Codes("external|" + r + "|FINALIZE"))
  {
    hide Sha256Hex, Codes;
    assert Decimal(1) == "1";
    assert r + "|" + "ENRICH" + "|" + "1" == r + "|ENRICH|1";
    assert r + "|" + "FINALIZE" + "|" + "1" == r + "|FINALIZE|1";
    assert "external|" + r + "|" + "FINALIZE" == "external|" + r + "|FINALIZE";
  }

  lemma EventsDiffer(r: RequestId, q: RequestId)
    ensures Event(r, ENRICH) != Event(q, FINALIZE)
  {
    StepEventsDiffer(r, CURRENT_WORKFLOW_VERSION);
  }

  lemma FinalizeEventCarriesFinalize(t: Table, r: RequestId)
    requires TableInv(t) && Event(r, FINALIZE) in t.outbox
    ensures t.outbox[Event(r, FINALIZE)].message.FinalizeMessage?
    ensures t.outbox[Event(r, FINALIZE)].message.requestId == r
    ensures r in t.workflows && Supported(t.workflows[r].input) && (r, ENRICH) in t.steps
    ensures EnrichmentFor(t.outbox[Event(r, FINALIZE)].message.enrichment, t.workflows[r].input)
  {
    hide EventIdOf, PendingOutboxIndexKeys, EnrichmentFor;
    assert OutboxOk(t, Event(r, FINALIZE));
    EventsDiffer(r, r);
  }

  // -------------------------------------------------------------------------
  // createWorkflow
  // -------------------------------------------------------------------------

  lemma CreateGrows(t: Table, c: CreateInput, at: When)
    ensures Grows(t, CreateWorkflow(t, c, at).0)
  {
    hide EventIdOf, NewWorkflow, NewMapping, PendingEvent;
  }

  lemma StepHasWorkflow(t: Table, k: StepRef)
    requires TableInv(t)
    ensures k in t.steps ==> k.0 in t.workflows
  {
    if k in t.steps { assert StepOk(t, k); }
  }

  lemma CreatedItems(t: Table, c: CreateInput, at: When)
    requires CreateWorkflow(t, c, at).1.CREATED? && TableInv(t) && c.payloadHash == PayloadHash(c.input) && ValidInput(c.input)
    ensures var t' := CreateWorkflow(t, c, at).0;
            && WorkflowOk(t', c.requestId)
            && OutboxOk(t', Event(c.requestId, ENRICH))
            && MappingOk(t', (c.tenantId, c.idempotencyKey))
  {
    hide ValidInput, EventIdOf, PayloadHash, ProcessingIndexKeys, PendingOutboxIndexKeys, FinalizeRef;
    StepHasWorkflow(t, (c.requestId, FINALIZE));
  }

  lemma CreateKeeps(t: Table, c: CreateInput, at: When)
    requires TableInv(t) && c.payloadHash == PayloadHash(c.input) && ValidInput(c.input)
    ensures TableInv(CreateWorkflow(t, c, at).0)
  {
    hide WorkflowOk, StepOk, OutboxOk, MappingOk, EventIdOf, PayloadHash, NewWorkflow, NewMapping, PendingEvent;
    if CreateWorkflow(t, c, at).1.CREATED? {
      CreateGrows(t, c, at);
      CreatedItems(t, c, at);
      InvAfterWrite(t, CreateWorkflow(t, c, at).0, {c.requestId}, {}, {Event(c.requestId, ENRICH)});
    }
  }

  // -------------------------------------------------------------------------
  // Writes to one step
  // -------------------------------------------------------------------------

  /** A write to one step that had not succeeded and does not succeed now. */
  ghost predicate Unsettled(t: Table, t': Table, k: StepRef) {
    t' == t ||
    (k in t'.steps && t' == t.(steps := t.steps[k := t'.steps[k]]) &&
     t'.steps[k].status != Succeeded && !StepSucceeded(t, k.0, k.1) &&
     (k in t.steps ==> StepGrows(t.steps[k], t'.steps[k])))
  }

  lemma UnsettledKeeps(t: Table, t': Table, k: StepRef)
    requires TableInv(t) && Unsettled(t, t', k) && (k in t'.steps ==> StepOk(t', k))
    ensures TableInv(t') && Grows(t, t')
  {
    hide WorkflowOk, StepOk, OutboxOk, MappingOk;
    if t' != t {
      InvAfterWrite(t, t', {}, {k}, {});
    }
  }

  lemma BeginKeeps(t: Table, r: RequestId, step: StepId, ref: Option<ExternalRef>, at: When)
    requires TableInv(t) && r in t.workflows && Event(r, step) in t.outbox
    requires ref == (if step == FINALIZE then Some(FinalizeRef(r)) else None)
    ensures var t' := BeginStep(t, r, step, ref, at).0;
            TableInv(t') && Grows(t, t') && Unsettled(t, t', (r, step))
  {
    hide WorkflowOk, OutboxOk, MappingOk, EventIdOf, FinalizeRef;
    var t' := BeginStep(t, r, step, ref, at).0;
    if (r, step) in t.steps { assert StepOk(t, (r, step)); }
    UnsettledKeeps(t, t', (r, step));
  }

  lemma MarkUnknownKeeps(t: Table, r: RequestId, step: StepId, at: When)
    requires TableInv(t)
    ensures TableInv(MarkUnknown(t, r, step, at)) && Grows(t, MarkUnknown(t, r, step, at))
    ensures Unsettled(t, MarkUnknown(t, r, step, at), (r, step))
  {
    hide WorkflowOk, OutboxOk, MappingOk, EventIdOf, FinalizeRef;
    if (r, step) in t.steps { assert StepOk(t, (r, step)); }
    UnsettledKeeps(t, MarkUnknown(t, r, step, at), (r, step));
  }

  /** An ambiguous outcome, once recorded, is what the next claim of the step is told; only a
      succeeded or unclaimed step is not marked. */
  lemma UnknownIsRemembered(t: Table, r: RequestId, step: StepId, ref: Option<ExternalRef>, at: When, later: When)
    requires (r, step) in t.steps && t.steps[(r, step)].status != Succeeded
    ensures var result := BeginStep(MarkUnknown(t, r, step, at), r, step, ref, later).1;
            result.RESUMED? && result.previous == UnknownExternalState && result.step.attempt == t.steps[(r, step)].attempt + 1
  {}

  // -------------------------------------------------------------------------
  // advanceStepWithOutbox
  // -------------------------------------------------------------------------

  function Advanced(t: Table, r: RequestId, enrichment: Enrichment, at: When): Table
    requires r in t.workflows
  {
    AdvanceStep(t, r, t.workflows[r].tenantId, enrichment, at).0
  }

  lemma AdvancedItems(t: Table, r: RequestId, enrichment: Enrichment, at: When)
    requires TableInv(t) && r in t.workflows && (r, ENRICH) in t.steps
    requires EnrichmentFor(enrichment, t.workflows[r].input) && Supported(t.workflows[r].input)
    requires Advanced(t, r, enrichment, at) != t
    ensures StepOk(Advanced(t, r, enrichment, at), (r, ENRICH))
    ensures OutboxOk(Advanced(t, r, enrichment, at), Event(r, FINALIZE))
  {
    hide WorkflowOk, MappingOk, EventIdOf, FinalizeRef, PendingOutboxIndexKeys, EnrichmentFor;
    assert StepOk(t, (r, ENRICH));
  }

  lemma AdvanceKeeps(t: Table, r: RequestId, enrichment: Enrichment, at: When)
    requires TableInv(t) && r in t.workflows && (r, ENRICH) in t.steps
    requires EnrichmentFor(enrichment, t.workflows[r].input) && Supported(t.workflows[r].input)
    ensures TableInv(Advanced(t, r, enrichment, at)) && Grows(t, Advanced(t, r, enrichment, at))
  {
    hide WorkflowOk, StepOk, OutboxOk, MappingOk, EventIdOf, PendingEvent, EnrichmentFor;
    var t' := Advanced(t, r, enrichment, at);
    if t' != t {
      AdvancedItems(t, r, enrichment, at);
      InvAfterWrite(t, t', {}, {(r, ENRICH)}, {Event(r, FINALIZE)});
    }
  }

  // -------------------------------------------------------------------------
  // completeIfProcessing and failIfProcessing
  // -------------------------------------------------------------------------

  lemma TerminalWorkflow(t: Table, r: RequestId, step: StepId, verdict: Verdict, at: When)
    requires WorkflowOk(t, r) && (verdict.Complete? ==> step == FINALIZE)
    requires WriteTerminal(t, r, step, verdict, at).1.APPLIED?
    ensures WorkflowOk(WriteTerminal(t, r, step, verdict, at).0, r)
  {
    hide ValidInput, EventIdOf, PayloadHash, ProcessingIndexKeys;
  }

  lemma TerminalStepOk(t: Table, r: RequestId, step: StepId, verdict: Verdict, at: When)
    requires StepOk(t, (r, step)) && (verdict.Complete? ==> step == FINALIZE)
    requires WriteTerminal(t, r, step, verdict, at).1.APPLIED?
    ensures StepOk(WriteTerminal(t, r, step, verdict, at).0, (r, step))
  {
    hide EventIdOf, FinalizeRef;
  }

  lemma TerminalGrows(t: Table, r: RequestId, step: StepId, verdict: Verdict, at: When)
    ensures Grows(t, WriteTerminal(t, r, step, verdict, at).0)
  {
    if r in t.workflows {
      TerminalItemsGrow(t.workflows[r], StepAtKey(t, r, step), r, step, verdict, at);
    }
    hide TerminalItem, TerminalStep;
  }

  lemma TerminalItemsGrow(w: WorkflowItem, before: Option<StepItem>, r: RequestId, step: StepId, verdict: Verdict, at: When)
    ensures w.status == Processing ==> WorkflowGrows(w, TerminalItem(w, verdict, at))
    ensures before.Some? ==> StepGrows(before.value, TerminalStep(before, r, step, verdict, at))
  {}

  lemma TerminalKeeps(t: Table, r: RequestId, step: StepId, verdict: Verdict, at: When)
    requires TableInv(t) && (r, step) in t.steps && (verdict.Complete? ==> step == FINALIZE)
    ensures TableInv(WriteTerminal(t, r, step, verdict, at).0)
  {
    hide WorkflowOk, StepOk, OutboxOk, MappingOk, EventIdOf, TerminalItem, TerminalStep, Grows;
    if WriteTerminal(t, r, step, verdict, at).1.APPLIED? {
      TerminalGrows(t, r, step, verdict, at);
      TerminalWorkflow(t, r, step, verdict, at);
      TerminalStepOk(t, r, step, verdict, at);
      InvAfterWrite(t, WriteTerminal(t, r, step, verdict, at).0, {r}, {(r, step)}, {});
    }
  }

  // -------------------------------------------------------------------------
  // markOutboxPublished
  // -------------------------------------------------------------------------

  lemma PublishKeeps(t: Table, e: EventRef, at: When)
    requires TableInv(t)
    ensures TableInv(MarkPublished(t, e, at)) && Grows(t, MarkPublished(t, e, at))
  {
    hide WorkflowOk, StepOk, OutboxOk, MappingOk;
    if e in t.outbox {
      assert OutboxOk(MarkPublished(t, e, at), e) by {
        assert OutboxOk(t, e);
        PublishedItem(t, e, at);
      }
      InvAfterWrite(t, MarkPublished(t, e, at), {}, {}, {e});
    }
  }

  lemma PublishedItem(t: Table, e: EventRef, at: When)
    requires OutboxOk(t, e)
    ensures OutboxOk(MarkPublished(t, e, at), e)
  {
    hide EventIdOf, EnrichmentFor;
  }

  // -------------------------------------------------------------------------
  // Outcomes
  // -------------------------------------------------------------------------

  /** What the verdict must be for the outcome to be the one-shot outcome. */
  predicate VerdictMatches(input: OperationInput, verdict: Verdict) {
    match verdict
    case Complete(result) => result.outcome == Settled && OneShot(input) == Settles(result.amount, result.riskBand)
    case Fail(error) => OneShot(input) == Fails(error)
  }

  lemma TerminalOutcome(t: Table, r: RequestId, step: StepId, verdict: Verdict, at: When)
    requires TableInv(t) && OutcomesOk(t)
    requires r in t.workflows ==> VerdictMatches(t.workflows[r].input, verdict)
    ensures OutcomesOk(WriteTerminal(t, r, step, verdict, at).0)
  {
    hide WorkflowOk, StepOk, OutboxOk, MappingOk, OneShot;
    var t' := WriteTerminal(t, r, step, verdict, at).0;
    forall q | q in t'.workflows ensures OutcomeOk(t'.workflows[q]) {
      if q == r { TerminalItemOutcome(t.workflows[r], verdict, at); }
    }
  }

  lemma TerminalItemOutcome(w: WorkflowItem, verdict: Verdict, at: When)
    requires VerdictMatches(w.input, verdict)
    ensures OutcomeOk(TerminalItem(w, verdict, at))
  {
    hide OneShot;
  }

  /** A write that leaves every workflow's record alone or adds one in PROCESSING. */
  lemma OutcomesKept(t: Table, t': Table)
    requires OutcomesOk(t)
    requires forall r | r in t'.workflows ::
               t'.workflows[r].status == Processing || (r in t.workflows && t'.workflows[r] == t.workflows[r])
    ensures OutcomesOk(t')
  {
    hide OneShot;
  }

  lemma SettledKept(t: Table, t': Table)
    requires EnrichSettled(t)
    requires forall r | Event(r, FINALIZE) in t'.outbox && Event(r, FINALIZE) !in t.outbox :: StepSucceeded(t', r, ENRICH)
    requires forall r | StepSucceeded(t, r, ENRICH) && Event(r, FINALIZE) in t.outbox :: StepSucceeded(t', r, ENRICH)
    ensures EnrichSettled(t')
  {
    hide EventIdOf;
  }

  /** `#writeTerminal` updates the step without a condition. It is harmless to a succeeded
      ENRICH step only if it never fails that step of an input ENRICH accepts. */
  lemma TerminalSettled(t: Table, r: RequestId, step: StepId, verdict: Verdict, at: When)
    requires TableInv(t) && EnrichSettled(t)
    requires step == ENRICH && r in t.workflows ==> !Supported(t.workflows[r].input)
    ensures EnrichSettled(WriteTerminal(t, r, step, verdict, at).0)
  {
    hide WorkflowOk, StepOk, OutboxOk, MappingOk, EventIdOf, Supported;
    var t' := WriteTerminal(t, r, step, verdict, at).0;
    forall q | StepSucceeded(t, q, ENRICH) && Event(q, FINALIZE) in t.outbox ensures StepSucceeded(t', q, ENRICH) {
      FinalizeEventCarriesFinalize(t, q);
    }
    SettledKept(t, t');
  }
}
