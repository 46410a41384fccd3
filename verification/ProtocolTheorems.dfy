/** What holds in every reachable state and along every run. `Reachable` quantifies over all
    interleavings, duplications, reorderings, crashes and lost answers. */
module ProtocolTheorems {
  import opened Contracts
  import opened Keys
  import opened Identity
  import opened Payload
  import opened Enriching
  import opened Provider
  import opened Table
  import opened TableInvariant
  import opened Protocol
  import opened ProtocolInvariant
  import opened ProtocolSteps
  import opened ProtocolSafety

  // -------------------------------------------------------------------------
  // Parts of the invariant
  // -------------------------------------------------------------------------

  lemma ReachableTable(env: Environment, s: System)
    requires Reachable(env, s)
    ensures TableInv(s.table)
    ensures AdvanceRetries(env) ==> EnrichSettled(s.table)
    ensures Trusted(env) ==> OutcomesOk(s.table)
  {
    hide Inv, Reachable, TableInv, EnrichSettled, OutcomesOk;
    ReachableInv(env, s);
    InvTable(env, s);
  }

  lemma ReachableProvider(env: Environment, s: System)
    requires Reachable(env, s)
    ensures StoreInv(env, s.table, s.store) && ResultsOk(s.table, s.store)
  {
    hide Reachable, TableGood, StoreInv, ResultsOk, HandlersOk, CopiesOk, TokensOk, PublishersOk, SentOk, WireInv, ClaimsOk,
      CallsOk, ApiOk, HoldsItsMessage;
    ReachableInv(env, s);
  }

  lemma ReachableTraffic(env: Environment, s: System)
    requires Reachable(env, s)
    ensures HandlersOk(env, s.table, s.store, s.handlers) && CopiesOk(s.table, s.copies) && TokensOk(s.table, s.copies)
  {
    hide Reachable, TableGood, StoreInv, ResultsOk, HandlersOk, CopiesOk, TokensOk, PublishersOk, SentOk, WireInv, ClaimsOk,
      CallsOk, ApiOk, HoldsItsMessage;
    ReachableInv(env, s);
  }

  lemma ReachableHistory(env: Environment, s: System)
    requires Reachable(env, s)
    ensures SentOk(s.table, s.history.sent) && ClaimsOk(s.table, s.history.claims)
    ensures CallsOk(s.table, s.handlers, s.history) && ApiOk(s.table, s.sessions, s.replies)
  {
    hide Reachable, TableGood, StoreInv, ResultsOk, HandlersOk, CopiesOk, TokensOk, PublishersOk, SentOk, WireInv, ClaimsOk,
      CallsOk, ApiOk, HoldsItsMessage;
    ReachableInv(env, s);
  }

  // -------------------------------------------------------------------------
  // Refinement of the one-shot outcome
  // -------------------------------------------------------------------------

  /** What a stored workflow says came of it. */
  function Concluded(w: WorkflowItem): Option<Conclusion> {
    if w.status == Completed && w.result.Some? && w.result.value.outcome == Settled
    then Some(Settles(w.result.value.amount, w.result.value.riskBand))
    else if w.status == Failed && w.error.Some? then Some(Fails(w.error.value))
    else None
  }

  /** However many workers raced, died or repeated themselves, a workflow ends the way one
      undisturbed pass over its input would have ended. */
  lemma TerminalIsOneShot(env: Environment, s: System, r: RequestId)
    requires Trusted(env) && Reachable(env, s)
    requires r in s.table.workflows && IsTerminal(s.table.workflows[r].status)
    ensures Concluded(s.table.workflows[r]) == Some(OneShot(s.table.workflows[r].input))
  {
    hide Reachable, TableInv, OneShot;
    ReachableTable(env, s);
    assert OutcomeOk(s.table.workflows[r]);
  }

  /** The same written out: what a terminal workflow holds, by the currency and the amount of its
      input alone. */
  lemma OutcomeByCurrencyAndAmount(env: Environment, s: System, r: RequestId)
    requires Trusted(env) && Reachable(env, s)
    requires r in s.table.workflows && (s.table.workflows[r].status == Completed || s.table.workflows[r].status == Failed)
    ensures var w := s.table.workflows[r];
            var currency, units := w.input.amount.currencyCode, w.input.amount.minorUnits;
            if currency !in {"USD", "EUR", "GBP", "ILS"} then
              w.status == Failed &&
              w.error == Some(AppError(UNSUPPORTED_CURRENCY, "currency " + currency + " is not supported", NON_RETRYABLE))
            else if units >= 500_000 then
              w.status == Failed && w.error == Some(AppError(PROVIDER_REJECTED, "risk band HIGH", NON_RETRYABLE))
            else
              w.status == Completed && w.result.Some? && w.result.value.outcome == Settled
              && w.result.value.amount == w.input.amount
              && w.result.value.riskBand == (if units >= 100_000 then Medium else Low)
  {
    hide Reachable;
    TerminalIsOneShot(env, s, r);
  }

  // -------------------------------------------------------------------------
  // The external effect
  // -------------------------------------------------------------------------

  /** The operation was performed for this workflow and no other: under the reference its
      FINALIZE step stored, for its amount, after its ENRICH step had committed its result. */
  ghost predicate PerformedFor(s: System, r: RequestId, key: ExternalRef) {
    && key == FinalizeRef(r) && (forall q :: FinalizeRef(q) == key ==> q == r)
    && key in s.store.operations && r in s.table.workflows
    && s.store.operations[key].idempotencyKey == key
    && s.store.operations[key].amount == s.table.workflows[r].input.amount
    && (r, FINALIZE) in s.table.steps && s.table.steps[(r, FINALIZE)].externalRef == Some(key)
    && Event(r, FINALIZE) in s.table.outbox && Supported(s.table.workflows[r].input)
  }

  lemma FinalizeRecord(t: Table, r: RequestId)
    requires TableInv(t) && (r, FINALIZE) in t.steps
    ensures t.steps[(r, FINALIZE)].externalRef == Some(FinalizeRef(r))
    ensures Event(r, FINALIZE) in t.outbox && r in t.workflows && Supported(t.workflows[r].input)
  {
    hide EventIdOf, FinalizeRef, WorkflowOk, MappingOk, OutboxOk, Supported;
    assert StepOk(t, (r, FINALIZE));
    FinalizeEventCarriesFinalize(t, r);
  }

  lemma EveryOperationHasOneOwner(env: Environment, s: System, key: ExternalRef)
    requires Reachable(env, s) && key in s.store.operations
    ensures exists r :: PerformedFor(s, r, key) && (AdvanceRetries(env) ==> StepSucceeded(s.table, r, ENRICH))
  {
    hide Reachable, TableInv, FinalizeRef, EventIdOf, Supported, ResultsOk, RiskBandFor, OutcomesOk;
    ReachableTable(env, s);
    ReachableProvider(env, s);
    var r :| Owns(env, s.table, r, key, s.store.operations[key]);
    FinalizeRecord(s.table, r);
    forall q | FinalizeRef(q) == key ensures q == r {
      FinalizeKeysDiffer(q, r);
    }
    assert PerformedFor(s, r, key);
  }

  /** Every call on its way to the provider asks for what one workflow's caller asked for: the
      same kind of operation and amount, under that workflow's reference, with the normalized
      reference and the risk band its FINALIZE event carries. */
  lemma CallsCarryTheRequest(env: Environment, s: System, call: Call)
    requires Reachable(env, s) && call in s.wire
    ensures exists r ::
              && r in s.table.workflows && call.key == FinalizeRef(r) && Event(r, FINALIZE) in s.table.outbox
              && s.table.outbox[Event(r, FINALIZE)].message.FinalizeMessage?
              && var input, carried := s.table.workflows[r].input, s.table.outbox[Event(r, FINALIZE)].message.enrichment;
                 && call.request.operation == input.operation && call.request.amount == input.amount
                 && call.request.reference == carried.normalizedReference == NormalizeReference(input)
                 && call.request.riskBand == carried.riskBand
                 && carried.riskBand == (if input.amount.minorUnits >= 500_000 then High
                                         else if input.amount.minorUnits >= 100_000 then Medium else Low)
  {
    hide Reachable, FinalizeRef, EventIdOf, TableInv, OutcomesOk, NormalizeReference;
    ReachableTable(env, s);
    ReachableWire(env, s);
    var r :| CallFor(s.table, r, call);
    FinalizeEventCarriesFinalize(s.table, r);
  }

  lemma ReachableWire(env: Environment, s: System)
    requires Reachable(env, s)
    ensures WireInv(s.table, s.wire)
  {
    hide Reachable, TableGood, StoreInv, ResultsOk, HandlersOk, CopiesOk, TokensOk, PublishersOk, SentOk, WireInv, ClaimsOk,
      CallsOk, ApiOk, HoldsItsMessage;
    ReachableInv(env, s);
  }

  /** A completed workflow reports the operation performed for it, and nobody else's. */
  lemma CompletedNamesItsOperation(env: Environment, s: System, r: RequestId)
    requires Reachable(env, s) && r in s.table.workflows && s.table.workflows[r].status == Completed
    ensures var w, key := s.table.workflows[r], FinalizeRef(r);
            && PerformedFor(s, r, key) && s.store.operations[key].status == Settled && w.result.Some?
            && w.result.value.providerOperationId == s.store.operations[key].operationId
            && w.result.value.amount == w.input.amount && w.result.value.riskBand == RiskBandFor(w.input)
            && forall other | other in s.store.operations && other != key ::
                 s.store.operations[other].operationId != w.result.value.providerOperationId
  {
    hide Reachable, TableInv, FinalizeRef, EventIdOf, Supported, RiskBandFor, OutcomesOk, StoreOk;
    ReachableTable(env, s);
    ReachableProvider(env, s);
    WorkflowIsNamed(s.table, r);
    assert ResultOk(s.table.workflows[r], s.store);
    EveryOperationHasOneOwner(env, s, FinalizeRef(r));
    var q :| PerformedFor(s, q, FinalizeRef(r));
  }

  /** The money moved exactly when the caller is told so. */
  lemma SettledExactlyWhenCompleted(env: Environment, s: System, r: RequestId)
    requires Trusted(env) && Reachable(env, s)
    requires r in s.table.workflows && IsTerminal(s.table.workflows[r].status)
    ensures s.table.workflows[r].status == Completed
            <==> FinalizeRef(r) in s.store.operations && s.store.operations[FinalizeRef(r)].status == Settled
  {
    hide Reachable, TableInv, FinalizeRef, EventIdOf, OutcomesOk, StoreOk, UnsupportedCurrency, ResultsOk;
    var key := FinalizeRef(r);
    if s.table.workflows[r].status == Completed {
      CompletedNamesItsOperation(env, s, r);
    } else if key in s.store.operations && s.store.operations[key].status == Settled {
      ReachableProvider(env, s);
      EveryOperationHasOneOwner(env, s, key);
      StoredIsOwned(env, s.table, s.store, r, s.store.operations[key]);
      TerminalIsOneShot(env, s, r);
      assert false;
    }
  }

  /** A finalizer that comes too late with the provider's answer finds the outcome it would
      have written itself: what the code reports as a divergence never happens. */
  lemma NoTerminalDivergence(env: Environment, s: System, h: nat)
    requires Trusted(env) && Reachable(env, s)
    requires h in s.handlers && s.handlers[h].queue == STEP_QUEUE && s.handlers[h].pc.Settle?
    ensures s.handlers[h].message.requestId in s.table.workflows
    ensures var w, operation := s.table.workflows[s.handlers[h].message.requestId], s.handlers[h].pc.operation;
            IsTerminal(w.status) ==>
              && (w.status == Completed <==> operation.status == Settled)
              && (w.status == Completed ==>
                    w.result.Some? && w.result.value.providerOperationId == operation.operationId
                    && w.result.value.amount == operation.amount)
              && (w.status == Failed ==>
                    w.error == Some(AppError(PROVIDER_REJECTED, DECLINE_REASON, NON_RETRYABLE)))
  {
    hide Reachable, Inv, TableInv, FinalizeRef, EventIdOf, StoreInv, ResultsOk, CopiesOk, TokensOk, UnsupportedCurrency;
    ReachableInv(env, s);
    HandlerHolds(env, s, h);
    var r := s.handlers[h].message.requestId;
    if IsTerminal(s.table.workflows[r].status) {
      SettledExactlyWhenCompleted(env, s, r);
      TerminalIsOneShot(env, s, r);
      ReachableProvider(env, s);
      StoredIsOwned(env, s.table, s.store, r, s.handlers[h].pc.operation);
      EveryOperationHasOneOwner(env, s, FinalizeRef(r));
      if s.table.workflows[r].status == Completed { CompletedNamesItsOperation(env, s, r); }
    }
  }

  // -------------------------------------------------------------------------
  // Nothing is stranded
  // -------------------------------------------------------------------------

  /** The step a workflow waits for. */
  function CurrentStep(t: Table, r: RequestId): StepId {
    if Event(r, FINALIZE) in t.outbox then FINALIZE else ENRICH
  }

  /** An event still to be published, or its message on the queue of its worker: visible, in
      flight, or in the dead-letter queue. */
  ghost predicate LiveToken(s: System, e: EventRef) {
    e in s.table.outbox &&
    (s.table.outbox[e].publishedAt.None? ||
     exists c :: c in s.copies && s.copies[c].message == s.table.outbox[e].message
                 && s.copies[c].queue == s.table.outbox[e].destination)
  }

  lemma NoStrandedWorkflow(env: Environment, s: System, r: RequestId)
    requires Reachable(env, s)
    requires r in s.table.workflows && s.table.workflows[r].status == Processing
    ensures LiveToken(s, Event(r, CurrentStep(s.table, r)))
    ensures StepSucceeded(s.table, r, ENRICH) ==> CurrentStep(s.table, r) == FINALIZE
    ensures AdvanceRetries(env) && CurrentStep(s.table, r) == FINALIZE ==> StepSucceeded(s.table, r, ENRICH)
  {
    hide Reachable, EventIdOf, FinalizeRef, OutcomesOk, HandlersOk, PayloadHash, RiskBandFor, EnrichmentFor, Supported;
    ReachableTable(env, s);
    ReachableTraffic(env, s);
    assert WorkflowOk(s.table, r);
    if StepSucceeded(s.table, r, ENRICH) { assert StepOk(s.table, (r, ENRICH)); }
    TokenOfEvent(s, r, CurrentStep(s.table, r));
  }

  lemma EventMessage(t: Table, r: RequestId, step: StepId)
    requires TableInv(t) && Event(r, step) in t.outbox
    ensures StepOf(t.outbox[Event(r, step)].message) == step
    ensures t.outbox[Event(r, step)].message.requestId == r
    ensures t.outbox[Event(r, step)].destination == QueueOf(step)
  {
    hide EventIdOf, WorkflowOk, StepOk, MappingOk;
    EventHasWorkflow(t, Event(r, step));
    EventsDiffer(r, r);
  }

  lemma TokenOfEvent(s: System, r: RequestId, step: StepId)
    requires TableInv(s.table) && TokensOk(s.table, s.copies) && CopiesOk(s.table, s.copies)
    requires r in s.table.workflows && s.table.workflows[r].status == Processing
    requires Event(r, step) in s.table.outbox && (step == ENRICH ==> Event(r, FINALIZE) !in s.table.outbox)
    ensures LiveToken(s, Event(r, step))
  {
    hide EventIdOf, TableInv;
    var e := Event(r, step);
    EventMessage(s.table, r, step);
    var m := s.table.outbox[e].message;
    if s.table.outbox[e].publishedAt.Some? {
      assert HasCopy(s.copies, m);
      var c :| c in s.copies && s.copies[c].message == m;
      assert MessageOk(s.table, s.copies[c].queue, s.copies[c].message);
    }
  }

  /** What lets a queue delete a message: the workflow is over, or its next step's event is
      committed. */
  lemma DoneMeansHandled(env: Environment, s: System, h: nat)
    requires Reachable(env, s) && h in s.handlers && s.handlers[h].pc.Done?
    ensures var m := s.handlers[h].message;
            m.requestId in s.table.workflows &&
            (IsTerminal(s.table.workflows[m.requestId].status) ||
             (m.EnrichMessage? && Event(m.requestId, FINALIZE) in s.table.outbox))
  {
    hide Reachable, EventIdOf, CopiesOk, TokensOk, FinalizeRef;
    ReachableTraffic(env, s);
    assert HandlerOk(env, s.table, s.store, s.handlers[h]);
  }

  /** No event is marked published before its message was sent. */
  lemma PublishedOnlyIfSent(env: Environment, s: System, e: EventRef)
    requires Reachable(env, s) && e in s.table.outbox && s.table.outbox[e].publishedAt.Some?
    ensures e in s.history.sent
  {
    hide Reachable, ClaimsOk, CallsOk, ApiOk;
    ReachableHistory(env, s);
  }

  /** A mark that reaches the table settles the event for good: it was on its queue before, its
      message and destination are what they were, and no index lists it any more. */
  lemma PublicationSettles(env: Environment, s: System, p: nat, at: When, db: DbCall)
    requires Reachable(env, s) && Enabled(env, s, Mark(p, at, db)) && !db.Refused?
    ensures var e, t' := s.publishers[p].event, Next(env, s, Mark(p, at, db)).table;
            && e in s.history.sent && e in s.table.outbox && e in t'.outbox
            && t'.outbox[e].publishedAt == Some(at.now) && t'.outbox[e].index.None?
            && t'.outbox[e].message == s.table.outbox[e].message && t'.outbox[e].destination == s.table.outbox[e].destination
            && t' == s.table.(outbox := s.table.outbox[e := t'.outbox[e]])
  {
    hide Reachable, TableGood, StoreInv, WireInv, ResultsOk, HandlersOk, CopiesOk, HoldsItsMessage, TokensOk, SentOk, ClaimsOk,
      CallsOk, IdsOk, ApiOk, AfterStep, AfterSend, Posted, FaultAllowed, HttpAllowed, Validated;
    ReachableInv(env, s);
    assert PublisherOk(s.table, s.copies, s.history.sent, s.publishers[p]);
  }

  // -------------------------------------------------------------------------
  // Absorbing states
  // -------------------------------------------------------------------------

  /** Nothing that happens later rewrites an outcome, a performed operation, a mapping, an
      external reference or the fact of publication. */
  lemma OutcomesAreFinal(env: Environment, s: System, run: seq<Action>)
    requires Reachable(env, s) && Follow(env, s, run).Some?
    ensures var s' := Follow(env, s, run).value;
            && (forall r | r in s.table.workflows && IsTerminal(s.table.workflows[r].status) ::
                  r in s'.table.workflows && s'.table.workflows[r] == s.table.workflows[r])
            && (forall key | key in s.store.operations ::
                  key in s'.store.operations && s'.store.operations[key] == s.store.operations[key])
            && (forall k | k in s.table.mappings :: k in s'.table.mappings && s'.table.mappings[k] == s.table.mappings[k])
            && (forall k | k in s.table.steps && s.table.steps[k].externalRef.Some? ::
                  k in s'.table.steps && s'.table.steps[k].externalRef == s.table.steps[k].externalRef)
            && (forall e | e in s.table.outbox && s.table.outbox[e].publishedAt.Some? ::
                  e in s'.table.outbox && s'.table.outbox[e].publishedAt.Some?)
  {
    hide Reachable, Follow, Inv;
    ReachableInv(env, s);
    FollowKeeps(env, s, run);
  }

  lemma FinalizeSucceededIffCompleted(env: Environment, s: System, r: RequestId)
    requires Reachable(env, s) && r in s.table.workflows
    ensures StepSucceeded(s.table, r, FINALIZE) <==> s.table.workflows[r].status == Completed
  {
    hide Reachable, EventIdOf, PayloadHash, OutcomesOk, EnrichSettled;
    ReachableTable(env, s);
    assert WorkflowOk(s.table, r);
  }

  /** The terminal write updates its step with no condition, and still no succeeded step is
      ever anything else again. */
  lemma SucceededStaysSucceeded(env: Environment, s: System, run: seq<Action>, r: RequestId, step: StepId)
    requires AdvanceRetries(env) && Reachable(env, s) && Follow(env, s, run).Some?
    requires StepSucceeded(s.table, r, step)
    ensures StepSucceeded(Follow(env, s, run).value.table, r, step)
  {
    hide Reachable, Follow, EventIdOf, FinalizeRef, OutcomeOk, WorkflowOk, OutboxOk, MappingOk;
    var s' := Follow(env, s, run).value;
    ReachableOnward(env, s, run);
    ReachableTable(env, s);
    ReachableTable(env, s');
    OutcomesAreFinal(env, s, run);
    assert StepOk(s.table, (r, step));
    match step
    case FINALIZE =>
      FinalizeSucceededIffCompleted(env, s, r);
      FinalizeSucceededIffCompleted(env, s', r);
    case ENRICH =>
      EventsSurvive(env, s, run, Event(r, FINALIZE));
  }

  lemma EventsSurvive(env: Environment, s: System, run: seq<Action>, e: EventRef)
    requires Reachable(env, s) && Follow(env, s, run).Some? && e in s.table.outbox
    ensures e in Follow(env, s, run).value.table.outbox
  {
    hide Reachable, Follow, Inv;
    ReachableInv(env, s);
    FollowKeeps(env, s, run);
  }

  // -------------------------------------------------------------------------
  // Calls and claims
  // -------------------------------------------------------------------------

  /** At most one call per workflow goes out without a look at the provider first, whatever
      crashes and repeats; and it belongs to the one claim that was told STARTED. */
  lemma AtMostOneBareCall(env: Environment, s: System, r: RequestId)
    requires Reachable(env, s)
    ensures Times(s.history.bareCalls, r) <= 1
    ensures Times(s.history.bareCalls, r) == 1 ==> r in s.history.starter && (r, FINALIZE) in s.table.steps
  {
    hide Reachable, SentOk, ClaimsOk, ApiOk;
    ReachableHistory(env, s);
  }

  /** The attempt number stored with a step is the number of claims ever applied to it. */
  lemma AttemptCountsClaims(env: Environment, s: System, k: StepRef)
    requires Reachable(env, s)
    ensures k in s.table.steps ==> s.table.steps[k].attempt == Times(s.history.claims, k)
    ensures k !in s.table.steps ==> Times(s.history.claims, k) == 0
  {
    hide Reachable, SentOk, CallsOk, ApiOk;
    ReachableHistory(env, s);
  }

  /** The record a claim rebuilds from the returned attributes is the item now stored, its
      `previous` is the status that was replaced, and the stored reference is the first one
      ever claimed with. */
  lemma BeginStepTellsTheTruth(env: Environment, s: System, r: RequestId, step: StepId, ref: Option<ExternalRef>, at: When)
    requires Reachable(env, s)
    ensures var (t', result) := BeginStep(s.table, r, step, ref, at);
            var k := (r, step);
            && k in t'.steps && result.step == t'.steps[k]
            && (result.ALREADY_SUCCEEDED? <==> StepSucceeded(s.table, r, step))
            && (result.ALREADY_SUCCEEDED? ==> t' == s.table)
            && (result.STARTED? <==> k !in s.table.steps)
            && (result.RESUMED? ==> result.previous == s.table.steps[k].status)
            && (!result.ALREADY_SUCCEEDED? ==>
                  result.step.status == InProgress && result.step.attempt == Times(s.history.claims, k) + 1)
            && (k in s.table.steps && s.table.steps[k].externalRef.Some? ==>
                  result.step.externalRef == s.table.steps[k].externalRef)
  {
    hide Reachable, OutcomesOk, EnrichSettled, WorkflowOk, MappingOk, OutboxOk, EventIdOf, FinalizeRef;
    ReachableTable(env, s);
    AttemptCountsClaims(env, s, (r, step));
    if (r, step) in s.table.steps { assert StepOk(s.table, (r, step)); }
  }

  /** What an advance answers is true of the table: the step's success and the next event are
      one fact, so either one's presence means both are there. */
  lemma AdvanceTellsTheTruth(env: Environment, s: System, r: RequestId, tenantId: TenantId, enrichment: Enrichment, at: When)
    requires AdvanceRetries(env) && Reachable(env, s)
    ensures var (t', result) := AdvanceStep(s.table, r, tenantId, enrichment, at);
            && (result.ADVANCED? <==> Event(r, FINALIZE) in t'.outbox && Event(r, FINALIZE) !in s.table.outbox)
            && (result.ADVANCED? ==> StepSucceeded(t', r, ENRICH) && !StepSucceeded(s.table, r, ENRICH))
            && (!result.ADVANCED? ==> t' == s.table)
            && (result.ALREADY_ADVANCED? ==>
                  StepSucceeded(s.table, r, ENRICH) && Event(r, FINALIZE) in s.table.outbox
                  && r in s.table.workflows && s.table.workflows[r].status == Processing)
            && (result.WORKFLOW_TERMINAL? <==> r in s.table.workflows && IsTerminal(s.table.workflows[r].status))
            && (result.WORKFLOW_MISSING? <==> r !in s.table.workflows)
  {
    hide Reachable, OutcomesOk, WorkflowOk, MappingOk, OutboxOk, EventIdOf, FinalizeRef, PendingEvent;
    ReachableTable(env, s);
    if (r, ENRICH) in s.table.steps { assert StepOk(s.table, (r, ENRICH)); }
  }

  // -------------------------------------------------------------------------
  // Sparse indexes
  // -------------------------------------------------------------------------

  /** An item carries index keys, and the right ones, exactly while a sweep should find it. */
  lemma IndexKeysAreExact(env: Environment, s: System)
    requires Reachable(env, s)
    ensures forall r | r in s.table.workflows ::
              s.table.workflows[r].index == (if s.table.workflows[r].status == Processing
                                             then Some(ProcessingIndexKeys(r, s.table.workflows[r].businessDeadlineAt))
                                             else None)
    ensures forall e | e in s.table.outbox ::
              s.table.outbox[e].index == (if s.table.outbox[e].publishedAt.None?
                                          then Some(PendingOutboxIndexKeys(e.0, e.1, s.table.outbox[e].createdAt))
                                          else None)
  {
    hide Reachable, OutcomesOk, EnrichSettled, MappingOk, StepOk, EventIdOf, PayloadHash, ProcessingIndexKeys,
      PendingOutboxIndexKeys, EnrichmentFor, Supported;
    ReachableTable(env, s);
    forall r | r in s.table.workflows
      ensures s.table.workflows[r].index == (if s.table.workflows[r].status == Processing
                                             then Some(ProcessingIndexKeys(r, s.table.workflows[r].businessDeadlineAt))
                                             else None)
    {
      assert WorkflowOk(s.table, r);
    }
    forall e | e in s.table.outbox
      ensures s.table.outbox[e].index == (if s.table.outbox[e].publishedAt.None?
                                          then Some(PendingOutboxIndexKeys(e.0, e.1, s.table.outbox[e].createdAt))
                                          else None)
    {
      assert OutboxOk(s.table, e);
    }
  }

  // -------------------------------------------------------------------------
  // Idempotent creation
  // -------------------------------------------------------------------------

  /** Idempotency keys and workflows are in bijection, with equal ids and payload hashes, and
      every workflow's first event is committed. */
  lemma MappingsMatchWorkflows(env: Environment, s: System)
    requires Reachable(env, s)
    ensures forall k | k in s.table.mappings ::
              var r := s.table.mappings[k].requestId;
              r in s.table.workflows && (s.table.workflows[r].tenantId, s.table.workflows[r].idempotencyKey) == k
              && s.table.workflows[r].payloadHash == s.table.mappings[k].payloadHash
    ensures forall r | r in s.table.workflows ::
              var k := (s.table.workflows[r].tenantId, s.table.workflows[r].idempotencyKey);
              k in s.table.mappings && s.table.mappings[k].requestId == r && Event(r, ENRICH) in s.table.outbox
    ensures forall k, l | k in s.table.mappings && l in s.table.mappings
                          && s.table.mappings[k].requestId == s.table.mappings[l].requestId :: k == l
  {
    hide Reachable, OutcomesOk, EnrichSettled, StepOk, OutboxOk, EventIdOf, PayloadHash, ProcessingIndexKeys;
    ReachableTable(env, s);
    forall k | k in s.table.mappings
      ensures var r := s.table.mappings[k].requestId;
              r in s.table.workflows && (s.table.workflows[r].tenantId, s.table.workflows[r].idempotencyKey) == k
              && s.table.workflows[r].payloadHash == s.table.mappings[k].payloadHash
    {
      assert MappingOk(s.table, k);
      assert WorkflowOk(s.table, s.table.mappings[k].requestId);
    }
    forall r | r in s.table.workflows
      ensures var k := (s.table.workflows[r].tenantId, s.table.workflows[r].idempotencyKey);
              k in s.table.mappings && s.table.mappings[k].requestId == r && Event(r, ENRICH) in s.table.outbox
    {
      assert WorkflowOk(s.table, r);
    }
  }

  function RequestOf(answer: Answer): Option<RequestId> {
    match answer
    case Conflict409 => None
    case Processing202(requestId) => Some(requestId)
    case Terminal200(body) => Some(body.requestId)
  }

  /** All accepted replies to one key name one request, all final replies to it are the same,
      and no two replies to the same payload differ in being a conflict. */
  lemma RepliesAgree(env: Environment, s: System, a: Reply, b: Reply)
    requires Reachable(env, s) && a in s.replies && b in s.replies
    requires (a.tenantId, a.idempotencyKey) == (b.tenantId, b.idempotencyKey)
    ensures !a.answer.Conflict409? && !b.answer.Conflict409? ==>
              RequestOf(a.answer) == RequestOf(b.answer) && a.payloadHash == b.payloadHash
    ensures a.answer.Terminal200? && b.answer.Terminal200? ==> a.answer == b.answer
    ensures a.payloadHash == b.payloadHash ==> a.answer.Conflict409? == b.answer.Conflict409?
  {
    hide Reachable, SentOk, ClaimsOk, CallsOk, TableInv, EventIdOf;
    ReachableTable(env, s);
    ReachableHistory(env, s);
    assert ReplyOk(s.table, a) && ReplyOk(s.table, b);
    var r := s.table.mappings[(a.tenantId, a.idempotencyKey)].requestId;
    WorkflowIsNamed(s.table, r);
  }

  /** The two bodies there are, by the workflow they are about. */
  ghost predicate Says(body: TerminalBody, w: WorkflowItem) {
    && body.requestId == w.requestId
    && (w.status == Completed ==> w.result.Some? && body == CompletedBody(w.requestId, w.result))
    && (w.status == Failed ==> w.error.Some? && body == FailedBody(w.requestId, w.error.value.code, w.error.value.message))
  }

  /** A final reply says of the workflow under its key what the table says. */
  lemma FinalRepliesSayWhatIsStored(env: Environment, s: System, reply: Reply)
    requires Reachable(env, s) && reply in s.replies && reply.answer.Terminal200?
    ensures var key := (reply.tenantId, reply.idempotencyKey);
            key in s.table.mappings && s.table.mappings[key].requestId in s.table.workflows
    ensures var w := s.table.workflows[s.table.mappings[(reply.tenantId, reply.idempotencyKey)].requestId];
            (w.status == Completed || w.status == Failed) && Says(reply.answer.body, w)
  {
    hide Reachable, SentOk, ClaimsOk, CallsOk, EventIdOf, PayloadHash, OutcomesOk, EnrichSettled, StepOk, OutboxOk, MappingOk,
      ValidInput;
    ReachableTable(env, s);
    ReachableHistory(env, s);
    assert ReplyOk(s.table, reply);
    assert WorkflowOk(s.table, s.table.mappings[(reply.tenantId, reply.idempotencyKey)].requestId);
  }

  /** End to end: a 200 says what one undisturbed pass over the first input under the key would
      have come to. */
  lemma FinalRepliesAreOneShot(env: Environment, s: System, reply: Reply)
    requires Trusted(env) && Reachable(env, s) && reply in s.replies && reply.answer.Terminal200?
    ensures var key := (reply.tenantId, reply.idempotencyKey);
            key in s.table.mappings && s.table.mappings[key].requestId in s.table.workflows
    ensures var body := reply.answer.body;
            match OneShot(s.table.workflows[s.table.mappings[(reply.tenantId, reply.idempotencyKey)].requestId].input)
            case Settles(amount, riskBand) =>
              body.CompletedBody? && body.result.Some? && body.result.value.outcome == Settled
              && body.result.value.amount == amount && body.result.value.riskBand == riskBand
            case Fails(error) => body.FailedBody? && body.code == error.code && body.message == error.message
  {
    hide Reachable, OneShot;
    FinalRepliesSayWhatIsStored(env, s, reply);
    TerminalIsOneShot(env, s, s.table.mappings[(reply.tenantId, reply.idempotencyKey)].requestId);
  }

  lemma ValidInputIsRecord(input: OperationInput)
    requires ValidInput(input)
    ensures ValidRecord(input.metadata)
  {}

  /** 409 exactly for a body that means something else than the first one under the key. */
  lemma ConflictIffDifferentInput(env: Environment, s: System, reply: Reply, input: OperationInput)
    requires Reachable(env, s) && reply in s.replies && reply.payloadHash == PayloadHash(input)
    ensures var key := (reply.tenantId, reply.idempotencyKey);
            key in s.table.mappings && s.table.mappings[key].requestId in s.table.workflows
    ensures var first := s.table.workflows[s.table.mappings[(reply.tenantId, reply.idempotencyKey)].requestId].input;
            ValidRecord(input.metadata) ==> (reply.answer.Conflict409? <==> !SameInput(input, first))
  {
    hide Reachable, SentOk, ClaimsOk, CallsOk, EventIdOf, PayloadHash, OutcomesOk, EnrichSettled, StepOk, OutboxOk, MappingOk,
      ValidRecord, SameInput, BodyOf;
    ReachableTable(env, s);
    ReachableHistory(env, s);
    MappingsMatchWorkflows(env, s);
    assert ReplyOk(s.table, reply);
    var r := s.table.mappings[(reply.tenantId, reply.idempotencyKey)].requestId;
    assert WorkflowOk(s.table, r);
    var first := s.table.workflows[r].input;
    assert ValidRecord(first.metadata) by { ValidInputIsRecord(first); }
    if ValidRecord(input.metadata) { PayloadHashEquality(input, first); }
  }

  /** Posting again under a used key writes nothing, whether it is answered as a replay or as
      a conflict. */
  lemma RepeatedPostChangesNothing(env: Environment, s: System, a: Action)
    requires Reachable(env, s) && a.Post? && Enabled(env, s, a)
    requires (a.tenantId, a.idempotencyKey) in s.table.mappings
    ensures s.table.mappings[(a.tenantId, a.idempotencyKey)].requestId in s.table.workflows
    ensures Posted(s, a).table == s.table && Posted(s, a).copies == s.copies && Posted(s, a).store == s.store
    ensures var m := s.table.mappings[(a.tenantId, a.idempotencyKey)];
            a.db.Answered? && m.payloadHash != PayloadHash(a.input) ==>
              Posted(s, a).replies == s.replies + {Reply(a.tenantId, a.idempotencyKey, PayloadHash(a.input), Conflict409)}
    ensures var m := s.table.mappings[(a.tenantId, a.idempotencyKey)];
            a.db.Answered? && m.payloadHash == PayloadHash(a.input) && IsTerminal(s.table.workflows[m.requestId].status) ==>
              Posted(s, a).replies == s.replies + {Reply(a.tenantId, a.idempotencyKey, PayloadHash(a.input),
                                                         Terminal200(BodyOf(s.table.workflows[m.requestId])))}
  {
    hide Reachable, PayloadHash, BodyOf, EventIdOf, NewWorkflow, NewMapping, PendingEvent;
    MappingsMatchWorkflows(env, s);
  }

  /** A wait ends with the stored outcome, or with 202 and the id to come back with. */
  lemma WaitsEndTruthfully(env: Environment, s: System, c: nat)
    requires Reachable(env, s) && c in s.sessions
    ensures s.sessions[c].requestId in s.table.workflows
    ensures GiveUpAnswers(env, s, c)
    ensures var k, w := s.sessions[c], s.table.workflows[s.sessions[c].requestId];
            w.status == Completed || w.status == Failed ==>
              Enabled(env, s, Poll(c)) &&
              c !in Next(env, s, Poll(c)).sessions &&
              exists body :: Says(body, w) && Next(env, s, Poll(c)).replies
                                              == s.replies + {Reply(k.tenantId, k.idempotencyKey, k.payloadHash, Terminal200(body))}
  {
    hide Reachable, SentOk, ClaimsOk, CallsOk, EventIdOf, PayloadHash, OutcomesOk, EnrichSettled, StepOk, OutboxOk, ValidInput,
      AfterStep, AfterSend, Posted, MarkPublished, FaultAllowed, HttpAllowed, Validated, Upserted;
    ReachableTable(env, s);
    ReachableHistory(env, s);
    var k := s.sessions[c];
    assert SessionOk(s.table, k);
    assert MappingOk(s.table, (k.tenantId, k.idempotencyKey));
    assert WorkflowOk(s.table, k.requestId);
    var w := s.table.workflows[k.requestId];
    if w.status == Completed || w.status == Failed {
      assert Says(BodyOf(w), w);
    }
  }

  ghost predicate GiveUpAnswers(env: Environment, s: System, c: nat)
    requires c in s.sessions
  {
    var k := s.sessions[c];
    c !in Next(env, s, GiveUp(c)).sessions &&
    Next(env, s, GiveUp(c)).replies
    == s.replies + {Reply(k.tenantId, k.idempotencyKey, k.payloadHash, Processing202(k.requestId))}
  }

  /** The first post under a key, field by field: what is stored, what will be sent for it, that
      the mapping lives as long as the workflow, and that the caller now waits for this request. */
  lemma FirstPostCreates(env: Environment, s: System, a: Action)
    requires Reachable(env, s) && a.Post? && Enabled(env, s, a) && a.db.Answered?
    requires (a.tenantId, a.idempotencyKey) !in s.table.mappings && a.requestId !in s.table.workflows
    ensures var t' := Posted(s, a).table;
            && a.requestId in t'.workflows && (a.tenantId, a.idempotencyKey) in t'.mappings && Event(a.requestId, ENRICH) in t'.outbox
    ensures var w := Posted(s, a).table.workflows[a.requestId];
            && w.requestId == a.requestId && w.tenantId == a.tenantId && w.idempotencyKey == a.idempotencyKey
            && w.status == Processing && w.input == a.input && w.payloadHash == PayloadHash(a.input)
            && w.result.None? && w.error.None? && w.createdAt == a.at.now
            && w.syncDeadlineAt == a.syncDeadlineAt && w.businessDeadlineAt == a.businessDeadlineAt
            && w.expiresAt == a.at.now / 1000 + a.at.workflowTtlDays * 86_400
    ensures var m, w := Posted(s, a).table.mappings[(a.tenantId, a.idempotencyKey)], Posted(s, a).table.workflows[a.requestId];
            m.requestId == a.requestId && m.payloadHash == w.payloadHash && m.createdAt == w.createdAt && m.expiresAt == w.expiresAt
    ensures var o := Posted(s, a).table.outbox[Event(a.requestId, ENRICH)];
            && o.message == EnrichMessage(a.requestId, a.tenantId, a.at.now) && o.destination == START_QUEUE
            && o.publishedAt.None? && o.createdAt == a.at.now
            && o.expiresAt == a.at.now / 1000 + a.at.outboxTtlDays * 86_400
    ensures Posted(s, a).sessions.Values
         == s.sessions.Values + {Session(a.tenantId, a.idempotencyKey, PayloadHash(a.input), a.requestId)}
    ensures Posted(s, a).replies == s.replies
  {
    hide Reachable, EventIdOf, PayloadHash, OutcomesOk, EnrichSettled, WorkflowOk, StepOk, MappingOk, ProcessingIndexKeys,
      PendingOutboxIndexKeys, Validated, BodyOf;
    ReachableTable(env, s);
    ReachableIds(env, s);
    var e := Event(a.requestId, ENRICH);
    assert e in s.table.outbox ==> OutboxOk(s.table, e);
    assert e !in s.table.outbox;
    var session := Session(a.tenantId, a.idempotencyKey, PayloadHash(a.input), a.requestId);
    assert Posted(s, a).sessions == s.sessions[s.nextId := session];
    NewValue(s.sessions, s.nextId, session);
  }

  lemma NewValue(m: map<nat, Session>, k: nat, v: Session)
    requires k !in m
    ensures m[k := v].Values == m.Values + {v}
  {
    var m' := m[k := v];
    forall x | x in m.Values ensures x in m'.Values {
      var i :| i in m && m[i] == x;
      assert m'[i] == x;
    }
    assert m'[k] == v;
  }

  lemma ReachableIds(env: Environment, s: System)
    requires Reachable(env, s)
    ensures IdsOk(s)
  {
    hide Inv, Reachable;
    ReachableInv(env, s);
    InvIds(env, s);
  }

  // -------------------------------------------------------------------------
  // What an answer of the provider leads to
  // -------------------------------------------------------------------------

  function HeardBy(env: Environment, s: System, h: nat, at: When, http: Http): System
    requires Enabled(env, s, Step(h, at, Answered, http))
  {
    Next(env, s, Step(h, at, Answered, http))
  }

  /** Each kind of answer has its own consequence: a readable success is settled, an ambiguous
      one is recorded, a 4xx other than 429 fails the workflow, anything else is tried again. */
  lemma AnswersAreRouted(env: Environment, s: System, h: nat, at: When, http: Http)
    requires h in s.handlers && s.handlers[h].queue == STEP_QUEUE && s.handlers[h].pc.AwaitAnswer?
    requires Enabled(env, s, Step(h, at, Answered, http))
    ensures h in HeardBy(env, s, h, at, http).handlers && HeardBy(env, s, h, at, http).table == s.table
    ensures var key, pc := FinalizeRef(s.handlers[h].message.requestId), HeardBy(env, s, h, at, http).handlers[h].pc;
            && (Ambiguous(key, http) <==> pc == RecordUnknown)
            && (http.Response? && 400 <= http.status < 500 && http.status != 429 <==> pc.FailFinalize?)
            && (pc.FailFinalize? ==> pc.error.code == PROVIDER_REJECTED && pc.error.failureClass == NON_RETRYABLE)
            && (http.Response? && http.status < 400 && !Ambiguous(key, http) <==> pc.Settle?)
            && (pc.Settle? ==> Some(pc.operation) == http.body)
            && (pc == RecordUnknown || pc.FailFinalize? || pc.Settle? || pc == Retry)
  {
    hide FinalizeRef, Provider.Execute, FaultAllowed, HttpAllowed;
    ExecuteClassifies(FinalizeRef(s.handlers[h].message.requestId), http);
  }

  /** A recorded ambiguity is stored with the step, unless somebody has settled it meanwhile, and
      the next claim of it looks at the provider before anything is sent. */
  lemma AmbiguityIsReconciled(env: Environment, s: System, h: nat, at: When, http: Http, ref: Option<ExternalRef>, later: When)
    requires Reachable(env, s) && h in s.handlers && s.handlers[h].queue == STEP_QUEUE && s.handlers[h].pc.RecordUnknown?
    requires Enabled(env, s, Step(h, at, Answered, http))
    ensures var r, t' := s.handlers[h].message.requestId, HeardBy(env, s, h, at, http).table;
            && (r, FINALIZE) in t'.steps && (r, FINALIZE) in s.table.steps
            && (s.table.steps[(r, FINALIZE)].status != Succeeded ==>
                  t'.steps[(r, FINALIZE)].status == UnknownExternalState
                  && BeginStep(t', r, FINALIZE, ref, later).1.RESUMED?
                  && BeginStep(t', r, FINALIZE, ref, later).1.previous == UnknownExternalState)
            && t'.workflows == s.table.workflows
    ensures h in HeardBy(env, s, h, at, http).handlers && HeardBy(env, s, h, at, http).handlers[h].pc == Retry
  {
    hide Reachable, Inv, FinalizeRef, EventIdOf, FaultAllowed, HttpAllowed, TableGood, MessageOk;
    ReachableInv(env, s);
    HandlerHolds(env, s, h);
  }
}
