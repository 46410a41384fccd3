/** Every step of a handler keeps the invariant. */
module ProtocolSteps {
  import opened Contracts
  import opened Payload
  import opened Enriching
  import opened Identity
  import opened DynamoErrors
  import opened Provider
  import opened Table
  import opened TableInvariant
  import opened Protocol
  import opened ProtocolInvariant

  // -------------------------------------------------------------------------
  // Table writes
  // -------------------------------------------------------------------------

  ghost predicate Safe(env: Environment, t: Table, t': Table) {
    TableGood(env, t') && Grows(t, t') && NothingPublished(t, t')
  }

  /** The write claims no step. */
  predicate AttemptsKept(t: Table, t': Table) {
    t'.steps.Keys == t.steps.Keys && forall k | k in t.steps :: t'.steps[k].attempt == t.steps[k].attempt
  }

  /** The write makes no workflow terminal. */
  predicate WorkflowsKept(t: Table, t': Table) {
    t'.workflows == t.workflows
  }

  lemma SafeReflexive(env: Environment, t: Table)
    requires TableGood(env, t)
    ensures Safe(env, t, t)
  {
    hide TableGood;
  }

  lemma UnsettledSafe(env: Environment, t: Table, t': Table, k: StepRef)
    requires TableGood(env, t) && TableInv(t') && Grows(t, t') && Unsettled(t, t', k)
    ensures Safe(env, t, t') && WorkflowsKept(t, t')
  {
    hide TableInv, Grows, EventIdOf, OutcomeOk;
    if AdvanceRetries(env) { SettledKept(t, t'); }
  }

  lemma BeginSafe(env: Environment, t: Table, r: RequestId, step: StepId, at: When)
    requires TableGood(env, t) && r in t.workflows && Event(r, step) in t.outbox
    ensures var ref := if step == FINALIZE then Some(FinalizeRef(r)) else None;
            var t' := BeginStep(t, r, step, ref, at).0;
            Safe(env, t, t') && WorkflowsKept(t, t')
  {
    hide TableInv, Grows, EventIdOf, FinalizeRef, OutcomesOk, EnrichSettled, Safe, BeginStep, Unsettled;
    var ref := if step == FINALIZE then Some(FinalizeRef(r)) else None;
    BeginKeeps(t, r, step, ref, at);
    UnsettledSafe(env, t, BeginStep(t, r, step, ref, at).0, (r, step));
  }

  lemma MarkUnknownSafe(env: Environment, t: Table, r: RequestId, at: When)
    requires TableGood(env, t)
    ensures Safe(env, t, MarkUnknown(t, r, FINALIZE, at)) && WorkflowsKept(t, MarkUnknown(t, r, FINALIZE, at))
    ensures AttemptsKept(t, MarkUnknown(t, r, FINALIZE, at))
  {
    hide TableInv, Grows, EventIdOf, OutcomesOk, EnrichSettled, Safe, Unsettled;
    MarkUnknownKeeps(t, r, FINALIZE, at);
    UnsettledSafe(env, t, MarkUnknown(t, r, FINALIZE, at), (r, FINALIZE));
  }

  lemma AdvanceSafe(env: Environment, t: Table, r: RequestId, enrichment: Enrichment, at: When)
    requires TableGood(env, t) && r in t.workflows && (r, ENRICH) in t.steps
    requires EnrichmentFor(enrichment, t.workflows[r].input) && Supported(t.workflows[r].input)
    ensures var t' := Advanced(t, r, enrichment, at);
            Safe(env, t, t') && WorkflowsKept(t, t') && AttemptsKept(t, t')
  {
    hide TableInv, Grows, OutcomeOk, EnrichmentFor, Supported;
    AdvanceKeeps(t, r, enrichment, at);
    var t' := Advanced(t, r, enrichment, at);
    if AdvanceRetries(env) {
      forall q | StepSucceeded(t, q, ENRICH) && Event(q, FINALIZE) in t.outbox ensures StepSucceeded(t', q, ENRICH) {}
      SettledKept(t, t');
    }
  }

  /** When a terminal write leaves the trusted facts alone. */
  ghost predicate MayConclude(env: Environment, t: Table, r: RequestId, step: StepId, verdict: Verdict) {
    && (r, step) in t.steps && r in t.workflows && (verdict.Complete? ==> step == FINALIZE)
    && (AdvanceRetries(env) && step == ENRICH ==> !Supported(t.workflows[r].input))
    && (Trusted(env) ==> VerdictMatches(t.workflows[r].input, verdict))
  }

  lemma TerminalSafe(env: Environment, t: Table, r: RequestId, step: StepId, verdict: Verdict, at: When)
    requires TableGood(env, t) && MayConclude(env, t, r, step, verdict)
    ensures var t' := WriteTerminal(t, r, step, verdict, at).0;
            Safe(env, t, t') && AttemptsKept(t, t')
  {
    hide TableInv, Grows, OutcomesOk, EnrichSettled, VerdictMatches, Supported, TerminalItem;
    TerminalKeeps(t, r, step, verdict, at);
    TerminalGrows(t, r, step, verdict, at);
    if AdvanceRetries(env) { TerminalSettled(t, r, step, verdict, at); }
    if Trusted(env) { TerminalOutcome(t, r, step, verdict, at); }
  }

  // -------------------------------------------------------------------------
  // What a step must establish
  // -------------------------------------------------------------------------

  ghost predicate StepGood(env: Environment, s: System, h: nat, e: Effect)
    requires h in s.handlers
  {
    var hd := s.handlers[h].(pc := e.pc);
    && Safe(env, s.table, e.table)
    && HandlerOk(env, e.table, s.store, hd)
    && WireInv(e.table, e.wire)
    && ResultsOk(e.table, s.store)
    && ClaimsOk(e.table, e.history.claims)
    && CallsOk(e.table, s.handlers[h := hd], e.history)
    && e.history.sent == s.history.sent
    && (forall r | r in e.history.starter :: e.history.starter[r] < s.nextId)
  }

  predicate Bare(pc: Pc) {
    pc.Execute? && !pc.reconciled
  }

  lemma CallsFrame(t: Table, t': Table, handlers: map<nat, Handler>, h: nat, hd: Handler, history: History)
    requires Grows(t, t') && CallsOk(t, handlers, history) && !Bare(hd.pc)
    ensures CallsOk(t', handlers[h := hd], history)
  {}

  lemma ClaimsFrame(t: Table, t': Table, claims: map<StepRef, nat>)
    requires ClaimsOk(t, claims) && AttemptsKept(t, t')
    ensures ClaimsOk(t', claims)
  {}

  /** A write that is no claim, leading to a place that is no unreconciled call. */
  lemma WriteStep(env: Environment, s: System, h: nat, t': Table, pc: Pc)
    requires Inv(env, s) && h in s.handlers && !Bare(pc)
    requires Safe(env, s.table, t') && AttemptsKept(s.table, t') && ResultsOk(t', s.store)
    requires HandlerOk(env, t', s.store, s.handlers[h].(pc := pc))
    ensures StepGood(env, s, h, Effect(t', pc, s.wire, s.history))
  {
    hide TableGood, StoreInv, ResultsOk, HandlersOk, CopiesOk, TokensOk, PublishersOk, SentOk, ApiOk, HandlerOk,
      NothingPublished, Grows, WireInv, ClaimsOk, CallsOk, AttemptsKept;
    WireFrame(s.table, t', s.wire);
    ClaimsFrame(s.table, t', s.history.claims);
    CallsFrame(s.table, t', s.handlers, h, s.handlers[h].(pc := pc), s.history);
  }

  lemma QuietStep(env: Environment, s: System, h: nat, pc: Pc)
    requires Inv(env, s) && h in s.handlers && !Bare(pc)
    requires HandlerOk(env, s.table, s.store, s.handlers[h].(pc := pc))
    ensures StepGood(env, s, h, Stays(s, pc))
  {
    hide TableGood, StoreInv, ResultsOk, HandlersOk, CopiesOk, TokensOk, PublishersOk, SentOk, ApiOk, HandlerOk,
      WireInv, ClaimsOk, CallsOk, Safe;
    SafeReflexive(env, s.table);
    WriteStep(env, s, h, s.table, pc);
  }

  lemma RetryStep(env: Environment, s: System, h: nat)
    requires Inv(env, s) && h in s.handlers
    ensures StepGood(env, s, h, Stays(s, Retry))
  {
    hide TableGood, StoreInv, ResultsOk, CopiesOk, TokensOk, PublishersOk, SentOk, ApiOk, MessageOk,
      WireInv, ClaimsOk, CallsOk, StepGood;
    assert HandlerOk(env, s.table, s.store, s.handlers[h]);
    QuietStep(env, s, h, Retry);
  }

  lemma ResultsKept(t: Table, t': Table, store: Store)
    requires ResultsOk(t, store) && WorkflowsKept(t, t')
    ensures ResultsOk(t', store)
  {
    hide ResultOk;
  }

  /** The three ways a write can go, from the two ways it can leave the table. */
  lemma WroteStep(env: Environment, s: System, h: nat, db: DbCall, written: Table, answered: Pc, refused: Pc)
    requires Inv(env, s) && h in s.handlers && !Bare(answered) && !Bare(refused) && !Bare(s.handlers[h].pc)
    requires Safe(env, s.table, written) && AttemptsKept(s.table, written) && ResultsOk(written, s.store)
    requires HandlerOk(env, written, s.store, s.handlers[h].(pc := answered))
    requires HandlerOk(env, s.table, s.store, s.handlers[h].(pc := refused))
    ensures StepGood(env, s, h, Wrote(s, db, written, answered, s.handlers[h].pc, refused))
  {
    hide TableGood, StoreInv, ResultsOk, CopiesOk, TokensOk, PublishersOk, SentOk, ApiOk, MessageOk,
      WireInv, ClaimsOk, CallsOk, StepGood, PcOk, NothingPublished, Grows, AttemptsKept;
    var hd := s.handlers[h];
    assert HandlerOk(env, s.table, s.store, hd);
    HandlerFrame(env, s.table, written, s.store, s.store, hd);
    match db
    case Answered => WriteStep(env, s, h, written, answered);
    case AnswerLost(true) => WriteStep(env, s, h, written, hd.pc);
    case AnswerLost(false) =>
      RetryIsOk(env, written, s.store, hd);
      WriteStep(env, s, h, written, Retry);
    case Refused(_) => QuietStep(env, s, h, refused);
  }

  lemma RetryIsOk(env: Environment, t: Table, store: Store, hd: Handler)
    requires HandlerOk(env, t, store, hd)
    ensures HandlerOk(env, t, store, hd.(pc := Retry))
  {
    hide MessageOk;
  }

  lemma ReadStep(env: Environment, s: System, h: nat, db: DbCall, answered: Pc)
    requires Inv(env, s) && h in s.handlers && !Bare(answered) && !Bare(s.handlers[h].pc)
    requires HandlerOk(env, s.table, s.store, s.handlers[h].(pc := answered))
    ensures StepGood(env, s, h, ReadThen(s, db, answered, s.handlers[h].pc))
  {
    hide TableGood, StoreInv, ResultsOk, CopiesOk, TokensOk, PublishersOk, SentOk, ApiOk, HandlerOk,
      WireInv, ClaimsOk, CallsOk, StepGood;
    var hd := s.handlers[h];
    assert HandlerOk(env, s.table, s.store, hd);
    match db
    case Answered => QuietStep(env, s, h, answered);
    case AnswerLost(true) =>
      assert hd.(pc := hd.pc) == hd;
      QuietStep(env, s, h, hd.pc);
    case _ => RetryStep(env, s, h);
  }

  lemma HandlerHolds(env: Environment, s: System, h: nat)
    requires Inv(env, s) && h in s.handlers
    ensures TableGood(env, s.table) && HandlerOk(env, s.table, s.store, s.handlers[h])
    ensures s.handlers[h].message.requestId in s.table.workflows
  {
    hide TableGood, StoreInv, ResultsOk, CopiesOk, TokensOk, PublishersOk, SentOk, ApiOk, WireInv, ClaimsOk, CallsOk;
    assert HandlerOk(env, s.table, s.store, s.handlers[h]);
  }

  lemma ResultsHold(env: Environment, s: System)
    requires Inv(env, s)
    ensures ResultsOk(s.table, s.store)
  {
    hide ResultsOk, TableGood, StoreInv, HandlersOk, CopiesOk, TokensOk, PublishersOk, SentOk, ApiOk;
  }

  // -------------------------------------------------------------------------
  // Claims
  // -------------------------------------------------------------------------

  function ClaimRef(r: RequestId, step: StepId): Option<ExternalRef> {
    if step == FINALIZE then Some(FinalizeRef(r)) else None
  }

  lemma ClaimCounts(t: Table, r: RequestId, step: StepId, at: When, claims: map<StepRef, nat>)
    requires ClaimsOk(t, claims)
    ensures var (t', result) := BeginStep(t, r, step, ClaimRef(r, step), at);
            ClaimsOk(t', if result.ALREADY_SUCCEEDED? then claims else claims[(r, step) := Times(claims, (r, step)) + 1])
  {
    hide FinalizeRef;
  }

  lemma ClaimCalls(t: Table, handlers: map<nat, Handler>, h: nat, hd: Handler, history: History, history': History,
                   step: StepId, at: When, started: bool)
    requires CallsOk(t, handlers, history)
    requires var result := BeginStep(t, hd.message.requestId, step, ClaimRef(hd.message.requestId, step), at).1;
             started ==> result.STARTED? && step == FINALIZE
    requires Bare(hd.pc) ==> started
    requires history'.bareCalls == history.bareCalls
    requires history'.starter == if started then history.starter[hd.message.requestId := h] else history.starter
    ensures CallsOk(BeginStep(t, hd.message.requestId, step, ClaimRef(hd.message.requestId, step), at).0,
                    handlers[h := hd], history')
  {
    hide FinalizeRef, ClaimedItem, RebuiltStep;
  }

  /** A claim that is answered, and one whose answer is lost. */
  lemma ClaimStep(env: Environment, s: System, h: nat, step: StepId, at: When, db: DbCall, answered: BeginStepResult -> Pc)
    requires Inv(env, s) && h in s.handlers && !Bare(s.handlers[h].pc)
    requires s.handlers[h].message.requestId in s.table.workflows
    requires Event(s.handlers[h].message.requestId, step) in s.table.outbox
    requires var r := s.handlers[h].message.requestId;
             var (t', result) := BeginStep(s.table, r, step, ClaimRef(r, step), at);
             HandlerOk(env, t', s.store, s.handlers[h].(pc := answered(result))) &&
             (Bare(answered(result)) ==> result.STARTED? && step == FINALIZE)
    ensures var r := s.handlers[h].message.requestId;
            StepGood(env, s, h, Claim(s, h, r, step, ClaimRef(r, step), at, db, answered, s.handlers[h].pc))
  {
    hide TableGood, StoreInv, ResultsOk, CopiesOk, TokensOk, PublishersOk, SentOk, ApiOk, WireInv, ClaimsOk, CallsOk,
      HandlerOk, BeginStep, FinalizeRef, EventIdOf, Grows, NothingPublished, WorkflowsKept;
    var hd := s.handlers[h];
    var r := hd.message.requestId;
    var (t', result) := BeginStep(s.table, r, step, ClaimRef(r, step), at);
    var e := Claim(s, h, r, step, ClaimRef(r, step), at, db, answered, hd.pc);
    assert HandlerOk(env, s.table, s.store, hd);
    BeginSafe(env, s.table, r, step, at);
    if db.Refused? {
      RetryStep(env, s, h);
    } else {
      HandlerFrame(env, s.table, t', s.store, s.store, hd);
      RetryIsOk(env, t', s.store, hd);
      WireFrame(s.table, t', s.wire);
      ResultsKept(s.table, t', s.store);
      ClaimCounts(s.table, r, step, at, s.history.claims);
      ClaimCalls(s.table, s.handlers, h, hd.(pc := e.pc), s.history, e.history, step, at,
                 db.Answered? && result.STARTED? && step == FINALIZE);
    }
  }

  // -------------------------------------------------------------------------
  // Worker A
  // -------------------------------------------------------------------------

  lemma DoneIfTerminal(env: Environment, t: Table, store: Store, hd: Handler)
    requires MessageOk(t, hd.queue, hd.message) && IsTerminal(t.workflows[hd.message.requestId].status)
    ensures HandlerOk(env, t, store, hd.(pc := Done))
  {
    hide EventIdOf;
  }

  lemma EnrichStart(env: Environment, s: System, h: nat, at: When, db: DbCall)
    requires Inv(env, s) && h in s.handlers && s.handlers[h].queue == START_QUEUE && s.handlers[h].pc.Start?
    ensures StepGood(env, s, h, EnrichEffect(s, h, s.handlers[h], at, db))
  {
    hide Inv, TableGood,
      StepGood, EventIdOf;
    var hd := s.handlers[h];
    var r := hd.message.requestId;
    HandlerHolds(env, s, h);
    var answered := if IsTerminal(s.table.workflows[r].status) then Done else ClaimEnrich(s.table.workflows[r].input);
    if IsTerminal(s.table.workflows[r].status) { DoneIfTerminal(env, s.table, s.store, hd); }
    ReadStep(env, s, h, db, answered);
  }

  lemma EnrichClaimed(env: Environment, s: System, h: nat, at: When)
    requires Inv(env, s) && h in s.handlers && s.handlers[h].queue == START_QUEUE && s.handlers[h].pc.ClaimEnrich?
    ensures var hd := s.handlers[h];
            var (t', result) := BeginStep(s.table, hd.message.requestId, ENRICH, None, at);
            HandlerOk(env, t', s.store,
                      hd.(pc := if result.ALREADY_SUCCEEDED? then Done else Enriching(hd.pc.input)))
  {
    hide Inv,
      EventIdOf, WorkflowOk, MappingOk, OutboxOk, FinalizeRef;
    var hd := s.handlers[h];
    var r := hd.message.requestId;
    HandlerHolds(env, s, h);
    if (r, ENRICH) in s.table.steps { assert StepOk(s.table, (r, ENRICH)); }
  }

  lemma EnrichClaim(env: Environment, s: System, h: nat, at: When, db: DbCall)
    requires Inv(env, s) && h in s.handlers && s.handlers[h].queue == START_QUEUE && s.handlers[h].pc.ClaimEnrich?
    ensures StepGood(env, s, h, EnrichEffect(s, h, s.handlers[h], at, db))
  {
    hide Inv, TableGood,
      StepGood, EventIdOf, BeginStep, Claim;
    var hd := s.handlers[h];
    HandlerHolds(env, s, h);
    EnrichClaimed(env, s, h, at);
    ClaimStep(env, s, h, ENRICH, at, db,
              (r: BeginStepResult) => if r.ALREADY_SUCCEEDED? then Done else Enriching(hd.pc.input));
  }

  lemma EnrichCompute(env: Environment, s: System, h: nat, at: When, db: DbCall)
    requires Inv(env, s) && h in s.handlers && s.handlers[h].queue == START_QUEUE && s.handlers[h].pc.Enriching?
    ensures StepGood(env, s, h, EnrichEffect(s, h, s.handlers[h], at, db))
  {
    hide Inv, TableGood,
      StepGood, EventIdOf, NormalizeReference, RiskBandFor, UnsupportedCurrency, Supported;
    var hd := s.handlers[h];
    HandlerHolds(env, s, h);
    QuietStep(env, s, h, if Supported(hd.pc.input) then Advance(Enrich(hd.pc.input, at.now))
                         else FailEnrich(UnsupportedCurrency(hd.pc.input)));
  }

  lemma AdvanceDone(env: Environment, t: Table, store: Store, hd: Handler, enrichment: Enrichment, at: When)
    requires TableGood(env, t) && HandlerOk(env, t, store, hd) && hd.message.EnrichMessage?
    requires Safe(env, t, AdvanceStep(t, hd.message.requestId, hd.message.tenantId, enrichment, at).0)
    ensures HandlerOk(env, AdvanceStep(t, hd.message.requestId, hd.message.tenantId, enrichment, at).0, store, hd.(pc := Done))
  {
    hide EventIdOf, WorkflowOk, MappingOk, OutboxOk, FinalizeRef, PendingEvent, AdvancedItem, PcOk, NothingPublished,
      OutcomesOk, EnrichSettled;
    var r := hd.message.requestId;
    var t' := AdvanceStep(t, r, hd.message.tenantId, enrichment, at).0;
    if (r, ENRICH) in t.steps { assert StepOk(t, (r, ENRICH)); }
    MessageFrame(t, t', hd.queue, hd.message);
    assert !Needed(t', hd.message);
    assert PcOk(env, t', store, hd.message, Done) by { DonePc(env, t', store, hd.message); }
  }

  lemma DonePc(env: Environment, t: Table, store: Store, m: Message)
    requires m.requestId in t.workflows && !Needed(t, m)
    ensures PcOk(env, t, store, m, Done)
  {
    hide Needed;
  }

  lemma TenantOfMessage(t: Table, queue: Destination, m: Message)
    requires TableInv(t) && MessageOk(t, queue, m)
    ensures m.tenantId == t.workflows[m.requestId].tenantId
  {
    hide EventIdOf, WorkflowOk, StepOk, MappingOk;
    assert OutboxOk(t, Event(m.requestId, StepOf(m)));
  }

  lemma CaughtEnrich(env: Environment, s: System, h: nat, db: DbCall)
    requires Inv(env, s) && h in s.handlers && s.handlers[h].pc.Advance? && FaultAllowed(env, s.handlers[h].pc, db)
    ensures HandlerOk(env, s.table, s.store, s.handlers[h].(pc := Caught(db, (e: AppError) => FailEnrich(e))))
  {
    hide Inv, TableGood,
      EventIdOf, IsRetryable, IsFault;
    HandlerHolds(env, s, h);
  }

  lemma EnrichAdvance(env: Environment, s: System, h: nat, at: When, db: DbCall)
    requires Inv(env, s) && h in s.handlers && s.handlers[h].queue == START_QUEUE && s.handlers[h].pc.Advance?
    requires FaultAllowed(env, s.handlers[h].pc, db)
    ensures StepGood(env, s, h, EnrichEffect(s, h, s.handlers[h], at, db))
  {
    hide Inv,
      StepGood, EventIdOf, TableInv, OutcomesOk, EnrichSettled, AdvanceStep, FaultAllowed, EnrichmentFor, Supported,
      Safe, WorkflowsKept, AttemptsKept, Wrote;
    var hd := s.handlers[h];
    var r, t := hd.message.requestId, s.table;
    HandlerHolds(env, s, h);
    TenantOfMessage(t, hd.queue, hd.message);
    AdvanceSafe(env, t, r, hd.pc.enrichment, at);
    AdvanceDone(env, t, s.store, hd, hd.pc.enrichment, at);
    ResultsHold(env, s);
    ResultsKept(t, Advanced(t, r, hd.pc.enrichment, at), s.store);
    CaughtEnrich(env, s, h, db);
    WroteStep(env, s, h, db, Advanced(t, r, hd.pc.enrichment, at), Done, Caught(db, (e: AppError) => FailEnrich(e)));
  }

  lemma TerminalDone(env: Environment, t: Table, store: Store, hd: Handler, step: StepId, verdict: Verdict, at: When)
    requires HandlerOk(env, t, store, hd)
    requires Safe(env, t, WriteTerminal(t, hd.message.requestId, step, verdict, at).0)
    ensures HandlerOk(env, WriteTerminal(t, hd.message.requestId, step, verdict, at).0, store, hd.(pc := Done))
  {
    hide EventIdOf, PcOk, NothingPublished, TableGood;
    var t' := WriteTerminal(t, hd.message.requestId, step, verdict, at).0;
    MessageFrame(t, t', hd.queue, hd.message);
    DonePc(env, t', store, hd.message);
  }

  lemma FailedResults(t: Table, store: Store, r: RequestId, step: StepId, error: AppError, at: When)
    requires ResultsOk(t, store)
    ensures ResultsOk(WriteTerminal(t, r, step, Fail(error), at).0, store)
  {
    var t' := WriteTerminal(t, r, step, Fail(error), at).0;
    forall q | q in t'.workflows ensures ResultOk(t'.workflows[q], store) {
      if q != r { assert t'.workflows[q] == t.workflows[q]; }
    }
  }

  lemma FailStep(env: Environment, s: System, h: nat, step: StepId, error: AppError, at: When, db: DbCall)
    requires Inv(env, s) && h in s.handlers && !Bare(s.handlers[h].pc)
    requires MayConclude(env, s.table, s.handlers[h].message.requestId, step, Fail(error))
    ensures StepGood(env, s, h, Wrote(s, db, WriteTerminal(s.table, s.handlers[h].message.requestId, step, Fail(error), at).0,
                                      Done, s.handlers[h].pc, Retry))
  {
    hide Inv, TableGood,
      StepGood, EventIdOf, WriteTerminal, HandlerOk, MayConclude, Safe, AttemptsKept, Wrote;
    var hd := s.handlers[h];
    HandlerHolds(env, s, h);
    TerminalSafe(env, s.table, hd.message.requestId, step, Fail(error), at);
    TerminalDone(env, s.table, s.store, hd, step, Fail(error), at);
    ResultsHold(env, s);
    FailedResults(s.table, s.store, hd.message.requestId, step, error, at);
    RetryIsOk(env, s.table, s.store, hd);
    WroteStep(env, s, h, db, WriteTerminal(s.table, hd.message.requestId, step, Fail(error), at).0, Done, Retry);
  }

  lemma EnrichFail(env: Environment, s: System, h: nat, at: When, db: DbCall)
    requires Inv(env, s) && h in s.handlers && s.handlers[h].queue == START_QUEUE && s.handlers[h].pc.FailEnrich?
    ensures StepGood(env, s, h, EnrichEffect(s, h, s.handlers[h], at, db))
  {
    hide Inv, TableGood,
      StepGood, EventIdOf, WriteTerminal, UnsupportedCurrency, Supported, Wrote;
    var hd := s.handlers[h];
    HandlerHolds(env, s, h);
    UnsupportedOutcome(s.table.workflows[hd.message.requestId].input);
    FailStep(env, s, h, ENRICH, hd.pc.error, at, db);
  }

  lemma EnrichStepGood(env: Environment, s: System, h: nat, at: When, db: DbCall)
    requires Inv(env, s) && h in s.handlers && s.handlers[h].queue == START_QUEUE && FaultAllowed(env, s.handlers[h].pc, db)
    requires !s.handlers[h].pc.Done? && !s.handlers[h].pc.Retry?
    ensures StepGood(env, s, h, EnrichEffect(s, h, s.handlers[h], at, db))
  {
    hide Inv, TableGood,
      StepGood, EventIdOf, EnrichEffect, FaultAllowed;
    var hd := s.handlers[h];
    HandlerHolds(env, s, h);
    match hd.pc
    case Start => EnrichStart(env, s, h, at, db);
    case ClaimEnrich(_) => EnrichClaim(env, s, h, at, db);
    case Enriching(_) => EnrichCompute(env, s, h, at, db);
    case Advance(_) => EnrichAdvance(env, s, h, at, db);
    case FailEnrich(_) => EnrichFail(env, s, h, at, db);
    case _ => assert false;
  }

  // -------------------------------------------------------------------------
  // Finalizer
  // -------------------------------------------------------------------------

  lemma FinalizeStart(env: Environment, s: System, h: nat, at: When, db: DbCall, http: Http)
    requires Inv(env, s) && h in s.handlers && s.handlers[h].queue == STEP_QUEUE && s.handlers[h].pc.Start?
    ensures StepGood(env, s, h, FinalizeEffect(s, h, s.handlers[h], at, db, http))
  {
    hide Inv, StepGood, EventIdOf, TableGood;
    HandlerHolds(env, s, h);
    var hd := s.handlers[h];
    var r := hd.message.requestId;
    var answered := if IsTerminal(s.table.workflows[r].status) then Done else ClaimFinalize(s.table.workflows[r].input);
    if IsTerminal(s.table.workflows[r].status) { DoneIfTerminal(env, s.table, s.store, hd); }
    ReadStep(env, s, h, db, answered);
  }

  function AfterFinalizeClaim(input: OperationInput, r: BeginStepResult): Pc {
    if r.ALREADY_SUCCEEDED? then ReadStored else if r.STARTED? then Execute(input, false) else Reconcile(input)
  }

  lemma FinalizeClaimed(env: Environment, s: System, h: nat, at: When)
    requires Inv(env, s) && h in s.handlers && s.handlers[h].queue == STEP_QUEUE && s.handlers[h].pc.ClaimFinalize?
    ensures var hd := s.handlers[h];
            var (t', result) := BeginStep(s.table, hd.message.requestId, FINALIZE, Some(FinalizeRef(hd.message.requestId)), at);
            HandlerOk(env, t', s.store, hd.(pc := AfterFinalizeClaim(hd.pc.input, result)))
  {
    hide Inv, EventIdOf, MappingOk, OutboxOk, StepOk, FinalizeRef, PayloadHash;
    HandlerHolds(env, s, h);
    assert WorkflowOk(s.table, s.handlers[h].message.requestId);
  }

  lemma FinalizeClaim(env: Environment, s: System, h: nat, at: When, db: DbCall, http: Http)
    requires Inv(env, s) && h in s.handlers && s.handlers[h].queue == STEP_QUEUE && s.handlers[h].pc.ClaimFinalize?
    ensures StepGood(env, s, h, FinalizeEffect(s, h, s.handlers[h], at, db, http))
  {
    hide Inv, StepGood, EventIdOf, TableGood, BeginStep, Claim, FinalizeRef;
    HandlerHolds(env, s, h);
    var hd := s.handlers[h];
    FinalizeClaimed(env, s, h, at);
    ClaimStep(env, s, h, FINALIZE, at, db,
              (r: BeginStepResult) =>
                if r.ALREADY_SUCCEEDED? then ReadStored
                else if r.STARTED? then Execute(hd.pc.input, false)
                else Reconcile(hd.pc.input));
  }

  /** The stored FINALIZE step never carries a response, so this acknowledges. */
  lemma FinalizeReadStored(env: Environment, s: System, h: nat, at: When, db: DbCall, http: Http)
    requires Inv(env, s) && h in s.handlers && s.handlers[h].queue == STEP_QUEUE && s.handlers[h].pc.ReadStored?
    ensures StepGood(env, s, h, FinalizeEffect(s, h, s.handlers[h], at, db, http))
  {
    hide Inv, StepGood, EventIdOf, FinalizeRef, WorkflowOk, MappingOk, OutboxOk;
    HandlerHolds(env, s, h);
    var hd := s.handlers[h];
    var k := (hd.message.requestId, FINALIZE);
    DoneIfTerminal(env, s.table, s.store, hd);
    RetryIsOk(env, s.table, s.store, hd);
    if k in s.table.steps { assert StepOk(s.table, k); }
    ReadStep(env, s, h, db, if k in s.table.steps then Done else Retry);
  }

  lemma FinalizeReconcile(env: Environment, s: System, h: nat, at: When, db: DbCall, http: Http)
    requires Inv(env, s) && h in s.handlers && s.handlers[h].queue == STEP_QUEUE && s.handlers[h].pc.Reconcile?
    requires HttpAllowed(env, s, s.handlers[h], http)
    ensures StepGood(env, s, h, FinalizeEffect(s, h, s.handlers[h], at, db, http))
  {
    hide Inv, StepGood, EventIdOf, TableGood, FinalizeRef, Lookup;
    HandlerHolds(env, s, h);
    LookupClassifies(http);
    match Lookup(http)
    case Found(operation) => QuietStep(env, s, h, Settle(operation));
    case NotFound => QuietStep(env, s, h, Execute(s.handlers[h].pc.input, true));
    case LookupThrows(_) => RetryStep(env, s, h);
  }

  lemma FinalizeAwait(env: Environment, s: System, h: nat, at: When, db: DbCall, http: Http)
    requires Inv(env, s) && h in s.handlers && s.handlers[h].queue == STEP_QUEUE && s.handlers[h].pc.AwaitAnswer?
    requires HttpAllowed(env, s, s.handlers[h], http)
    ensures StepGood(env, s, h, FinalizeEffect(s, h, s.handlers[h], at, db, http))
  {
    hide Inv, StepGood, EventIdOf, TableGood, FinalizeRef, Provider.Execute;
    HandlerHolds(env, s, h);
    ExecuteClassifies(FinalizeRef(s.handlers[h].message.requestId), http);
    QuietStep(env, s, h, AfterExecute(FinalizeRef(s.handlers[h].message.requestId), http));
  }

  lemma RequestIsForWorkflow(t: Table, queue: Destination, m: Message, input: OperationInput)
    requires TableInv(t) && MessageOk(t, queue, m) && m.FinalizeMessage? && (m.requestId, FINALIZE) in t.steps
    requires input == t.workflows[m.requestId].input
    ensures CallFor(t, m.requestId, Call(FinalizeRef(m.requestId), RequestFor(input, m.enrichment)))
    ensures Supported(input) && m.enrichment.riskBand == RiskBandFor(input)
  {
    hide EventIdOf, FinalizeRef, TableInv;
    FinalizeEventCarriesFinalize(t, m.requestId);
  }

  lemma CallOnWire(t: Table, wire: set<Call>, r: RequestId, call: Call)
    requires WireInv(t, wire) && CallFor(t, r, call)
    ensures WireInv(t, wire + {call})
  {
    hide CallFor;
  }

  /** Only the handler told STARTED sends its call without having looked, and it is its first. */
  lemma CallCounted(t: Table, handlers: map<nat, Handler>, h: nat, history: History)
    requires CallsOk(t, handlers, history) && h in handlers && handlers[h].pc.Execute?
    ensures CallsOk(t, handlers[h := handlers[h].(pc := AwaitAnswer)], AfterCall(history, handlers[h]))
  {}

  function AfterCall(history: History, hd: Handler): History
    requires hd.pc.Execute?
  {
    var r := hd.message.requestId;
    history.(bareCalls := if hd.pc.reconciled then history.bareCalls
                          else history.bareCalls[r := Times(history.bareCalls, r) + 1])
  }

  lemma AwaitIsOk(env: Environment, t: Table, store: Store, hd: Handler)
    requires HandlerOk(env, t, store, hd) && hd.pc.Execute?
    ensures hd.message.FinalizeMessage? && hd.pc.input == t.workflows[hd.message.requestId].input
    ensures (hd.message.requestId, FINALIZE) in t.steps
    ensures HandlerOk(env, t, store, hd.(pc := AwaitAnswer))
  {
    hide MessageOk;
  }

  lemma CallStep(env: Environment, s: System, h: nat, call: Call)
    requires Inv(env, s) && h in s.handlers && s.handlers[h].pc.Execute?
    requires CallFor(s.table, s.handlers[h].message.requestId, call)
    requires HandlerOk(env, s.table, s.store, s.handlers[h].(pc := AwaitAnswer))
    ensures StepGood(env, s, h, Effect(s.table, AwaitAnswer, s.wire + {call}, AfterCall(s.history, s.handlers[h])))
  {
    hide TableGood, StoreInv, ResultsOk, HandlersOk, CopiesOk, TokensOk, PublishersOk, SentOk, ApiOk, HandlerOk,
      CallFor, Safe, WireInv, ClaimsOk, CallsOk;
    SafeReflexive(env, s.table);
    CallOnWire(s.table, s.wire, s.handlers[h].message.requestId, call);
    CallCounted(s.table, s.handlers, h, s.history);
  }

  lemma ExecuteEffect(s: System, h: nat, hd: Handler, at: When, db: DbCall, http: Http)
    requires hd.pc.Execute? && hd.message.FinalizeMessage?
    ensures FinalizeEffect(s, h, hd, at, db, http)
         == Effect(s.table, AwaitAnswer,
                   s.wire + {Call(FinalizeRef(hd.message.requestId), RequestFor(hd.pc.input, hd.message.enrichment))},
                   AfterCall(s.history, hd))
  {
    hide FinalizeRef;
  }

  lemma FinalizeExecute(env: Environment, s: System, h: nat, at: When, db: DbCall, http: Http)
    requires Inv(env, s) && h in s.handlers && s.handlers[h].queue == STEP_QUEUE && s.handlers[h].pc.Execute?
    ensures StepGood(env, s, h, FinalizeEffect(s, h, s.handlers[h], at, db, http))
  {
    hide Inv, StepGood, EventIdOf, TableGood, FinalizeRef, HandlerOk, CallFor, RequestFor, Supported, FinalizeEffect;
    HandlerHolds(env, s, h);
    var hd := s.handlers[h];
    AwaitIsOk(env, s.table, s.store, hd);
    ExecuteEffect(s, h, hd, at, db, http);
    TableOf(env, s.table);
    assert MessageOk(s.table, hd.queue, hd.message) by { MessageHolds(env, s, h); }
    RequestIsForWorkflow(s.table, hd.queue, hd.message, hd.pc.input);
    CallStep(env, s, h, Call(FinalizeRef(hd.message.requestId), RequestFor(hd.pc.input, hd.message.enrichment)));
  }

  lemma MessageHolds(env: Environment, s: System, h: nat)
    requires Inv(env, s) && h in s.handlers
    ensures MessageOk(s.table, s.handlers[h].queue, s.handlers[h].message)
  {
    hide Inv, MessageOk, PcOk, TableGood;
    HandlerHolds(env, s, h);
  }

  lemma TableOf(env: Environment, t: Table)
    requires TableGood(env, t)
    ensures TableInv(t)
  {
    hide TableInv;
  }

  lemma FinalizeRecordUnknown(env: Environment, s: System, h: nat, at: When, db: DbCall, http: Http)
    requires Inv(env, s) && h in s.handlers && s.handlers[h].queue == STEP_QUEUE && s.handlers[h].pc.RecordUnknown?
    ensures StepGood(env, s, h, FinalizeEffect(s, h, s.handlers[h], at, db, http))
  {
    hide Inv, StepGood, EventIdOf, TableGood, FinalizeRef, Wrote, Safe, WorkflowsKept, AttemptsKept, HandlerOk, MarkUnknown;
    HandlerHolds(env, s, h);
    var hd := s.handlers[h];
    var t' := MarkUnknown(s.table, hd.message.requestId, FINALIZE, at);
    MarkUnknownSafe(env, s.table, hd.message.requestId, at);
    SafeHandler(env, s, h, t');
    RetryIsOk(env, t', s.store, hd);
    RetryIsOk(env, s.table, s.store, hd);
    ResultsHold(env, s);
    ResultsKept(s.table, t', s.store);
    WroteStep(env, s, h, db, t', Retry, Retry);
  }

  lemma SafeHandler(env: Environment, s: System, h: nat, t': Table)
    requires Inv(env, s) && h in s.handlers && Safe(env, s.table, t')
    ensures HandlerOk(env, t', s.store, s.handlers[h])
  {
    hide Inv, HandlerOk, Grows, TableGood;
    HandlerHolds(env, s, h);
    HandlerFrame(env, s.table, t', s.store, s.store, s.handlers[h]);
  }

  /** The operation behind a settlement is this workflow's own. */
  lemma StoredIsOwned(env: Environment, t: Table, store: Store, r: RequestId, operation: Operation)
    requires StoreInv(env, t, store) && Stored(store, FinalizeRef(r), operation)
    ensures Owns(env, t, r, FinalizeRef(r), operation)
  {
    hide FinalizeRef, RiskBandFor, StoreOk, DistinctIds;
    var q :| Owns(env, t, q, FinalizeRef(r), operation);
    FinalizeKeysDiffer(q, r);
  }

  lemma FinalizeKeysDiffer(q: RequestId, r: RequestId)
    ensures FinalizeRef(q) == FinalizeRef(r) ==> q == r
  {
    if FinalizeRef(q) == FinalizeRef(r) { FinalizeRefInjective(q, r); }
  }

  lemma SettlementMayConclude(env: Environment, s: System, h: nat, now: nat)
    requires Inv(env, s) && h in s.handlers && s.handlers[h].queue == STEP_QUEUE && s.handlers[h].pc.Settle?
    ensures var hd := s.handlers[h];
            hd.message.FinalizeMessage? &&
            MayConclude(env, s.table, hd.message.requestId, FINALIZE, VerdictFor(hd.pc.operation, hd.message.enrichment, now))
  {
    hide HandlersOk, TableInv, OutcomesOk, EnrichSettled, CopiesOk, TokensOk, PublishersOk, SentOk, ApiOk, FinalizeRef, EventIdOf,
      UnsupportedCurrency, ResultsOk, WireInv, ClaimsOk, CallsOk;
    HandlerHolds(env, s, h);
    var hd := s.handlers[h];
    var r := hd.message.requestId;
    StoredIsOwned(env, s.table, s.store, r, hd.pc.operation);
    RequestIsForWorkflow(s.table, hd.queue, hd.message, s.table.workflows[r].input);
  }

  lemma SettledItem(w: WorkflowItem, store: Store, operation: Operation, enrichment: Enrichment, at: When)
    requires Stored(store, FinalizeRef(w.requestId), operation) && operation.amount == w.input.amount
    requires enrichment.riskBand == RiskBandFor(w.input)
    ensures ResultOk(TerminalItem(w, VerdictFor(operation, enrichment, at.now), at), store)
  {
    hide FinalizeRef, RiskBandFor;
  }

  lemma SettledResults(env: Environment, s: System, h: nat, at: When)
    requires Inv(env, s) && h in s.handlers && s.handlers[h].queue == STEP_QUEUE && s.handlers[h].pc.Settle?
    requires s.handlers[h].message.FinalizeMessage?
    ensures var hd := s.handlers[h];
            ResultsOk(WriteTerminal(s.table, hd.message.requestId, FINALIZE,
                                    VerdictFor(hd.pc.operation, hd.message.enrichment, at.now), at).0, s.store)
  {
    hide HandlersOk, OutcomesOk, EnrichSettled, CopiesOk, TokensOk, PublishersOk, SentOk, ApiOk, FinalizeRef, EventIdOf,
      WireInv, ClaimsOk, CallsOk, RiskBandFor, WorkflowOk, MappingOk, StepOk, OutboxOk, PayloadHash, ResultOk, TerminalItem,
      TerminalStep, VerdictFor;
    HandlerHolds(env, s, h);
    var hd := s.handlers[h];
    var r := hd.message.requestId;
    StoredIsOwned(env, s.table, s.store, r, hd.pc.operation);
    RequestIsForWorkflow(s.table, hd.queue, hd.message, s.table.workflows[r].input);
    assert s.table.workflows[r].requestId == r by { WorkflowIsNamed(s.table, r); }
    SettledItem(s.table.workflows[r], s.store, hd.pc.operation, hd.message.enrichment, at);
    var t' := WriteTerminal(s.table, r, FINALIZE, VerdictFor(hd.pc.operation, hd.message.enrichment, at.now), at).0;
    forall q | q in t'.workflows ensures ResultOk(t'.workflows[q], s.store) {
      if q != r { assert t'.workflows[q] == s.table.workflows[q]; }
    }
  }

  lemma WorkflowIsNamed(t: Table, r: RequestId)
    requires TableInv(t) && r in t.workflows
    ensures t.workflows[r].requestId == r
  {
    hide EventIdOf, PayloadHash, ValidInput;
    assert WorkflowOk(t, r);
  }

  lemma CaughtFinalize(env: Environment, s: System, h: nat, db: DbCall)
    requires Inv(env, s) && h in s.handlers && s.handlers[h].pc.Settle? && FaultAllowed(env, s.handlers[h].pc, db)
    ensures HandlerOk(env, s.table, s.store, s.handlers[h].(pc := Caught(db, (e: AppError) => FailFinalize(e))))
  {
    hide Inv, TableGood, EventIdOf, IsRetryable, IsFault, FinalizeRef;
    HandlerHolds(env, s, h);
  }

  lemma FinalizeSettle(env: Environment, s: System, h: nat, at: When, db: DbCall, http: Http)
    requires Inv(env, s) && h in s.handlers && s.handlers[h].queue == STEP_QUEUE && s.handlers[h].pc.Settle?
    requires FaultAllowed(env, s.handlers[h].pc, db)
    ensures StepGood(env, s, h, FinalizeEffect(s, h, s.handlers[h], at, db, http))
  {
    hide Inv, StepGood, EventIdOf, TableGood, FinalizeRef, Wrote, Safe, AttemptsKept, HandlerOk, WriteTerminal,
      FaultAllowed, VerdictFor, MayConclude;
    HandlerHolds(env, s, h);
    var hd := s.handlers[h];
    SettlementMayConclude(env, s, h, at.now);
    var verdict := VerdictFor(hd.pc.operation, hd.message.enrichment, at.now);
    TerminalSafe(env, s.table, hd.message.requestId, FINALIZE, verdict, at);
    TerminalDone(env, s.table, s.store, hd, FINALIZE, verdict, at);
    SettledResults(env, s, h, at);
    CaughtFinalize(env, s, h, db);
    WroteStep(env, s, h, db, WriteTerminal(s.table, hd.message.requestId, FINALIZE, verdict, at).0, Done,
              Caught(db, (e: AppError) => FailFinalize(e)));
  }

  lemma FinalizeFail(env: Environment, s: System, h: nat, at: When, db: DbCall, http: Http)
    requires Inv(env, s) && h in s.handlers && s.handlers[h].queue == STEP_QUEUE && s.handlers[h].pc.FailFinalize?
    ensures StepGood(env, s, h, FinalizeEffect(s, h, s.handlers[h], at, db, http))
  {
    hide Inv, StepGood, EventIdOf, TableGood, WriteTerminal, Wrote, FinalizeRef;
    HandlerHolds(env, s, h);
    FailStep(env, s, h, FINALIZE, s.handlers[h].pc.error, at, db);
  }

  lemma FinalizeStepGood(env: Environment, s: System, h: nat, at: When, db: DbCall, http: Http)
    requires Inv(env, s) && h in s.handlers && s.handlers[h].queue == STEP_QUEUE
    requires FaultAllowed(env, s.handlers[h].pc, db) && HttpAllowed(env, s, s.handlers[h], http)
    requires !s.handlers[h].pc.Done? && !s.handlers[h].pc.Retry?
    ensures StepGood(env, s, h, FinalizeEffect(s, h, s.handlers[h], at, db, http))
  {
    hide Inv, StepGood, EventIdOf, TableGood, FinalizeEffect, FaultAllowed, HttpAllowed;
    HandlerHolds(env, s, h);
    match s.handlers[h].pc
    case Start => FinalizeStart(env, s, h, at, db, http);
    case ClaimFinalize(_) => FinalizeClaim(env, s, h, at, db, http);
    case ReadStored => FinalizeReadStored(env, s, h, at, db, http);
    case Reconcile(_) => FinalizeReconcile(env, s, h, at, db, http);
    case Execute(_, _) => FinalizeExecute(env, s, h, at, db, http);
    case AwaitAnswer => FinalizeAwait(env, s, h, at, db, http);
    case RecordUnknown => FinalizeRecordUnknown(env, s, h, at, db, http);
    case Settle(_) => FinalizeSettle(env, s, h, at, db, http);
    case FailFinalize(_) => FinalizeFail(env, s, h, at, db, http);
    case _ => assert false;
  }
}
