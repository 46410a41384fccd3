/** The system as a step relation. Every handler is a sequence of awaits, so it is a program
    counter, and any other step may come between two of its own. Table steps are the
    transitions of `Table`, provider steps those of `Provider`.
    Models apps/worker-a/src/handler.ts, apps/finalizer/src/handler.ts, the publish step of
    apps/outbox-publisher/src/handler.ts and apps/reconciler/src/handler.ts, the routes of
    apps/api/src/app.ts, and the delivery of packages/testing/src/queue.ts. */
module Protocol {
  import opened Contracts
  import opened Payload
  import opened Enriching
  import opened DynamoErrors
  import opened Provider
  import opened Table

  // -------------------------------------------------------------------------
  // State
  // -------------------------------------------------------------------------

  /** What the surroundings may do. Any database fault may strike any call; the two sets are
      the faults that may strike the two writes a handler makes inside its try block, where a
      permanent fault becomes the workflow's failure. `declines`: the provider may decline what
      it should settle. `rejects`: it may answer 4xx. */
  datatype Environment = Environment(
    advanceFaults: iset<DynamoError>,
    terminalFaults: iset<DynamoError>,
    declines: bool,
    rejects: bool)

  /** No fault of the set would be taken for a permanent one. */
  ghost predicate AllRetryable(faults: iset<DynamoError>) {
    forall e | e in faults && IsFault(e) :: IsRetryable(e)
  }

  ghost predicate AdvanceRetries(env: Environment) {
    AllRetryable(env.advanceFaults)
  }

  ghost predicate Trusted(env: Environment) {
    AdvanceRetries(env) && AllRetryable(env.terminalFaults) && !env.declines && !env.rejects
  }

  /** A message held by a queue: visible, in flight, or in the dead-letter queue. */
  datatype Copy = Copy(queue: Destination, message: Message, dead: bool)

  /** Where a handler stands between two awaits. `Start` to `Done` or `Retry`. */
  datatype Pc =
    | Start
    // worker A
    | ClaimEnrich(input: OperationInput)
    | Enriching(input: OperationInput)
    | Advance(enrichment: Enrichment)
    | FailEnrich(error: AppError)
    // finalizer
    | ClaimFinalize(input: OperationInput)
    | ReadStored
    | Reconcile(input: OperationInput)
    | Execute(input: OperationInput, reconciled: bool)
    | AwaitAnswer
    | RecordUnknown
    | Settle(operation: Operation)
    | FailFinalize(error: AppError)
    // what processBatch is told
    | Done
    | Retry

  datatype Handler = Handler(copy: nat, queue: Destination, message: Message, pc: Pc)

  /** The publisher or the reconciler with one event in hand. */
  datatype Publisher = Sending(event: EventRef) | Marking(event: EventRef)

  /** An execute request that has left the finalizer. */
  datatype Call = Call(key: ExternalRef, request: OperationRequest)

  /** An HTTP caller waiting for a workflow. */
  datatype Session = Session(tenantId: TenantId, idempotencyKey: IdempotencyKey, payloadHash: string, requestId: RequestId)

  datatype TerminalBody =
    | CompletedBody(requestId: RequestId, result: Option<OperationResult>)
    | FailedBody(requestId: RequestId, code: ErrorCode, message: string)

  datatype Answer =
    | Conflict409
    | Processing202(requestId: RequestId)
    | Terminal200(body: TerminalBody)

  datatype Reply = Reply(tenantId: TenantId, idempotencyKey: IdempotencyKey, payloadHash: string, answer: Answer)

  /** What happened, kept only to be stated: nothing reads it. */
  datatype History = History(
    claims: map<StepRef, nat>,
    starter: map<RequestId, nat>,
    bareCalls: map<RequestId, nat>,
    sent: set<EventRef>)

  datatype System = System(
    table: Table,
    store: Store,
    copies: map<nat, Copy>,
    handlers: map<nat, Handler>,
    publishers: map<nat, Publisher>,
    wire: set<Call>,
    sessions: map<nat, Session>,
    replies: set<Reply>,
    nextId: nat,
    history: History)

  const INITIAL: System :=
    System(EMPTY, EMPTY_STORE, map[], map[], map[], {}, map[], {}, 0, History(map[], map[], map[], {}))

  // -------------------------------------------------------------------------
  // Actions
  // -------------------------------------------------------------------------

  /** How a table call went. An answer can be lost after the write; the SDK then either sends
      the same write again or gives up with a RETRYABLE error. */
  datatype DbCall = Answered | AnswerLost(resend: bool) | Refused(error: DynamoError)

  datatype Sent = Delivered | SentAnswerLost | NotSent

  datatype Action =
    // API
    | Post(tenantId: TenantId, idempotencyKey: IdempotencyKey, input: OperationInput, requestId: RequestId,
           syncDeadlineAt: nat, businessDeadlineAt: nat, at: When, db: DbCall)
    | Poll(session: nat)
    | GiveUp(session: nat)
    | Disconnect(session: nat)
    // publication
    | PickEvent(event: EventRef, replay: bool)
    | Send(publisher: nat, sent: Sent)
    | Mark(publisher: nat, at: When, db: DbCall)
    | PublisherDies(publisher: nat)
    // delivery
    | Duplicate(copy: nat)
    | Deliver(copy: nat)
    | Acknowledge(handler: nat)
    | MoveToDlq(copy: nat)
    | Redrive(copy: nat)
    | HandlerDies(handler: nat)
    // work
    | Step(handler: nat, at: When, db: DbCall, http: Http)
    | Perform(call: Call, decline: bool, now: nat)

  // -------------------------------------------------------------------------
  // Handlers
  // -------------------------------------------------------------------------

  /** What one step of a handler does. */
  datatype Effect = Effect(table: Table, pc: Pc, wire: set<Call>, history: History)

  /** After a write: applied and answered, applied with the answer lost, or refused. */
  function Wrote(s: System, db: DbCall, written: Table, answered: Pc, current: Pc, refused: Pc): Effect {
    match db
    case Answered => Effect(written, answered, s.wire, s.history)
    case AnswerLost(resend) => Effect(written, if resend then current else Retry, s.wire, s.history)
    case Refused(_) => Effect(s.table, refused, s.wire, s.history)
  }

  function Stays(s: System, pc: Pc): Effect {
    Effect(s.table, pc, s.wire, s.history)
  }

  /** After a read: without an answer the handler throws, or the SDK reads again. */
  function ReadThen(s: System, db: DbCall, answered: Pc, current: Pc): Effect {
    match db
    case Answered => Stays(s, answered)
    case AnswerLost(resend) => Stays(s, if resend then current else Retry)
    case Refused(_) => Stays(s, Retry)
  }

  /** A NON_RETRYABLE fault inside the handler's try block becomes the workflow's failure. */
  function Caught(db: DbCall, failed: AppError -> Pc): Pc {
    if db.Refused? && ClassifyDynamoError(db.error).failureClass == NON_RETRYABLE then failed(ClassifyDynamoError(db.error)) else Retry
  }

  function Times<K>(m: map<K, nat>, k: K): nat {
    if k in m then m[k] else 0
  }

  /** A claim, with its place in the history. */
  function Claim(s: System, h: nat, rid: RequestId, step: StepId, ref: Option<ExternalRef>, at: When, db: DbCall,
                 answered: BeginStepResult -> Pc, current: Pc): Effect {
    var (written, result) := BeginStep(s.table, rid, step, ref, at);
    var effect := Wrote(s, db, written, answered(result), current, Retry);
    if db.Refused? || result.ALREADY_SUCCEEDED? then effect
    else
      var claims := s.history.claims[(rid, step) := Times(s.history.claims, (rid, step)) + 1];
      var starter := if db.Answered? && result.STARTED? && step == FINALIZE
                     then s.history.starter[rid := h] else s.history.starter;
      effect.(history := s.history.(claims := claims, starter := starter))
  }

  /** One step of worker A, from one await to the next. */
  function EnrichEffect(s: System, h: nat, hd: Handler, at: When, db: DbCall): Effect {
    var t, rid := s.table, hd.message.requestId;
    match hd.pc
    case Start =>
      if hd.message.FinalizeMessage? then Stays(s, Done)
      else ReadThen(s, db, if rid !in t.workflows || IsTerminal(t.workflows[rid].status) then Done
                           else ClaimEnrich(t.workflows[rid].input), Start)
    case ClaimEnrich(input) =>
      Claim(s, h, rid, ENRICH, None, at, db,
            (r: BeginStepResult) => if r.ALREADY_SUCCEEDED? then Done else Enriching(input), hd.pc)
    case Enriching(input) =>
      if Supported(input) then Stays(s, Advance(Enrich(input, at.now)))
      else Stays(s, FailEnrich(UnsupportedCurrency(input)))
    case Advance(enrichment) =>
      Wrote(s, db, AdvanceStep(t, rid, hd.message.tenantId, enrichment, at).0, Done, hd.pc,
            Caught(db, (e: AppError) => FailEnrich(e)))
    case FailEnrich(error) =>
      Wrote(s, db, WriteTerminal(t, rid, ENRICH, Fail(error), at).0, Done, hd.pc, Retry)
    case _ => Stays(s, hd.pc)
  }

  function RequestFor(input: OperationInput, enrichment: Enrichment): OperationRequest {
    OperationRequest(input.operation, input.amount, enrichment.normalizedReference, enrichment.riskBand)
  }

  function ToResult(operation: Operation, enrichment: Enrichment, at: nat): OperationResult {
    OperationResult(operation.operationId, operation.status, operation.amount, enrichment.riskBand, at)
  }

  /** What the finalizer writes for a provider response. */
  function VerdictFor(operation: Operation, enrichment: Enrichment, at: nat): Verdict {
    if operation.status == Declined then
      Fail(AppError(PROVIDER_REJECTED,
                    if operation.declineReason.Some? then operation.declineReason.value
                    else "provider declined the operation", NON_RETRYABLE))
    else Complete(ToResult(operation, enrichment, at))
  }

  function AfterExecute(ref: ExternalRef, http: Http): Pc {
    match Provider.Execute(ref, http)
    case Executed(operation) => Settle(operation)
    case ExecuteThrows(error) =>
      match error.failureClass
      case UNKNOWN_EXTERNAL_STATE => RecordUnknown
      case NON_RETRYABLE => FailFinalize(error)
      case RETRYABLE => Retry
  }

  /** One step of the finalizer, from one await to the next. */
  function FinalizeEffect(s: System, h: nat, hd: Handler, at: When, db: DbCall, http: Http): Effect {
    var t, rid, ref := s.table, hd.message.requestId, FinalizeRef(hd.message.requestId);
    match hd.pc
    case Start =>
      if hd.message.EnrichMessage? then Stays(s, Done)
      else ReadThen(s, db, if rid !in t.workflows || IsTerminal(t.workflows[rid].status) then Done
                           else ClaimFinalize(t.workflows[rid].input), Start)
    case ClaimFinalize(input) =>
      Claim(s, h, rid, FINALIZE, Some(ref), at, db,
            (r: BeginStepResult) =>
              if r.ALREADY_SUCCEEDED? then ReadStored
              else if r.STARTED? then Execute(input, false)
              else Reconcile(input), hd.pc)
    case ReadStored =>
      var step := StepAtKey(t, rid, FINALIZE);
      ReadThen(s, db, if step.None? then Retry
                      else if step.value.externalResult.Some? && step.value.externalResult.value.ProviderResult?
                      then Settle(step.value.externalResult.value.operation)
                      else Done, ReadStored)
    case Reconcile(input) =>
      (match Lookup(http)
       case Found(operation) => Stays(s, Settle(operation))
       case NotFound => Stays(s, Execute(input, true))
       case LookupThrows(_) => Stays(s, Retry))
    case Execute(input, reconciled) =>
      if hd.message.EnrichMessage? then Stays(s, Done) else
      var call := Call(ref, RequestFor(input, hd.message.enrichment));
      var bare := if reconciled then s.history.bareCalls
                  else s.history.bareCalls[rid := Times(s.history.bareCalls, rid) + 1];
      Effect(t, AwaitAnswer, s.wire + {call}, s.history.(bareCalls := bare))
    case AwaitAnswer =>
      Stays(s, AfterExecute(ref, http))
    case RecordUnknown =>
      Wrote(s, db, MarkUnknown(t, rid, FINALIZE, at), Retry, hd.pc, Retry)
    case Settle(operation) =>
      if hd.message.EnrichMessage? then Stays(s, Done) else
      Wrote(s, db, WriteTerminal(t, rid, FINALIZE, VerdictFor(operation, hd.message.enrichment, at.now), at).0,
            Done, hd.pc, Caught(db, (e: AppError) => FailFinalize(e)))
    case FailFinalize(error) =>
      Wrote(s, db, WriteTerminal(t, rid, FINALIZE, Fail(error), at).0, Done, hd.pc, Retry)
    case _ => Stays(s, hd.pc)
  }

  function HandlerEffect(s: System, h: nat, hd: Handler, at: When, db: DbCall, http: Http): Effect {
    match hd.queue
    case START_QUEUE => EnrichEffect(s, h, hd, at, db)
    case STEP_QUEUE => FinalizeEffect(s, h, hd, at, db, http)
  }

  // -------------------------------------------------------------------------
  // API
  // -------------------------------------------------------------------------

  function BodyOf(w: WorkflowItem): TerminalBody {
    if w.status == Completed then CompletedBody(w.requestId, w.result)
    else FailedBody(w.requestId,
                    if w.error.Some? then w.error.value.code else INTERNAL_ERROR,
                    if w.error.Some? then w.error.value.message else "workflow failed")
  }

  function CreateInputOf(a: Action): CreateInput
    requires a.Post?
  {
    CreateInput(a.requestId, a.tenantId, a.idempotencyKey, PayloadHash(a.input), a.input,
                a.syncDeadlineAt, a.businessDeadlineAt)
  }

  function Posted(s: System, a: Action): System
    requires a.Post?
  {
    var (written, result) := CreateWorkflow(s.table, CreateInputOf(a), a.at);
    match a.db
    case Refused(_) => s
    case AnswerLost(_) => s.(table := written)
    case Answered =>
      var after := s.(table := written);
      match result
      case CREATED(w) => Waiting(after, a, w.requestId)
      case EXISTING(w) =>
        if IsTerminal(w.status) then Replied(after, a, Terminal200(BodyOf(w)))
        else Waiting(after, a, w.requestId)
      case CONFLICT(_, _) => Replied(after, a, Conflict409)
      case CreateThrows(_) => after
  }

  function Waiting(s: System, a: Action, requestId: RequestId): System
    requires a.Post?
  {
    s.(sessions := s.sessions[s.nextId := Session(a.tenantId, a.idempotencyKey, PayloadHash(a.input), requestId)],
       nextId := s.nextId + 1)
  }

  function Replied(s: System, a: Action, answer: Answer): System
    requires a.Post?
  {
    s.(replies := s.replies + {Reply(a.tenantId, a.idempotencyKey, PayloadHash(a.input), answer)})
  }

  function SessionReplies(s: System, session: nat, answer: Answer): System
    requires session in s.sessions
  {
    var c := s.sessions[session];
    s.(sessions := s.sessions - {session},
       replies := s.replies + {Reply(c.tenantId, c.idempotencyKey, c.payloadHash, answer)})
  }

  // -------------------------------------------------------------------------
  // Steps
  // -------------------------------------------------------------------------

  predicate IsFaultOrNone(db: DbCall) {
    db.Refused? ==> IsFault(db.error)
  }

  /** The class of a fault matters at two places only. */
  predicate FaultAllowed(env: Environment, pc: Pc, db: DbCall) {
    IsFaultOrNone(db) &&
    (db.Refused? && pc.Advance? ==> db.error in env.advanceFaults) &&
    (db.Refused? && pc.Settle? ==> db.error in env.terminalFaults)
  }

  predicate HttpAllowed(env: Environment, s: System, hd: Handler, http: Http) {
    var ref := FinalizeRef(hd.message.requestId);
    (hd.pc.Reconcile? ==> HonestLookup(s.store, ref, http)) &&
    (hd.pc.AwaitAnswer? ==> HonestExecute(s.store, ref, http) && (Rejects(http) ==> env.rejects))
  }

  /** Clocks and retention times are positive. */
  predicate Positive(at: When) {
    at.now > 0 && at.workflowTtlDays > 0 && at.outboxTtlDays > 0
  }

  /** What the API has checked before it creates anything. */
  predicate Validated(a: Action)
    requires a.Post?
  {
    ValidRequestId(a.requestId) && ValidTenantId(a.tenantId) && ValidIdempotencyKey(a.idempotencyKey) && ValidInput(a.input)
  }

  /** `Poll` is a read of the waiter that finds a terminal workflow, `GiveUp` its deadline. */
  predicate Enabled(env: Environment, s: System, a: Action) {
    match a
    case Post(_, _, _, _, _, _, at, db) => Validated(a) && Positive(at) && IsFaultOrNone(db)
    case Poll(c) =>
      c in s.sessions && s.sessions[c].requestId in s.table.workflows &&
      IsTerminal(s.table.workflows[s.sessions[c].requestId].status)
    case GiveUp(c) => c in s.sessions
    case Disconnect(c) => c in s.sessions
    case PickEvent(event, replay) => event in s.table.outbox && (replay || s.table.outbox[event].publishedAt.None?)
    case Send(p, _) => p in s.publishers && s.publishers[p].Sending?
    case Mark(p, at, db) => Positive(at) && p in s.publishers && s.publishers[p].Marking? && IsFaultOrNone(db)
    case PublisherDies(p) => p in s.publishers
    case Duplicate(c) => c in s.copies
    case Deliver(c) => c in s.copies && !s.copies[c].dead
    case Acknowledge(h) => h in s.handlers && s.handlers[h].pc.Done?
    case MoveToDlq(c) => c in s.copies
    case Redrive(c) => c in s.copies
    case HandlerDies(h) => h in s.handlers
    case Step(h, at, db, http) =>
      Positive(at) && h in s.handlers && !s.handlers[h].pc.Done? && !s.handlers[h].pc.Retry? &&
      FaultAllowed(env, s.handlers[h].pc, db) && HttpAllowed(env, s, s.handlers[h], http)
    case Perform(call, decline, now) => now > 0 && call in s.wire && (decline ==> env.declines)
  }

  function NewCopy(s: System, copy: Copy): System {
    s.(copies := s.copies[s.nextId := copy], nextId := s.nextId + 1)
  }

  function CopyOf(s: System, event: EventRef): Copy
    requires event in s.table.outbox
  {
    Copy(s.table.outbox[event].destination, s.table.outbox[event].message, false)
  }

  function AfterSend(s: System, p: nat, sent: Sent): System
    requires p in s.publishers && s.publishers[p].event in s.table.outbox
  {
    var event := s.publishers[p].event;
    var gone := s.(publishers := s.publishers - {p});
    match sent
    case NotSent => gone
    case SentAnswerLost => NewCopy(gone, CopyOf(s, event)).(history := s.history.(sent := s.history.sent + {event}))
    case Delivered =>
      NewCopy(s, CopyOf(s, event)).(publishers := s.publishers[p := Marking(event)],
                                    history := s.history.(sent := s.history.sent + {event}))
  }

  function AfterStep(s: System, h: nat, at: When, db: DbCall, http: Http): System
    requires h in s.handlers
  {
    var hd := s.handlers[h];
    var e := HandlerEffect(s, h, hd, at, db, http);
    s.(table := e.table, wire := e.wire, history := e.history, handlers := s.handlers[h := hd.(pc := e.pc)])
  }

  function Next(env: Environment, s: System, a: Action): System
    requires Enabled(env, s, a)
  {
    match a
    case Post(_, _, _, _, _, _, _, _) => Posted(s, a)
    case Poll(c) => SessionReplies(s, c, Terminal200(BodyOf(s.table.workflows[s.sessions[c].requestId])))
    case GiveUp(c) => SessionReplies(s, c, Processing202(s.sessions[c].requestId))
    case Disconnect(c) => s.(sessions := s.sessions - {c})
    case PickEvent(event, _) =>
      s.(publishers := s.publishers[s.nextId := Sending(event)], nextId := s.nextId + 1)
    case Send(p, sent) =>
      if s.publishers[p].event in s.table.outbox then AfterSend(s, p, sent)
      else s.(publishers := s.publishers - {p})
    case Mark(p, at, db) =>
      var gone := s.(publishers := s.publishers - {p});
      if db.Refused? then gone else gone.(table := MarkPublished(s.table, s.publishers[p].event, at))
    case PublisherDies(p) => s.(publishers := s.publishers - {p})
    case Duplicate(c) => NewCopy(s, s.copies[c])
    case Deliver(c) =>
      s.(handlers := s.handlers[s.nextId := Handler(c, s.copies[c].queue, s.copies[c].message, Start)],
         nextId := s.nextId + 1)
    case Acknowledge(h) =>
      s.(copies := s.copies - {s.handlers[h].copy}, handlers := s.handlers - {h})
    case MoveToDlq(c) => s.(copies := s.copies[c := s.copies[c].(dead := true)])
    case Redrive(c) => s.(copies := s.copies[c := s.copies[c].(dead := false)])
    case HandlerDies(h) => s.(handlers := s.handlers - {h})
    case Step(h, at, db, http) => AfterStep(s, h, at, db, http)
    case Perform(call, decline, now) =>
      s.(store := Upserted(s.store, call.key, if decline then call.request.(riskBand := High) else call.request, now))
  }

  // -------------------------------------------------------------------------
  // Runs
  // -------------------------------------------------------------------------

  /** Where a run leads, if every action of it was possible when it was taken. */
  function Follow(env: Environment, s: System, run: seq<Action>): Option<System>
    decreases |run|
  {
    if run == [] then Some(s)
    else if Enabled(env, s, run[0]) then Follow(env, Next(env, s, run[0]), run[1..])
    else None
  }

  /** A set of states that no action leaves. */
  ghost predicate Closed(env: Environment, states: iset<System>) {
    forall s, a | s in states && Enabled(env, s, a) :: Next(env, s, a) in states
  }

  /** In every set that holds the empty system and that no action leaves; that is, where some
      run leads (`ProtocolSafety.ReachableByRun`). */
  ghost predicate Reachable(env: Environment, s: System) {
    forall states: iset<System> | Closed(env, states) && INITIAL in states :: s in states
  }
}
