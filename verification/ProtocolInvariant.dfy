/** What holds in every reachable state, whatever is duplicated, reordered, lost, refused or
    killed on the way. */
module ProtocolInvariant {
  import opened Contracts
  import opened Payload
  import opened Enriching
  import opened DynamoErrors
  import opened Identity
  import opened Provider
  import opened Table
  import opened TableInvariant
  import opened Protocol

  // -------------------------------------------------------------------------
  // The table and the provider
  // -------------------------------------------------------------------------

  ghost predicate TableGood(env: Environment, t: Table) {
    TableInv(t) && (AdvanceRetries(env) ==> EnrichSettled(t)) && (Trusted(env) ==> OutcomesOk(t))
  }

  /** The operation stored under a key belongs to one workflow and to what it asked for. */
  ghost predicate Owns(env: Environment, t: Table, r: RequestId, key: ExternalRef, operation: Operation) {
    && r in t.workflows && key == FinalizeRef(r) && (r, FINALIZE) in t.steps
    && operation.amount == t.workflows[r].input.amount
    && (operation.status == Declined ==> operation.declineReason == Some(DECLINE_REASON))
    && (operation.status == Settled ==> RiskBandFor(t.workflows[r].input) != High)
    && (!env.declines && operation.status == Declined ==> RiskBandFor(t.workflows[r].input) == High)
  }

  ghost predicate CallFor(t: Table, r: RequestId, call: Call) {
    && r in t.workflows && call.key == FinalizeRef(r) && (r, FINALIZE) in t.steps
    && call.request.operation == t.workflows[r].input.operation
    && call.request.amount == t.workflows[r].input.amount
    && Event(r, FINALIZE) in t.outbox && t.outbox[Event(r, FINALIZE)].message.FinalizeMessage?
    && call.request.reference == t.outbox[Event(r, FINALIZE)].message.enrichment.normalizedReference
    && call.request.riskBand == RiskBandFor(t.workflows[r].input)
  }

  ghost predicate StoreInv(env: Environment, t: Table, store: Store) {
    && StoreOk(store) && DistinctIds(store)
    && forall key | key in store.operations :: exists r :: Owns(env, t, r, key, store.operations[key])
  }

  ghost predicate WireInv(t: Table, wire: set<Call>) {
    forall call | call in wire :: exists r :: CallFor(t, r, call)
  }

  /** A stored result names the operation the provider settled for this workflow. */
  ghost predicate ResultOk(w: WorkflowItem, store: Store) {
    w.status == Completed ==>
      && w.result.Some? && FinalizeRef(w.requestId) in store.operations
      && store.operations[FinalizeRef(w.requestId)].status == Settled
      && w.result.value.providerOperationId == store.operations[FinalizeRef(w.requestId)].operationId
      && w.result.value.outcome == Settled
      && w.result.value.amount == w.input.amount
      && w.result.value.riskBand == RiskBandFor(w.input)
  }

  ghost predicate ResultsOk(t: Table, store: Store) {
    forall r | r in t.workflows :: ResultOk(t.workflows[r], store)
  }

  ghost predicate StoreGrows(s: Store, s': Store) {
    forall key | key in s.operations :: key in s'.operations && s'.operations[key] == s.operations[key]
  }

  // -------------------------------------------------------------------------
  // Messages and handlers
  // -------------------------------------------------------------------------

  /** A message in hand is the one the committed event carries, on its own queue. */
  ghost predicate MessageOk(t: Table, queue: Destination, m: Message) {
    var e := Event(m.requestId, StepOf(m));
    e in t.outbox && t.outbox[e].message == m && queue == QueueOf(StepOf(m)) && m.requestId in t.workflows
  }

  /** The workflow still waits for this message to be handled. */
  predicate Needed(t: Table, m: Message) {
    m.requestId in t.workflows && t.workflows[m.requestId].status == Processing &&
    (m.EnrichMessage? ==> Event(m.requestId, FINALIZE) !in t.outbox)
  }

  ghost predicate PcOk(env: Environment, t: Table, store: Store, m: Message, pc: Pc)
    requires m.requestId in t.workflows
  {
    var r, input := m.requestId, t.workflows[m.requestId].input;
    match pc
    case Start => true
    case ClaimEnrich(i) => m.EnrichMessage? && i == input
    case Enriching(i) => m.EnrichMessage? && i == input && (r, ENRICH) in t.steps
    case Advance(e) => m.EnrichMessage? && (r, ENRICH) in t.steps && EnrichmentFor(e, input) && Supported(input)
    case FailEnrich(error) =>
      m.EnrichMessage? && (r, ENRICH) in t.steps &&
      (AdvanceRetries(env) ==> !Supported(input) && error == UnsupportedCurrency(input))
    case ClaimFinalize(i) => m.FinalizeMessage? && i == input
    case ReadStored => m.FinalizeMessage? && t.workflows[r].status == Completed
    case Reconcile(i) => m.FinalizeMessage? && i == input && (r, FINALIZE) in t.steps
    case Execute(i, _) => m.FinalizeMessage? && i == input && (r, FINALIZE) in t.steps
    case AwaitAnswer => m.FinalizeMessage? && (r, FINALIZE) in t.steps
    case RecordUnknown => m.FinalizeMessage? && (r, FINALIZE) in t.steps
    case Settle(operation) =>
      m.FinalizeMessage? && (r, FINALIZE) in t.steps && Stored(store, FinalizeRef(r), operation)
    case FailFinalize(_) => m.FinalizeMessage? && (r, FINALIZE) in t.steps && !Trusted(env)
    case Done => !Needed(t, m)
    case Retry => true
  }

  ghost predicate HandlerOk(env: Environment, t: Table, store: Store, hd: Handler) {
    MessageOk(t, hd.queue, hd.message) && PcOk(env, t, store, hd.message, hd.pc)
  }

  ghost predicate HandlersOk(env: Environment, t: Table, store: Store, handlers: map<nat, Handler>) {
    forall h | h in handlers :: HandlerOk(env, t, store, handlers[h])
  }

  ghost predicate CopiesOk(t: Table, copies: map<nat, Copy>) {
    forall c | c in copies :: MessageOk(t, copies[c].queue, copies[c].message)
  }

  /** A handler's copy, while it is still held, is of the message the handler has. */
  ghost predicate HoldsItsMessage(copies: map<nat, Copy>, handlers: map<nat, Handler>) {
    forall h | h in handlers && handlers[h].copy in copies :: copies[handlers[h].copy].message == handlers[h].message
  }

  // -------------------------------------------------------------------------
  // Live tokens
  // -------------------------------------------------------------------------

  ghost predicate HasCopy(copies: map<nat, Copy>, m: Message) {
    exists c :: c in copies && copies[c].message == m
  }

  /** A published event whose message is still needed has a copy somewhere. */
  ghost predicate TokensOk(t: Table, copies: map<nat, Copy>) {
    forall e | e in t.outbox && t.outbox[e].publishedAt.Some? && Needed(t, t.outbox[e].message) ::
      HasCopy(copies, t.outbox[e].message)
  }

  ghost predicate PublisherOk(t: Table, copies: map<nat, Copy>, sent: set<EventRef>, p: Publisher) {
    p.event in t.outbox &&
    (p.Marking? ==> p.event in sent && (Needed(t, t.outbox[p.event].message) ==> HasCopy(copies, t.outbox[p.event].message)))
  }

  ghost predicate PublishersOk(t: Table, copies: map<nat, Copy>, sent: set<EventRef>, publishers: map<nat, Publisher>) {
    forall p | p in publishers :: PublisherOk(t, copies, sent, publishers[p])
  }

  ghost predicate SentOk(t: Table, sent: set<EventRef>) {
    forall e | e in t.outbox && t.outbox[e].publishedAt.Some? :: e in sent
  }

  // -------------------------------------------------------------------------
  // History
  // -------------------------------------------------------------------------

  ghost predicate ClaimsOk(t: Table, claims: map<StepRef, nat>) {
    (forall k | k in t.steps :: t.steps[k].attempt == Times(claims, k)) && (forall k | k in claims :: k in t.steps)
  }

  ghost predicate AboutToCall(handlers: map<nat, Handler>, h: nat) {
    h in handlers && handlers[h].pc.Execute? && !handlers[h].pc.reconciled
  }

  /** Only the handler that was told STARTED may call without looking first, and once. */
  ghost predicate CallsOk(t: Table, handlers: map<nat, Handler>, history: History) {
    && (forall r | r in history.starter :: (r, FINALIZE) in t.steps)
    && (forall r | r in history.bareCalls :: history.bareCalls[r] <= 1 && (history.bareCalls[r] > 0 ==> r in history.starter))
    && (forall h | AboutToCall(handlers, h) ::
          var r := handlers[h].message.requestId;
          r in history.starter && history.starter[r] == h && Times(history.bareCalls, r) == 0)
  }

  ghost predicate IdsOk(s: System) {
    && (forall c | c in s.copies :: c < s.nextId)
    && (forall h | h in s.handlers :: h < s.nextId && s.handlers[h].copy < s.nextId)
    && (forall p | p in s.publishers :: p < s.nextId)
    && (forall c | c in s.sessions :: c < s.nextId)
    && (forall r | r in s.history.starter :: s.history.starter[r] < s.nextId)
  }

  // -------------------------------------------------------------------------
  // Replies
  // -------------------------------------------------------------------------

  ghost predicate SessionOk(t: Table, c: Session) {
    var key := (c.tenantId, c.idempotencyKey);
    key in t.mappings && t.mappings[key].requestId == c.requestId && t.mappings[key].payloadHash == c.payloadHash
  }

  ghost predicate ReplyOk(t: Table, r: Reply) {
    var key := (r.tenantId, r.idempotencyKey);
    key in t.mappings && t.mappings[key].requestId in t.workflows &&
    (r.answer.Conflict409? <==> t.mappings[key].payloadHash != r.payloadHash) &&
    match r.answer
    case Conflict409 => true
    case Processing202(requestId) => requestId == t.mappings[key].requestId
    case Terminal200(body) =>
      IsTerminal(t.workflows[t.mappings[key].requestId].status) && body == BodyOf(t.workflows[t.mappings[key].requestId])
  }

  ghost predicate ApiOk(t: Table, sessions: map<nat, Session>, replies: set<Reply>) {
    (forall c | c in sessions :: SessionOk(t, sessions[c])) && (forall r | r in replies :: ReplyOk(t, r))
  }

  // -------------------------------------------------------------------------
  // All of it
  // -------------------------------------------------------------------------

  ghost predicate Inv(env: Environment, s: System) {
    && TableGood(env, s.table)
    && StoreInv(env, s.table, s.store)
    && WireInv(s.table, s.wire)
    && ResultsOk(s.table, s.store)
    && HandlersOk(env, s.table, s.store, s.handlers)
    && CopiesOk(s.table, s.copies)
    && HoldsItsMessage(s.copies, s.handlers)
    && TokensOk(s.table, s.copies)
    && PublishersOk(s.table, s.copies, s.history.sent, s.publishers)
    && SentOk(s.table, s.history.sent)
    && ClaimsOk(s.table, s.history.claims)
    && CallsOk(s.table, s.handlers, s.history)
    && IdsOk(s)
    && ApiOk(s.table, s.sessions, s.replies)
  }

  lemma InvInitially(env: Environment)
    ensures Inv(env, INITIAL)
  {}

  // -------------------------------------------------------------------------
  // Facts that survive growth
  // -------------------------------------------------------------------------

  lemma MessageFrame(t: Table, t': Table, queue: Destination, m: Message)
    requires Grows(t, t') && MessageOk(t, queue, m)
    ensures MessageOk(t', queue, m)
  {
    hide EventIdOf;
  }

  lemma NeededFrame(t: Table, t': Table, m: Message)
    requires Grows(t, t') && m.requestId in t.workflows && Needed(t', m)
    ensures Needed(t, m)
  {
    hide EventIdOf;
  }

  lemma HandlerFrame(env: Environment, t: Table, t': Table, store: Store, store': Store, hd: Handler)
    requires Grows(t, t') && StoreGrows(store, store') && HandlerOk(env, t, store, hd)
    ensures HandlerOk(env, t', store', hd)
  {
    hide EventIdOf, FinalizeRef, UnsupportedCurrency, Supported, EnrichmentFor, Needed;
    MessageFrame(t, t', hd.queue, hd.message);
    if hd.pc.Done? && Needed(t', hd.message) {
      NeededFrame(t, t', hd.message);
    }
  }

  lemma HandlersFrame(env: Environment, t: Table, t': Table, store: Store, store': Store, handlers: map<nat, Handler>)
    requires Grows(t, t') && StoreGrows(store, store') && HandlersOk(env, t, store, handlers)
    ensures HandlersOk(env, t', store', handlers)
  {
    hide HandlerOk, Grows, StoreGrows;
    forall h | h in handlers ensures HandlerOk(env, t', store', handlers[h]) {
      HandlerFrame(env, t, t', store, store', handlers[h]);
    }
  }

  lemma CopiesFrame(t: Table, t': Table, copies: map<nat, Copy>)
    requires Grows(t, t') && CopiesOk(t, copies)
    ensures CopiesOk(t', copies)
  {
    hide MessageOk, Grows;
    forall c | c in copies ensures MessageOk(t', copies[c].queue, copies[c].message) {
      MessageFrame(t, t', copies[c].queue, copies[c].message);
    }
  }

  lemma OwnsFrame(env: Environment, t: Table, t': Table, store: Store)
    requires Grows(t, t') && StoreInv(env, t, store)
    ensures StoreInv(env, t', store)
  {
    hide FinalizeRef, RiskBandFor, StoreOk, DistinctIds;
    forall key | key in store.operations ensures exists r :: Owns(env, t', r, key, store.operations[key]) {
      var r :| Owns(env, t, r, key, store.operations[key]);
      assert Owns(env, t', r, key, store.operations[key]);
    }
  }

  lemma WireFrame(t: Table, t': Table, wire: set<Call>)
    requires Grows(t, t') && WireInv(t, wire)
    ensures WireInv(t', wire)
  {
    hide FinalizeRef, RiskBandFor;
    forall call | call in wire ensures exists r :: CallFor(t', r, call) {
      var r :| CallFor(t, r, call);
      assert CallFor(t', r, call);
    }
  }

  lemma ApiFrame(t: Table, t': Table, sessions: map<nat, Session>, replies: set<Reply>)
    requires Grows(t, t') && ApiOk(t, sessions, replies)
    ensures ApiOk(t', sessions, replies)
  {
    forall r | r in replies ensures ReplyOk(t', r) {
      assert ReplyOk(t, r);
    }
    forall c | c in sessions ensures SessionOk(t', sessions[c]) {
      assert SessionOk(t, sessions[c]);
    }
  }

  /** No event is published by this write. */
  ghost predicate NothingPublished(t: Table, t': Table) {
    forall e | e in t'.outbox && t'.outbox[e].publishedAt.Some? :: e in t.outbox && t.outbox[e].publishedAt.Some?
  }

  lemma EventHasWorkflow(t: Table, e: EventRef)
    requires TableInv(t) && e in t.outbox
    ensures t.outbox[e].message.requestId in t.workflows
    ensures e == Event(t.outbox[e].message.requestId, StepOf(t.outbox[e].message))
    ensures t.outbox[e].destination == QueueOf(StepOf(t.outbox[e].message))
    ensures MessageOk(t, t.outbox[e].destination, t.outbox[e].message)
  {
    hide EventIdOf, WorkflowOk, StepOk, MappingOk;
    assert OutboxOk(t, e);
  }

  lemma TokensFrame(t: Table, t': Table, copies: map<nat, Copy>)
    requires TableInv(t) && Grows(t, t') && TokensOk(t, copies) && NothingPublished(t, t')
    ensures TokensOk(t', copies)
  {
    hide EventIdOf, Needed, TableInv, HasCopy;
    forall e | e in t'.outbox && t'.outbox[e].publishedAt.Some? && Needed(t', t'.outbox[e].message)
      ensures HasCopy(copies, t'.outbox[e].message)
    {
      EventHasWorkflow(t, e);
      NeededFrame(t, t', t'.outbox[e].message);
    }
  }

  lemma PublishersFrame(t: Table, t': Table, copies: map<nat, Copy>, sent: set<EventRef>, publishers: map<nat, Publisher>)
    requires TableInv(t) && Grows(t, t') && PublishersOk(t, copies, sent, publishers)
    ensures PublishersOk(t', copies, sent, publishers)
  {
    hide EventIdOf, Needed, TableInv, HasCopy;
    forall p | p in publishers ensures PublisherOk(t', copies, sent, publishers[p]) {
      var e := publishers[p].event;
      EventHasWorkflow(t, e);
      if Needed(t', t'.outbox[e].message) { NeededFrame(t, t', t'.outbox[e].message); }
    }
  }

  lemma SentFrame(t: Table, t': Table, sent: set<EventRef>)
    requires SentOk(t, sent) && NothingPublished(t, t')
    ensures SentOk(t', sent)
  {}
}
