/** Every action keeps the invariant, so it holds in every reachable state. */
module ProtocolSafety {
  import opened Contracts
  import opened Payload
  import opened Enriching
  import opened Keys
  import opened Provider
  import opened Table
  import opened TableInvariant
  import opened Protocol
  import opened ProtocolInvariant
  import opened ProtocolSteps

  // -------------------------------------------------------------------------
  // Handlers
  // -------------------------------------------------------------------------

  lemma HandlersUpdated(env: Environment, s: System, h: nat, t': Table, hd: Handler)
    requires HandlersOk(env, s.table, s.store, s.handlers) && Grows(s.table, t') && h in s.handlers
    requires HandlerOk(env, t', s.store, hd)
    ensures HandlersOk(env, t', s.store, s.handlers[h := hd])
  {
    hide Grows, HandlerOk;
    HandlersFrame(env, s.table, t', s.store, s.store, s.handlers);
  }

  lemma StepKeeps(env: Environment, s: System, h: nat, e: Effect)
    requires Inv(env, s) && h in s.handlers && StepGood(env, s, h, e)
    ensures Inv(env, s.(table := e.table, wire := e.wire, history := e.history,
                        handlers := s.handlers[h := s.handlers[h].(pc := e.pc)]))
  {
    hide TableInv, OutcomesOk, EnrichSettled, StoreInv, ResultsOk, HandlersOk, CopiesOk, TokensOk, PublishersOk, SentOk,
      ApiOk, HandlerOk, Grows, WireInv, ClaimsOk, CallsOk, NothingPublished;
    HandlersUpdated(env, s, h, e.table, s.handlers[h].(pc := e.pc));
    CopiesFrame(s.table, e.table, s.copies);
    OwnsFrame(env, s.table, e.table, s.store);
    ApiFrame(s.table, e.table, s.sessions, s.replies);
    TokensFrame(s.table, e.table, s.copies);
    PublishersFrame(s.table, e.table, s.copies, s.history.sent, s.publishers);
    SentFrame(s.table, e.table, s.history.sent);
  }

  lemma StepActionKeeps(env: Environment, s: System, a: Action)
    requires Inv(env, s) && Enabled(env, s, a) && a.Step?
    ensures Inv(env, Next(env, s, a))
  {
    hide Inv, StepGood, EnrichEffect, FinalizeEffect, HttpAllowed, FaultAllowed;
    var hd := s.handlers[a.handler];
    match hd.queue
    case START_QUEUE =>
      EnrichStepGood(env, s, a.handler, a.at, a.db);
      StepKeeps(env, s, a.handler, EnrichEffect(s, a.handler, hd, a.at, a.db));
    case STEP_QUEUE =>
      FinalizeStepGood(env, s, a.handler, a.at, a.db, a.http);
      StepKeeps(env, s, a.handler, FinalizeEffect(s, a.handler, hd, a.at, a.db, a.http));
  }

  // -------------------------------------------------------------------------
  // Writes made outside the handlers
  // -------------------------------------------------------------------------

  /** A write that claims nothing, makes nothing terminal and publishes nothing. */
  lemma WriteKeeps(env: Environment, s: System, t': Table)
    requires Inv(env, s) && Safe(env, s.table, t') && AttemptsKept(s.table, t') && ResultsOk(t', s.store)
    ensures Inv(env, s.(table := t'))
  {
    hide TableInv, OutcomesOk, EnrichSettled, StoreInv, ResultsOk, HandlersOk, CopiesOk, TokensOk, PublishersOk, SentOk,
      ApiOk, Grows, WireInv, ClaimsOk, CallsOk, NothingPublished, AttemptsKept;
    HandlersFrame(env, s.table, t', s.store, s.store, s.handlers);
    CopiesFrame(s.table, t', s.copies);
    OwnsFrame(env, s.table, t', s.store);
    ApiFrame(s.table, t', s.sessions, s.replies);
    TokensFrame(s.table, t', s.copies);
    PublishersFrame(s.table, t', s.copies, s.history.sent, s.publishers);
    SentFrame(s.table, t', s.history.sent);
    WireFrame(s.table, t', s.wire);
    ClaimsFrame(s.table, t', s.history.claims);
    CallsGrow(s.table, t', s.handlers, s.history);
  }

  lemma CallsGrow(t: Table, t': Table, handlers: map<nat, Handler>, history: History)
    requires Grows(t, t') && CallsOk(t, handlers, history)
    ensures CallsOk(t', handlers, history)
  {}

  // -------------------------------------------------------------------------
  // API
  // -------------------------------------------------------------------------

  lemma CreateSafe(env: Environment, t: Table, c: CreateInput, at: When)
    requires TableGood(env, t) && c.payloadHash == PayloadHash(c.input) && ValidInput(c.input)
    ensures Safe(env, t, CreateWorkflow(t, c, at).0) && AttemptsKept(t, CreateWorkflow(t, c, at).0)
  {
    hide TableInv, Grows, EventIdOf, PayloadHash, NewMapping, PendingOutboxIndexKeys, ProcessingIndexKeys, OutcomeOk;
    var t' := CreateWorkflow(t, c, at).0;
    CreateKeeps(t, c, at);
    CreateGrows(t, c, at);
    if AdvanceRetries(env) {
      forall r | Event(r, FINALIZE) in t'.outbox && Event(r, FINALIZE) !in t.outbox ensures false {
        EventsDiffer(c.requestId, r);
      }
      SettledKept(t, t');
    }
    if Trusted(env) { OutcomesKept(t, t'); }
  }

  lemma CreateResults(t: Table, store: Store, c: CreateInput, at: When)
    requires ResultsOk(t, store)
    ensures ResultsOk(CreateWorkflow(t, c, at).0, store)
  {
    hide EventIdOf, PendingEvent, NewMapping, FinalizeRef, RiskBandFor;
    var t' := CreateWorkflow(t, c, at).0;
    forall r | r in t'.workflows ensures ResultOk(t'.workflows[r], store) {
      if r in t.workflows && t'.workflows[r] == t.workflows[r] { assert ResultOk(t.workflows[r], store); }
    }
  }

  /** What a creation answers is what the mapping now says. */
  lemma CreateAnswers(t: Table, c: CreateInput, at: When)
    requires TableInv(t) && c.payloadHash == PayloadHash(c.input)
    ensures var (t', result) := CreateWorkflow(t, c, at);
            var key := (c.tenantId, c.idempotencyKey);
            match result
            case CREATED(w) => SessionOk(t', Session(c.tenantId, c.idempotencyKey, c.payloadHash, w.requestId))
            case EXISTING(w) =>
              t' == t && key in t.mappings && t.mappings[key].payloadHash == c.payloadHash
              && t.mappings[key].requestId == w.requestId && w.requestId in t.workflows && t.workflows[w.requestId] == w
            case CONFLICT(_, _) =>
              t' == t && key in t.mappings && t.mappings[key].payloadHash != c.payloadHash
              && t.mappings[key].requestId in t.workflows
            case CreateThrows(_) => t' == t
  {
    hide EventIdOf, PendingEvent, NewWorkflow, PayloadHash, WorkflowOk, StepOk, OutboxOk;
    var key := (c.tenantId, c.idempotencyKey);
    if key in t.mappings {
      assert MappingOk(t, key);
      WorkflowIsNamed(t, t.mappings[key].requestId);
    } else {
      NewNames(c, at);
    }
  }

  lemma NewNames(c: CreateInput, at: When)
    ensures NewWorkflow(c, at).requestId == c.requestId
  {}

  lemma WaitingKeeps(env: Environment, s: System, a: Action, requestId: RequestId)
    requires Inv(env, s) && a.Post?
    requires SessionOk(s.table, Session(a.tenantId, a.idempotencyKey, PayloadHash(a.input), requestId))
    ensures Inv(env, Waiting(s, a, requestId))
  {
    hide TableGood, StoreInv, ResultsOk, HandlersOk, CopiesOk, TokensOk, PublishersOk, SentOk, WireInv, ClaimsOk, CallsOk,
      PayloadHash, SessionOk, ReplyOk, HoldsItsMessage;
  }

  lemma RepliedKeeps(env: Environment, s: System, a: Action, answer: Answer)
    requires Inv(env, s) && a.Post?
    requires ReplyOk(s.table, Reply(a.tenantId, a.idempotencyKey, PayloadHash(a.input), answer))
    ensures Inv(env, Replied(s, a, answer))
  {
    hide TableGood, StoreInv, ResultsOk, HandlersOk, CopiesOk, TokensOk, PublishersOk, SentOk, WireInv, ClaimsOk, CallsOk,
      PayloadHash, SessionOk, ReplyOk, HoldsItsMessage;
  }

  lemma PostKeeps(env: Environment, s: System, a: Action)
    requires Inv(env, s) && a.Post? && Validated(a)
    ensures Inv(env, Posted(s, a))
  {
    hide Inv, PayloadHash, TableInv, CreateWorkflow, Safe, AttemptsKept, ResultsOk, OutcomesOk, EnrichSettled;
    var c := CreateInputOf(a);
    var (t', result) := CreateWorkflow(s.table, c, a.at);
    InvTable(env, s);
    ResultsHold(env, s);
    CreateSafe(env, s.table, c, a.at);
    CreateResults(s.table, s.store, c, a.at);
    WriteKeeps(env, s, t');
    CreateAnswers(s.table, c, a.at);
    if a.db.Answered? {
      match result
      case CREATED(w) => WaitingKeeps(env, s.(table := t'), a, w.requestId);
      case EXISTING(w) =>
        if IsTerminal(w.status) { RepliedKeeps(env, s.(table := t'), a, Terminal200(BodyOf(w))); }
        else { WaitingKeeps(env, s.(table := t'), a, w.requestId); }
      case CONFLICT(_, _) => RepliedKeeps(env, s.(table := t'), a, Conflict409);
      case CreateThrows(_) =>
    }
  }

  lemma InvTable(env: Environment, s: System)
    requires Inv(env, s)
    ensures TableGood(env, s.table) && TableInv(s.table)
  {
    hide TableInv, OutcomesOk, EnrichSettled, StoreInv, ResultsOk, HandlersOk, CopiesOk, TokensOk, PublishersOk, SentOk,
      ApiOk, WireInv, ClaimsOk, CallsOk;
  }

  lemma InvSession(env: Environment, s: System, c: nat)
    requires Inv(env, s) && c in s.sessions
    ensures SessionOk(s.table, s.sessions[c])
    ensures var key := (s.sessions[c].tenantId, s.sessions[c].idempotencyKey);
            key in s.table.mappings && s.table.mappings[key].requestId in s.table.workflows
  {
    hide StoreInv, ResultsOk, HandlersOk, CopiesOk, TokensOk, PublishersOk, SentOk, WireInv, ClaimsOk, CallsOk,
      WorkflowOk, StepOk, OutboxOk, ReplyOk;
    var key := (s.sessions[c].tenantId, s.sessions[c].idempotencyKey);
    assert SessionOk(s.table, s.sessions[c]);
    assert MappingOk(s.table, key);
  }

  lemma SessionReplyKeeps(env: Environment, s: System, c: nat, answer: Answer)
    requires Inv(env, s) && c in s.sessions
    requires var k := s.sessions[c]; ReplyOk(s.table, Reply(k.tenantId, k.idempotencyKey, k.payloadHash, answer))
    ensures Inv(env, SessionReplies(s, c, answer))
  {
    hide TableGood, StoreInv, ResultsOk, HandlersOk, CopiesOk, TokensOk, PublishersOk, SentOk, WireInv, ClaimsOk, CallsOk,
      SessionOk, ReplyOk, HoldsItsMessage;
  }

  lemma ApiActionKeeps(env: Environment, s: System, a: Action)
    requires Inv(env, s) && Enabled(env, s, a) && (a.Post? || a.Poll? || a.GiveUp? || a.Disconnect?)
    ensures Inv(env, Next(env, s, a))
  {
    hide Inv, BodyOf, PayloadHash, Posted;
    match a
    case Post(_, _, _, _, _, _, _, _) => PostKeeps(env, s, a);
    case Poll(c) =>
      InvSession(env, s, c);
      SessionReplyKeeps(env, s, c, Terminal200(BodyOf(s.table.workflows[s.sessions[c].requestId])));
    case GiveUp(c) =>
      InvSession(env, s, c);
      SessionReplyKeeps(env, s, c, Processing202(s.sessions[c].requestId));
    case Disconnect(c) => DisconnectKeeps(env, s, c);
  }

  lemma DisconnectKeeps(env: Environment, s: System, c: nat)
    requires Inv(env, s)
    ensures Inv(env, s.(sessions := s.sessions - {c}))
  {
    hide TableGood, StoreInv, ResultsOk, HandlersOk, CopiesOk, TokensOk, PublishersOk, SentOk, WireInv, ClaimsOk, CallsOk,
      SessionOk, ReplyOk, HoldsItsMessage;
  }

  // -------------------------------------------------------------------------
  // Publication
  // -------------------------------------------------------------------------

  lemma MoreCopies(t: Table, copies: map<nat, Copy>, copies': map<nat, Copy>, sent: set<EventRef>, sent': set<EventRef>,
                   publishers: map<nat, Publisher>)
    requires TokensOk(t, copies) && PublishersOk(t, copies, sent, publishers) && SentOk(t, sent) && sent <= sent'
    requires forall c | c in copies :: c in copies' && copies'[c].message == copies[c].message
    ensures TokensOk(t, copies') && PublishersOk(t, copies', sent', publishers) && SentOk(t, sent')
  {
    hide Needed;
    forall m | HasCopy(copies, m) ensures HasCopy(copies', m) {
      var c :| c in copies && copies[c].message == m;
      assert copies'[c].message == m;
    }
    forall p | p in publishers ensures PublisherOk(t, copies', sent', publishers[p]) {
      assert PublisherOk(t, copies, sent, publishers[p]);
    }
  }

  /** One more copy of a message whose event is committed. */
  lemma NewCopyKeeps(env: Environment, s: System, copy: Copy, sent: set<EventRef>)
    requires Inv(env, s) && MessageOk(s.table, copy.queue, copy.message) && s.history.sent <= sent
    ensures Inv(env, NewCopy(s, copy).(history := s.history.(sent := sent)))
    ensures HasCopy(NewCopy(s, copy).copies, copy.message)
  {
    hide TableGood, StoreInv, ResultsOk, HandlersOk, TokensOk, PublishersOk, SentOk, WireInv, ClaimsOk, MessageOk, ApiOk;
    MoreCopies(s.table, s.copies, NewCopy(s, copy).copies, s.history.sent, sent, s.publishers);
    assert NewCopy(s, copy).copies[s.nextId].message == copy.message;
  }

  lemma NewPublisherKeeps(env: Environment, s: System, p: nat, publisher: Publisher, nextId: nat)
    requires Inv(env, s) && PublisherOk(s.table, s.copies, s.history.sent, publisher) && p < nextId && s.nextId <= nextId
    ensures Inv(env, s.(publishers := s.publishers[p := publisher], nextId := nextId))
  {
    hide TableGood, StoreInv, ResultsOk, HandlersOk, CopiesOk, TokensOk, SentOk, WireInv, ClaimsOk, CallsOk, ApiOk,
      PublisherOk, HoldsItsMessage;
  }

  lemma PublisherGoneKeeps(env: Environment, s: System, p: nat)
    requires Inv(env, s)
    ensures Inv(env, s.(publishers := s.publishers - {p}))
  {
    hide TableGood, StoreInv, ResultsOk, HandlersOk, CopiesOk, TokensOk, SentOk, WireInv, ClaimsOk, CallsOk, ApiOk,
      PublisherOk, HoldsItsMessage;
  }

  lemma SendKeeps(env: Environment, s: System, p: nat, sent: Sent)
    requires Inv(env, s) && p in s.publishers && s.publishers[p].Sending? && s.publishers[p].event in s.table.outbox
    ensures Inv(env, AfterSend(s, p, sent))
  {
    hide Inv, EventIdOf, MessageOk, TableInv, Needed, HasCopy;
    var event := s.publishers[p].event;
    var copy := CopyOf(s, event);
    InvTable(env, s);
    InvIds(env, s);
    EventHasWorkflow(s.table, event);
    PublisherGoneKeeps(env, s, p);
    match sent
    case NotSent =>
    case SentAnswerLost =>
      NewCopyKeeps(env, s.(publishers := s.publishers - {p}), copy, s.history.sent + {event});
    case Delivered =>
      NewCopyKeeps(env, s, copy, s.history.sent + {event});
      var s' := NewCopy(s, copy).(history := s.history.(sent := s.history.sent + {event}));
      NewPublisherKeeps(env, s', p, Marking(event), s'.nextId);
  }

  lemma InvIds(env: Environment, s: System)
    requires Inv(env, s)
    ensures IdsOk(s)
  {
    hide TableGood, StoreInv, ResultsOk, HandlersOk, CopiesOk, TokensOk, PublishersOk, SentOk, WireInv, ClaimsOk, CallsOk,
      ApiOk, HoldsItsMessage;
  }

  lemma InvPublisher(env: Environment, s: System, p: nat)
    requires Inv(env, s) && p in s.publishers
    ensures PublisherOk(s.table, s.copies, s.history.sent, s.publishers[p])
  {
    hide TableGood, StoreInv, ResultsOk, HandlersOk, CopiesOk, TokensOk, SentOk, WireInv, ClaimsOk, CallsOk,
      ApiOk, HoldsItsMessage, PublisherOk;
  }

  lemma PublishSafe(env: Environment, t: Table, e: EventRef, at: When)
    requires TableGood(env, t)
    ensures TableGood(env, MarkPublished(t, e, at)) && Grows(t, MarkPublished(t, e, at))
    ensures AttemptsKept(t, MarkPublished(t, e, at)) && WorkflowsKept(t, MarkPublished(t, e, at))
  {
    hide TableInv, Grows, OutcomeOk, EventIdOf;
    PublishKeeps(t, e, at);
    if AdvanceRetries(env) { SettledKept(t, MarkPublished(t, e, at)); }
  }

  lemma MarkTokens(t: Table, copies: map<nat, Copy>, sent: set<EventRef>, e: EventRef, at: When)
    requires TableInv(t) && TokensOk(t, copies) && SentOk(t, sent) && PublisherOk(t, copies, sent, Marking(e))
    requires Grows(t, MarkPublished(t, e, at))
    ensures TokensOk(MarkPublished(t, e, at), copies) && SentOk(MarkPublished(t, e, at), sent)
  {
    hide EventIdOf, TableInv, HasCopy, Needed, Grows;
    var t' := MarkPublished(t, e, at);
    forall f | f in t'.outbox && t'.outbox[f].publishedAt.Some? && Needed(t', t'.outbox[f].message)
      ensures HasCopy(copies, t'.outbox[f].message)
    {
      EventHasWorkflow(t, f);
      NeededFrame(t, t', t'.outbox[f].message);
      if f != e { assert t'.outbox[f] == t.outbox[f]; }
    }
  }

  lemma MarkKeeps(env: Environment, s: System, p: nat, at: When)
    requires Inv(env, s) && p in s.publishers && s.publishers[p].Marking?
    ensures Inv(env, s.(table := MarkPublished(s.table, s.publishers[p].event, at), publishers := s.publishers - {p}))
  {
    hide TableInv, OutcomesOk, EnrichSettled, StoreInv, ResultsOk, HandlersOk, CopiesOk, TokensOk, PublisherOk, SentOk,
      ApiOk, Grows, WireInv, ClaimsOk, CallsOk, AttemptsKept, MarkPublished, WorkflowsKept, HoldsItsMessage;
    var e := s.publishers[p].event;
    var t' := MarkPublished(s.table, e, at);
    PublishSafe(env, s.table, e, at);
    InvPublisher(env, s, p);
    HandlersFrame(env, s.table, t', s.store, s.store, s.handlers);
    CopiesFrame(s.table, t', s.copies);
    OwnsFrame(env, s.table, t', s.store);
    ApiFrame(s.table, t', s.sessions, s.replies);
    MarkTokens(s.table, s.copies, s.history.sent, e, at);
    PublishersFrame(s.table, t', s.copies, s.history.sent, s.publishers);
    WireFrame(s.table, t', s.wire);
    ClaimsFrame(s.table, t', s.history.claims);
    CallsGrow(s.table, t', s.handlers, s.history);
    ResultsKept(s.table, t', s.store);
  }

  lemma PublicationKeeps(env: Environment, s: System, a: Action)
    requires Inv(env, s) && Enabled(env, s, a) && (a.PickEvent? || a.Send? || a.Mark? || a.PublisherDies?)
    ensures Inv(env, Next(env, s, a))
  {
    hide Inv, AfterSend, MarkPublished, HasCopy, Needed;
    match a
    case PickEvent(event, _) => NewPublisherKeeps(env, s, s.nextId, Sending(event), s.nextId + 1);
    case Send(p, sent) =>
      InvPublisher(env, s, p);
      SendKeeps(env, s, p, sent);
    case Mark(p, at, db) =>
      if db.Refused? { PublisherGoneKeeps(env, s, p); } else { MarkKeeps(env, s, p, at); }
    case PublisherDies(p) => PublisherGoneKeeps(env, s, p);
  }

  // -------------------------------------------------------------------------
  // Delivery
  // -------------------------------------------------------------------------

  lemma DeliverKeeps(env: Environment, s: System, c: nat)
    requires Inv(env, s) && c in s.copies
    ensures Inv(env, s.(handlers := s.handlers[s.nextId := Handler(c, s.copies[c].queue, s.copies[c].message, Start)],
                        nextId := s.nextId + 1))
  {
    hide TableGood, StoreInv, ResultsOk, TokensOk, PublishersOk, SentOk, WireInv, ClaimsOk, ApiOk, MessageOk;
    var hd := Handler(c, s.copies[c].queue, s.copies[c].message, Start);
    assert HandlerOk(env, s.table, s.store, hd);
    assert s.nextId !in s.handlers;
  }

  lemma HandlerGoneKeeps(env: Environment, s: System, h: nat)
    requires Inv(env, s)
    ensures Inv(env, s.(handlers := s.handlers - {h}))
  {
    hide TableGood, StoreInv, ResultsOk, CopiesOk, TokensOk, PublishersOk, SentOk, WireInv, ClaimsOk, ApiOk, HandlerOk;
  }

  /** Deleting a copy loses no token once its message has been dealt with. */
  lemma LessCopy(t: Table, copies: map<nat, Copy>, c: nat, sent: set<EventRef>, publishers: map<nat, Publisher>)
    requires TokensOk(t, copies) && PublishersOk(t, copies, sent, publishers)
    requires c in copies ==> !Needed(t, copies[c].message)
    ensures TokensOk(t, copies - {c}) && PublishersOk(t, copies - {c}, sent, publishers)
  {
    hide Needed;
    forall m | HasCopy(copies, m) && Needed(t, m) ensures HasCopy(copies - {c}, m) {
      var d :| d in copies && copies[d].message == m;
      assert (copies - {c})[d].message == m;
    }
    forall p | p in publishers ensures PublisherOk(t, copies - {c}, sent, publishers[p]) {
      assert PublisherOk(t, copies, sent, publishers[p]);
    }
  }

  lemma AcknowledgeKeeps(env: Environment, s: System, h: nat)
    requires Inv(env, s) && h in s.handlers && s.handlers[h].pc.Done?
    ensures Inv(env, s.(copies := s.copies - {s.handlers[h].copy}, handlers := s.handlers - {h}))
  {
    hide TableGood, StoreInv, ResultsOk, HandlersOk, TokensOk, PublishersOk, SentOk, WireInv, ClaimsOk, ApiOk, MessageOk, Needed;
    HandlerHolds(env, s, h);
    LessCopy(s.table, s.copies, s.handlers[h].copy, s.history.sent, s.publishers);
    HandlersLess(env, s.table, s.store, s.handlers, h);
  }

  lemma HandlersLess(env: Environment, t: Table, store: Store, handlers: map<nat, Handler>, h: nat)
    requires HandlersOk(env, t, store, handlers)
    ensures HandlersOk(env, t, store, handlers - {h})
  {
    hide HandlerOk;
  }

  lemma MoveKeeps(env: Environment, s: System, c: nat, dead: bool)
    requires Inv(env, s) && c in s.copies
    ensures Inv(env, s.(copies := s.copies[c := s.copies[c].(dead := dead)]))
  {
    hide TableGood, StoreInv, ResultsOk, HandlersOk, TokensOk, PublishersOk, SentOk, WireInv, ClaimsOk, ApiOk, MessageOk, CallsOk;
    MoreCopies(s.table, s.copies, s.copies[c := s.copies[c].(dead := dead)], s.history.sent, s.history.sent, s.publishers);
  }

  lemma InvCopy(env: Environment, s: System, c: nat)
    requires Inv(env, s) && c in s.copies
    ensures MessageOk(s.table, s.copies[c].queue, s.copies[c].message)
  {
    hide TableGood, StoreInv, ResultsOk, HandlersOk, TokensOk, PublishersOk, SentOk, WireInv, ClaimsOk, ApiOk, MessageOk, CallsOk;
  }

  lemma DeliveryKeeps(env: Environment, s: System, a: Action)
    requires Inv(env, s) && Enabled(env, s, a)
    requires a.Duplicate? || a.Deliver? || a.Acknowledge? || a.MoveToDlq? || a.Redrive? || a.HandlerDies?
    ensures Inv(env, Next(env, s, a))
  {
    hide Inv, MessageOk;
    match a
    case Duplicate(c) =>
      InvCopy(env, s, c);
      NewCopyKeeps(env, s, s.copies[c], s.history.sent);
      assert s.history.(sent := s.history.sent) == s.history;
    case Deliver(c) => DeliverKeeps(env, s, c);
    case Acknowledge(h) => AcknowledgeKeeps(env, s, h);
    case MoveToDlq(c) => MoveKeeps(env, s, c, true);
    case Redrive(c) => MoveKeeps(env, s, c, false);
    case HandlerDies(h) => HandlerGoneKeeps(env, s, h);
  }

  // -------------------------------------------------------------------------
  // Provider
  // -------------------------------------------------------------------------

  lemma PerformedIsOwned(env: Environment, t: Table, call: Call, decline: bool, sequence: nat, now: nat)
    requires exists r :: CallFor(t, r, call)
    requires decline ==> env.declines
    ensures var request := if decline then call.request.(riskBand := High) else call.request;
            exists r :: Owns(env, t, r, call.key, NewOperation(sequence, call.key, request, now))
  {
    hide FinalizeRef, RiskBandFor, OperationId;
    var r :| CallFor(t, r, call);
    var request := if decline then call.request.(riskBand := High) else call.request;
    assert Owns(env, t, r, call.key, NewOperation(sequence, call.key, request, now));
  }

  lemma PerformStore(env: Environment, t: Table, store: Store, call: Call, decline: bool, now: nat)
    requires StoreInv(env, t, store) && exists r :: CallFor(t, r, call)
    requires decline ==> env.declines
    ensures var store' := Upserted(store, call.key, if decline then call.request.(riskBand := High) else call.request, now);
            StoreInv(env, t, store') && StoreGrows(store, store')
  {
    hide Owns, CallFor, StoreOk, DistinctIds, NewOperation;
    var request := if decline then call.request.(riskBand := High) else call.request;
    UpsertKeeps(store, call.key, request, now);
    PerformedIsOwned(env, t, call, decline, store.sequence + 1, now);
  }

  lemma ResultsGrow(t: Table, store: Store, store': Store)
    requires ResultsOk(t, store) && StoreGrows(store, store')
    ensures ResultsOk(t, store')
  {
    hide FinalizeRef, RiskBandFor;
    forall r | r in t.workflows ensures ResultOk(t.workflows[r], store') {
      assert ResultOk(t.workflows[r], store);
    }
  }

  lemma PerformKeeps(env: Environment, s: System, a: Action)
    requires Inv(env, s) && Enabled(env, s, a) && a.Perform?
    ensures Inv(env, Next(env, s, a))
  {
    hide TableGood, StoreInv, ResultsOk, HandlersOk, CopiesOk, TokensOk, PublishersOk, SentOk, ClaimsOk, CallsOk,
      ApiOk, HoldsItsMessage, CallFor, Upserted, StoreGrows, Grows;
    var store' := Next(env, s, a).store;
    PerformStore(env, s.table, s.store, a.call, a.decline, a.now);
    ResultsGrow(s.table, s.store, store');
    GrowsReflexive(s.table);
    HandlersFrame(env, s.table, s.table, s.store, store', s.handlers);
  }

  // -------------------------------------------------------------------------
  // Every action, every run
  // -------------------------------------------------------------------------

  lemma NextKeeps(env: Environment, s: System, a: Action)
    requires Inv(env, s) && Enabled(env, s, a)
    ensures Inv(env, Next(env, s, a))
  {
    hide Inv, Next, Enabled;
    match a
    case Step(_, _, _, _) => StepActionKeeps(env, s, a);
    case Perform(_, _, _) => PerformKeeps(env, s, a);
    case Post(_, _, _, _, _, _, _, _) => ApiActionKeeps(env, s, a);
    case Poll(_) => ApiActionKeeps(env, s, a);
    case GiveUp(_) => ApiActionKeeps(env, s, a);
    case Disconnect(_) => ApiActionKeeps(env, s, a);
    case PickEvent(_, _) => PublicationKeeps(env, s, a);
    case Send(_, _) => PublicationKeeps(env, s, a);
    case Mark(_, _, _) => PublicationKeeps(env, s, a);
    case PublisherDies(_) => PublicationKeeps(env, s, a);
    case _ => DeliveryKeeps(env, s, a);
  }

  /** A run changes the table only by growing it, and never an operation performed. */
  ghost predicate Onward(s: System, s': System) {
    Grows(s.table, s'.table) && StoreGrows(s.store, s'.store)
  }

  lemma PostGrows(s: System, a: Action)
    requires a.Post?
    ensures Onward(s, Posted(s, a))
  {
    hide Grows, CreateWorkflow, PayloadHash, BodyOf;
    CreateGrows(s.table, CreateInputOf(a), a.at);
    GrowsReflexive(s.table);
  }

  lemma NextGrows(env: Environment, s: System, a: Action)
    requires Inv(env, s) && Enabled(env, s, a)
    ensures Onward(s, Next(env, s, a))
  {
    hide Inv, Grows, EnrichEffect, FinalizeEffect, Posted, MarkPublished, BodyOf, FaultAllowed, HttpAllowed, TableInv;
    GrowsReflexive(s.table);
    match a
    case Step(h, at, db, http) =>
      match s.handlers[h].queue {
        case START_QUEUE => EnrichStepGood(env, s, h, at, db);
        case STEP_QUEUE => FinalizeStepGood(env, s, h, at, db, http);
      }
    case Post(_, _, _, _, _, _, _, _) => PostGrows(s, a);
    case Mark(p, at, _) =>
      InvTable(env, s);
      PublishKeeps(s.table, s.publishers[p].event, at);
    case _ =>
  }

  lemma OnwardTransitive(a: System, b: System, c: System)
    requires Onward(a, b) && Onward(b, c)
    ensures Onward(a, c)
  {
    hide Grows;
    GrowsTransitive(a.table, b.table, c.table);
  }

  lemma {:induction false} FollowKeeps(env: Environment, s: System, run: seq<Action>)
    requires Inv(env, s) && Follow(env, s, run).Some?
    ensures Inv(env, Follow(env, s, run).value) && Onward(s, Follow(env, s, run).value)
    decreases |run|
  {
    hide Inv, Next, Enabled, Onward;
    if run == [] {
      OnwardReflexive(s);
    } else {
      var next := Next(env, s, run[0]);
      NextKeeps(env, s, run[0]);
      NextGrows(env, s, run[0]);
      FollowKeeps(env, next, run[1..]);
      OnwardTransitive(s, next, Follow(env, s, run).value);
    }
  }

  lemma OnwardReflexive(s: System)
    ensures Onward(s, s)
  {
    hide Grows;
    GrowsReflexive(s.table);
  }

  /** The invariant holds in every reachable state. */
  lemma ReachableInv(env: Environment, s: System)
    requires Reachable(env, s)
    ensures Inv(env, s)
  {
    hide Inv, Next, Enabled;
    var good := iset x: System | Inv(env, x);
    forall x, a | x in good && Enabled(env, x, a) ensures Next(env, x, a) in good {
      NextKeeps(env, x, a);
    }
    InvInitially(env);
    assert Closed(env, good);
  }

  lemma {:induction false} FollowAppends(env: Environment, s: System, first: seq<Action>, second: seq<Action>)
    requires Follow(env, s, first).Some?
    ensures Follow(env, s, first + second) == Follow(env, Follow(env, s, first).value, second)
    decreases |first|
  {
    hide Next, Enabled;
    if first == [] {
      assert first + second == second;
    } else {
      FollowAppends(env, Next(env, s, first[0]), first[1..], second);
      assert (first + second)[1..] == first[1..] + second;
    }
  }

  lemma FollowOne(env: Environment, s: System, a: Action)
    requires Enabled(env, s, a)
    ensures Follow(env, s, [a]) == Some(Next(env, s, a))
  {
    hide Next, Enabled;
    assert [a][1..] == [];
    assert Follow(env, Next(env, s, a), []) == Some(Next(env, s, a));
  }

  lemma {:induction false} ClosedFollow(env: Environment, states: iset<System>, s: System, run: seq<Action>)
    requires Closed(env, states) && s in states && Follow(env, s, run).Some?
    ensures Follow(env, s, run).value in states
    decreases |run|
  {
    hide Next, Enabled;
    if run != [] { ClosedFollow(env, states, Next(env, s, run[0]), run[1..]); }
  }

  /** What follows from a reachable state is reachable. */
  lemma ReachableOnward(env: Environment, s: System, run: seq<Action>)
    requires Reachable(env, s) && Follow(env, s, run).Some?
    ensures Reachable(env, Follow(env, s, run).value)
  {
    hide Closed, Follow;
    forall states: iset<System> | Closed(env, states) && INITIAL in states ensures Follow(env, s, run).value in states {
      ClosedFollow(env, states, s, run);
    }
  }

  lemma InitiallyReachable(env: Environment)
    ensures Reachable(env, INITIAL)
  {
    hide Closed;
  }

  /** Reachable is what a run from the empty system leads to, and nothing else. */
  lemma ReachableByRun(env: Environment, s: System)
    ensures Reachable(env, s) <==> exists run :: Follow(env, INITIAL, run) == Some(s)
  {
    hide Next, Enabled, Follow;
    var led := iset x: System | exists run :: Follow(env, INITIAL, run) == Some(x);
    forall x, a | x in led && Enabled(env, x, a) ensures Next(env, x, a) in led {
      var run :| Follow(env, INITIAL, run) == Some(x);
      FollowAppends(env, INITIAL, run, [a]);
      FollowOne(env, x, a);
      assert Follow(env, INITIAL, run + [a]) == Some(Next(env, x, a));
    }
    assert INITIAL in led by { FollowNone(env, INITIAL); }
    assert Closed(env, led);
    if run :| Follow(env, INITIAL, run) == Some(s) {
      InitiallyReachable(env);
      ReachableOnward(env, INITIAL, run);
    }
  }

  lemma FollowNone(env: Environment, s: System)
    ensures Follow(env, s, []) == Some(s)
  {}
}
