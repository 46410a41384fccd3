/** Counts over whole runs: how often something was done, read off the actions themselves
    and not off the history the state carries. */
module ProtocolHistory {
  import opened Contracts
  import opened Payload
  import opened Provider
  import opened Table
  import opened TableInvariant
  import opened Protocol
  import opened ProtocolInvariant
  import opened ProtocolSafety
  import opened ProtocolTheorems

  /** The action puts a call for the workflow on the wire (`CallsReachTheWire`). */
  predicate Calls(s: System, a: Action, r: RequestId) {
    a.Step? && a.handler in s.handlers &&
    var hd := s.handlers[a.handler];
    hd.queue == STEP_QUEUE && hd.message.FinalizeMessage? && hd.message.requestId == r && hd.pc.Execute?
  }

  /** A lookup that the provider answers with 404. */
  predicate FindsNothing(s: System, a: Action) {
    a.Step? && a.handler in s.handlers && s.handlers[a.handler].queue == STEP_QUEUE
    && s.handlers[a.handler].pc.Reconcile? && Lookup(a.http) == NotFound
  }

  predicate CallsBare(s: System, a: Action, r: RequestId) {
    Calls(s, a, r) && !s.handlers[a.handler].pc.reconciled
  }

  /** The action applies a claim of the step. */
  predicate Claims(s: System, a: Action, k: StepRef) {
    a.Step? && a.handler in s.handlers && !a.db.Refused? && !StepSucceeded(s.table, k.0, k.1) &&
    var hd := s.handlers[a.handler];
    hd.message.requestId == k.0 &&
    match k.1
    case ENRICH => hd.queue == START_QUEUE && hd.pc.ClaimEnrich?
    case FINALIZE => hd.queue == STEP_QUEUE && hd.pc.ClaimFinalize?
  }

  /** The action puts the event's message on its queue. */
  predicate Sends(s: System, a: Action, e: EventRef) {
    a.Send? && a.publisher in s.publishers && s.publishers[a.publisher].event == e && !a.sent.NotSent?
  }

  function One(b: bool): nat {
    if b then 1 else 0
  }

  lemma ClaimRecorded(s: System, h: nat, hd: Handler, step: StepId, ref: Option<ExternalRef>, at: When, db: DbCall,
                      answered: BeginStepResult -> Pc, k: StepRef)
    ensures var r := hd.message.requestId;
            var e := Claim(s, h, r, step, ref, at, db, answered, hd.pc);
            e.history.bareCalls == s.history.bareCalls && e.history.sent == s.history.sent
            && Times(e.history.claims, k)
               == Times(s.history.claims, k) + One(k == (r, step) && !db.Refused? && !StepSucceeded(s.table, r, step))
  {}

  lemma StepRecorded(env: Environment, s: System, a: Action, r: RequestId, k: StepRef)
    requires Enabled(env, s, a) && a.Step?
    ensures Times(Next(env, s, a).history.bareCalls, r) == Times(s.history.bareCalls, r) + One(CallsBare(s, a, r))
    ensures Times(Next(env, s, a).history.claims, k) == Times(s.history.claims, k) + One(Claims(s, a, k))
    ensures Next(env, s, a).history.sent == s.history.sent
  {
    hide Claim, BeginStep, AdvanceStep, WriteTerminal, MarkUnknown, FinalizeRef, Caught, VerdictFor, RequestFor, AfterExecute,
      Lookup, StepSucceeded;
    var hd := s.handlers[a.handler];
    if hd.queue == START_QUEUE && hd.pc.ClaimEnrich? {
      var input := hd.pc.input;
      ClaimRecorded(s, a.handler, hd, ENRICH, Option.None, a.at, a.db,
                    (b: BeginStepResult) => if b.ALREADY_SUCCEEDED? then Done else Enriching(input), k);
    } else if hd.queue == STEP_QUEUE && hd.pc.ClaimFinalize? {
      var input := hd.pc.input;
      ClaimRecorded(s, a.handler, hd, FINALIZE, Some(FinalizeRef(hd.message.requestId)), a.at, a.db,
                    (b: BeginStepResult) =>
                      if b.ALREADY_SUCCEEDED? then ReadStored
                      else if b.STARTED? then Execute(input, false)
                      else Reconcile(input), k);
    }
  }

  lemma NextRecorded(env: Environment, s: System, a: Action, r: RequestId, k: StepRef, e: EventRef)
    requires Enabled(env, s, a)
    ensures Times(Next(env, s, a).history.bareCalls, r) == Times(s.history.bareCalls, r) + One(CallsBare(s, a, r))
    ensures Times(Next(env, s, a).history.claims, k) == Times(s.history.claims, k) + One(Claims(s, a, k))
    ensures e in Next(env, s, a).history.sent ==> e in s.history.sent || Sends(s, a, e)
  {
    hide AfterStep, FaultAllowed, HttpAllowed, CreateWorkflow, PayloadHash, BodyOf, MarkPublished, Times;
    if a.Step? { StepRecorded(env, s, a, r, k); }
  }

  // -------------------------------------------------------------------------
  // Over a run
  // -------------------------------------------------------------------------

  function BareCalls(env: Environment, s: System, run: seq<Action>, r: RequestId): nat
    requires Follow(env, s, run).Some?
    decreases |run|
  {
    if run == [] then 0 else One(CallsBare(s, run[0], r)) + BareCalls(env, Next(env, s, run[0]), run[1..], r)
  }

  function ClaimsApplied(env: Environment, s: System, run: seq<Action>, k: StepRef): nat
    requires Follow(env, s, run).Some?
    decreases |run|
  {
    if run == [] then 0 else One(Claims(s, run[0], k)) + ClaimsApplied(env, Next(env, s, run[0]), run[1..], k)
  }

  predicate EverSent(env: Environment, s: System, run: seq<Action>, e: EventRef)
    requires Follow(env, s, run).Some?
    decreases |run|
  {
    run != [] && (Sends(s, run[0], e) || EverSent(env, Next(env, s, run[0]), run[1..], e))
  }

  lemma {:induction false} RunRecorded(env: Environment, s: System, run: seq<Action>, r: RequestId, k: StepRef, e: EventRef)
    requires Follow(env, s, run).Some?
    ensures var s' := Follow(env, s, run).value;
            && Times(s'.history.bareCalls, r) == Times(s.history.bareCalls, r) + BareCalls(env, s, run, r)
            && Times(s'.history.claims, k) == Times(s.history.claims, k) + ClaimsApplied(env, s, run, k)
            && (e in s'.history.sent ==> e in s.history.sent || EverSent(env, s, run, e))
    decreases |run|
  {
    hide Next, Enabled, CallsBare, Claims, Sends, Times;
    if run != [] {
      NextRecorded(env, s, run[0], r, k, e);
      RunRecorded(env, Next(env, s, run[0]), run[1..], r, k, e);
    }
  }

  lemma RunIsReachable(env: Environment, run: seq<Action>)
    requires Follow(env, INITIAL, run).Some?
    ensures Reachable(env, Follow(env, INITIAL, run).value)
  {
    hide Follow, Reachable;
    InitiallyReachable(env);
    ReachableOnward(env, INITIAL, run);
  }

  // -------------------------------------------------------------------------
  // Calls and lookups
  // -------------------------------------------------------------------------

  lemma StepReachesTheWire(env: Environment, s: System, a: Action, call: Call)
    requires Enabled(env, s, a) && a.Step? && call in AfterStep(s, a.handler, a.at, a.db, a.http).wire && call !in s.wire
    ensures Calls(s, a, s.handlers[a.handler].message.requestId)
    ensures call.key == FinalizeRef(s.handlers[a.handler].message.requestId)
  {
    hide BeginStep, AdvanceStep, WriteTerminal, MarkUnknown, FinalizeRef, VerdictFor, RequestFor, Lookup, FaultAllowed,
      HttpAllowed, AfterExecute, Caught;
  }

  lemma CallsReachTheWire(env: Environment, s: System, a: Action, call: Call)
    requires Enabled(env, s, a) && call in Next(env, s, a).wire && call !in s.wire
    ensures a.Step? && a.handler in s.handlers && Calls(s, a, s.handlers[a.handler].message.requestId)
    ensures call.key == FinalizeRef(s.handlers[a.handler].message.requestId)
  {
    hide AfterStep, FinalizeRef, FaultAllowed, HttpAllowed, CreateWorkflow, PayloadHash, BodyOf, MarkPublished, Validated, Calls;
    assert a.Step?;
    StepReachesTheWire(env, s, a, call);
  }

  /** The handlers that, since their message was delivered to them, have looked and found
      nothing. */
  function Looked(s: System, a: Action, looked: set<nat>): set<nat> {
    if a.Deliver? then looked - {s.nextId} else if FindsNothing(s, a) then looked + {a.handler} else looked
  }

  /** The calls of a run that no such lookup preceded. */
  function UnreconciledCalls(env: Environment, s: System, run: seq<Action>, r: RequestId, looked: set<nat>): nat
    requires Follow(env, s, run).Some?
    decreases |run|
  {
    if run == [] then 0
    else One(Calls(s, run[0], r) && run[0].handler !in looked)
         + UnreconciledCalls(env, Next(env, s, run[0]), run[1..], r, Looked(s, run[0], looked))
  }

  predicate ReconciledLooked(s: System, looked: set<nat>) {
    forall h | h in s.handlers && s.handlers[h].pc.Execute? && s.handlers[h].pc.reconciled :: h in looked
  }

  predicate Reconciled(pc: Pc) {
    pc.Execute? && pc.reconciled
  }

  /** A handler comes to a reconciled call only by such a lookup. */
  lemma StepLooks(s: System, h: nat, at: When, db: DbCall, http: Http)
    requires h in s.handlers && !Reconciled(s.handlers[h].pc)
    requires Reconciled(HandlerEffect(s, h, s.handlers[h], at, db, http).pc)
    ensures FindsNothing(s, Step(h, at, db, http))
  {
    hide BeginStep, AdvanceStep, WriteTerminal, MarkUnknown, FinalizeRef, VerdictFor, RequestFor, Lookup;
  }

  lemma StepKeepsLooked(s: System, a: Action, looked: set<nat>)
    requires a.Step? && a.handler in s.handlers && ReconciledLooked(s, looked)
    ensures ReconciledLooked(AfterStep(s, a.handler, a.at, a.db, a.http), Looked(s, a, looked))
  {
    hide EnrichEffect, FinalizeEffect, Lookup, FindsNothing;
    var hd := s.handlers[a.handler];
    var pc := HandlerEffect(s, a.handler, hd, a.at, a.db, a.http).pc;
    if Reconciled(pc) && !Reconciled(hd.pc) { StepLooks(s, a.handler, a.at, a.db, a.http); }
  }

  lemma LookedKeeps(env: Environment, s: System, a: Action, looked: set<nat>)
    requires Enabled(env, s, a) && ReconciledLooked(s, looked)
    ensures ReconciledLooked(Next(env, s, a), Looked(s, a, looked))
  {
    hide AfterStep, FaultAllowed, HttpAllowed, CreateWorkflow, PayloadHash, BodyOf, MarkPublished, FindsNothing, Validated;
    if a.Step? { StepKeepsLooked(s, a, looked); }
  }

  lemma {:induction false} UnreconciledAreBare(env: Environment, s: System, run: seq<Action>, r: RequestId, looked: set<nat>)
    requires Follow(env, s, run).Some? && ReconciledLooked(s, looked)
    ensures UnreconciledCalls(env, s, run, r, looked) <= BareCalls(env, s, run, r)
    decreases |run|
  {
    hide Next, Enabled, Looked;
    if run != [] {
      LookedKeeps(env, s, run[0], looked);
      UnreconciledAreBare(env, Next(env, s, run[0]), run[1..], r, Looked(s, run[0], looked));
    }
  }

  /** Over any run at most one call per workflow is sent by a handler that has not, since it
      was given its message, looked at the provider and found nothing. */
  lemma AtMostOneUnreconciledCall(env: Environment, run: seq<Action>, r: RequestId)
    requires Follow(env, INITIAL, run).Some?
    ensures UnreconciledCalls(env, INITIAL, run, r, {}) <= 1
  {
    hide Follow, Reachable, BareCalls, ClaimsApplied, UnreconciledCalls;
    RunIsReachable(env, run);
    AtMostOneBareCall(env, Follow(env, INITIAL, run).value, r);
    RunRecorded(env, INITIAL, run, r, (r, FINALIZE), Event(r, FINALIZE));
    UnreconciledAreBare(env, INITIAL, run, r, {});
  }

  /** Over any run the stored attempt number is the number of claims that were applied. */
  lemma AttemptIsClaimsApplied(env: Environment, run: seq<Action>, k: StepRef)
    requires Follow(env, INITIAL, run).Some?
    ensures var t := Follow(env, INITIAL, run).value.table;
            ClaimsApplied(env, INITIAL, run, k) == (if k in t.steps then t.steps[k].attempt else 0)
  {
    hide Follow, Reachable, BareCalls, ClaimsApplied;
    RunIsReachable(env, run);
    AttemptCountsClaims(env, Follow(env, INITIAL, run).value, k);
    RunRecorded(env, INITIAL, run, k.0, k, Event(k.0, FINALIZE));
  }

  /** Over any run an event that is marked published was sent before. */
  lemma PublishedWasSent(env: Environment, run: seq<Action>, e: EventRef)
    requires Follow(env, INITIAL, run).Some?
    requires var t := Follow(env, INITIAL, run).value.table; e in t.outbox && t.outbox[e].publishedAt.Some?
    ensures EverSent(env, INITIAL, run, e)
  {
    hide Follow, Reachable, BareCalls, ClaimsApplied, EverSent;
    RunIsReachable(env, run);
    PublishedOnlyIfSent(env, Follow(env, INITIAL, run).value, e);
    RunRecorded(env, INITIAL, run, e.0, (e.0, ENRICH), e);
  }

  // -------------------------------------------------------------------------
  // Messages held
  // -------------------------------------------------------------------------

  predicate Acknowledges(s: System, a: Action, c: nat) {
    a.Acknowledge? && a.handler in s.handlers && s.handlers[a.handler].copy == c
  }

  predicate EverAcknowledged(env: Environment, s: System, run: seq<Action>, c: nat)
    requires Follow(env, s, run).Some?
    decreases |run|
  {
    run != [] && (Acknowledges(s, run[0], c) || EverAcknowledged(env, Next(env, s, run[0]), run[1..], c))
  }

  /** The copies after an action: one more, one less, one moved, or the same. */
  lemma CopiesAfter(env: Environment, s: System, a: Action)
    requires Enabled(env, s, a)
    ensures var s' := Next(env, s, a);
            s.nextId <= s'.nextId &&
            if Arrives(s, a) then s'.nextId > s.nextId && s.nextId in s'.copies && s'.copies == s.copies[s.nextId := s'.copies[s.nextId]]
            else if a.Acknowledge? then a.handler in s.handlers && s'.copies == s.copies - {s.handlers[a.handler].copy}
            else if a.MoveToDlq? || a.Redrive? then a.copy in s.copies && s'.copies == s.copies[a.copy := s.copies[a.copy].(dead := a.MoveToDlq?)]
            else s'.copies == s.copies
  {
    hide AfterStep, AfterSend, Posted, FaultAllowed, HttpAllowed, BodyOf, MarkPublished, Validated, Upserted;
    if a.Step? { StepCopies(s, a.handler, a.at, a.db, a.http); }
    if a.Post? { PostCopies(s, a); }
    if a.Send? && s.publishers[a.publisher].event in s.table.outbox { SendCopies(s, a.publisher, a.sent); }
  }

  lemma StepCopies(s: System, h: nat, at: When, db: DbCall, http: Http)
    requires h in s.handlers
    ensures var s' := AfterStep(s, h, at, db, http); s'.copies == s.copies && s'.nextId == s.nextId
  {
    hide HandlerEffect;
  }

  lemma PostCopies(s: System, a: Action)
    requires a.Post?
    ensures Posted(s, a).copies == s.copies && s.nextId <= Posted(s, a).nextId
  {
    hide CreateWorkflow, PayloadHash, BodyOf;
  }

  lemma SendCopies(s: System, p: nat, sent: Sent)
    requires p in s.publishers && s.publishers[p].event in s.table.outbox
    ensures var s' := AfterSend(s, p, sent);
            if sent.NotSent? then s'.copies == s.copies && s'.nextId == s.nextId
            else s'.nextId == s.nextId + 1 && s'.copies == s.copies[s.nextId := CopyOf(s, s.publishers[p].event)]
  {}

  /** Whatever else happens to a copy, only its acknowledgement removes it. */
  lemma StepHolds(env: Environment, s: System, a: Action, c: nat)
    requires Enabled(env, s, a) && c < s.nextId
    ensures var s' := Next(env, s, a);
            && s.nextId <= s'.nextId
            && (c in s'.copies <==> c in s.copies && !Acknowledges(s, a, c))
            && (c in s'.copies ==> s'.copies[c].(dead := s.copies[c].dead) == s.copies[c])
  {
    hide Next, Enabled;
    CopiesAfter(env, s, a);
  }

  lemma {:induction false} RunHolds(env: Environment, s: System, run: seq<Action>, c: nat)
    requires Follow(env, s, run).Some? && c < s.nextId
    ensures var s' := Follow(env, s, run).value;
            && (c in s'.copies <==> c in s.copies && !EverAcknowledged(env, s, run, c))
            && (c in s'.copies ==> s'.copies[c].(dead := s.copies[c].dead) == s.copies[c])
    decreases |run|
  {
    hide Next, Enabled, Acknowledges;
    if run != [] {
      StepHolds(env, s, run[0], c);
      RunHolds(env, Next(env, s, run[0]), run[1..], c);
    }
  }

  /** A message stays on its queue or in its dead-letter queue, unchanged, exactly until it is
      acknowledged. */
  lemma HeldUntilAcknowledged(env: Environment, s: System, run: seq<Action>, c: nat)
    requires Reachable(env, s) && c in s.copies && Follow(env, s, run).Some?
    ensures var s' := Follow(env, s, run).value;
            && (c in s'.copies <==> !EverAcknowledged(env, s, run, c))
            && (c in s'.copies ==> s'.copies[c].queue == s.copies[c].queue && s'.copies[c].message == s.copies[c].message)
  {
    hide Follow, Reachable;
    ReachableIds(env, s);
    RunHolds(env, s, run, c);
  }

  /** A message comes onto a queue. */
  predicate Arrives(s: System, a: Action) {
    a.Duplicate? ||
    (a.Send? && a.publisher in s.publishers && s.publishers[a.publisher].event in s.table.outbox && !a.sent.NotSent?)
  }

  /** A message leaves for good. */
  predicate Leaves(s: System, a: Action) {
    a.Acknowledge? && a.handler in s.handlers && s.handlers[a.handler].copy in s.copies
  }

  function Balance(env: Environment, s: System, run: seq<Action>): int
    requires Follow(env, s, run).Some?
    decreases |run|
  {
    if run == [] then 0
    else One(Arrives(s, run[0])) - One(Leaves(s, run[0])) + Balance(env, Next(env, s, run[0]), run[1..])
  }

  ghost predicate Numbered(s: System) {
    forall c | c in s.copies :: c < s.nextId
  }

  lemma StepBalances(env: Environment, s: System, a: Action)
    requires Enabled(env, s, a) && Numbered(s)
    ensures var s' := Next(env, s, a); Numbered(s') && |s'.copies| == |s.copies| + One(Arrives(s, a)) - One(Leaves(s, a))
  {
    hide Next, Enabled;
    CopiesAfter(env, s, a);
    if a.Acknowledge? {
      var c := s.handlers[a.handler].copy;
      assert (s.copies - {c}).Keys == s.copies.Keys - {c};
    } else if a.MoveToDlq? || a.Redrive? {
      assert Next(env, s, a).copies.Keys == s.copies.Keys;
    } else if Arrives(s, a) {
      assert s.nextId !in s.copies;
    }
  }

  lemma {:induction false} RunBalances(env: Environment, s: System, run: seq<Action>)
    requires Follow(env, s, run).Some? && Numbered(s)
    ensures |Follow(env, s, run).value.copies| == |s.copies| + Balance(env, s, run)
    decreases |run|
  {
    hide Next, Enabled, Arrives, Leaves, Numbered;
    if run != [] {
      StepBalances(env, s, run[0]);
      RunBalances(env, Next(env, s, run[0]), run[1..]);
    }
  }

  /** Over any run the messages held are the messages sent and duplicated less the messages
      acknowledged. */
  lemma MessagesBalance(env: Environment, run: seq<Action>)
    requires Follow(env, INITIAL, run).Some?
    ensures |Follow(env, INITIAL, run).value.copies| == Balance(env, INITIAL, run)
  {
    hide Follow, Balance;
    RunBalances(env, INITIAL, run);
  }
}
