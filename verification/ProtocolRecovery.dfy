/** From every reachable state every open workflow can still be finished, in a bounded number
    of undisturbed steps that use nothing but its own live token. */
module ProtocolRecovery {
  import opened Contracts
  import opened Payload
  import opened Enriching
  import opened Provider
  import opened Table
  import opened TableInvariant
  import opened Protocol
  import opened ProtocolInvariant
  import opened ProtocolSteps
  import opened ProtocolSafety
  import opened ProtocolTheorems

  // -------------------------------------------------------------------------
  // Undisturbed runs
  // -------------------------------------------------------------------------

  /** Nothing fails: writes are answered, messages arrive, the provider performs what it is
      asked and says what it did. An event is sent only if it is unpublished. */
  predicate Calm(s: System, a: Action, at: When) {
    match a
    case PickEvent(_, replay) => !replay
    case Send(_, sent) => sent.Delivered?
    case Deliver(_) => true
    case Redrive(_) => true
    case Perform(_, decline, now) => !decline && now == at.now
    case Step(h, w, db, http) => w == at && db.Answered? && h in s.handlers && TruthfulAnswer(s, s.handlers[h], http)
    case _ => false
  }

  predicate TruthfulAnswer(s: System, hd: Handler, http: Http) {
    var ref := FinalizeRef(hd.message.requestId);
    hd.pc.Reconcile? || hd.pc.AwaitAnswer? ==>
      http == (if ref in s.store.operations then Response(200, Some(s.store.operations[ref])) else Response(404, None))
  }

  predicate CalmRun(env: Environment, s: System, run: seq<Action>, at: When)
    ensures CalmRun(env, s, run, at) ==> Follow(env, s, run).Some?
    decreases |run|
  {
    run == [] ||
    (Enabled(env, s, run[0]) && Calm(s, run[0], at) && CalmRun(env, Next(env, s, run[0]), run[1..], at))
  }

  lemma CalmRunFollows(env: Environment, s: System, run: seq<Action>, at: When)
    requires CalmRun(env, s, run, at)
    ensures Follow(env, s, run).Some?
  {
    hide Next, Enabled, Calm;
  }

  /** Places on the way of a workflow. */
  datatype Milestone = Finished | Advancing | Awaiting | Settling

  predicate Open(s: System, r: RequestId) {
    r in s.table.workflows && s.table.workflows[r].status == Processing
  }

  predicate Working(s: System, h: nat, r: RequestId, step: StepId) {
    h in s.handlers && s.handlers[h].message.requestId == r && StepOf(s.handlers[h].message) == step
    && s.handlers[h].queue == QueueOf(step)
  }

  ghost predicate HasReached(s: System, r: RequestId, m: Milestone) {
    match m
    case Finished => r in s.table.workflows && IsTerminal(s.table.workflows[r].status)
    case Advancing =>
      Open(s, r) && Event(r, FINALIZE) !in s.table.outbox && exists h :: Working(s, h, r, ENRICH) && s.handlers[h].pc.Advance?
    case Awaiting =>
      Open(s, r) && FinalizeRef(r) !in s.store.operations && (exists call :: call in s.wire && call.key == FinalizeRef(r))
      && exists h :: Working(s, h, r, FINALIZE) && s.handlers[h].pc.AwaitAnswer?
    case Settling => Open(s, r) && exists h :: Working(s, h, r, FINALIZE) && s.handlers[h].pc.Settle?
  }

  ghost predicate Within(env: Environment, s: System, r: RequestId, m: Milestone, at: When, n: nat) {
    exists run :: |run| <= n && CalmRun(env, s, run, at) && HasReached(Follow(env, s, run).value, r, m)
  }

  /** The milestone lies ahead: only a supported input passes ENRICH, and only an operation
      not yet performed is asked for again. */
  predicate Ahead(s: System, r: RequestId, m: Milestone) {
    Open(s, r) && (m != Finished ==> Supported(s.table.workflows[r].input))
    && (m == Awaiting ==> FinalizeRef(r) !in s.store.operations)
  }

  lemma AlreadyThere(env: Environment, s: System, r: RequestId, m: Milestone, at: When, n: nat)
    requires HasReached(s, r, m)
    ensures Within(env, s, r, m, at, n)
  {
    hide HasReached;
    assert Follow(env, s, []).value == s && CalmRun(env, s, [], at);
  }

  lemma OneMore(env: Environment, s: System, a: Action, r: RequestId, m: Milestone, at: When, n: nat)
    requires Enabled(env, s, a) && Calm(s, a, at) && n > 0 && Within(env, Next(env, s, a), r, m, at, n - 1)
    ensures Within(env, s, r, m, at, n)
  {
    hide HasReached, Enabled, Calm, Next;
    var run :| |run| <= n - 1 && CalmRun(env, Next(env, s, a), run, at) && HasReached(Follow(env, Next(env, s, a), run).value, r, m);
    var longer := [a] + run;
    assert longer[1..] == run;
    assert CalmRun(env, s, longer, at) && HasReached(Follow(env, s, longer).value, r, m);
  }

  function StepOnce(h: nat, at: When, http: Http): Action {
    Step(h, at, Answered, http)
  }

  const SILENCE: Http := NoResponse("")

  // -------------------------------------------------------------------------
  // The finalizer
  // -------------------------------------------------------------------------

  lemma FromSettle(env: Environment, s: System, h: nat, r: RequestId, m: Milestone, at: When)
    requires Positive(at) && Inv(env, s) && Open(s, r) && Working(s, h, r, FINALIZE) && s.handlers[h].pc.Settle?
    requires m == Finished || m == Settling
    ensures Within(env, s, r, m, at, 1)
  {
    hide Inv, Within, EventIdOf, FinalizeRef, VerdictFor, TerminalStep;
    var a := StepOnce(h, at, SILENCE);
    if m == Settling {
      AlreadyThere(env, s, r, m, at, 1);
    } else {
      AlreadyThere(env, Next(env, s, a), r, m, at, 0);
      OneMore(env, s, a, r, m, at, 1);
    }
  }

  lemma StoredKey(env: Environment, s: System, key: ExternalRef)
    requires Inv(env, s) && key in s.store.operations
    ensures s.store.operations[key].idempotencyKey == key
  {
    hide TableGood, HandlersOk, CopiesOk, TokensOk, PublishersOk, SentOk, WireInv, ClaimsOk, CallsOk, ApiOk, Owns, ResultsOk,
      HoldsItsMessage, DistinctIds;
  }

  lemma FromAwait(env: Environment, s: System, h: nat, r: RequestId, m: Milestone, at: When)
    requires Positive(at) && Inv(env, s) && Open(s, r) && Working(s, h, r, FINALIZE) && s.handlers[h].pc.AwaitAnswer?
    requires FinalizeRef(r) in s.store.operations && (m == Finished || m == Settling)
    ensures Within(env, s, r, m, at, 2)
  {
    hide Inv, Within, EventIdOf, FinalizeRef;
    var a := StepOnce(h, at, Response(200, Some(s.store.operations[FinalizeRef(r)])));
    StoredKey(env, s, FinalizeRef(r));
    NextKeeps(env, s, a);
    FromSettle(env, Next(env, s, a), h, r, m, at);
    OneMore(env, s, a, r, m, at, 2);
  }

  lemma FromCall(env: Environment, s: System, h: nat, r: RequestId, call: Call, m: Milestone, at: When)
    requires Positive(at) && Inv(env, s) && Open(s, r) && Working(s, h, r, FINALIZE) && s.handlers[h].pc.AwaitAnswer?
    requires call in s.wire && call.key == FinalizeRef(r) && (m == Finished || m == Settling)
    ensures Within(env, s, r, m, at, 3)
  {
    hide Inv, Within, EventIdOf, FinalizeRef, NewOperation;
    var a := Perform(call, false, at.now);
    NextKeeps(env, s, a);
    FromAwait(env, Next(env, s, a), h, r, m, at);
    OneMore(env, s, a, r, m, at, 3);
  }

  lemma FromExecute(env: Environment, s: System, h: nat, r: RequestId, m: Milestone, at: When)
    requires Positive(at) && Inv(env, s) && Ahead(s, r, m) && Working(s, h, r, FINALIZE) && s.handlers[h].pc.Execute?
    requires m != Advancing
    ensures Within(env, s, r, m, at, 4)
  {
    hide Inv, Within, EventIdOf, FinalizeRef, FinalizeEffect, RequestFor;
    var a := StepOnce(h, at, SILENCE);
    var hd := s.handlers[h];
    NextKeeps(env, s, a);
    ExecuteEffect(s, h, hd, at, Answered, SILENCE);
    var s' := Next(env, s, a);
    if m == Awaiting {
      assert Working(s', h, r, FINALIZE);
      assert Call(FinalizeRef(r), RequestFor(hd.pc.input, hd.message.enrichment)) in s'.wire;
      AlreadyThere(env, s', r, m, at, 3);
    } else {
      FromCall(env, s', h, r, Call(FinalizeRef(r), RequestFor(hd.pc.input, hd.message.enrichment)), m, at);
    }
    OneMore(env, s, a, r, m, at, 4);
  }

  lemma FromReconcile(env: Environment, s: System, h: nat, r: RequestId, m: Milestone, at: When)
    requires Positive(at) && Inv(env, s) && Ahead(s, r, m) && Working(s, h, r, FINALIZE) && s.handlers[h].pc.Reconcile?
    requires m != Advancing
    ensures Within(env, s, r, m, at, 5)
  {
    hide Inv, Within, EventIdOf, FinalizeRef, Supported;
    var ref := FinalizeRef(r);
    var found := ref in s.store.operations;
    var a := StepOnce(h, at, if found then Response(200, Some(s.store.operations[ref])) else Response(404, None));
    NextKeeps(env, s, a);
    if found { FromSettle(env, Next(env, s, a), h, r, m, at); } else { FromExecute(env, Next(env, s, a), h, r, m, at); }
    WithinMore(env, Next(env, s, a), r, m, at, if found then 1 else 4, 4);
    OneMore(env, s, a, r, m, at, 5);
  }

  lemma WithinMore(env: Environment, s: System, r: RequestId, m: Milestone, at: When, few: nat, many: nat)
    requires Within(env, s, r, m, at, few) && few <= many
    ensures Within(env, s, r, m, at, many)
  {
    hide CalmRun, Follow, HasReached;
  }

  lemma ClaimLeavesWorkflows(t: Table, r: RequestId, step: StepId, ref: Option<ExternalRef>, at: When)
    ensures BeginStep(t, r, step, ref, at).0.workflows == t.workflows
    ensures BeginStep(t, r, step, ref, at).0.outbox == t.outbox
    ensures StepSucceeded(t, r, step) <==> BeginStep(t, r, step, ref, at).1.ALREADY_SUCCEEDED?
  {}

  lemma NotYetSucceeded(env: Environment, s: System, r: RequestId, step: StepId)
    requires Inv(env, s) && Open(s, r) && (step == ENRICH ==> Event(r, FINALIZE) !in s.table.outbox)
    ensures !StepSucceeded(s.table, r, step)
  {
    hide Inv, OutcomesOk, EnrichSettled, EventIdOf, OutboxOk, MappingOk, PayloadHash, FinalizeRef;
    InvTable(env, s);
    assert WorkflowOk(s.table, r);
    if (r, step) in s.table.steps { assert StepOk(s.table, (r, step)); }
  }

  lemma ClaimEffect(s: System, h: nat, r: RequestId, step: StepId, ref: Option<ExternalRef>, at: When,
                    answered: BeginStepResult -> Pc, current: Pc)
    ensures var e := Claim(s, h, r, step, ref, at, Answered, answered, current);
            e.table == BeginStep(s.table, r, step, ref, at).0 && e.pc == answered(BeginStep(s.table, r, step, ref, at).1)
            && e.wire == s.wire
  {
    hide BeginStep;
  }

  lemma FromClaimFinalize(env: Environment, s: System, h: nat, r: RequestId, m: Milestone, at: When)
    requires Positive(at) && Inv(env, s) && Ahead(s, r, m) && Working(s, h, r, FINALIZE) && s.handlers[h].pc.ClaimFinalize?
    requires m != Advancing
    ensures Within(env, s, r, m, at, 6)
  {
    hide Inv, Within, EventIdOf, FinalizeRef, Supported, Claim, BeginStep;
    var a := StepOnce(h, at, SILENCE);
    var input := s.handlers[h].pc.input;
    NextKeeps(env, s, a);
    NotYetSucceeded(env, s, r, FINALIZE);
    ClaimLeavesWorkflows(s.table, r, FINALIZE, Some(FinalizeRef(r)), at);
    ClaimEffect(s, h, r, FINALIZE, Some(FinalizeRef(r)), at,
                (b: BeginStepResult) =>
                  if b.ALREADY_SUCCEEDED? then ReadStored
                  else if b.STARTED? then Execute(input, false)
                  else Reconcile(input), s.handlers[h].pc);
    var s' := Next(env, s, a);
    if s'.handlers[h].pc.Execute? {
      FromExecute(env, s', h, r, m, at);
      WithinMore(env, s', r, m, at, 4, 5);
    } else {
      FromReconcile(env, s', h, r, m, at);
    }
    OneMore(env, s, a, r, m, at, 6);
  }

  lemma FromStartFinalize(env: Environment, s: System, h: nat, r: RequestId, m: Milestone, at: When)
    requires Positive(at) && Inv(env, s) && Ahead(s, r, m) && Working(s, h, r, FINALIZE) && s.handlers[h].pc.Start?
    requires m != Advancing
    ensures Within(env, s, r, m, at, 7)
  {
    hide Inv, Within, EventIdOf, FinalizeRef, Supported;
    var a := StepOnce(h, at, SILENCE);
    NextKeeps(env, s, a);
    FromClaimFinalize(env, Next(env, s, a), h, r, m, at);
    OneMore(env, s, a, r, m, at, 7);
  }

  // -------------------------------------------------------------------------
  // Worker A
  // -------------------------------------------------------------------------

  lemma FromFailEnrich(env: Environment, s: System, h: nat, r: RequestId, at: When)
    requires Positive(at) && Inv(env, s) && Open(s, r) && Working(s, h, r, ENRICH) && s.handlers[h].pc.FailEnrich?
    ensures Within(env, s, r, Finished, at, 1)
  {
    hide Inv, Within, EventIdOf, FinalizeRef, TerminalStep;
    var a := StepOnce(h, at, SILENCE);
    AlreadyThere(env, Next(env, s, a), r, Finished, at, 0);
    OneMore(env, s, a, r, Finished, at, 1);
  }

  lemma AdvanceCommits(t: Table, r: RequestId, tenantId: TenantId, enrichment: Enrichment, at: When)
    requires r in t.workflows && t.workflows[r].status == Processing
    requires Event(r, FINALIZE) !in t.outbox && !StepSucceeded(t, r, ENRICH)
    ensures var t' := AdvanceStep(t, r, tenantId, enrichment, at).0;
            Event(r, FINALIZE) in t'.outbox && t'.outbox[Event(r, FINALIZE)].publishedAt.None?
            && t'.workflows == t.workflows && StepSucceeded(t', r, ENRICH)
  {
    hide EventIdOf;
  }

  /** Any message of a step that is still wanted leads to that step's handler. */
  predicate Wanted(s: System, r: RequestId, step: StepId, m: Milestone) {
    Ahead(s, r, m) && match step
    case ENRICH => Event(r, FINALIZE) !in s.table.outbox
    case FINALIZE => m != Advancing
  }

  function StartSteps(step: StepId): nat {
    if step == FINALIZE then 7 else 14
  }

  lemma {:induction false} FromAdvance(env: Environment, s: System, h: nat, r: RequestId, m: Milestone, at: When)
    requires Positive(at) && Inv(env, s) && Wanted(s, r, ENRICH, m) && Working(s, h, r, ENRICH) && s.handlers[h].pc.Advance?
    ensures Within(env, s, r, m, at, 11)
    decreases 14, 1
  {
    hide Inv, Within, EventIdOf, FinalizeRef, Supported, AdvanceStep;
    if m == Advancing {
      AlreadyThere(env, s, r, m, at, 11);
    } else {
      var a := StepOnce(h, at, SILENCE);
      NextKeeps(env, s, a);
      NotYetSucceeded(env, s, r, ENRICH);
      AdvanceCommits(s.table, r, s.handlers[h].message.tenantId, s.handlers[h].pc.enrichment, at);
      FromUnpublished(env, Next(env, s, a), r, FINALIZE, m, at);
      OneMore(env, s, a, r, m, at, 11);
    }
  }

  lemma EnrichingInput(env: Environment, s: System, h: nat, r: RequestId)
    requires Inv(env, s) && Open(s, r) && Working(s, h, r, ENRICH) && s.handlers[h].pc.Enriching?
    ensures s.handlers[h].pc.input == s.table.workflows[r].input
  {
    hide Inv, TableGood, MessageOk, FinalizeRef;
    HandlerHolds(env, s, h);
  }

  lemma {:induction false} FromEnriching(env: Environment, s: System, h: nat, r: RequestId, m: Milestone, at: When)
    requires Positive(at) && Inv(env, s) && Wanted(s, r, ENRICH, m) && Working(s, h, r, ENRICH) && s.handlers[h].pc.Enriching?
    ensures Within(env, s, r, m, at, 12)
    decreases 14, 2
  {
    hide Inv, Within, EventIdOf, FinalizeRef, Supported, Enrich, UnsupportedCurrency;
    var a := StepOnce(h, at, SILENCE);
    NextKeeps(env, s, a);
    EnrichingInput(env, s, h, r);
    var s' := Next(env, s, a);
    if Supported(s.table.workflows[r].input) {
      FromAdvance(env, s', h, r, m, at);
    } else {
      FromFailEnrich(env, s', h, r, at);
      WithinMore(env, s', r, m, at, 1, 11);
    }
    OneMore(env, s, a, r, m, at, 12);
  }

  lemma {:induction false} FromClaimEnrich(env: Environment, s: System, h: nat, r: RequestId, m: Milestone, at: When)
    requires Positive(at) && Inv(env, s) && Wanted(s, r, ENRICH, m) && Working(s, h, r, ENRICH) && s.handlers[h].pc.ClaimEnrich?
    ensures Within(env, s, r, m, at, 13)
    decreases 14, 3
  {
    hide Inv, Within, EventIdOf, FinalizeRef, Supported, Claim, BeginStep;
    var a := StepOnce(h, at, SILENCE);
    var input := s.handlers[h].pc.input;
    NextKeeps(env, s, a);
    NotYetSucceeded(env, s, r, ENRICH);
    ClaimLeavesWorkflows(s.table, r, ENRICH, None, at);
    ClaimEffect(s, h, r, ENRICH, None, at,
                (b: BeginStepResult) => if b.ALREADY_SUCCEEDED? then Done else Enriching(input), s.handlers[h].pc);
    FromEnriching(env, Next(env, s, a), h, r, m, at);
    OneMore(env, s, a, r, m, at, 13);
  }

  lemma {:induction false} FromStartEnrich(env: Environment, s: System, h: nat, r: RequestId, m: Milestone, at: When)
    requires Positive(at) && Inv(env, s) && Wanted(s, r, ENRICH, m) && Working(s, h, r, ENRICH) && s.handlers[h].pc.Start?
    ensures Within(env, s, r, m, at, 14)
    decreases 14, 4
  {
    hide Inv, Within, EventIdOf, FinalizeRef, Supported;
    var a := StepOnce(h, at, SILENCE);
    NextKeeps(env, s, a);
    FromClaimEnrich(env, Next(env, s, a), h, r, m, at);
    OneMore(env, s, a, r, m, at, 14);
  }

  // -------------------------------------------------------------------------
  // Tokens
  // -------------------------------------------------------------------------

  lemma {:induction false} FromStart(env: Environment, s: System, h: nat, r: RequestId, step: StepId, m: Milestone, at: When)
    requires Positive(at) && Inv(env, s) && Wanted(s, r, step, m) && Working(s, h, r, step) && s.handlers[h].pc.Start?
    ensures Within(env, s, r, m, at, StartSteps(step))
    decreases StartSteps(step), 5
  {
    hide Inv, Within, EventIdOf, FinalizeRef, Supported;
    match step
    case ENRICH => FromStartEnrich(env, s, h, r, m, at);
    case FINALIZE => FromStartFinalize(env, s, h, r, m, at);
  }

  predicate Carries(s: System, c: nat, r: RequestId, step: StepId) {
    c in s.copies && s.copies[c].message.requestId == r && StepOf(s.copies[c].message) == step
    && s.copies[c].queue == QueueOf(step)
  }

  lemma {:induction false} FromVisibleCopy(env: Environment, s: System, c: nat, r: RequestId, step: StepId, m: Milestone, at: When)
    requires Positive(at) && Inv(env, s) && Wanted(s, r, step, m) && Carries(s, c, r, step) && !s.copies[c].dead
    ensures Within(env, s, r, m, at, StartSteps(step) + 1)
    decreases StartSteps(step), 6
  {
    hide Inv, Within, EventIdOf, FinalizeRef, Supported;
    NextKeeps(env, s, Deliver(c));
    FromStart(env, Next(env, s, Deliver(c)), s.nextId, r, step, m, at);
    OneMore(env, s, Deliver(c), r, m, at, StartSteps(step) + 1);
  }

  lemma {:induction false} FromCopy(env: Environment, s: System, c: nat, r: RequestId, step: StepId, m: Milestone, at: When)
    requires Positive(at) && Inv(env, s) && Wanted(s, r, step, m) && Carries(s, c, r, step)
    ensures Within(env, s, r, m, at, StartSteps(step) + 2)
    decreases StartSteps(step), 7
  {
    hide Inv, Within, EventIdOf, FinalizeRef, Supported;
    NextKeeps(env, s, Redrive(c));
    FromVisibleCopy(env, Next(env, s, Redrive(c)), c, r, step, m, at);
    OneMore(env, s, Redrive(c), r, m, at, StartSteps(step) + 2);
  }

  lemma {:induction false} FromSending(env: Environment, s: System, p: nat, r: RequestId, step: StepId, m: Milestone, at: When)
    requires Positive(at) && Inv(env, s) && Wanted(s, r, step, m) && Event(r, step) in s.table.outbox
    requires p in s.publishers && s.publishers[p] == Sending(Event(r, step))
    ensures Within(env, s, r, m, at, StartSteps(step) + 2)
    decreases StartSteps(step), 8
  {
    hide Inv, Within, EventIdOf, FinalizeRef, Supported, TableInv;
    var a := Send(p, Delivered);
    NextKeeps(env, s, a);
    InvTable(env, s);
    EventMessage(s.table, r, step);
    FromVisibleCopy(env, Next(env, s, a), s.nextId, r, step, m, at);
    OneMore(env, s, a, r, m, at, StartSteps(step) + 2);
  }

  lemma {:induction false} FromUnpublished(env: Environment, s: System, r: RequestId, step: StepId, m: Milestone, at: When)
    requires Positive(at) && Inv(env, s) && Wanted(s, r, step, m)
    requires Event(r, step) in s.table.outbox && s.table.outbox[Event(r, step)].publishedAt.None?
    ensures Within(env, s, r, m, at, StartSteps(step) + 3)
    decreases StartSteps(step), 9
  {
    hide Inv, Within, EventIdOf, FinalizeRef, Supported;
    var a := PickEvent(Event(r, step), false);
    NextKeeps(env, s, a);
    FromSending(env, Next(env, s, a), s.nextId, r, step, m, at);
    OneMore(env, s, a, r, m, at, StartSteps(step) + 3);
  }

  lemma FromToken(env: Environment, s: System, r: RequestId, step: StepId, m: Milestone, at: When)
    requires Positive(at) && Inv(env, s) && Wanted(s, r, step, m) && LiveToken(s, Event(r, step))
    ensures Within(env, s, r, m, at, StartSteps(step) + 3)
  {
    hide Inv, Within, EventIdOf, FinalizeRef, Supported, TableInv;
    InvTable(env, s);
    EventMessage(s.table, r, step);
    if s.table.outbox[Event(r, step)].publishedAt.None? {
      FromUnpublished(env, s, r, step, m, at);
    } else {
      var c :| c in s.copies && s.copies[c].message == s.table.outbox[Event(r, step)].message
               && s.copies[c].queue == s.table.outbox[Event(r, step)].destination;
      FromCopy(env, s, c, r, step, m, at);
      WithinMore(env, s, r, m, at, StartSteps(step) + 2, StartSteps(step) + 3);
    }
  }

  // -------------------------------------------------------------------------
  // Every workflow can be finished
  // -------------------------------------------------------------------------

  /** Seventeen undisturbed steps, taken at any clock reading, are enough wherever the workflow
      stands: whatever was lost, dead-lettered or left half done before. */
  lemma EveryWorkflowCanFinish(env: Environment, s: System, r: RequestId, at: When)
    requires Positive(at) && Reachable(env, s) && Open(s, r)
    ensures exists run ::
              && |run| <= 17 && CalmRun(env, s, run, at)
              && HasReached(Follow(env, s, run).value, r, Finished)
              && (Trusted(env) ==>
                    Concluded(Follow(env, s, run).value.table.workflows[r]) == Some(OneShot(s.table.workflows[r].input)))
  {
    hide Reachable, Inv, EventIdOf, Follow, CalmRun, OneShot, Concluded;
    ReachableInv(env, s);
    NoStrandedWorkflow(env, s, r);
    FromToken(env, s, r, CurrentStep(s.table, r), Finished, at);
    WithinMore(env, s, r, Finished, at, StartSteps(CurrentStep(s.table, r)) + 3, 17);
    var run :| |run| <= 17 && CalmRun(env, s, run, at) && HasReached(Follow(env, s, run).value, r, Finished);
    CalmRunFollows(env, s, run, at);
    if Trusted(env) {
      ReachableOnward(env, s, run);
      TerminalIsOneShot(env, Follow(env, s, run).value, r);
      FollowKeeps(env, s, run);
    }
  }
}
