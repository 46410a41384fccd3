/** Where the guarantees end: runs on which they fail once the surroundings are not as
    assumed, and the exact condition under which each guarantee holds. */
module ProtocolLimits {
  import opened Text
  import opened Contracts
  import opened Payload
  import opened Enriching
  import opened DynamoErrors
  import opened Provider
  import opened Table
  import opened TableInvariant
  import opened Protocol
  import opened ProtocolInvariant
  import opened ProtocolSteps
  import opened ProtocolSafety
  import opened ProtocolTheorems
  import opened ProtocolRecovery

  // -------------------------------------------------------------------------
  // One small workflow
  // -------------------------------------------------------------------------

  const RID: RequestId := "00000000-0000-4000-8000-000000000000"
  const TENANT: TenantId := "acme"
  const KEY: IdempotencyKey := "order-42"
  const SMALL: OperationInput := OperationInput(Charge, Money("USD", 1), [0x41], Option.None)

  const T0: When := When(1_700_000_000_000, 30, 7)

  function Request(at: When): Action {
    Post(TENANT, KEY, SMALL, RID, at.now + 25_000, at.now + 300_000, at, Answered)
  }

  /** The API lets this request through. */
  lemma RequestIsValid(at: When)
    ensures Validated(Request(at))
  {
    assert ValidRequestId(RID) by {
      forall i | 0 <= i < 36 ensures RID[i] == (if i == 8 || i == 13 || i == 18 || i == 23 then '-' else if i == 14 then '4'
                                                else if i == 19 then '8' else '0') {}
    }
    assert ValidTenantId(TENANT);
    assert ValidIdempotencyKey(KEY);
  }

  lemma SmallIsSupported()
    ensures Supported(SMALL) && OneShot(SMALL).Settles?
  {
    assert "USD" in SUPPORTED_CURRENCIES;
  }

  /** The workflow is committed and nothing has been done about it. */
  ghost predicate JustPosted(s: System) {
    Open(s, RID) && s.table.workflows[RID].input == SMALL && s.store == EMPTY_STORE
    && LiveToken(s, Event(RID, ENRICH)) && Event(RID, FINALIZE) !in s.table.outbox
  }

  lemma PostReaches(env: Environment, at: When)
    requires Positive(at)
    ensures exists s :: Reachable(env, s) && JustPosted(s)
  {
    hide EventIdOf, PayloadHash, Reachable, Validated, RID, TENANT, KEY, SMALL;
    EventsDiffer(RID, RID);
    InitiallyReachable(env);
    RequestIsValid(at);
    ReachableNext(env, INITIAL, Request(at));
    assert JustPosted(Next(env, INITIAL, Request(at)));
  }

  lemma ReachableNext(env: Environment, s: System, a: Action)
    requires Reachable(env, s) && Enabled(env, s, a)
    ensures Reachable(env, Next(env, s, a))
  {
    hide Next, Enabled, Reachable, Follow;
    FollowOne(env, s, a);
    ReachableOnward(env, s, [a]);
  }

  lemma InputKept(s: System, s': System, r: RequestId)
    requires Onward(s, s') && r in s.table.workflows
    ensures r in s'.table.workflows && s'.table.workflows[r].input == s.table.workflows[r].input
  {}

  ghost predicate SmallAt(env: Environment, s: System, m: Milestone) {
    Reachable(env, s) && HasReached(s, RID, m) && RID in s.table.workflows && s.table.workflows[RID].input == SMALL
  }

  /** Every milestone of this workflow is reachable. */
  lemma SmallReaches(env: Environment, m: Milestone, at: When)
    requires Positive(at)
    ensures exists s :: SmallAt(env, s, m)
  {
    hide Reachable, Inv, EventIdOf, FinalizeRef, Next, CalmRun, Follow, HasReached, LiveToken, Supported, Onward;
    PostReaches(env, at);
    var s :| Reachable(env, s) && JustPosted(s);
    SmallIsSupported();
    ReachableInv(env, s);
    FromToken(env, s, RID, ENRICH, m, at);
    var run :| CalmRun(env, s, run, at) && HasReached(Follow(env, s, run).value, RID, m);
    CalmRunFollows(env, s, run, at);
    ReachableOnward(env, s, run);
    FollowKeeps(env, s, run);
    InputKept(s, Follow(env, s, run).value, RID);
    assert SmallAt(env, Follow(env, s, run).value, m);
  }

  // -------------------------------------------------------------------------
  // A workflow failed against its outcome
  // -------------------------------------------------------------------------

  ghost predicate Contradicted(s: System) {
    RID in s.table.workflows && s.table.workflows[RID].input == SMALL && s.table.workflows[RID].status == Failed
  }

  lemma ContradictedIsWrong(s: System)
    requires Contradicted(s)
    ensures !OutcomesOk(s.table)
  {
    SmallIsSupported();
    hide OneShot;
    assert !OutcomeOk(s.table.workflows[RID]);
  }

  /** The small workflow is open and one handler has come to a place. */
  ghost predicate SmallOpen(env: Environment, s: System, h: nat, step: StepId, at: When) {
    Positive(at) && Reachable(env, s) && Open(s, RID) && s.table.workflows[RID].input == SMALL && Working(s, h, RID, step)
  }

  lemma FailureIsWritten(env: Environment, s: System, h: nat, step: StepId, at: When)
    requires SmallOpen(env, s, h, step, at)
    requires if step == ENRICH then s.handlers[h].pc.FailEnrich? else s.handlers[h].pc.FailFinalize?
    ensures exists s' :: Reachable(env, s') && Contradicted(s')
  {
    hide Reachable, EventIdOf, FinalizeRef, TerminalStep, SMALL, RID;
    var a := StepOnce(h, at, SILENCE);
    ReachableNext(env, s, a);
    assert Contradicted(Next(env, s, a));
  }

  /** The provider answers 400 to a call it could have performed. */
  lemma RejectionFails(env: Environment, s: System, h: nat, at: When)
    requires env.rejects && SmallOpen(env, s, h, FINALIZE, at) && s.handlers[h].pc.AwaitAnswer?
    ensures exists s' :: Reachable(env, s') && Contradicted(s')
  {
    hide Reachable, EventIdOf, FinalizeRef, Decimal, Contradicted, SMALL, RID;
    var a := StepOnce(h, at, Response(400, Option.None));
    ReachableNext(env, s, a);
    FailureIsWritten(env, Next(env, s, a), h, FINALIZE, at);
  }

  /** The provider declines a charge it should settle. */
  lemma DeclineFails(env: Environment, s: System, h: nat, call: Call, at: When)
    requires env.declines && SmallOpen(env, s, h, FINALIZE, at) && s.handlers[h].pc.AwaitAnswer?
    requires call in s.wire && call.key == FinalizeRef(RID) && FinalizeRef(RID) !in s.store.operations
    ensures exists s' :: Reachable(env, s') && Contradicted(s')
  {
    hide Reachable, EventIdOf, FinalizeRef, Contradicted, SMALL, RID, OperationId;
    var a := Perform(call, true, at.now);
    ReachableNext(env, s, a);
    DeclineIsHeard(env, Next(env, s, a), h, at);
  }

  lemma DeclineIsHeard(env: Environment, s: System, h: nat, at: When)
    requires SmallOpen(env, s, h, FINALIZE, at) && s.handlers[h].pc.AwaitAnswer?
    requires FinalizeRef(RID) in s.store.operations && s.store.operations[FinalizeRef(RID)].status == Declined
    requires s.store.operations[FinalizeRef(RID)].idempotencyKey == FinalizeRef(RID)
    ensures exists s' :: Reachable(env, s') && Contradicted(s')
  {
    hide Reachable, EventIdOf, FinalizeRef, Contradicted, SMALL, RID;
    var a := StepOnce(h, at, Response(200, Some(s.store.operations[FinalizeRef(RID)])));
    ReachableNext(env, s, a);
    DeclineIsWritten(env, Next(env, s, a), h, at);
  }

  lemma DeclineIsWritten(env: Environment, s: System, h: nat, at: When)
    requires SmallOpen(env, s, h, FINALIZE, at) && s.handlers[h].pc.Settle? && s.handlers[h].pc.operation.status == Declined
    ensures exists s' :: Reachable(env, s') && Contradicted(s')
  {
    hide Reachable, EventIdOf, FinalizeRef, TerminalStep, SMALL, RID;
    var a := StepOnce(h, at, SILENCE);
    ReachableNext(env, s, a);
    assert Contradicted(Next(env, s, a));
  }

  /** The terminal write, or the advance, meets a fault that counts as permanent: the handler
      writes FAILED, over an operation the provider has settled in the first case. */
  lemma PermanentFaultFails(env: Environment, s: System, h: nat, step: StepId, fault: DynamoError, at: When)
    requires SmallOpen(env, s, h, step, at) && IsFault(fault) && !IsRetryable(fault)
    requires if step == ENRICH then s.handlers[h].pc.Advance? && fault in env.advanceFaults
             else s.handlers[h].pc.Settle? && fault in env.terminalFaults
    ensures exists s' :: Reachable(env, s') && Contradicted(s')
  {
    hide Reachable, EventIdOf, FinalizeRef, Contradicted, IsFault, IsRetryable, ClassifyDynamoError, WriteTerminal,
      AdvanceStep, VerdictFor, SMALL, RID;
    var a := Step(h, at, Refused(fault), SILENCE);
    ReachableNext(env, s, a);
    FailureIsWritten(env, Next(env, s, a), h, step, at);
  }

  lemma PermanentFaultsContradict(env: Environment, at: When)
    requires Positive(at) && !(AdvanceRetries(env) && AllRetryable(env.terminalFaults))
    ensures exists s :: Reachable(env, s) && Contradicted(s)
  {
    hide Reachable, EventIdOf, FinalizeRef, Contradicted, SMALL, RID, IsFault, IsRetryable;
    if !AdvanceRetries(env) {
      var fault :| fault in env.advanceFaults && IsFault(fault) && !IsRetryable(fault);
      SmallReaches(env, Advancing, at);
      var s :| SmallAt(env, s, Advancing);
      var h :| Working(s, h, RID, ENRICH) && s.handlers[h].pc.Advance?;
      PermanentFaultFails(env, s, h, ENRICH, fault, at);
    } else {
      var fault :| fault in env.terminalFaults && IsFault(fault) && !IsRetryable(fault);
      SmallReaches(env, Settling, at);
      var s :| SmallAt(env, s, Settling);
      var h :| Working(s, h, RID, FINALIZE) && s.handlers[h].pc.Settle?;
      PermanentFaultFails(env, s, h, FINALIZE, fault, at);
    }
  }

  lemma UnfaithfulProviderContradicts(env: Environment, at: When)
    requires Positive(at) && (env.declines || env.rejects)
    ensures exists s :: Reachable(env, s) && Contradicted(s)
  {
    hide Reachable, EventIdOf, FinalizeRef, Contradicted, SMALL, RID;
    SmallReaches(env, Awaiting, at);
    var s :| SmallAt(env, s, Awaiting);
    var h :| Working(s, h, RID, FINALIZE) && s.handlers[h].pc.AwaitAnswer?;
    if env.rejects {
      RejectionFails(env, s, h, at);
    } else {
      var call :| call in s.wire && call.key == FinalizeRef(RID);
      DeclineFails(env, s, h, call, at);
    }
  }

  /** The class of a fault is looked at in two places only. */
  lemma ClassMattersAtTwoWrites(s: System, h: nat, hd: Handler, at: When, a: DynamoError, b: DynamoError, http: Http)
    requires !hd.pc.Advance? && !hd.pc.Settle?
    ensures HandlerEffect(s, h, hd, at, Refused(a), http) == HandlerEffect(s, h, hd, at, Refused(b), http)
  {
    hide BeginStep, WriteTerminal, MarkUnknown, FinalizeRef, AfterExecute, Lookup, RequestFor, IsRetryable;
  }

  /** Every run ends every workflow at its one-shot outcome exactly when no fault that counts as
      permanent can strike the advance or the terminal write, and the provider neither declines
      what it should settle nor rejects. Each of the four alone has a run that breaks it. */
  lemma OutcomesHoldIffTrusted(env: Environment)
    ensures (forall s | Reachable(env, s) :: OutcomesOk(s.table)) <==> Trusted(env)
  {
    hide Reachable, OutcomesOk, Contradicted;
    if Trusted(env) {
      forall s | Reachable(env, s) ensures OutcomesOk(s.table) {
        ReachableTable(env, s);
      }
    } else {
      var at := T0;
      if env.declines || env.rejects { UnfaithfulProviderContradicts(env, at); } else { PermanentFaultsContradict(env, at); }
      var s :| Reachable(env, s) && Contradicted(s);
      ContradictedIsWrong(s);
    }
  }

  // -------------------------------------------------------------------------
  // A succeeded step failed
  // -------------------------------------------------------------------------

  ghost predicate Undone(env: Environment, s: System, a: Action) {
    Reachable(env, s) && Enabled(env, s, a) && StepSucceeded(s.table, RID, ENRICH)
    && !StepSucceeded(Next(env, s, a).table, RID, ENRICH)
  }

  /** The advance is applied, its answer is lost, and the SDK's second attempt meets the fault. */
  lemma FaultAfterAdvance(env: Environment, s: System, h: nat, fault: DynamoError, at: When)
    requires SmallOpen(env, s, h, ENRICH, at) && s.handlers[h].pc.Advance? && Event(RID, FINALIZE) !in s.table.outbox
    requires fault in env.advanceFaults && IsFault(fault) && !IsRetryable(fault)
    ensures exists s', a :: Undone(env, s', a)
  {
    hide Reachable, EventIdOf, FinalizeRef, IsRetryable, IsFault, AdvanceStep, Inv, Undone, SMALL, RID;
    ReachableInv(env, s);
    NotYetSucceeded(env, s, RID, ENRICH);
    AdvanceCommits(s.table, RID, s.handlers[h].message.tenantId, s.handlers[h].pc.enrichment, at);
    var applied := Step(h, at, AnswerLost(true), SILENCE);
    ReachableNext(env, s, applied);
    FaultAgain(env, Next(env, s, applied), h, fault, at);
  }

  lemma FaultAgain(env: Environment, s: System, h: nat, fault: DynamoError, at: When)
    requires SmallOpen(env, s, h, ENRICH, at) && s.handlers[h].pc.Advance? && StepSucceeded(s.table, RID, ENRICH)
    requires fault in env.advanceFaults && IsFault(fault) && !IsRetryable(fault)
    ensures exists s', a :: Undone(env, s', a)
  {
    hide Reachable, EventIdOf, FinalizeRef, IsFault, IsRetryable, ClassifyDynamoError, AdvanceStep, Undone, SMALL, RID;
    var a := Step(h, at, Refused(fault), SILENCE);
    ReachableNext(env, s, a);
    FailureUndoesEnrich(env, Next(env, s, a), h, at);
  }

  lemma FailureUndoesEnrich(env: Environment, s: System, h: nat, at: When)
    requires SmallOpen(env, s, h, ENRICH, at) && s.handlers[h].pc.FailEnrich? && StepSucceeded(s.table, RID, ENRICH)
    ensures exists s', a :: Undone(env, s', a)
  {
    hide Reachable, TerminalItem, SMALL, RID;
    assert Undone(env, s, StepOnce(h, at, SILENCE));
  }

  /** No step of any run takes ENRICH out of SUCCEEDED exactly when no fault that counts as
      permanent can strike the advance. */
  lemma EnrichStaysSucceededIffAdvanceRetries(env: Environment)
    ensures (forall s, a, r | Reachable(env, s) && Enabled(env, s, a) && StepSucceeded(s.table, r, ENRICH) ::
               StepSucceeded(Next(env, s, a).table, r, ENRICH))
            <==> AdvanceRetries(env)
  {
    hide Reachable, Enabled, Next, StepSucceeded, IsFault, IsRetryable, SMALL, RID;
    if AdvanceRetries(env) {
      forall s, a, r | Reachable(env, s) && Enabled(env, s, a) && StepSucceeded(s.table, r, ENRICH)
        ensures StepSucceeded(Next(env, s, a).table, r, ENRICH)
      {
        FollowOne(env, s, a);
        SucceededStaysSucceeded(env, s, [a], r, ENRICH);
      }
    } else {
      var fault :| fault in env.advanceFaults && IsFault(fault) && !IsRetryable(fault);
      var at := T0;
      SmallReaches(env, Advancing, at);
      var s :| SmallAt(env, s, Advancing);
      var h :| Working(s, h, RID, ENRICH) && s.handlers[h].pc.Advance?;
      FaultAfterAdvance(env, s, h, fault, at);
    }
  }

  // -------------------------------------------------------------------------
  // The guarantees are not empty
  // -------------------------------------------------------------------------

  /** The workflow can be completed, with its operation settled. */
  lemma SmallCompletes(env: Environment)
    requires Trusted(env)
    ensures exists s ::
              && Reachable(env, s) && RID in s.table.workflows && s.table.workflows[RID].status == Completed
              && FinalizeRef(RID) in s.store.operations && s.store.operations[FinalizeRef(RID)].status == Settled
  {
    hide Reachable, FinalizeRef, SMALL, OneShot, RID;
    SmallReaches(env, Finished, T0);
    var s :| SmallAt(env, s, Finished);
    SmallIsSupported();
    TerminalIsOneShot(env, s, RID);
    SettledExactlyWhenCompleted(env, s, RID);
  }
}
