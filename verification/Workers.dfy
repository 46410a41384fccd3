/** The two message handlers as the straight-line code they are, each proved to be an
    undisturbed walk of its program counter through the steps of `Protocol`.
    Models `handleRecord` of apps/worker-a/src/handler.ts and apps/finalizer/src/handler.ts. */
module Workers {
  import opened Contracts
  import opened Enriching
  import opened DynamoErrors
  import opened Provider
  import opened Repository
  import opened TableInvariant
  import opened Protocol
  import T = Table

  // -------------------------------------------------------------------------
  // Walks
  // -------------------------------------------------------------------------

  /** What the outside does at one await: the clock, the database call, the provider call. */
  datatype Fate = Fate(at: T.When, db: DbCall, http: Http)

  predicate Finished(pc: Pc) {
    pc.Done? || pc.Retry?
  }

  /** One handler taking one step after another, with nobody in between. */
  function Walk(s: System, h: nat, fates: seq<Fate>): System
    requires h in s.handlers
    decreases |fates|
  {
    if fates == [] || Finished(s.handlers[h].pc) then s
    else Walk(AfterStep(s, h, fates[0].at, fates[0].db, fates[0].http), h, fates[1..])
  }

  /** The walk has come to `s`, and `k` fates are used up. */
  ghost predicate At(origin: System, h: nat, fates: seq<Fate>, k: nat, s: System, hd: Handler)
  {
    h in origin.handlers && h in s.handlers && k <= |fates| && s.handlers[h] == hd
    && Walk(origin, h, fates) == Walk(s, h, fates[k..])
  }

  lemma Began(s: System, h: nat, fates: seq<Fate>)
    requires h in s.handlers
    ensures At(s, h, fates, 0, s, s.handlers[h])
  {
    assert fates[0..] == fates;
  }

  lemma Stepped(origin: System, h: nat, fates: seq<Fate>, k: nat, s: System, hd: Handler)
    requires At(origin, h, fates, k, s, hd) && k < |fates| && !Finished(hd.pc)
    ensures var f := fates[k];
            At(origin, h, fates, k + 1, AfterStep(s, h, f.at, f.db, f.http),
               hd.(pc := HandlerEffect(s, h, hd, f.at, f.db, f.http).pc))
  {
    assert fates[k..][0] == fates[k] && fates[k..][1..] == fates[k + 1..];
    hide EnrichEffect, FinalizeEffect;
  }

  lemma Ended(origin: System, h: nat, fates: seq<Fate>, k: nat, s: System, hd: Handler)
    requires At(origin, h, fates, k, s, hd) && Finished(hd.pc)
    ensures Walk(origin, h, fates) == s && h in s.handlers && s.handlers[h] == hd
  {}

  /** Every fate of the walk is one the surroundings allow. */
  ghost predicate Allowed(env: Environment, s: System, h: nat, fates: seq<Fate>)
    requires h in s.handlers
    decreases |fates|
  {
    fates == [] || Finished(s.handlers[h].pc) ||
    (Enabled(env, s, Step(h, fates[0].at, fates[0].db, fates[0].http)) &&
     Allowed(env, AfterStep(s, h, fates[0].at, fates[0].db, fates[0].http), h, fates[1..]))
  }

  /** So what a handler's code does when nobody interferes is one run of the whole system. */
  lemma {:induction false} WalkIsRun(env: Environment, s: System, h: nat, fates: seq<Fate>)
    requires h in s.handlers && Allowed(env, s, h, fates)
    ensures exists run :: Follow(env, s, run) == Some(Walk(s, h, fates))
    decreases |fates|
  {
    hide AfterStep, FaultAllowed, HttpAllowed;
    if fates == [] || Finished(s.handlers[h].pc) {
      assert Follow(env, s, []) == Some(Walk(s, h, fates));
    } else {
      var a := Step(h, fates[0].at, fates[0].db, fates[0].http);
      var next := AfterStep(s, h, fates[0].at, fates[0].db, fates[0].http);
      HandlerStays(s, h, fates[0]);
      WalkIsRun(env, next, h, fates[1..]);
      var run :| Follow(env, next, run) == Some(Walk(next, h, fates[1..]));
      assert ([a] + run)[1..] == run;
      assert Follow(env, s, [a] + run) == Some(Walk(s, h, fates));
    }
  }

  lemma HandlerStays(s: System, h: nat, fate: Fate)
    requires h in s.handlers
    ensures h in AfterStep(s, h, fate.at, fate.db, fate.http).handlers
  {
    hide EnrichEffect, FinalizeEffect;
  }

  /** A call is answered, or lost for good; the SDK's own second attempt is a step of its own
      and not part of the handler's code. */
  predicate NoResend(fates: seq<Fate>) {
    forall i | 0 <= i < |fates| :: fates[i].db != AnswerLost(true)
  }

  predicate Lost(fate: Fate) {
    !fate.db.Answered?
  }

  /** The next step of the walk, on either queue. */
  lemma Go(origin: System, h: nat, fates: seq<Fate>, k: nat, s: System, hd: Handler) returns (s': System, hd': Handler)
    requires At(origin, h, fates, k, s, hd) && k < |fates| && !Finished(hd.pc)
    ensures At(origin, h, fates, k + 1, s', hd')
    ensures var e := HandlerEffect(s, h, hd, fates[k].at, fates[k].db, fates[k].http);
            s'.table == e.table && hd' == hd.(pc := e.pc) && s'.store == s.store
  {
    hide EnrichEffect, FinalizeEffect, Walk;
    Stepped(origin, h, fates, k, s, hd);
    s' := AfterStep(s, h, fates[k].at, fates[k].db, fates[k].http);
    hd' := s'.handlers[h];
  }

  /** A claim as the handler's code sees it. */
  lemma ClaimSeen(s: System, h: nat, r: RequestId, step: StepId, ref: Option<ExternalRef>, at: T.When, db: DbCall,
                  answered: T.BeginStepResult -> Pc, current: Pc)
    requires db != AnswerLost(true)
    ensures var (t, result) := T.BeginStep(s.table, r, step, ref, at);
            var e := Claim(s, h, r, step, ref, at, db, answered, current);
            e.table == (if db.Refused? then s.table else t) && e.pc == (if db.Answered? then answered(result) else Retry)
  {
    hide T.BeginStep;
  }

  // -------------------------------------------------------------------------
  // What handling a record comes to
  // -------------------------------------------------------------------------

  /** A claim was applied to the step, and nothing else was written. */
  ghost predicate ClaimedOnly(t: T.Table, t': T.Table, k: T.StepRef) {
    && t'.workflows == t.workflows && t'.mappings == t.mappings && t'.outbox == t.outbox
    && k in t'.steps && t'.steps == t.steps[k := t'.steps[k]]
    && t'.steps[k].status == InProgress
    && t'.steps[k].attempt == (if k in t.steps then t.steps[k].attempt + 1 else 1)
  }

  lemma ClaimIsWritten(t: T.Table, r: RequestId, step: StepId, ref: Option<ExternalRef>, at: T.When)
    requires !StepSucceeded(t, r, step)
    ensures ClaimedOnly(t, T.BeginStep(t, r, step, ref, at).0, (r, step))
  {}

  predicate Over(w: T.WorkflowItem) {
    w.status == Completed || w.status == Failed
  }

  /** The workflow's failure is written, unless the write was refused. */
  ghost predicate FailureHandled(mid: T.Table, t': T.Table, r: RequestId, step: StepId, error: AppError, fate: Fate, done: bool) {
    if fate.db.Refused? then !done && t' == mid
    else (done <==> fate.db.Answered?) && Concludes(mid, t', r, step, T.Fail(error), fate.at)
  }

  /** What worker A does with one record, by the message, the table and what became of each
      database call. */
  ghost predicate EnrichHandled(t: T.Table, t': T.Table, message: Message, fates: seq<Fate>, done: bool)
    requires |fates| >= 5
  {
    var r, k := message.requestId, (message.requestId, ENRICH);
    if message.FinalizeMessage? then done && t' == t
    else if !fates[0].db.Answered? then !done && t' == t
    else if r !in t.workflows || Over(t.workflows[r]) then done && t' == t
    else if fates[1].db.Refused? then !done && t' == t
    else if StepSucceeded(t, r, ENRICH) then (done <==> fates[1].db.Answered?) && t' == t
    else if !fates[1].db.Answered? then !done && ClaimedOnly(t, t', k)
    else exists mid :: ClaimedOnly(t, mid, k) && EnrichConcluded(mid, t', message, t.workflows[r].input, fates, done)
  }

  ghost predicate EnrichConcluded(mid: T.Table, t': T.Table, message: Message, input: OperationInput, fates: seq<Fate>, done: bool)
    requires |fates| >= 5
  {
    var r, currency, units, db := message.requestId, input.amount.currencyCode, input.amount.minorUnits, fates[3].db;
    if currency !in {"USD", "EUR", "GBP", "ILS"} then
      FailureHandled(mid, t', r, ENRICH,
                     AppError(UNSUPPORTED_CURRENCY, "currency " + currency + " is not supported", NON_RETRYABLE), fates[3], done)
    else if !db.Refused? then
      (done <==> db.Answered?) &&
      if T.Event(r, FINALIZE) in mid.outbox then t' == mid
      else exists e :: Advances(mid, t', r, message.tenantId, e, fates[3].at)
                       && e == Enrichment(NormalizeReference(input),
                                          if units >= 500_000 then High else if units >= 100_000 then Medium else Low,
                                          fates[2].at.now)
    else if IsRetryable(db.error) then !done && t' == mid
    else FailureHandled(mid, t', r, ENRICH, ClassifyDynamoError(db.error), fates[4], done)
  }

  /** What the finalizer does with one record, by the message, the table, what became of each
      database call and what the provider answered. */
  ghost predicate FinalizeHandled(t: T.Table, t': T.Table, message: Message, fates: seq<Fate>, done: bool)
    requires |fates| >= 7
  {
    var r, k, first := message.requestId, (message.requestId, FINALIZE), (message.requestId, FINALIZE) !in t.steps;
    if message.EnrichMessage? then done && t' == t
    else if !fates[0].db.Answered? then !done && t' == t
    else if r !in t.workflows || Over(t.workflows[r]) then done && t' == t
    else if fates[1].db.Refused? then !done && t' == t
    else if StepSucceeded(t, r, FINALIZE) then (done <==> fates[1].db.Answered? && fates[2].db.Answered?) && t' == t
    else if !fates[1].db.Answered? then !done && ClaimedOnly(t, t', k)
    else exists mid :: ClaimedOnly(t, mid, k) && FinalizeConcluded(mid, t', message, first, fates, done)
  }

  /** Only the first claim ever made may call at once. */
  ghost predicate FinalizeConcluded(mid: T.Table, t': T.Table, message: Message, first: bool, fates: seq<Fate>, done: bool)
    requires |fates| >= 7 && message.FinalizeMessage?
  {
    if first then ExecuteHandled(mid, t', message, fates, 2, done) else ReconcileHandled(mid, t', message, fates, done)
  }

  /** A resumed attempt looks at the provider before anything else. */
  ghost predicate ReconcileHandled(mid: T.Table, t': T.Table, message: Message, fates: seq<Fate>, done: bool)
    requires |fates| >= 7 && message.FinalizeMessage?
  {
    match fates[2].http
    case NoResponse(_) => !done && t' == mid
    case Response(status, body) =>
      if status == 404 then ExecuteHandled(mid, t', message, fates, 3, done)
      else if status == 200 && body.Some? then SettleHandled(mid, t', message, body.value, fates, 3, done)
      else !done && t' == mid
  }

  /** The call is fate k, its answer fate k + 1. */
  ghost predicate ExecuteHandled(mid: T.Table, t': T.Table, message: Message, fates: seq<Fate>, k: nat, done: bool)
    requires k <= 3 && |fates| >= 7 && message.FinalizeMessage?
  {
    var r, key, http := message.requestId, T.FinalizeRef(message.requestId), fates[k + 1].http;
    if Ambiguous(key, http) then !done && UnknownRecorded(mid, t', (r, FINALIZE), fates[k + 2])
    else if Rejects(http) then
      exists error: AppError :: error.code == PROVIDER_REJECTED && error.failureClass == NON_RETRYABLE
                      && FailureHandled(mid, t', r, FINALIZE, error, fates[k + 2], done)
    else if http.Response? && http.status < 400 then SettleHandled(mid, t', message, http.body.value, fates, k + 2, done)
    else !done && t' == mid
  }

  ghost predicate UnknownRecorded(mid: T.Table, t': T.Table, k: T.StepRef, fate: Fate) {
    if fate.db.Refused? || k !in mid.steps || mid.steps[k].status == Succeeded then t' == mid
    else t' == mid.(steps := mid.steps[k := mid.steps[k].(status := UnknownExternalState, updatedAt := fate.at.now)])
  }

  ghost predicate SettleHandled(mid: T.Table, t': T.Table, message: Message, operation: Operation, fates: seq<Fate>, n: nat, done: bool)
    requires n <= 5 && |fates| >= 7 && message.FinalizeMessage?
  {
    var r, db := message.requestId, fates[n].db;
    if !db.Refused? then
      (done <==> db.Answered?) && Concludes(mid, t', r, FINALIZE, VerdictOn(operation, message.enrichment, fates[n].at.now), fates[n].at)
    else if IsRetryable(db.error) then !done && t' == mid
    else FailureHandled(mid, t', r, FINALIZE, ClassifyDynamoError(db.error), fates[n + 1], done)
  }

  /** What a provider's operation makes of the workflow. */
  function VerdictOn(operation: Operation, enrichment: Enrichment, now: nat): T.Verdict {
    match operation.status
    case Declined =>
      T.Fail(AppError(PROVIDER_REJECTED,
                      match operation.declineReason { case None => "provider declined the operation" case Some(reason) => reason },
                      NON_RETRYABLE))
    case Settled =>
      T.Complete(OperationResult(operation.operationId, Settled, operation.amount, enrichment.riskBand, now))
  }

  // -------------------------------------------------------------------------
  // Worker A
  // -------------------------------------------------------------------------

  lemma EnrichReads(origin: System, h: nat, fates: seq<Fate>, s: System, hd: Handler) returns (s': System, hd': Handler)
    requires At(origin, h, fates, 0, s, hd) && fates != [] && NoResend(fates) && hd.queue == START_QUEUE && hd.pc.Start?
    ensures At(origin, h, fates, 1, s', hd') && s'.table == s.table
    ensures var r := hd.message.requestId;
            hd' == hd.(pc := if hd.message.FinalizeMessage? then Done
                             else if Lost(fates[0]) then Retry
                             else if r !in s.table.workflows || IsTerminal(s.table.workflows[r].status) then Done
                             else ClaimEnrich(s.table.workflows[r].input))
  {
    hide At;
    s', hd' := Go(origin, h, fates, 0, s, hd);
  }

  lemma EnrichClaims(origin: System, h: nat, fates: seq<Fate>, s: System, hd: Handler) returns (s': System, hd': Handler)
    requires At(origin, h, fates, 1, s, hd) && |fates| > 1 && NoResend(fates) && hd.queue == START_QUEUE && hd.pc.ClaimEnrich?
    ensures At(origin, h, fates, 2, s', hd')
    ensures var (t, claim) := T.BeginStep(s.table, hd.message.requestId, ENRICH, None, fates[1].at);
            s'.table == (if fates[1].db.Refused? then s.table else t) &&
            hd' == hd.(pc := if Lost(fates[1]) then Retry else if claim.ALREADY_SUCCEEDED? then Done else Enriching(hd.pc.input))
  {
    hide At, T.BeginStep, Claim;
    var input := hd.pc.input;
    ClaimSeen(s, h, hd.message.requestId, ENRICH, None, fates[1].at, fates[1].db,
              (r: T.BeginStepResult) => if r.ALREADY_SUCCEEDED? then Done else Enriching(input), hd.pc);
    s', hd' := Go(origin, h, fates, 1, s, hd);
  }

  lemma EnrichComputes(origin: System, h: nat, fates: seq<Fate>, s: System, hd: Handler) returns (s': System, hd': Handler)
    requires At(origin, h, fates, 2, s, hd) && |fates| > 2 && hd.queue == START_QUEUE && hd.pc.Enriching?
    ensures At(origin, h, fates, 3, s', hd') && s'.table == s.table
    ensures hd' == hd.(pc := if Supported(hd.pc.input) then Advance(Enrich(hd.pc.input, fates[2].at.now))
                             else FailEnrich(UnsupportedCurrency(hd.pc.input)))
  {
    hide At, Supported, Enrich, UnsupportedCurrency;
    s', hd' := Go(origin, h, fates, 2, s, hd);
  }

  lemma EnrichAdvances(origin: System, h: nat, fates: seq<Fate>, s: System, hd: Handler) returns (s': System, hd': Handler)
    requires At(origin, h, fates, 3, s, hd) && |fates| > 3 && NoResend(fates) && hd.queue == START_QUEUE && hd.pc.Advance?
    ensures At(origin, h, fates, 4, s', hd')
    ensures var db := fates[3].db;
            s'.table == (if db.Refused? then s.table
                         else T.AdvanceStep(s.table, hd.message.requestId, hd.message.tenantId, hd.pc.enrichment, fates[3].at).0) &&
            hd' == hd.(pc := if db.Answered? then Done
                             else if db.Refused? && ClassifyDynamoError(db.error).failureClass == NON_RETRYABLE then FailEnrich(ClassifyDynamoError(db.error))
                             else Retry)
  {
    hide At, T.AdvanceStep, IsRetryable, ClassifyDynamoError;
    s', hd' := Go(origin, h, fates, 3, s, hd);
  }

  lemma EnrichFails(origin: System, h: nat, fates: seq<Fate>, k: nat, s: System, hd: Handler) returns (s': System, hd': Handler)
    requires At(origin, h, fates, k, s, hd) && |fates| > k && NoResend(fates) && hd.queue == START_QUEUE && hd.pc.FailEnrich?
    ensures At(origin, h, fates, k + 1, s', hd')
    ensures s'.table == if fates[k].db.Refused? then s.table
                        else T.WriteTerminal(s.table, hd.message.requestId, ENRICH, T.Fail(hd.pc.error), fates[k].at).0
    ensures hd' == hd.(pc := if Lost(fates[k]) then Retry else Done)
  {
    hide At, T.WriteTerminal;
    s', hd' := Go(origin, h, fates, k, s, hd);
  }

  class EnrichWorker {
    const repository: WorkflowRepository

    constructor (repository: WorkflowRepository)
      ensures this.repository == repository
    {
      this.repository := repository;
    }

    /** `done` is the acknowledgement; otherwise the message stays on the queue, by RETRY or by
        an error that leaves the handler. */
    method HandleRecord(message: Message, fates: seq<Fate>, ghost s: System, ghost h: nat) returns (done: bool)
      requires |fates| >= 5 && NoResend(fates)
      requires forall i | 0 <= i < |fates| :: fates[i].at == repository.At(fates[i].at.now)
      requires h in s.handlers && s.handlers[h].queue == START_QUEUE && s.handlers[h].message == message && s.handlers[h].pc.Start?
      requires s.table == repository.Contents()
      modifies repository
      ensures EnrichHandled(old(repository.Contents()), repository.Contents(), message, fates, done)
      ensures repository.Contents() == Walk(s, h, fates).table
      ensures h in Walk(s, h, fates).handlers && Finished(Walk(s, h, fates).handlers[h].pc)
      ensures done <==> Walk(s, h, fates).handlers[h].pc.Done?
    {
      hide Walk, T.BeginStep, T.AdvanceStep, T.WriteTerminal, At, Supported, Enrich, UnsupportedCurrency, IsRetryable,
        ClassifyDynamoError, NoResend, EnrichConcluded, ClaimedOnly, FailureHandled;
      var id := message.requestId;
      ghost var t, hd, cur := repository.Contents(), s.handlers[h], s;
      Began(s, h, fates);
      cur, hd := EnrichReads(s, h, fates, cur, hd);
      if message.FinalizeMessage? {
        Ended(s, h, fates, 1, cur, hd);
        return true;
      }
      if Lost(fates[0]) {
        Ended(s, h, fates, 1, cur, hd);
        return false;
      }
      var workflow := repository.GetWorkflow(id);
      if workflow.None? || IsTerminal(workflow.value.status) {
        Ended(s, h, fates, 1, cur, hd);
        return true;
      }
      var input := workflow.value.input;

      cur, hd := EnrichClaims(s, h, fates, cur, hd);
      if fates[1].db.Refused? {
        Ended(s, h, fates, 2, cur, hd);
        return false;
      }
      var claim := repository.BeginStep(id, ENRICH, None, fates[1].at.now);
      if claim.ALREADY_SUCCEEDED? {
        Ended(s, h, fates, 2, cur, hd);
        return !Lost(fates[1]);
      }
      ClaimIsWritten(t, id, ENRICH, None, fates[1].at);
      if Lost(fates[1]) {
        Ended(s, h, fates, 2, cur, hd);
        return false;
      }
      done := EnrichAndCommit(message, input, fates, s, h, cur, hd);
    }

    /** The try block, and its catch. */
    method EnrichAndCommit(message: Message, input: OperationInput, fates: seq<Fate>, ghost origin: System, ghost h: nat,
                           ghost s: System, ghost hd: Handler) returns (done: bool)
      requires |fates| >= 5 && NoResend(fates)
      requires forall i | 0 <= i < |fates| :: fates[i].at == repository.At(fates[i].at.now)
      requires At(origin, h, fates, 2, s, hd) && hd.queue == START_QUEUE && hd.message == message && hd.pc == Enriching(input)
      requires s.table == repository.Contents() && !StepSucceeded(s.table, message.requestId, ENRICH)
      requires message.requestId in repository.workflows && repository.workflows[message.requestId].status == Processing
      modifies repository
      ensures EnrichConcluded(old(repository.Contents()), repository.Contents(), message, input, fates, done)
      ensures repository.Contents() == Walk(origin, h, fates).table
      ensures h in Walk(origin, h, fates).handlers && Finished(Walk(origin, h, fates).handlers[h].pc)
      ensures done <==> Walk(origin, h, fates).handlers[h].pc.Done?
    {
      hide Walk, T.AdvanceStep, T.WriteTerminal, At, Enrich, IsRetryable, ClassifyDynamoError, NoResend, Advances, Concludes;
      var id := message.requestId;
      ghost var mid, cur, now := repository.Contents(), s, hd;
      cur, now := EnrichComputes(origin, h, fates, cur, now);
      var error: AppError;
      var next := 3;
      SupportedCodes(input);
      if Supported(input) {
        var enrichment := Enrich(input, fates[2].at.now);
        EnrichIs(input, fates[2].at.now);
        cur, now := EnrichAdvances(origin, h, fates, cur, now);
        if !fates[3].db.Refused? {
          AdvanceOutcome(mid, id, message.tenantId, enrichment, fates[3].at);
          var _ := repository.AdvanceStepWithOutbox(id, message.tenantId, enrichment, fates[3].at.now);
          Ended(origin, h, fates, 4, cur, now);
          return !Lost(fates[3]);
        }
        error := ClassifyDynamoError(fates[3].db.error);
        if error.failureClass != NON_RETRYABLE {
          Ended(origin, h, fates, 4, cur, now);
          return false;
        }
        next := 4;
      } else {
        error := UnsupportedCurrency(input);
      }

      cur, now := EnrichFails(origin, h, fates, next, cur, now);
      Ended(origin, h, fates, next + 1, cur, now);
      if fates[next].db.Refused? {
        return false;
      }
      ConclusionIsWritten(mid, id, ENRICH, T.Fail(error), fates[next].at);
      WritesIfProcessing(mid, id, ENRICH, T.Fail(error), fates[next].at);
      var _ := repository.FailIfProcessing(id, ENRICH, error, fates[next].at.now);
      done := !Lost(fates[next]);
    }
  }

  lemma SupportedCodes(input: OperationInput)
    ensures Supported(input) <==> input.amount.currencyCode in {"USD", "EUR", "GBP", "ILS"}
    ensures UnsupportedCurrency(input)
         == AppError(UNSUPPORTED_CURRENCY, "currency " + input.amount.currencyCode + " is not supported", NON_RETRYABLE)
  {}

  lemma EnrichIs(input: OperationInput, now: nat)
    ensures Enrich(input, now)
         == Enrichment(NormalizeReference(input),
                       if input.amount.minorUnits >= 500_000 then High else if input.amount.minorUnits >= 100_000 then Medium else Low,
                       now)
  {
    hide NormalizeReference;
  }

  lemma AdvanceOutcome(t: T.Table, r: RequestId, tenantId: TenantId, enrichment: Enrichment, at: T.When)
    requires r in t.workflows && t.workflows[r].status == Processing && !StepSucceeded(t, r, ENRICH)
    ensures var t' := T.AdvanceStep(t, r, tenantId, enrichment, at).0;
            if T.Event(r, FINALIZE) in t.outbox then t' == t else Advances(t, t', r, tenantId, enrichment, at)
  {
    hide T.EventIdOf, Advances;
    AdvanceIsWritten(t, r, tenantId, enrichment, at);
  }

  lemma WritesIfProcessing(t: T.Table, r: RequestId, step: StepId, verdict: T.Verdict, at: T.When)
    requires r in t.workflows && t.workflows[r].status == Processing
    ensures T.WriteTerminal(t, r, step, verdict, at).1.APPLIED?
  {}

  // -------------------------------------------------------------------------
  // Finalizer
  // -------------------------------------------------------------------------

  lemma FinalizeReads(origin: System, h: nat, fates: seq<Fate>, s: System, hd: Handler) returns (s': System, hd': Handler)
    requires At(origin, h, fates, 0, s, hd) && fates != [] && NoResend(fates) && hd.queue == STEP_QUEUE && hd.pc.Start?
    ensures At(origin, h, fates, 1, s', hd') && s'.table == s.table
    ensures var r := hd.message.requestId;
            hd' == hd.(pc := if hd.message.EnrichMessage? then Done
                             else if Lost(fates[0]) then Retry
                             else if r !in s.table.workflows || IsTerminal(s.table.workflows[r].status) then Done
                             else ClaimFinalize(s.table.workflows[r].input))
  {
    hide At, T.FinalizeRef;
    s', hd' := Go(origin, h, fates, 0, s, hd);
  }

  lemma FinalizeClaims(origin: System, h: nat, fates: seq<Fate>, s: System, hd: Handler) returns (s': System, hd': Handler)
    requires At(origin, h, fates, 1, s, hd) && |fates| > 1 && NoResend(fates) && hd.queue == STEP_QUEUE && hd.pc.ClaimFinalize?
    ensures At(origin, h, fates, 2, s', hd')
    ensures var ref := Some(T.FinalizeRef(hd.message.requestId));
            var (t, claim) := T.BeginStep(s.table, hd.message.requestId, FINALIZE, ref, fates[1].at);
            s'.table == (if fates[1].db.Refused? then s.table else t) &&
            hd' == hd.(pc := if Lost(fates[1]) then Retry
                             else if claim.ALREADY_SUCCEEDED? then ReadStored
                             else if claim.STARTED? then Execute(hd.pc.input, false)
                             else Reconcile(hd.pc.input))
  {
    hide At, T.BeginStep, T.FinalizeRef, Claim;
    var input := hd.pc.input;
    ClaimSeen(s, h, hd.message.requestId, FINALIZE, Some(T.FinalizeRef(hd.message.requestId)), fates[1].at, fates[1].db,
              (b: T.BeginStepResult) =>
                if b.ALREADY_SUCCEEDED? then ReadStored
                else if b.STARTED? then Execute(input, false)
                else Reconcile(input), hd.pc);
    s', hd' := Go(origin, h, fates, 1, s, hd);
  }

  lemma FinalizeRereads(origin: System, h: nat, fates: seq<Fate>, s: System, hd: Handler) returns (s': System, hd': Handler)
    requires At(origin, h, fates, 2, s, hd) && |fates| > 2 && NoResend(fates) && hd.queue == STEP_QUEUE && hd.pc.ReadStored?
    requires var k := (hd.message.requestId, FINALIZE); k in s.table.steps && s.table.steps[k].externalResult.None?
    ensures At(origin, h, fates, 3, s', hd') && s'.table == s.table
    ensures hd' == hd.(pc := if Lost(fates[2]) then Retry else Done)
  {
    hide At, T.FinalizeRef;
    s', hd' := Go(origin, h, fates, 2, s, hd);
  }

  lemma FinalizeReconciles(origin: System, h: nat, fates: seq<Fate>, s: System, hd: Handler) returns (s': System, hd': Handler)
    requires At(origin, h, fates, 2, s, hd) && |fates| > 2 && hd.queue == STEP_QUEUE && hd.pc.Reconcile?
    ensures At(origin, h, fates, 3, s', hd') && s'.table == s.table
    ensures hd' == hd.(pc := match Lookup(fates[2].http)
                             case Found(operation) => Settle(operation)
                             case NotFound => Execute(hd.pc.input, true)
                             case LookupThrows(_) => Retry)
  {
    hide At, T.FinalizeRef, Lookup;
    s', hd' := Go(origin, h, fates, 2, s, hd);
  }

  /** Sending the call and hearing of it are two steps, and one call in the code. */
  lemma FinalizeExecutes(origin: System, h: nat, fates: seq<Fate>, k: nat, s: System, hd: Handler)
    returns (s': System, hd': Handler)
    requires At(origin, h, fates, k, s, hd) && |fates| > k + 1 && hd.queue == STEP_QUEUE && hd.pc.Execute?
    requires hd.message.FinalizeMessage?
    ensures At(origin, h, fates, k + 2, s', hd') && s'.table == s.table
    ensures hd' == hd.(pc := AfterExecute(T.FinalizeRef(hd.message.requestId), fates[k + 1].http))
  {
    hide At, T.FinalizeRef, AfterExecute, RequestFor;
    s', hd' := Go(origin, h, fates, k, s, hd);
    s', hd' := Go(origin, h, fates, k + 1, s', hd');
  }

  lemma FinalizeRecords(origin: System, h: nat, fates: seq<Fate>, k: nat, s: System, hd: Handler) returns (s': System, hd': Handler)
    requires At(origin, h, fates, k, s, hd) && |fates| > k && NoResend(fates) && hd.queue == STEP_QUEUE && hd.pc.RecordUnknown?
    ensures At(origin, h, fates, k + 1, s', hd') && hd' == hd.(pc := Retry)
    ensures s'.table == if fates[k].db.Refused? then s.table
                        else T.MarkUnknown(s.table, hd.message.requestId, FINALIZE, fates[k].at)
  {
    hide At, T.FinalizeRef, T.MarkUnknown;
    s', hd' := Go(origin, h, fates, k, s, hd);
  }

  lemma FinalizeSettles(origin: System, h: nat, fates: seq<Fate>, k: nat, s: System, hd: Handler) returns (s': System, hd': Handler)
    requires At(origin, h, fates, k, s, hd) && |fates| > k && NoResend(fates) && hd.queue == STEP_QUEUE && hd.pc.Settle?
    requires hd.message.FinalizeMessage?
    ensures At(origin, h, fates, k + 1, s', hd')
    ensures var verdict := VerdictFor(hd.pc.operation, hd.message.enrichment, fates[k].at.now);
            var db := fates[k].db;
            s'.table == (if db.Refused? then s.table
                         else T.WriteTerminal(s.table, hd.message.requestId, FINALIZE, verdict, fates[k].at).0) &&
            hd' == hd.(pc := if db.Answered? then Done
                             else if db.Refused? && ClassifyDynamoError(db.error).failureClass == NON_RETRYABLE then FailFinalize(ClassifyDynamoError(db.error))
                             else Retry)
  {
    hide At, T.FinalizeRef, T.WriteTerminal, VerdictFor, IsRetryable, ClassifyDynamoError;
    s', hd' := Go(origin, h, fates, k, s, hd);
  }

  lemma FinalizeFails(origin: System, h: nat, fates: seq<Fate>, k: nat, s: System, hd: Handler) returns (s': System, hd': Handler)
    requires At(origin, h, fates, k, s, hd) && |fates| > k && NoResend(fates) && hd.queue == STEP_QUEUE && hd.pc.FailFinalize?
    ensures At(origin, h, fates, k + 1, s', hd')
    ensures s'.table == if fates[k].db.Refused? then s.table
                        else T.WriteTerminal(s.table, hd.message.requestId, FINALIZE, T.Fail(hd.pc.error), fates[k].at).0
    ensures hd' == hd.(pc := if Lost(fates[k]) then Retry else Done)
  {
    hide At, T.FinalizeRef, T.WriteTerminal;
    s', hd' := Go(origin, h, fates, k, s, hd);
  }

  class Finalizer {
    const repository: WorkflowRepository

    constructor (repository: WorkflowRepository)
      ensures this.repository == repository
    {
      this.repository := repository;
    }

    method HandleRecord(message: Message, fates: seq<Fate>, ghost s: System, ghost h: nat) returns (done: bool)
      requires |fates| >= 7 && NoResend(fates)
      requires forall i | 0 <= i < |fates| :: fates[i].at == repository.At(fates[i].at.now)
      requires h in s.handlers && s.handlers[h].queue == STEP_QUEUE && s.handlers[h].message == message && s.handlers[h].pc.Start?
      requires s.table == repository.Contents() && TableInv(s.table)
      modifies repository
      ensures FinalizeHandled(old(repository.Contents()), repository.Contents(), message, fates, done)
      ensures repository.Contents() == Walk(s, h, fates).table
      ensures h in Walk(s, h, fates).handlers && Finished(Walk(s, h, fates).handlers[h].pc)
      ensures done <==> Walk(s, h, fates).handlers[h].pc.Done?
    {
      hide Walk, T.BeginStep, T.WriteTerminal, T.MarkUnknown, T.FinalizeRef, At, IsRetryable, ClassifyDynamoError, NoResend,
        VerdictFor, AfterExecute, Lookup, TableInv, FinalizeConcluded, ClaimedOnly;
      var id := message.requestId;
      ghost var t, hd, cur := repository.Contents(), s.handlers[h], s;
      Began(s, h, fates);
      cur, hd := FinalizeReads(s, h, fates, cur, hd);
      if message.EnrichMessage? {
        Ended(s, h, fates, 1, cur, hd);
        return true;
      }
      if Lost(fates[0]) {
        Ended(s, h, fates, 1, cur, hd);
        return false;
      }
      var workflow := repository.GetWorkflow(id);
      if workflow.None? || IsTerminal(workflow.value.status) {
        Ended(s, h, fates, 1, cur, hd);
        return true;
      }

      var externalRef := T.FinalizeRef(id);
      cur, hd := FinalizeClaims(s, h, fates, cur, hd);
      if fates[1].db.Refused? {
        Ended(s, h, fates, 2, cur, hd);
        return false;
      }
      var claim := repository.BeginStep(id, FINALIZE, Some(externalRef), fates[1].at.now);
      if claim.ALREADY_SUCCEEDED? {
        StoredResponseIsAbsent(t, id, fates[1].at);
        if Lost(fates[1]) {
          Ended(s, h, fates, 2, cur, hd);
          return false;
        }
        cur, hd := FinalizeRereads(s, h, fates, cur, hd);
        Ended(s, h, fates, 3, cur, hd);
        return !Lost(fates[2]);
      }
      ClaimIsWritten(t, id, FINALIZE, Some(externalRef), fates[1].at);
      if Lost(fates[1]) {
        Ended(s, h, fates, 2, cur, hd);
        return false;
      }
      done := Conclude(message, claim, fates, s, h, cur, hd);
    }

    /** What follows the claim. */
    method Conclude(message: Message, claim: T.BeginStepResult, fates: seq<Fate>, ghost origin: System, ghost h: nat,
                    ghost s: System, ghost hd: Handler) returns (done: bool)
      requires |fates| >= 7 && NoResend(fates)
      requires forall i | 0 <= i < |fates| :: fates[i].at == repository.At(fates[i].at.now)
      requires At(origin, h, fates, 2, s, hd) && hd.queue == STEP_QUEUE && hd.message == message && message.FinalizeMessage?
      requires if claim.STARTED? then hd.pc.Execute? else hd.pc.Reconcile?
      requires s.table == repository.Contents()
      requires message.requestId in repository.workflows && repository.workflows[message.requestId].status == Processing
      modifies repository
      ensures FinalizeConcluded(old(repository.Contents()), repository.Contents(), message, claim.STARTED?, fates, done)
      ensures repository.Contents() == Walk(origin, h, fates).table
      ensures h in Walk(origin, h, fates).handlers && Finished(Walk(origin, h, fates).handlers[h].pc)
      ensures done <==> Walk(origin, h, fates).handlers[h].pc.Done?
    {
      hide Walk, At, Lookup, NoResend, ExecuteHandled, SettleHandled, AfterExecute;
      if claim.STARTED? {
        done := ExecuteAndSettle(message, fates, 2, origin, h, s, hd);
        return;
      }
      ghost var cur, now := FinalizeReconciles(origin, h, fates, s, hd);
      var http := fates[2].http;
      LookupClassifies(http);
      match Lookup(http) {
        case LookupThrows(_) =>
          Ended(origin, h, fates, 3, cur, now);
          done := false;
        case Found(operation) =>
          done := SettleOrCatch(message, operation, fates, 3, origin, h, cur, now);
        case NotFound =>
          done := ExecuteAndSettle(message, fates, 3, origin, h, cur, now);
      }
    }

    method ExecuteAndSettle(message: Message, fates: seq<Fate>, first: nat, ghost origin: System, ghost h: nat,
                            ghost s: System, ghost hd: Handler) returns (done: bool)
      requires first <= 3 && |fates| >= 7 && NoResend(fates)
      requires forall i | 0 <= i < |fates| :: fates[i].at == repository.At(fates[i].at.now)
      requires At(origin, h, fates, first, s, hd) && hd.queue == STEP_QUEUE && hd.message == message && message.FinalizeMessage?
      requires hd.pc.Execute? && s.table == repository.Contents()
      requires message.requestId in repository.workflows && repository.workflows[message.requestId].status == Processing
      modifies repository
      ensures ExecuteHandled(old(repository.Contents()), repository.Contents(), message, fates, first, done)
      ensures repository.Contents() == Walk(origin, h, fates).table
      ensures h in Walk(origin, h, fates).handlers && Finished(Walk(origin, h, fates).handlers[h].pc)
      ensures done <==> Walk(origin, h, fates).handlers[h].pc.Done?
    {
      hide Walk, At, NoResend, Provider.Execute, T.FinalizeRef, SettleHandled, FailureHandled, UnknownRecorded;
      var key, http := T.FinalizeRef(message.requestId), fates[first + 1].http;
      ghost var cur, now := FinalizeExecutes(origin, h, fates, first, s, hd);
      ExecuteClassifies(key, http);
      match Provider.Execute(key, http) {
        case Executed(operation) =>
          done := SettleOrCatch(message, operation, fates, first + 2, origin, h, cur, now);
        case ExecuteThrows(error) =>
          done := Catch(message, error, fates, first + 2, origin, h, cur, now);
      }
    }

    method SettleOrCatch(message: Message, operation: Operation, fates: seq<Fate>, n: nat, ghost origin: System, ghost h: nat,
                         ghost s: System, ghost hd: Handler) returns (done: bool)
      requires n <= 5 && |fates| >= 7 && NoResend(fates)
      requires forall i | 0 <= i < |fates| :: fates[i].at == repository.At(fates[i].at.now)
      requires At(origin, h, fates, n, s, hd) && hd.queue == STEP_QUEUE && hd.message == message && message.FinalizeMessage?
      requires hd.pc == Settle(operation) && s.table == repository.Contents()
      requires message.requestId in repository.workflows && repository.workflows[message.requestId].status == Processing
      modifies repository
      ensures SettleHandled(old(repository.Contents()), repository.Contents(), message, operation, fates, n, done)
      ensures repository.Contents() == Walk(origin, h, fates).table
      ensures h in Walk(origin, h, fates).handlers && Finished(Walk(origin, h, fates).handlers[h].pc)
      ensures done <==> Walk(origin, h, fates).handlers[h].pc.Done?
    {
      hide Walk, At, NoResend, T.WriteTerminal, VerdictFor, VerdictOn, Concludes, FailureHandled, UnknownRecorded, IsRetryable,
        ClassifyDynamoError;
      ghost var cur, now := FinalizeSettles(origin, h, fates, n, s, hd);
      var db := fates[n].db;
      if !db.Refused? {
        WriteTerminal(message.requestId, operation, message.enrichment, fates[n].at.now);
        Ended(origin, h, fates, n + 1, cur, now);
        return db.Answered?;
      }
      done := Catch(message, ClassifyDynamoError(db.error), fates, n + 1, origin, h, cur, now);
    }

    method WriteTerminal(requestId: RequestId, response: Operation, enrichment: Enrichment, now: nat)
      requires requestId in repository.workflows && repository.workflows[requestId].status == Processing
      modifies repository
      ensures repository.Contents()
           == T.WriteTerminal(old(repository.Contents()), requestId, FINALIZE, VerdictFor(response, enrichment, now),
                              repository.At(now)).0
      ensures Concludes(old(repository.Contents()), repository.Contents(), requestId, FINALIZE,
                        VerdictOn(response, enrichment, now), repository.At(now))
    {
      hide T.WriteTerminal, Concludes;
      ghost var t, verdict := repository.Contents(), VerdictFor(response, enrichment, now);
      WritesIfProcessing(t, requestId, FINALIZE, verdict, repository.At(now));
      ConclusionIsWritten(t, requestId, FINALIZE, verdict, repository.At(now));
      if response.status == Declined {
        var message := if response.declineReason.Some? then response.declineReason.value else "provider declined the operation";
        var _ := repository.FailIfProcessing(requestId, FINALIZE, AppError(PROVIDER_REJECTED, message, NON_RETRYABLE), now);
        return;
      }
      var _ := repository.CompleteIfProcessing(requestId, FINALIZE, ToResult(response, enrichment, now), now);
    }

    /** The catch block: an unknown outcome is recorded, a retryable error is thrown on, and a
        permanent one is the workflow's failure. */
    method Catch(message: Message, error: AppError, fates: seq<Fate>, n: nat, ghost origin: System, ghost h: nat,
                 ghost s: System, ghost hd: Handler) returns (done: bool)
      requires n <= 6 && |fates| >= 7 && NoResend(fates)
      requires forall i | 0 <= i < |fates| :: fates[i].at == repository.At(fates[i].at.now)
      requires At(origin, h, fates, n, s, hd) && hd.queue == STEP_QUEUE && hd.message == message
      requires hd.pc == match error.failureClass
                        case UNKNOWN_EXTERNAL_STATE => RecordUnknown
                        case NON_RETRYABLE => FailFinalize(error)
                        case RETRYABLE => Retry
      requires s.table == repository.Contents()
      requires message.requestId in repository.workflows && repository.workflows[message.requestId].status == Processing
      modifies repository
      ensures var t, t' := old(repository.Contents()), repository.Contents();
              match error.failureClass
              case UNKNOWN_EXTERNAL_STATE => !done && UnknownRecorded(t, t', (message.requestId, FINALIZE), fates[n])
              case NON_RETRYABLE => FailureHandled(t, t', message.requestId, FINALIZE, error, fates[n], done)
              case RETRYABLE => !done && t' == t
      ensures repository.Contents() == Walk(origin, h, fates).table
      ensures h in Walk(origin, h, fates).handlers && Finished(Walk(origin, h, fates).handlers[h].pc)
      ensures done <==> Walk(origin, h, fates).handlers[h].pc.Done?
    {
      hide Walk, At, NoResend, T.WriteTerminal, Concludes;
      var id, fate := message.requestId, fates[n];
      ghost var t, cur, now := repository.Contents(), s, hd;
      match error.failureClass {
        case RETRYABLE =>
          Ended(origin, h, fates, n, cur, now);
          done := false;
        case UNKNOWN_EXTERNAL_STATE =>
          cur, now := FinalizeRecords(origin, h, fates, n, cur, now);
          Ended(origin, h, fates, n + 1, cur, now);
          if !fate.db.Refused? {
            repository.MarkStepUnknownExternalState(id, FINALIZE, fate.at.now);
          }
          done := false;
        case NON_RETRYABLE =>
          cur, now := FinalizeFails(origin, h, fates, n, cur, now);
          Ended(origin, h, fates, n + 1, cur, now);
          if fate.db.Refused? {
            return false;
          }
          WritesIfProcessing(t, id, FINALIZE, T.Fail(error), fate.at);
          ConclusionIsWritten(t, id, FINALIZE, T.Fail(error), fate.at);
          var _ := repository.FailIfProcessing(id, FINALIZE, error, fate.at.now);
          done := !Lost(fate);
      }
    }
  }

  /** The response `ALREADY_SUCCEEDED` looks for is never there, so the branch acknowledges. */
  lemma StoredResponseIsAbsent(t: T.Table, r: RequestId, at: T.When)
    requires TableInv(t) && T.BeginStep(t, r, FINALIZE, Some(T.FinalizeRef(r)), at).1.ALREADY_SUCCEEDED?
    ensures (r, FINALIZE) in t.steps && t.steps[(r, FINALIZE)].externalResult.None?
    ensures T.BeginStep(t, r, FINALIZE, Some(T.FinalizeRef(r)), at).0 == t
  {
    hide T.FinalizeRef, T.EventIdOf, WorkflowOk, OutboxOk, MappingOk;
    if (r, FINALIZE) in t.steps { assert StepOk(t, (r, FINALIZE)); }
  }
}
