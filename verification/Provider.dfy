/** The provider and the client in front of it. Models apps/fake-provider/src/store.ts and
    app.ts, and apps/finalizer/src/provider-client.ts. */
module Provider {
  import opened Text
  import opened Contracts

  // -------------------------------------------------------------------------
  // The store
  // -------------------------------------------------------------------------

  datatype Store = Store(operations: map<ExternalRef, Operation>, sequence: nat)

  const EMPTY_STORE: Store := Store(map[], 0)

  function OperationId(sequence: nat, key: ExternalRef): string {
    "op-" + Decimal(sequence) + "-" + (if |key| < 8 then key else key[..8])
  }

  const DECLINE_REASON: string := "risk band HIGH"

  function NewOperation(sequence: nat, key: ExternalRef, request: OperationRequest, at: nat): Operation {
    var declined := request.riskBand == High;
    Operation(OperationId(sequence, key), key, if declined then Declined else Settled,
              if declined then Some(DECLINE_REASON) else None, request.amount, at)
  }

  /** Performs the operation once per key; a repeated call changes nothing. */
  function Upserted(s: Store, key: ExternalRef, request: OperationRequest, at: nat): Store {
    if key in s.operations then s
    else Store(s.operations[key := NewOperation(s.sequence + 1, key, request, at)], s.sequence + 1)
  }

  /** Every operation carries its key and a number already handed out. */
  ghost predicate StoreOk(s: Store) {
    forall key | key in s.operations ::
      s.operations[key].idempotencyKey == key &&
      exists n: nat :: n <= s.sequence && s.operations[key].operationId == OperationId(n, key)
  }

  ghost predicate DistinctIds(s: Store) {
    forall a, b | a in s.operations && b in s.operations && a != b ::
      s.operations[a].operationId != s.operations[b].operationId
  }

  lemma OperationIdNumber(m: nat, a: ExternalRef, n: nat, b: ExternalRef)
    requires OperationId(m, a) == OperationId(n, b)
    ensures m == n
  {
    var x, y := OperationId(m, a)[3..], OperationId(n, b)[3..];
    var p, q := if |a| < 8 then a else a[..8], if |b| < 8 then b else b[..8];
    assert x == Decimal(m) + ['-'] + p && y == Decimal(n) + ['-'] + q;
    SplitUnique(Decimal(m), p, Decimal(n), q, '-');
    ValueOfDecimal(m);
    ValueOfDecimal(n);
  }

  /** A new operation's id is new, and the first outcome for a key stays. */
  lemma UpsertKeeps(s: Store, key: ExternalRef, request: OperationRequest, at: nat)
    requires StoreOk(s) && DistinctIds(s)
    ensures StoreOk(Upserted(s, key, request, at)) && DistinctIds(Upserted(s, key, request, at))
    ensures key in Upserted(s, key, request, at).operations
    ensures forall k | k in s.operations ::
              k in Upserted(s, key, request, at).operations && Upserted(s, key, request, at).operations[k] == s.operations[k]
  {
    var after := Upserted(s, key, request, at);
    if key !in s.operations {
      assert after.operations[key].operationId == OperationId(s.sequence + 1, key);
      forall k | k in s.operations ensures s.operations[k].operationId != OperationId(s.sequence + 1, key) {
        var n: nat :| n <= s.sequence && s.operations[k].operationId == OperationId(n, k);
        if OperationId(n, k) == OperationId(s.sequence + 1, key) {
          OperationIdNumber(n, k, s.sequence + 1, key);
        }
      }
    }
  }

  // -------------------------------------------------------------------------
  // The client
  // -------------------------------------------------------------------------

  /** What came back from an HTTP call. `None` is a body that fails the response schema. */
  datatype Http = NoResponse(code: string) | Response(status: nat, body: Option<Operation>)

  datatype ExecuteResult = Executed(operation: Operation) | ExecuteThrows(error: AppError)
  datatype LookupResult = Found(operation: Operation) | NotFound | LookupThrows(error: AppError)

  const NEVER_DELIVERED: set<string> := {"ECONNREFUSED", "ENOTFOUND", "EAI_AGAIN"}
  const AMBIGUOUS: set<string> := {"ECONNABORTED", "ETIMEDOUT", "ECONNRESET", "EPIPE", "ERR_BAD_RESPONSE"}

  function ClassifyTransportError(code: string): AppError {
    if code in NEVER_DELIVERED then
      AppError(PROVIDER_UNAVAILABLE, "provider unreachable (" + code + "); the request was never delivered", RETRYABLE)
    else if code in AMBIGUOUS || code == "" then
      AppError(PROVIDER_STATE_UNKNOWN,
               "provider outcome unknown (" + (if code == "" then "no code" else code)
               + "); the operation may have been executed", UNKNOWN_EXTERNAL_STATE)
    else
      AppError(PROVIDER_STATE_UNKNOWN, "provider call failed with " + code, UNKNOWN_EXTERNAL_STATE)
  }

  function Execute(key: ExternalRef, http: Http): ExecuteResult {
    match http
    case NoResponse(code) => ExecuteThrows(ClassifyTransportError(code))
    case Response(status, body) =>
      if status == 429 || status >= 500 then
        ExecuteThrows(AppError(PROVIDER_UNAVAILABLE, "provider returned " + Decimal(status), RETRYABLE))
      else if status >= 400 then
        ExecuteThrows(AppError(PROVIDER_REJECTED, "provider rejected the operation with " + Decimal(status), NON_RETRYABLE))
      else if body.None? then
        ExecuteThrows(AppError(PROVIDER_STATE_UNKNOWN, "provider response failed schema validation", UNKNOWN_EXTERNAL_STATE))
      else if body.value.idempotencyKey != key then
        ExecuteThrows(AppError(PROVIDER_STATE_UNKNOWN, "provider echoed a different idempotency key", UNKNOWN_EXTERNAL_STATE))
      else Executed(body.value)
  }

  /** Unlike `Execute`, it does not compare the echoed key. */
  function Lookup(http: Http): LookupResult {
    match http
    case NoResponse(_) => LookupThrows(AppError(PROVIDER_UNAVAILABLE, "provider reconciliation lookup failed", RETRYABLE))
    case Response(status, body) =>
      if status == 404 then NotFound
      else if status != 200 then
        LookupThrows(AppError(PROVIDER_UNAVAILABLE, "provider lookup returned " + Decimal(status), RETRYABLE))
      else if body.None? then
        LookupThrows(AppError(PROVIDER_UNAVAILABLE, "provider lookup response failed schema validation", RETRYABLE))
      else Found(body.value)
  }

  /** Every answer has exactly one class. A request is sent again only if it was never delivered
      or the provider says it failed, is given up only for a 4xx other than 429, and leaves the
      outcome open in every other case but a readable success under our own key. */
  lemma ExecuteClassifies(key: ExternalRef, http: Http)
    ensures var r := Execute(key, http);
            && (r.Executed? <==> http.Response? && http.status < 400 && http.body.Some? && http.body.value.idempotencyKey == key)
            && (r.Executed? ==> r.operation == http.body.value)
            && (r.ExecuteThrows? && r.error.failureClass == RETRYABLE <==>
                  (http.Response? && (http.status == 429 || http.status >= 500)) ||
                  (http.NoResponse? && (http.code == "ECONNREFUSED" || http.code == "ENOTFOUND" || http.code == "EAI_AGAIN")))
            && (r.ExecuteThrows? && r.error.failureClass == NON_RETRYABLE <==>
                  http.Response? && 400 <= http.status < 500 && http.status != 429)
            && (r.ExecuteThrows? ==>
                  match r.error.failureClass
                  case RETRYABLE => r.error.code == PROVIDER_UNAVAILABLE
                  case NON_RETRYABLE => r.error.code == PROVIDER_REJECTED
                  case UNKNOWN_EXTERNAL_STATE => r.error.code == PROVIDER_STATE_UNKNOWN)
  {
    hide Decimal;
  }

  /** A lookup says "nothing there" only for a 404, trusts only a readable 200, and otherwise is
      asked again: reading has no effect. */
  lemma LookupClassifies(http: Http)
    ensures Lookup(http).NotFound? <==> http.Response? && http.status == 404
    ensures Lookup(http).Found? <==> http.Response? && http.status == 200 && http.body.Some?
    ensures Lookup(http).Found? ==> Lookup(http).operation == http.body.value
    ensures Lookup(http).LookupThrows? ==>
              Lookup(http).error.failureClass == RETRYABLE && Lookup(http).error.code == PROVIDER_UNAVAILABLE
  {
    hide Decimal;
  }

  // -------------------------------------------------------------------------
  // What an honest provider may answer
  // -------------------------------------------------------------------------

  predicate Stored(s: Store, key: ExternalRef, operation: Operation) {
    key in s.operations && s.operations[key] == operation
  }

  /** A readable success under our key is the operation stored under it. Anything else —
      silence, an error status, an unreadable or foreign body — may come at any time. */
  predicate HonestExecute(s: Store, key: ExternalRef, http: Http) {
    http.Response? && http.status < 400 && http.body.Some? && http.body.value.idempotencyKey == key ==>
      Stored(s, key, http.body.value)
  }

  predicate HonestLookup(s: Store, key: ExternalRef, http: Http) {
    http.Response? && http.status == 200 && http.body.Some? ==> Stored(s, key, http.body.value)
  }

  /** An answer that leaves open whether the operation was performed. */
  predicate Ambiguous(key: ExternalRef, http: Http) {
    match http
    case NoResponse(code) => code != "ECONNREFUSED" && code != "ENOTFOUND" && code != "EAI_AGAIN"
    case Response(status, body) => status < 400 && (body.None? || body.value.idempotencyKey != key)
  }

  /** A 4xx other than "slow down". */
  predicate Rejects(http: Http) {
    http.Response? && 400 <= http.status < 500 && http.status != 429
  }

  // -------------------------------------------------------------------------
  // The fake provider
  // -------------------------------------------------------------------------

  datatype FaultKind = TIMEOUT | SERVER_ERROR | RATE_LIMIT | DECLINE | SUCCEED_THEN_DROP

  class ProviderStore {
    var operations: map<ExternalRef, Operation>
    var faults: map<ExternalRef, seq<FaultKind>>
    var sequence: nat

    ghost function Contents(): Store
      reads this
    {
      Store(operations, sequence)
    }

    constructor ()
      ensures Contents() == EMPTY_STORE && faults == map[]
    {
      operations, faults, sequence := map[], map[], 0;
    }

    method Upsert(key: ExternalRef, request: OperationRequest, now: nat) returns (operation: Operation)
      modifies this`operations, this`sequence
      ensures Contents() == Upserted(old(Contents()), key, request, now)
      ensures Stored(Contents(), key, operation)
      ensures StoreOk(old(Contents())) ==> operation.idempotencyKey == key
      ensures key in old(operations) ==> Contents() == old(Contents()) && operation == old(operations)[key]
      ensures key !in old(operations) ==>
                && operations == old(operations)[key := operation] && sequence == old(sequence) + 1
                && operation.idempotencyKey == key && operation.amount == request.amount && operation.processedAt == now
                && (if request.riskBand == High
                    then operation.status == Declined && operation.declineReason == Some("risk band HIGH")
                    else operation.status == Settled && operation.declineReason == None)
                && operation.operationId == "op-" + Decimal(sequence) + "-" + (if |key| < 8 then key else key[..8])
    {
      if key in operations {
        return operations[key];
      }
      sequence := sequence + 1;
      operation := NewOperation(sequence, key, request, now);
      operations := operations[key := operation];
    }

    method FindByReference(reference: ExternalRef) returns (operation: Option<Operation>)
      ensures operation.None? <==> reference !in operations
      ensures operation.Some? ==> Stored(Contents(), reference, operation.value)
    {
      operation := if reference in operations then Some(operations[reference]) else None;
    }

    method QueueFault(key: ExternalRef, planned: seq<FaultKind>)
      modifies this`faults
      ensures faults == old(faults)[key := planned]
    {
      faults := faults[key := planned];
    }

    /** Each planned fault strikes once, in order. */
    method TakeFault(key: ExternalRef) returns (fault: Option<FaultKind>)
      modifies this`faults
      ensures fault.Some? <==> key in old(faults) && old(faults)[key] != []
      ensures fault.Some? ==> [fault.value] + Planned(faults, key) == old(faults)[key]
      ensures fault.None? ==> faults == old(faults)
      ensures forall k | k != key :: Planned(faults, k) == Planned(old(faults), k)
    {
      if key !in faults || faults[key] == [] {
        return None;
      }
      var queue := faults[key];
      fault := Some(queue[0]);
      faults := if |queue| == 1 then faults - {key} else faults[key := queue[1..]];
    }

    /** POST /operations. The planned fault decides whether the operation is performed and
        whether it is answered; whatever it is, an honest provider may give that answer.
        TIMEOUT is a caller that gave up before the late, unreadable reply. */
    method PostOperation(key: ExternalRef, request: OperationRequest, now: nat) returns (http: Http)
      modifies this
      ensures Contents() == AfterFault(old(Contents()), NextFault(old(faults), key), key, request, now)
      ensures HonestExecute(Contents(), key, http) && !Rejects(http)
      // Whether the operation was performed, and with which band.
      ensures NextFault(old(faults), key) in {Some(TIMEOUT), Some(SERVER_ERROR), Some(RATE_LIMIT)} ==>
                Contents() == old(Contents())
      ensures NextFault(old(faults), key) in {None, Some(DECLINE), Some(SUCCEED_THEN_DROP)} ==>
                key in operations && (key in old(operations) ==> Contents() == old(Contents()))
      ensures key in operations && key !in old(operations) ==>
                (operations[key].status == Declined
                 <==> request.riskBand == High || NextFault(old(faults), key) == Some(DECLINE))
      // What the client makes of it.
      ensures var r := Execute(key, http);
              match NextFault(old(faults), key)
              case Some(TIMEOUT) => r.ExecuteThrows? && r.error.failureClass == UNKNOWN_EXTERNAL_STATE
              case Some(SUCCEED_THEN_DROP) => r.ExecuteThrows? && r.error.failureClass == UNKNOWN_EXTERNAL_STATE
              case Some(SERVER_ERROR) => r.ExecuteThrows? && r.error.failureClass == RETRYABLE
              case Some(RATE_LIMIT) => r.ExecuteThrows? && r.error.failureClass == RETRYABLE
              case _ => StoreOk(old(Contents())) ==> r == Executed(operations[key])
      // The client calls an answer retryable only if nothing was performed.
      ensures Execute(key, http).ExecuteThrows? && Execute(key, http).error.failureClass == RETRYABLE
              ==> Contents() == old(Contents())
      ensures http.Response? && http.status == 200
              <==> NextFault(old(faults), key) == None || NextFault(old(faults), key) == Some(DECLINE)
      ensures http.Response? && http.status == 200
              ==> key in Contents().operations && http.body == Some(Contents().operations[key])
      ensures forall k | k != key :: Planned(faults, k) == Planned(old(faults), k)
      ensures Planned(old(faults), key) != [] ==> Planned(faults, key) == Planned(old(faults), key)[1..]
    {
      var fault := TakeFault(key);
      match fault
      case Some(TIMEOUT) =>
        http := NoResponse("ECONNABORTED");
      case Some(SERVER_ERROR) =>
        http := Response(503, None);
      case Some(RATE_LIMIT) =>
        http := Response(429, None);
      case Some(SUCCEED_THEN_DROP) =>
        var _ := Upsert(key, request, now);
        http := NoResponse("ECONNRESET");
      case _ =>
        var performed := if fault == Some(DECLINE) then request.(riskBand := High) else request;
        var operation := Upsert(key, performed, now);
        http := Response(200, Some(operation));
    }
  }

  function Planned(faults: map<ExternalRef, seq<FaultKind>>, key: ExternalRef): seq<FaultKind> {
    if key in faults then faults[key] else []
  }

  function NextFault(faults: map<ExternalRef, seq<FaultKind>>, key: ExternalRef): Option<FaultKind> {
    if Planned(faults, key) == [] then None else Some(Planned(faults, key)[0])
  }

  /** A refused or hung call performs nothing; a dropped answer hides an operation that was. */
  function AfterFault(s: Store, fault: Option<FaultKind>, key: ExternalRef, request: OperationRequest, now: nat): Store {
    match fault
    case None => Upserted(s, key, request, now)
    case Some(SUCCEED_THEN_DROP) => Upserted(s, key, request, now)
    case Some(DECLINE) => Upserted(s, key, request.(riskBand := High), now)
    case Some(_) => s
  }
}
