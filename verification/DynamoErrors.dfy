/** Classification of DynamoDB failures. Models packages/persistence/src/errors.ts. */
module DynamoErrors {
  import opened Contracts

  datatype DynamoError =
    | ConditionalCheckFailedException
    | TransactionCanceledException(reasons: seq<Option<string>>)
    | OtherError(name: string)

  const RETRYABLE_NAMES: set<string> := {
    "ProvisionedThroughputExceededException", "ThrottlingException", "RequestLimitExceeded",
    "InternalServerError", "ServiceUnavailable", "TransactionInProgressException", "TimeoutError"}

  const NON_RETRYABLE_NAMES: set<string> := {
    "ValidationException", "ResourceNotFoundException", "ItemCollectionSizeLimitExceededException"}

  predicate ConditionFailedAt(error: DynamoError, index: nat) {
    error.TransactionCanceledException? && index < |error.reasons| &&
    error.reasons[index] == Some("ConditionalCheckFailed")
  }

  /** Worth sending again: contention with another transaction, and everything but the three
      named defects. A cancellation without a conflict among its reasons is not. */
  predicate IsRetryable(error: DynamoError) {
    match error
    case ConditionalCheckFailedException => true
    case TransactionCanceledException(reasons) => Some("TransactionConflict") in reasons
    case OtherError(name) =>
      name != "ValidationException" && name != "ResourceNotFoundException" && name != "ItemCollectionSizeLimitExceededException"
  }

  function ClassifyDynamoError(error: DynamoError): (r: AppError)
    ensures r.failureClass == (if IsRetryable(error) then RETRYABLE else NON_RETRYABLE)
    ensures r.code == (if error.TransactionCanceledException? then STATE_CONFLICT else INTERNAL_ERROR)
  {
    match error
    case TransactionCanceledException(reasons) =>
      if Some("TransactionConflict") in reasons
      then AppError(STATE_CONFLICT, "dynamodb: transaction conflict", RETRYABLE)
      else AppError(STATE_CONFLICT, "dynamodb: transaction cancelled", NON_RETRYABLE)
    case OtherError(name) =>
      if name in RETRYABLE_NAMES then AppError(INTERNAL_ERROR, "dynamodb: " + name, RETRYABLE)
      else if name in NON_RETRYABLE_NAMES then AppError(INTERNAL_ERROR, "dynamodb: " + name, NON_RETRYABLE)
      else AppError(INTERNAL_ERROR, "dynamodb: " + name, RETRYABLE)
    case ConditionalCheckFailedException =>
      AppError(INTERNAL_ERROR, "dynamodb: conditional check failed", RETRYABLE)
  }

  /** A refusal that is not the condition of the write: throttling, contention, a defect. */
  predicate IsFault(error: DynamoError) {
    match error
    case ConditionalCheckFailedException => false
    case TransactionCanceledException(reasons) => Some("ConditionalCheckFailed") !in reasons
    case OtherError(_) => true
  }

  // -------------------------------------------------------------------------
  // Transactions
  // -------------------------------------------------------------------------

  /** What DynamoDB answers a transaction: nothing if every item's condition held, otherwise a
      cancellation with one reason per item, in the items' order. */
  function Transact(conditions: seq<bool>): (error: Option<DynamoError>)
    ensures error.None? <==> forall i | 0 <= i < |conditions| :: conditions[i]
    ensures error.Some? ==> forall i: nat | i < |conditions| :: ConditionFailedAt(error.value, i) <==> !conditions[i]
  {
    if forall i | 0 <= i < |conditions| :: conditions[i] then None
    else Some(TransactionCanceledException(
      seq(|conditions|, i requires 0 <= i < |conditions| => if conditions[i] then None else Some("ConditionalCheckFailed"))))
  }

  /** A transaction that fails on conditions alone would fail again the same way. */
  lemma FailedConditionsArePermanent(conditions: seq<bool>)
    requires Transact(conditions).Some?
    ensures ClassifyDynamoError(Transact(conditions).value).failureClass == NON_RETRYABLE
    ensures !IsFault(Transact(conditions).value)
  {
    var reasons := Transact(conditions).value.reasons;
    assert "ConditionalCheckFailed"[0] != "TransactionConflict"[0];
    var i :| 0 <= i < |conditions| && !conditions[i];
    assert reasons[i] == Some("ConditionalCheckFailed");
  }

  /** A transaction cancelled because one of its items was throttled, and for nothing else. */
  const THROTTLED_TRANSACTION: DynamoError := TransactionCanceledException([None, Some("ThrottlingError")])

  /** It would pass on a retry, yet it is classified as permanent. */
  lemma ThrottledTransactionIsNonRetryable()
    ensures IsFault(THROTTLED_TRANSACTION) && !IsRetryable(THROTTLED_TRANSACTION)
  {
    var reasons := THROTTLED_TRANSACTION.reasons;
    assert reasons[0] == None && reasons[1] == Some("ThrottlingError");
    assert "ThrottlingError"[0] != "ConditionalCheckFailed"[0];
    assert "ThrottlingError"[1] != "TransactionConflict"[1];
  }
}
