# Verification of the durable workflow protocol

The repository turns an asynchronous workflow into a synchronous HTTP answer. An API writes a
workflow, an idempotency mapping and an outbox event in one transaction; a publisher driven by the
table's stream, backed by a reconciler, puts events on two at-least-once queues; worker A enriches
(step ENRICH), the finalizer calls an external provider and writes the terminal state (step
FINALIZE); the API polls the record until a deadline. This project models that behaviour in Dafny
and proves what the design promises of it, for every interleaving.

## How it is built

The protocol has two layers.

- `Table.dfy` holds the items of the one DynamoDB table and its conditional transitions as
  functions from table to table, each all or nothing. `Repository.dfy` is the class whose methods
  change the four kinds of item in place; every method is proved to be the transition it stands
  for. `TableInvariant.dfy` proves what every transition keeps and what none undoes.
- `Protocol.dfy` is a step relation over the table, the copies of messages in two queues and their
  dead-letter queues, the handlers in flight with a program counter each, the publishers, the
  provider's store, calls still on the wire, waiting HTTP callers, their replies, and a history.
  Every await of a handler is a boundary where any other step may come first. Messages may be
  duplicated, reordered, dead-lettered, redriven or redelivered while in flight; handlers and
  publishers may die anywhere; a database answer may be lost after the write, with or without the
  SDK sending the write again; a call to the provider may be performed at any later time, or never,
  and its answer may be lost. `Reachable(env, s)` says that `s` is in every set of states that
  holds the empty system and that no action leaves; `ProtocolSafety.ReachableByRun` shows that
  these are exactly the states some run of actions leads to.

`ProtocolInvariant.dfy`, `ProtocolSteps.dfy` and `ProtocolSafety.dfy` prove one invariant of every
reachable state. `ProtocolTheorems.dfy` draws the promises from it, `ProtocolHistory.dfy` counts
events over whole runs, `ProtocolRecovery.dfy` proves that every open workflow can still be
finished from wherever it stands, and `ProtocolLimits.dfy` gives the exact conditions under which
two of the guarantees hold, with the runs that break them otherwise. `Workers.dfy` has the two
message handlers as the straight-line code they are, proved to be undisturbed walks of the step
relation.

Beside the protocol: canonical JSON and identities (`JsonString`, `Fingerprint`, `CanonicalJson`,
`Identity`, `Payload`), table and index keys (`Keys`, `SparseIndex`), business rules (`Enriching`),
error classification (`DynamoErrors`), provider and client (`Provider`), publication (`Outbox`,
`Feedback`, `Reconciler`), the waiter (`Waiter`), the concurrent batch (`Batch`), the credential cache
(`ApiKeyStore`), and small text lemmas (`Text`).

## The surroundings

Clocks and retention times are positive, and a post has passed the API's validation. Any database
fault may strike any call, and be of any class. A handler looks at the class in two places only
(`ProtocolLimits.ClassMattersAtTwoWrites`): at worker A's advance and at the finalizer's terminal
write, inside their try blocks. `Environment` therefore carries the set of faults that may strike
each of these two, and says of the provider whether it may decline what it should settle
(`declines`) and whether it may answer 4xx other than 429 (`rejects`); 429, 5xx, silence and
unreadable answers may come at any time. `AdvanceRetries` says that every fault that
may strike the advance is classified RETRYABLE; `Trusted` says it of both sets, and that the
provider does neither.

None of this is needed for the absorbing states, the single owner of an operation, the live token,
recoverability, idempotent creation or the counts. `ProtocolLimits.OutcomesHoldIffTrusted` shows
that the refinement of the one-shot outcome holds exactly when all four parts of `Trusted` do, each
of them alone having a run that breaks it, and
`ProtocolLimits.EnrichStaysSucceededIffAdvanceRetries` that a succeeded ENRICH step stays succeeded
exactly when the advance retries. The runs are ones the code takes: their ids, key and body pass
the schemas and their clock reads 2023.

Where code and documentation disagree the code is followed: `docs/state-machine.md` lists a
`stateVersion` clause in the terminal write's condition, which the code does not have. The
invariant shows that it is not needed.

## Findings

- A transaction cancelled because it was throttled is classified as permanent
  (`packages/persistence/src/errors.ts:69-81`). If that happens to the terminal write, the
  finalizer writes FAILED over an operation the provider settled
  (`ProtocolLimits.OutcomesHoldIffTrusted`); if it happens to a resent advance, worker A fails a
  step that had succeeded (`ProtocolLimits.EnrichStaysSucceededIffAdvanceRetries`).
- A concurrency below one makes a non-empty batch throw instead of reporting failures
  (`Batch.ProcessBatch`).
- The shard multiplier 31 is 1 modulo the shard count, so the shard of an id is the sum of its
  character codes (`Keys.ShardIsCodeSum`).
- A stream record that fails and has no sequence number is not reported, so neither it nor what
  follows it is retried (`Outbox.UnnumberedFailureIsSilent`). The publisher reports nothing exactly
  when nothing failed or the first failing record has no number (`Outbox.OutboxPublisher.Handle`).

## Model

| member | source | states |
|---|---|---|
| ProtocolTheorems.TerminalIsOneShot | apps/finalizer/src/handler.ts:157-293 | On every run in trusted surroundings a terminal workflow's status, error, amount and risk band are the one-shot function of its stored input, however many workers raced, died or repeated themselves. |
| ProtocolTheorems.OutcomeByCurrencyAndAmount | apps/worker-a/src/enrich.ts:18-47 | The same written out: in trusted surroundings a terminal workflow in a currency other than USD, EUR, GBP and ILS is FAILED with UNSUPPORTED_CURRENCY, one of 500000 minor units or more is FAILED with PROVIDER_REJECTED, and any other is COMPLETED with its own amount and band MEDIUM from 100000, else LOW. |
| ProtocolLimits.OutcomesHoldIffTrusted | packages/persistence/src/errors.ts:55-87 | For every set of faults that may strike the advance and the terminal write and every kind of provider: the refinement holds of all reachable states if and only if all those faults are retryable and the provider neither declines what it should settle nor rejects; each of the four failing alone, a run ends a supported small charge in FAILED. |
| ProtocolLimits.ClassMattersAtTwoWrites | apps/finalizer/src/handler.ts:252-286 | Everywhere but at the advance and the terminal write, two faults of any classes have the same effect. |
| ProtocolTheorems.NoTerminalDivergence | apps/finalizer/src/handler.ts:67-155 | A finalizer that arrives too late finds the outcome, operation id, amount or error it would have written itself: the divergence the code reports never happens. |
| ProtocolTheorems.SettledExactlyWhenCompleted | apps/finalizer/src/handler.ts:175-293 | In trusted surroundings a terminal workflow is COMPLETED if and only if the provider settled an operation under its reference. |
| ProtocolTheorems.EveryOperationHasOneOwner | apps/finalizer/src/handler.ts:200-251 | Every provider operation belongs to exactly one workflow, carries the reference already stored on its FINALIZE record and its own amount, and was asked for only after ENRICH committed. |
| ProtocolTheorems.CompletedNamesItsOperation | apps/finalizer/src/handler.ts:40-50 | A COMPLETED result names the operation performed for that workflow, its amount and risk band, and no other operation has that id. |
| ProtocolTheorems.NoStrandedWorkflow | packages/persistence/src/workflow-repository.ts:143-239 | Every PROCESSING workflow has a live token for its current step: an unpublished event, or its message on the right queue, in flight or dead-lettered. |
| ProtocolTheorems.DoneMeansHandled | apps/worker-a/src/handler.ts:59-137 | A handler says DONE only when the workflow is terminal or, for ENRICH, the next step's event is committed, so deleting the message loses nothing. |
| ProtocolRecovery.EveryWorkflowCanFinish | packages/testing/src/queue.ts:133-224 | From every reachable state, for every positive clock reading, seventeen undisturbed steps at that reading, starting from the workflow's own live token, finish it, and in trusted surroundings with its one-shot outcome. |
| ProtocolTheorems.OutcomesAreFinal | packages/persistence/src/workflow-repository.ts:627-719 | No continuation of a run changes a terminal record, a performed operation, a mapping, a stored external reference or the fact of publication. |
| ProtocolTheorems.SucceededStaysSucceeded | packages/persistence/src/workflow-repository.ts:667-695 | Although the terminal write updates its step without a condition, no SUCCEEDED step ever leaves SUCCEEDED over any continuation, provided the faults that may strike the advance are retryable. |
| ProtocolLimits.EnrichStaysSucceededIffAdvanceRetries | apps/worker-a/src/handler.ts:112-134 | No step of any run takes ENRICH out of SUCCEEDED if and only if every fault that may strike the advance is retryable. |
| ProtocolTheorems.FinalizeSucceededIffCompleted | apps/finalizer/src/handler.ts:207-220 | FINALIZE is SUCCEEDED exactly when the workflow is COMPLETED, which makes acknowledging an already succeeded step safe. |
| ProtocolLimits.SmallCompletes | apps/finalizer/src/handler.ts:157-293 | In trusted surroundings a run of a schema-valid request does complete a small charge with its operation settled, so the guarantees are not empty. |
| ProtocolLimits.RequestIsValid | packages/contracts/src/ids.ts:7-29 | The request of those runs has a UUID, a tenant, a key and a body the API's schemas accept. |
| ProtocolHistory.AtMostOneUnreconciledCall | apps/finalizer/src/handler.ts:201-248 | Over any run at most one call per workflow is sent by a handler that has not, since its message was delivered to it, made a lookup that found nothing; calls and lookups are read off the run's steps. |
| ProtocolHistory.CallsReachTheWire | apps/finalizer/src/handler.ts:242-248 | The steps counted as calls are exactly where a request can come onto the wire, under the workflow's own reference. |
| ProtocolTheorems.CallsCarryTheRequest | apps/finalizer/src/handler.ts:242-248 | In every reachable state every call on the wire asks for the operation and amount one workflow's caller asked for, under that workflow's reference, with the normalized reference and risk band its committed FINALIZE event carries. |
| ProtocolTheorems.AnswersAreRouted | apps/finalizer/src/handler.ts:252-286 | An ambiguous answer goes to the recording of the unknown state, a 4xx other than 429 to the workflow's failure, a readable success under our own key to settlement, and each only such an answer; anything else to a retry. |
| ProtocolTheorems.AmbiguityIsReconciled | apps/finalizer/src/handler.ts:252-276 | In every reachable state an ambiguous answer is stored as UNKNOWN_EXTERNAL_STATE unless the step has succeeded meanwhile, the message stays on the queue, and the next claim is told so. |
| ProtocolHistory.AttemptIsClaimsApplied | packages/persistence/src/workflow-repository.ts:364-456 | Over any run the attempt number stored with a step is the number of claims applied to it. |
| ProtocolHistory.PublishedWasSent | apps/outbox-publisher/src/handler.ts:65-79 | Over any run an event marked published was sent at least once before. |
| ProtocolTheorems.PublicationSettles | packages/persistence/src/workflow-repository.ts:731-746 | In every reachable state a mark that reaches the table concerns an event already sent, leaves its message and queue alone, takes it off the index and changes nothing else. |
| ProtocolHistory.HeldUntilAcknowledged | packages/testing/src/queue.ts:133-224 | Over any continuation a message stays on its queue or in its dead-letter queue, unchanged, if and only if no handler it was given to acknowledges it. |
| ProtocolHistory.MessagesBalance | packages/testing/src/queue.ts:133-224 | Over any run the messages held are the messages sent and duplicated less the messages acknowledged. |
| ProtocolTheorems.BeginStepTellsTheTruth | packages/persistence/src/workflow-repository.ts:364-456 | The record a claim rebuilds locally is the item now stored, `previous` is the status replaced, the attempt counts all claims, and the first external reference survives. |
| ProtocolTheorems.AdvanceTellsTheTruth | packages/persistence/src/workflow-repository.ts:490-588 | ADVANCED exactly when the next event is new, ALREADY_ADVANCED only when both the step's success and the event are there, and the other outcomes exactly for a terminal or missing workflow; nothing is written unless ADVANCED. |
| ProtocolTheorems.IndexKeysAreExact | packages/persistence/src/workflow-repository.ts:649-663 | An item carries sparse index keys, and the right ones, exactly while it is PROCESSING or unpublished. |
| ProtocolTheorems.MappingsMatchWorkflows | packages/persistence/src/workflow-repository.ts:189-239 | Idempotency mappings and workflows are in bijection with equal request id and payload hash, and every workflow's first event is committed. |
| ProtocolTheorems.RepliesAgree | apps/api/src/app.ts:260-344 | All 200 and 202 replies to one tenant and key carry the same request id, all terminal replies are identical, and equal payloads are answered alike as to conflict. |
| ProtocolTheorems.ConflictIffDifferentInput | packages/persistence/src/workflow-repository.ts:241-279 | A reply is 409 exactly when its body means something else than the first body under that key. |
| ProtocolTheorems.RepeatedPostChangesNothing | apps/api/src/app.ts:271-305 | A post under a used key writes nothing, and is answered with the conflict or with the stored terminal body. |
| ProtocolTheorems.FinalRepliesSayWhatIsStored | apps/api/src/app.ts:85-95 | Every 200 is about the workflow mapped to its key: COMPLETED with the stored result exactly for a completed one, FAILED with the stored code and message exactly for a failed one. |
| ProtocolTheorems.FinalRepliesAreOneShot | apps/api/src/app.ts:260-344 | End to end, in trusted surroundings: a 200 body says what the one-shot function says of the first input under the key. |
| ProtocolTheorems.WaitsEndTruthfully | apps/api/src/app.ts:306-344 | A wait for a terminal workflow can end, with the body that says what is stored, and one that is given up answers 202 with the request id. |
| ProtocolTheorems.FirstPostCreates | packages/persistence/src/workflow-repository.ts:143-239 | The first post under a key stores workflow, mapping and event field by field as posted: both deadlines, payload hash, retention of workflow and outbox, first message and queue; the mapping lives as long as the workflow. |
| ProtocolSafety.NextKeeps | packages/testing/src/queue.ts:154-224 | Every action of every actor keeps the invariant of the whole system. |
| ProtocolSafety.ReachableInv | packages/testing/src/queue.ts:154-224 | The invariant holds in every state any run can reach. |
| ProtocolSafety.ReachableByRun | packages/testing/src/queue.ts:154-224 | Reachable is exactly what some finite run from the empty system leads to. |
| ProtocolSafety.FollowKeeps | packages/persistence/src/workflow-repository.ts:143-746 | Every run from a good state keeps the invariant and only ever grows the table and the provider's store. |
| ProtocolSteps.EnrichStepGood | apps/worker-a/src/handler.ts:42-139 | Every step of worker A between two awaits, with any fault, keeps tables, tokens, counts and ownership sound. |
| ProtocolSteps.FinalizeStepGood | apps/finalizer/src/handler.ts:157-296 | The same of every step of the finalizer, with any provider answer. |
| ProtocolSteps.StoredIsOwned | apps/finalizer/src/handler.ts:200-251 | An operation found under a workflow's reference was performed for that workflow. |
| Workers.EnrichWorker.HandleRecord | apps/worker-a/src/handler.ts:42-139 | For every fault at every call, table and acknowledgement are those of an undisturbed walk of the step relation, and those `EnrichHandled` says by message, input and fault: which step is claimed, which enrichment or error is written with which codes and thresholds, and when the message stays. |
| Workers.Finalizer.HandleRecord | apps/finalizer/src/handler.ts:157-296 | The same of the finalizer, by `FinalizeHandled`: only the first claim calls at once, a resumed one looks first, an ambiguous answer is recorded, a 4xx other than 429 fails the workflow, and a settled or declined operation is written as such. |
| Workers.WalkIsRun | apps/finalizer/src/handler.ts:157-296 | What a handler's code does when nobody interferes is one run of the whole system. |
| Workers.StoredResponseIsAbsent | apps/finalizer/src/handler.ts:207-220 | The stored response the ALREADY_SUCCEEDED branch looks for is never there, so that branch always acknowledges. |
| TableInvariant.CreateKeeps | packages/persistence/src/workflow-repository.ts:143-239 | Creation keeps the table invariant, and so neither a mapping without a workflow nor a workflow without an event is possible. |
| TableInvariant.BeginKeeps | packages/persistence/src/workflow-repository.ts:364-456 | A claim keeps the invariant, leaves every other item alone and never settles a step. |
| TableInvariant.MarkUnknownKeeps | packages/persistence/src/workflow-repository.ts:459-483 | Recording an unknown outcome keeps the invariant and touches no succeeded step. |
| TableInvariant.UnknownIsRemembered | packages/persistence/src/workflow-repository.ts:459-483 | An ambiguous outcome, once recorded, is the previous status the next claim of that step is told. |
| TableInvariant.AdvanceKeeps | packages/persistence/src/workflow-repository.ts:490-588 | The advance keeps the invariant: the step's success and the next event are one fact. |
| TableInvariant.TerminalKeeps | packages/persistence/src/workflow-repository.ts:627-719 | The terminal write keeps the invariant, including that a COMPLETED workflow and a succeeded FINALIZE go together. |
| TableInvariant.TerminalGrows | packages/persistence/src/workflow-repository.ts:649-663 | The terminal write never changes a workflow that is already terminal. |
| TableInvariant.TerminalSettled | packages/persistence/src/workflow-repository.ts:667-695 | The unconditional step update undoes no success provided ENRICH is failed only for inputs it rejects. |
| TableInvariant.PublishKeeps | packages/persistence/src/workflow-repository.ts:731-746 | Marking an event published keeps the invariant and the index keys exact. |
| TableInvariant.IdentityTexts | packages/idempotency/src/fingerprint.ts:42-53 | A workflow's two event ids are the hashes of its id, ENRICH or FINALIZE, and 1, its external reference that of the word external, its id and FINALIZE, joined by vertical bars. |
| Repository.CreationIsWritten | packages/persistence/src/workflow-repository.ts:143-239 | What CREATED means, field by field: the three items, under three free keys, with their deadlines, retention and index keys, and nothing else. |
| Repository.AdvanceIsWritten | packages/persistence/src/workflow-repository.ts:490-588 | What ADVANCED means, field by field: the step SUCCEEDED with its result, and a new unpublished event on the step queue that carries that result. |
| Repository.ConclusionIsWritten | packages/persistence/src/workflow-repository.ts:627-719 | What APPLIED means, field by field: COMPLETED with the result and the step SUCCEEDED, or FAILED with the error and the step FAILED; one version more, index keys gone, request, deadlines and attempt kept. |
| Repository.WorkflowRepository.CreateWorkflow | packages/persistence/src/workflow-repository.ts:143-239 | In place: three conditional puts or nothing, and the outcome CREATED, EXISTING, CONFLICT or an error, as the transition says. |
| Repository.WorkflowRepository.ResolveExistingWorkflow | packages/persistence/src/workflow-repository.ts:241-279 | An existing mapping answers by comparing payload hashes, and a mapping that has vanished, or that points at no workflow, is a retryable error. |
| Repository.WorkflowRepository.GetWorkflowForTenant | packages/persistence/src/workflow-repository.ts:310-317 | Another tenant's workflow is answered as a missing one. |
| Repository.WorkflowRepository.BeginStep | packages/persistence/src/workflow-repository.ts:364-456 | A claim tells its caller the truth and no more changes: the answered record is the stored one, `previous` the status replaced, the attempt one more, creation time, result and first reference kept; ALREADY_SUCCEEDED exactly for a succeeded step, which is left alone; every other step and the table invariant are kept. |
| Repository.WorkflowRepository.MarkStepUnknownExternalState | packages/persistence/src/workflow-repository.ts:459-483 | Only a step that is there and has not succeeded is marked, attempt and reference kept; whoever claims it next is told its outcome is unknown; every other step and the table invariant are kept. |
| Repository.WorkflowRepository.AdvanceStepWithOutbox | packages/persistence/src/workflow-repository.ts:490-588 | In place: step success and next event together, or neither, with the reason. |
| Repository.WorkflowRepository.WriteTerminal | packages/persistence/src/workflow-repository.ts:627-719 | In place: terminal record and step together if the workflow is PROCESSING; a terminal record is never overwritten. |
| Repository.WorkflowRepository.MarkOutboxPublished | packages/persistence/src/workflow-repository.ts:731-746 | The event's message is untouched and no sweep ever lists it again; every other event and the table invariant are kept. |
| Repository.WorkflowRepository.ListPendingOutbox | packages/persistence/src/workflow-repository.ts:752-776 | The sharded string-keyed sweep is the plain numeric filter: at most `limit` distinct stale unpublished events, and all of them when fewer. |
| Repository.WorkflowRepository.ListStaleProcessing | packages/persistence/src/workflow-repository.ts:786-811 | The same for PROCESSING workflows past their deadline, with the exact deadline recovered from the keys-only index. |
| Repository.EntryIsRef | packages/persistence/src/workflow-repository.ts:822-830 | Every entry of the keys-only index is reconstructed, so none is dropped. |
| SparseIndex.Query | packages/persistence/src/workflow-repository.ts:760-768 | One shard's answer: distinct matching entries in key order, the lowest ones, as many as asked for. |
| SparseIndex.NextShard | packages/persistence/src/workflow-repository.ts:756-774 | Appending one more shard's page keeps the sweep distinct, within the limit and complete so far. |
| SparseIndex.DueByTime | packages/persistence/src/keys.ts:30-32 | Being found in some shard before the string boundary is being before the numeric boundary. |
| Outbox.OutboxPublisher.Handle | apps/outbox-publisher/src/handler.ts:83-106 | Records are handled in order up to and including the first failure, and nothing after it is touched; the failure is reported by its sequence number, and nothing is reported if and only if nothing failed or the first failing record has none. |
| Outbox.NumberedFailuresAreReported | apps/outbox-publisher/src/handler.ts:90-102 | If the failing records have numbers, the batch is done to the end or the last record touched is the reported failure. |
| Outbox.UnnumberedFailureIsSilent | apps/outbox-publisher/src/handler.ts:90-102 | A fresh event in a record without a number whose publication fails is not sent, ends the batch and is not reported. |
| Outbox.RetryCompletesTheBatch | apps/outbox-publisher/src/handler.ts:83-106 | A batch that failed at a record and is delivered again from there leaves every publishable event sent and marked. |
| Outbox.OnlyFreshEventsArePublishable | apps/outbox-publisher/src/handler.ts:37-62 | Of all records the repository's own writes put on the stream, exactly the insertions of events are publishable; the echo of a mark never is. |
| Outbox.OnlyOutboxKeysQualify | packages/persistence/src/keys.ts:34-58 | Only outbox items carry the sort key the publisher looks for. |
| Feedback.RunsBalance | apps/outbox-publisher/src/handler.ts:37-81 | With the stream built from the writes themselves, the publisher's marks included, in every state of every run what was sent followed by what the stream still holds is what was inserted, each event once and in order. |
| Feedback.DryStreamHasSentAll | apps/outbox-publisher/src/handler.ts:37-81 | Whenever the stream has run dry, the publications are exactly the insertions, in order. |
| Feedback.StreamRunsDry | apps/outbox-publisher/src/handler.ts:83-106 | Left alone, the publisher empties a stream of n records in at most 2n steps, its own echoes included. |
| Outbox.WorkEffect | apps/outbox-publisher/src/handler.ts:72-79 | Whatever fails, an event becomes marked only if its message was put on its queue, and nothing but the outbox changes. |
| Reconciler.Reconciler.Reconcile | apps/reconciler/src/handler.ts:37-104 | One page of stale events is attempted, each whatever happens to the others; the counts are exact, and no workflow is judged. |
| Reconciler.ReconcileIsSweep | apps/reconciler/src/handler.ts:42-77 | A run of the reconciler in which every attempt succeeds is one faultless sweep. |
| Reconciler.Drain | apps/reconciler/src/handler.ts:42-77 | Each faultless sweep publishes exactly a page's worth of what is left. |
| Reconciler.DrainsInCeilingSweeps | apps/reconciler/src/handler.ts:42-77 | With n stale events, no new ones and no failures, everything is published after k sweeps if and only if k is at least n divided by the page size, rounded up. |
| Provider.ProviderStore.Upsert | apps/fake-provider/src/store.ts:44-60 | The operation is performed once per key; a repeated call returns the first outcome and changes nothing. |
| Provider.UpsertKeeps | apps/fake-provider/src/store.ts:44-60 | A new operation's id is different from all earlier ones, and no earlier operation changes. |
| Provider.ProviderStore.TakeFault | apps/fake-provider/src/store.ts:71-77 | Planned faults strike once each, in order, and only their own key. |
| Provider.ProviderStore.PostOperation | apps/fake-provider/src/app.ts:20-61 | Each planned fault decides whether the operation is performed and whether it is answered; the client calls an answer retryable only if nothing was performed. |
| Provider.ProviderStore.FindByReference | apps/fake-provider/src/store.ts:63-65 | A lookup answers with the operation stored under the reference, or with none exactly when there is none. |
| Provider.ExecuteClassifies | apps/finalizer/src/provider-client.ts:86-133 | Every answer has exactly one class: RETRYABLE if and only if it is 429, 500 or more, or a failure before delivery; NON_RETRYABLE if and only if it is another 4xx; executed if and only if it is a readable success under our key; otherwise UNKNOWN_EXTERNAL_STATE. |
| Provider.LookupClassifies | apps/finalizer/src/provider-client.ts:135-166 | A lookup says that nothing is there if and only if the answer is 404, finds an operation if and only if it is a readable 200, and is otherwise retryable. |
| Enriching.NormalizationIgnoresCase | apps/worker-a/src/enrich.ts:24-25 | Two references to the same kind of operation are normalized alike exactly when the part that is kept differs in case only. |
| Enriching.NormalizedPrefix | apps/worker-a/src/enrich.ts:24-25 | A normalized reference begins with the kind of operation it is for. |
| DynamoErrors.Transact | packages/persistence/src/errors.ts:22-33 | A cancelled transaction carries one reason per item, and reason i is a failed condition exactly when the condition of item i did not hold. |
| DynamoErrors.FailedConditionsArePermanent | packages/persistence/src/errors.ts:55-87 | A transaction cancelled by conditions the caller does not look at is classified as permanent. |
| DynamoErrors.ThrottledTransactionIsNonRetryable | packages/persistence/src/errors.ts:55-87 | A transaction cancelled for throttling alone counts as permanent. |
| DynamoErrors.ClassifyDynamoError | packages/persistence/src/errors.ts:55-87 | The class and the code of every fault: permanent if and only if it is a cancelled transaction without a conflict among its reasons or one of the three named errors; STATE_CONFLICT exactly for a cancelled transaction. |
| CanonicalJson.CanonicalEquality | packages/idempotency/src/fingerprint.ts:8-24 | Two finite JSON values have the same canonical text if and only if they mean the same: object keys reordered, undefined members dropped, undefined elsewhere read as null. |
| CanonicalJson.ParseCanonical | packages/idempotency/src/fingerprint.ts:8-24 | Parsing a canonical text gives back the meaning of the value it was printed from. |
| CanonicalJson.ParseRender | packages/idempotency/src/fingerprint.ts:8-24 | The same for every part of a value, in front of any text it may be followed by. |
| CanonicalJson.SortAscending | packages/idempotency/src/fingerprint.ts:14-17 | The printed members are in strictly ascending UTF-16 code unit order. |
| CanonicalJson.CanonicalIffAlike | packages/idempotency/src/fingerprint.ts:8-24 | Two finite JSON values have the same canonical text if and only if they are alike, defined on the values alone: arrays element by element, objects as sets of defined members, undefined as null, either zero as zero. |
| CanonicalJson.AlikeMeansTheSame | packages/idempotency/src/fingerprint.ts:8-24 | Being alike is the same as having the same meaning, for all well-formed values. |
| CanonicalJson.RenderIsWellFormed | packages/idempotency/src/fingerprint.ts:26-27 | The text handed to the UTF-8 encoder is well-formed UTF-16, so encoding it loses nothing. |
| JsonString.UnquoteQuote | packages/idempotency/src/fingerprint.ts:17-23 | Reading back a quoted string, lone surrogates and control characters included, gives the string. |
| JsonString.QuoteIsWellFormed | packages/idempotency/src/fingerprint.ts:17-23 | A quoted string is well-formed UTF-16 whatever it quotes. |
| Identity.FingerprintEquality | packages/idempotency/src/fingerprint.ts:34-35 | Two payloads have the same fingerprint if and only if they mean the same. |
| Payload.PayloadHashEquality | apps/api/src/app.ts:260-269 | Two request bodies have the same payload hash if and only if they are the same business input, metadata compared as a record. |
| Identity.EventIdInjective | packages/idempotency/src/fingerprint.ts:42-46 | Event ids are equal only for the same request, step and version. |
| Identity.ExternalRefInjective | packages/idempotency/src/fingerprint.ts:52-53 | External references are equal only for the same request and step. |
| Identity.IdentitiesNeverCoincide | packages/idempotency/src/fingerprint.ts:42-53 | No event id is ever an external reference. |
| Keys.PhysicalInjective | packages/persistence/src/keys.ts:34-58 | The four kinds of table key are injective and pairwise disjoint for validated tenant ids. |
| Keys.UnsafeTenantForgesKey | packages/persistence/src/keys.ts:39-42 | A separator inside a tenant id would forge another tenant's key, so the charset rule is needed. |
| Keys.ValidatedTenantsAreSafe | packages/contracts/src/ids.ts:7-16 | Every tenant id the API lets through is safe in a key. |
| Keys.ShardOf | packages/persistence/src/keys.ts:22-28 | The loop computes the recursive hash, below the number of shards. |
| Keys.ShardIsCodeSum | packages/persistence/src/keys.ts:22-28 | The shard is the sum of the character codes modulo ten. |
| Keys.ShardKeysDistinct | packages/persistence/src/keys.ts:72-82 | Different shards have different partition keys. |
| Keys.ChronoOrder | packages/persistence/src/keys.ts:30-32 | For timestamps below 10^13 the string comparison of a range query is the numeric comparison. |
| Keys.NothingBeforeTheEpoch | packages/persistence/src/keys.ts:30-32 | A boundary that comes out negative is below every key, as it is below every timestamp. |
| Keys.StaleRefRecovers | packages/persistence/src/workflow-repository.ts:822-830 | The keys of an index entry give back the exact request id and deadline. |
| Waiter.WaitForTerminalState | packages/persistence/src/waiter.ts:84-133 | For every random sequence: at most ceil(B/s)+1 reads, no sleep ends after the deadline, the wait ends by the later of start and deadline plus one read, TIMED_OUT means the last read saw PROCESSING and ended at or after the deadline, with immediate reads a terminal write that lands by the deadline is always answered, the base delays are the capped geometric ones, and every read begins where the jittered, clamped sleep before it ends. |
| Waiter.JitterAtLeast | packages/contracts/src/time.ts:43-52 | Whatever is drawn, a base delay of at least the first one sleeps at least the least jittered first delay. |
| Waiter.JitterWithinShare | packages/contracts/src/time.ts:43-52 | A jittered sleep lies between the base delay less and plus the jittered share of it, is at the lower end for the smallest draw and in the middle for the middle one. |
| Waiter.BackoffStep | packages/persistence/src/waiter.ts:130 | Multiplying and capping step by step is capping the whole product; delays never decrease and never exceed the cap. |
| Batch.RunWithConcurrency | packages/messaging/src/batch.ts:25-45 | For every interleaving of the runners each record is handled exactly once, started in input order, and result i is the outcome of record i; with no runner nothing is handled. |
| Batch.ProcessBatch | packages/messaging/src/batch.ts:59-111 | The reported failures are, in input order, exactly the ids whose handler returned RETRY or threw. |
| ApiKeyStore.BuildIndex | apps/api/src/auth/api-key-store.ts:189-222 | The nested loops compute the index of the flattened entries. |
| ApiKeyStore.IndexIsExact | apps/api/src/auth/api-key-store.ts:211-221 | The index holds exactly the hashes of unexpired keys of active tenants, each mapped to the last entry that has it. |
| ApiKeyStore.ResolvesAsDocumented | apps/api/src/auth/api-key-store.ts:104-127 | A key resolves exactly when the indexed document admits it, to the last entry that does. |
| ApiKeyStore.SecretsApiKeyStore.Load | apps/api/src/auth/api-key-store.ts:156-174 | The index is always that of the last valid document at its load time; a failed load changes nothing. |
| ApiKeyStore.SecretsApiKeyStore.Resolve | apps/api/src/auth/api-key-store.ts:104-138 | One resolve refreshes by age, then by miss, each at most once, and serves the cached index while refreshes fail; the store's count of fetches grows by exactly what the call fetches. |
| ApiKeyStore.FreshOrFailing | apps/api/src/auth/api-key-store.ts:104-138 | Every answer comes from a document younger than the cache lifetime, or while a failure holds refreshes back. |
| ApiKeyStore.LoadedNeverThrows | apps/api/src/auth/api-key-store.ts:129-138 | A store that has loaded once keeps serving whatever fails, and a resolve that throws leaves the index as it was. |
| ApiKeyStore.ThrowsExactlyWhenNeverLoaded | apps/api/src/auth/api-key-store.ts:129-138 | A resolve throws if and only if nothing was ever loaded and the fetch it needs fails, the one its age asks for or the one a due miss asks for; so an empty index never turns everybody away. |
| ApiKeyStore.HitCostsNothing | apps/api/src/auth/api-key-store.ts:104-113 | A hit in a young cache is answered from the index, without a fetch or any change. |
| ApiKeyStore.AgedCacheIsReplaced | apps/api/src/auth/api-key-store.ts:104-113 | An old cache is replaced by the document fetched, if one can be fetched, before the key is looked up. |
| ApiKeyStore.CoolDownIsExact | apps/api/src/auth/api-key-store.ts:129-138 | A failed refresh keeps everything and holds the next one back for exactly the cool-down; a successful one holds back nothing. |
| ApiKeyStore.HeldServesStale | apps/api/src/auth/api-key-store.ts:129-138 | While refreshes are held back nothing is fetched and the cached index answers. |
| ApiKeyStore.IndexGrantsAsDocumented | apps/api/src/auth/api-key-store.ts:211-221 | A digest is indexed if and only if some active tenant of the document has an unexpired key with it, and the caller it answers is one the document grants. |
| ApiKeyStore.AddedKeyIsFound | apps/api/src/auth/api-key-store.ts:114-125 | A key added since the last load is found at once unless a miss or a failure was too recent. |
| ApiKeyStore.ServeWindow | apps/api/src/auth/api-key-store.ts:104-174 | Once loaded, sequential resolves in a window of length T raise the store's own count of fetches by at most T/ttl + 2 T/negative + 3, whatever fails and whatever is presented. |
| ApiKeyStore.FetchBound | apps/api/src/auth/api-key-store.ts:104-138 | The same bound for every sequence of calls, on what each call fetches. |

## Left out

- SHA-256 is an injective hexadecimal stand-in of another length; hashes are assumed collision free.
- TTL deletion, queue retention expiry, index lag, 1 MB query pages and clock skew are assumed away: nothing expires, and index reads are consistent.
- Results fit `maxResultBytes`, so RESULT_TOO_LARGE does not occur; stored input is valid because only validated posts are stored, so neither does WORKFLOW_INPUT_INVALID.
- Schemas as parsers, HTTP, authentication headers, streams plumbing, logging, metrics, `Lifecycle` and configuration loading are not modelled.
- Numbers in fingerprinted JSON are numeral texts; how JavaScript prints a double is not modelled.
- Enriching.NormalizationIgnoresCase: upper-casing covers ASCII letters only; the Unicode case tables JavaScript uses are not part of this model.
- Transport of a GET on `/v1/process/:requestId` is the tenant-checked read alone; the step relation has no action for it.
- A lookup does not compare the echoed key in the code, so the protocol assumes the provider answers a GET about the key it was asked for.
- The terminal write's second read and `getStep` after a failed claim are steps only where an answer decides a branch.
- Keys.ChronoOrder: timestamps of 10^13 milliseconds and more do not keep string order, because the padding is thirteen digits.
- Keys.StaleRefRecovers: `Number.parseInt` is modelled without leading blanks and signs, which the keys never have.
- Workers.Finalizer.HandleRecord: a resend by the SDK inside one call is a step of the relation, not of the handler's code.
- Waiter.WaitForTerminalState: time is real and the clock exact; a `None` result means the given rounds ran out, which the read bound excludes for long enough ones.
- ProtocolRecovery.EveryWorkflowCanFinish: says that a finishing run exists from everywhere, not that a scheduler takes it.
- ApiKeyStore.ServeWindow: concurrent resolves, which share one fetch in flight, are not modelled.
- Batch.RunWithConcurrency: the worker's outcome for a record is given per record, since it is called once for each.
- Feedback.DryStreamHasSentAll: one stream and a publisher whose calls succeed; shards, iterators and failed publications, which are retried from the checkpoint, are not part of that loop.
