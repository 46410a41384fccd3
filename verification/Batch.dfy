/** Handling a batch of records concurrently. Whichever runner moves next is chosen
    arbitrarily, so what is proved holds of every interleaving.
    Models packages/messaging/src/batch.ts. */
module Batch {
  import opened Contracts

  // -------------------------------------------------------------------------
  // The runners
  // -------------------------------------------------------------------------

  /** A runner about to take an item, awaiting the worker on one, or returned. */
  datatype Runner = Ready | Busy(index: nat) | Returned

  function Weight(r: Runner): nat {
    match r
    case Ready => 1
    case Busy(_) => 2
    case Returned => 0
  }

  function Weights(runners: seq<Runner>): nat {
    if runners == [] then 0 else Weights(runners[..|runners| - 1]) + Weight(runners[|runners| - 1])
  }

  lemma {:induction false} WeightsUpdate(runners: seq<Runner>, k: nat, r: Runner)
    requires k < |runners|
    ensures Weights(runners[k := r]) == Weights(runners) - Weight(runners[k]) + Weight(r)
    ensures Weights(runners) >= Weight(runners[k])
  {
    var n := |runners| - 1;
    if k == n {
      assert runners[k := r][..n] == runners[..n];
    } else {
      assert runners[k := r][..n] == runners[..n][k := r];
      WeightsUpdate(runners[..n], k, r);
    }
  }

  function LessOf(a: int, b: int): int {
    if a < b then a else b
  }

  /** Items handed out so far are answered or with exactly one runner; the rest are untouched. */
  ghost predicate Consistent<R(!new)>(outcomes: seq<R>, cursor: nat, results: seq<Option<R>>, runners: seq<Runner>) {
    && |results| == |outcomes|
    && (forall k | 0 <= k < |runners| && runners[k].Busy? ::
          runners[k].index < cursor && runners[k].index < |outcomes| && results[runners[k].index] == None)
    && (forall j, k | 0 <= j < k < |runners| && runners[j].Busy? && runners[k].Busy? :: runners[j].index != runners[k].index)
    && (forall i: nat | i < |results| && i < cursor ::
          results[i] == Some(outcomes[i]) || exists k :: 0 <= k < |runners| && runners[k] == Busy(i))
    && (forall i: nat | i < |results| && i >= cursor :: results[i] == None)
    && (forall k | 0 <= k < |runners| && runners[k].Returned? :: cursor >= |outcomes|)
  }

  lemma TakeKeeps<R(!new)>(outcomes: seq<R>, cursor: nat, results: seq<Option<R>>, runners: seq<Runner>, k: nat)
    requires Consistent(outcomes, cursor, results, runners) && k < |runners| && runners[k] == Ready
    ensures Consistent(outcomes, cursor + 1, results, runners[k := if cursor < |outcomes| then Busy(cursor) else Returned])
  {
    var after := runners[k := if cursor < |outcomes| then Busy(cursor) else Returned];
    forall i: nat | i < |results| && i < cursor + 1
      ensures results[i] == Some(outcomes[i]) || exists j :: 0 <= j < |after| && after[j] == Busy(i)
    {
      if i == cursor {
        assert after[k] == Busy(i);
      } else if results[i] != Some(outcomes[i]) {
        var j :| 0 <= j < |runners| && runners[j] == Busy(i);
        assert after[j] == Busy(i);
      }
    }
  }

  lemma AnswerKeeps<R(!new)>(outcomes: seq<R>, cursor: nat, results: seq<Option<R>>, runners: seq<Runner>, k: nat)
    requires Consistent(outcomes, cursor, results, runners) && k < |runners| && runners[k].Busy?
    ensures Consistent(outcomes, cursor, results[runners[k].index := Some(outcomes[runners[k].index])], runners[k := Ready])
  {
    var index := runners[k].index;
    var after := runners[k := Ready];
    forall i: nat | i < |results| && i < cursor && i != index && results[i] != Some(outcomes[i])
      ensures exists j :: 0 <= j < |after| && after[j] == Busy(i)
    {
      var j :| 0 <= j < |runners| && runners[j] == Busy(i);
      assert after[j] == Busy(i);
    }
  }

  lemma NobodyStarted<R(!new)>(outcomes: seq<R>, results: seq<Option<R>>, runners: seq<Runner>)
    requires |results| == |outcomes| && forall i | 0 <= i < |results| :: results[i] == None
    requires forall k | 0 <= k < |runners| :: runners[k] == Ready
    ensures Consistent(outcomes, 0, results, runners) && UpTo(0) == []
  {}

  lemma BusyInRange<R(!new)>(outcomes: seq<R>, cursor: nat, results: seq<Option<R>>, runners: seq<Runner>, k: nat)
    requires Consistent(outcomes, cursor, results, runners) && k < |runners| && runners[k].Busy?
    ensures |results| == |outcomes| && runners[k].index < |outcomes|
  {}

  lemma AllAnswered<R(!new)>(outcomes: seq<R>, cursor: nat, results: seq<Option<R>>, runners: seq<Runner>)
    requires Consistent(outcomes, cursor, results, runners)
    requires forall k | 0 <= k < |runners| :: runners[k].Returned?
    ensures |results| == |outcomes|
    ensures runners != [] ==> cursor >= |outcomes| && forall i | 0 <= i < |results| :: results[i] == Some(outcomes[i])
    ensures cursor == 0 ==> forall i | 0 <= i < |results| :: results[i] == None
  {
    if runners != [] { assert runners[0].Returned?; }
  }

  function UpTo(n: nat): (s: seq<nat>)
    ensures |s| == n && forall i | 0 <= i < n :: s[i] == i
  {
    seq(n, i => i)
  }

  lemma UpToNext(n: nat)
    ensures UpTo(n) + [n] == UpTo(n + 1)
  {}

  lemma WeightOf(index: nat)
    ensures Weight(Ready) == 1 && Weight(Busy(index)) == 2 && Weight(Returned) == 0
  {}

  /** The worker is called once per item, in input order, and its answer to item i ends in
      place i, whatever order the answers come in; `outcomes[i]` is that answer. Without a
      runner nothing is called. */
  method RunWithConcurrency<R(!new)>(outcomes: seq<R>, limit: int) returns (results: seq<Option<R>>, ghost calls: seq<nat>)
    ensures |results| == |outcomes|
    ensures limit >= 1 ==> calls == UpTo(|outcomes|) && forall i | 0 <= i < |results| :: results[i] == Some(outcomes[i])
    ensures limit < 1 ==> calls == [] && forall i | 0 <= i < |results| :: results[i] == None
  {
    hide Consistent, UpTo, Weights, Weight;
    results := seq(|outcomes|, i => None);
    calls := [];
    var cursor: nat := 0;
    var count := if limit < 0 then 0 else LessOf(limit, |outcomes|);
    var runners := seq(count, i => Ready);
    NobodyStarted(outcomes, results, runners);
    while exists k :: 0 <= k < |runners| && !runners[k].Returned?
      invariant |runners| == count && Consistent(outcomes, cursor, results, runners)
      invariant calls == UpTo(LessOf(cursor, |outcomes|)) && (count == 0 ==> cursor == 0)
      decreases Weights(runners) + 2 * (if cursor < |outcomes| then |outcomes| - cursor else 0)
    {
      var k :| 0 <= k < |runners| && !runners[k].Returned?;
      match runners[k] {
        case Ready =>
          TakeKeeps(outcomes, cursor, results, runners, k);
          var index := cursor;
          cursor := cursor + 1;
          var next := if index < |outcomes| then Busy(index) else Returned;
          WeightsUpdate(runners, k, next);
          WeightOf(index);
          runners := runners[k := next];
          if index < |outcomes| {
            UpToNext(index);
            calls := calls + [index];
          }
        case Busy(index) =>
          BusyInRange(outcomes, cursor, results, runners, k);
          AnswerKeeps(outcomes, cursor, results, runners, k);
          WeightsUpdate(runners, k, Ready);
          WeightOf(index);
          results := results[index := Some(outcomes[index])];
          runners := runners[k := Ready];
      }
    }
    AllAnswered(outcomes, cursor, results, runners);
  }

  // -------------------------------------------------------------------------
  // A batch
  // -------------------------------------------------------------------------

  datatype RecordOutcome = DONE | RETRY

  /** How the handler ends on a record. */
  datatype Behaviour = Returns(outcome: RecordOutcome) | Throws(failureClass: FailureClass)

  datatype BatchRecord = BatchRecord(messageId: string, behaviour: Behaviour)

  /** What the batch reports of a record: any throw, whatever its class, is a retry. */
  predicate Fails(record: BatchRecord) {
    record.behaviour.Throws? || record.behaviour.outcome == RETRY
  }

  predicate Increasing(s: seq<nat>) {
    forall i, j | 0 <= i < j < |s| :: s[i] < s[j]
  }

  function OutcomesOf(records: seq<BatchRecord>): (r: seq<(string, RecordOutcome)>)
    ensures |r| == |records|
    ensures forall i | 0 <= i < |r| :: r[i] == (records[i].messageId, if Fails(records[i]) then RETRY else DONE)
  {
    seq(|records|, i requires 0 <= i < |records| =>
      (records[i].messageId, if records[i].behaviour.Throws? then RETRY else records[i].behaviour.outcome))
  }

  /** The failures are the ids of exactly the records that must be redelivered, in input
      order; `failing` lists their places. With no runner the missing results make it throw. */
  method ProcessBatch(records: seq<BatchRecord>, concurrency: Option<int>)
    returns (batchItemFailures: Option<seq<string>>, ghost failing: seq<nat>)
    ensures batchItemFailures.None? <==> concurrency.Some? && concurrency.value < 1 && records != []
    ensures batchItemFailures.Some? ==>
              && |batchItemFailures.value| == |failing| && Increasing(failing)
              && (forall k | 0 <= k < |failing| ::
                    failing[k] < |records| && batchItemFailures.value[k] == records[failing[k]].messageId)
              && (forall i: nat | i < |records| ::
                    i in failing <==> records[i].behaviour.Throws? || records[i].behaviour == Returns(RETRY))
  {
    var limit := if concurrency.Some? then concurrency.value else 5;
    var outcomes, _ := RunWithConcurrency(OutcomesOf(records), limit);
    var failures: seq<string> := [];
    failing := [];
    for i := 0 to |outcomes|
      invariant i > 0 ==> limit >= 1
      invariant |failures| == |failing| && Increasing(failing)
      invariant forall k | 0 <= k < |failing| :: failing[k] < i && failures[k] == records[failing[k]].messageId
      invariant forall j: nat | j < i :: j in failing <==> Fails(records[j])
    {
      if outcomes[i].None? {
        return None, failing;
      }
      if outcomes[i].value.1 == RETRY {
        failures, failing := failures + [outcomes[i].value.0], failing + [i];
      }
    }
    batchItemFailures := Some(failures);
  }
}
