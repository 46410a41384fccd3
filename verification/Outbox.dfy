/** Publication of committed events: the stream-driven publisher and the sweep that backs it.
    Models apps/outbox-publisher/src/handler.ts and apps/reconciler/src/handler.ts. */
module Outbox {
  import opened Contracts
  import opened Keys
  import opened TableInvariant
  import opened Repository
  import T = Table

  type Sending = (Destination, Message)

  class MessagePublisher {
    var sent: seq<Sending>

    constructor ()
      ensures sent == []
    {
      sent := [];
    }

    method Publish(destination: Destination, message: Message)
      modifies this
      ensures sent == old(sent) + [(destination, message)]
    {
      sent := sent + [(destination, message)];
    }
  }

  /** How publishing one event goes: `publish` or the mark after it may throw, and either may
      have taken effect all the same. */
  datatype Attempt = Succeeds | PublishThrows(delivered: bool) | MarkThrows(applied: bool)

  function SentBy(event: T.OutboxItem, attempt: Attempt): seq<Sending> {
    if attempt == PublishThrows(false) then [] else [(event.destination, event.message)]
  }

  function AfterAttempt(t: T.Table, event: T.OutboxItem, attempt: Attempt, at: T.When): T.Table {
    if attempt.Succeeds? || attempt == MarkThrows(true) then T.MarkPublished(t, RefOf(event), at) else t
  }

  /** Publish, then mark. */
  method PublishEvent(repository: WorkflowRepository, publisher: MessagePublisher, event: T.OutboxItem,
                      attempt: Attempt, now: nat) returns (threw: bool)
    modifies repository`outbox, publisher
    ensures threw <==> !attempt.Succeeds?
    ensures repository.Contents() == AfterAttempt(old(repository.Contents()), event, attempt, repository.At(now))
    ensures publisher.sent == old(publisher.sent) + SentBy(event, attempt)
    // Nothing is marked that was not sent, and nothing sent without an error stays unmarked.
    ensures attempt.PublishThrows? || attempt == MarkThrows(false) ==> repository.outbox == old(repository.outbox)
    ensures attempt.Succeeds? || attempt == MarkThrows(true) ==>
              (RefOf(event) in repository.outbox ==> repository.outbox[RefOf(event)].publishedAt == Some(now))
    ensures publisher.sent
         == old(publisher.sent) + if attempt == PublishThrows(false) then [] else [(event.destination, event.message)]
  {
    if attempt != PublishThrows(false) {
      publisher.Publish(event.destination, event.message);
    }
    if attempt.PublishThrows? {
      return true;
    }
    if attempt != MarkThrows(false) {
      repository.MarkOutboxPublished(event.requestId, event.eventId, now);
    }
    threw := attempt.MarkThrows?;
  }

  type Work = seq<(T.OutboxItem, Attempt)>

  function AfterWork(t: T.Table, work: Work, at: T.When): T.Table {
    if work == [] then t
    else
      var (event, attempt) := work[|work| - 1];
      AfterAttempt(AfterWork(t, work[..|work| - 1], at), event, attempt, at)
  }

  function SentWork(work: Work): seq<Sending> {
    if work == [] then []
    else
      var (event, attempt) := work[|work| - 1];
      SentWork(work[..|work| - 1]) + SentBy(event, attempt)
  }

  lemma WorkSnoc(t: T.Table, work: Work, event: T.OutboxItem, attempt: Attempt, at: T.When)
    ensures AfterWork(t, work + [(event, attempt)], at) == AfterAttempt(AfterWork(t, work, at), event, attempt, at)
    ensures SentWork(work + [(event, attempt)]) == SentWork(work) + SentBy(event, attempt)
  {
    assert (work + [(event, attempt)])[..|work|] == work;
  }

  /** No attempt removes an event, rewrites one, or takes back a publication; only events of
      the work are marked, and only if their message went out. */
  lemma {:induction false} WorkEffect(t: T.Table, work: Work, at: T.When)
    ensures var t' := AfterWork(t, work, at);
            && t'.workflows == t.workflows && t'.mappings == t.mappings && t'.steps == t.steps
            && t'.outbox.Keys == t.outbox.Keys
            && (forall e | e in t.outbox :: EventGrows(t.outbox[e], t'.outbox[e]))
            && (forall e | e in t.outbox && t'.outbox[e] != t.outbox[e] ::
                  t'.outbox[e].publishedAt.Some? &&
                  exists i :: 0 <= i < |work| && RefOf(work[i].0) == e && Sent(work[i].0) in SentWork(work))
  {
    if work != [] {
      var n := |work| - 1;
      WorkEffect(t, work[..n], at);
      var mid, t' := AfterWork(t, work[..n], at), AfterWork(t, work, at);
      forall e | e in t.outbox && t'.outbox[e] != t.outbox[e]
        ensures t'.outbox[e].publishedAt.Some? &&
                exists i :: 0 <= i < |work| && RefOf(work[i].0) == e && Sent(work[i].0) in SentWork(work)
      {
        if t'.outbox[e] == mid.outbox[e] {
          var i :| 0 <= i < n && RefOf(work[..n][i].0) == e && Sent(work[..n][i].0) in SentWork(work[..n]);
          assert RefOf(work[i].0) == e && Sent(work[i].0) in SentWork(work);
        } else {
          assert RefOf(work[n].0) == e && Sent(work[n].0) in SentWork(work);
        }
      }
    }
  }

  function Sent(event: T.OutboxItem): Sending {
    (event.destination, event.message)
  }

  /** What succeeded is on its queue and marked. */
  lemma {:induction false} WorkPublishes(t: T.Table, work: Work, i: nat, at: T.When)
    requires i < |work| && work[i].1.Succeeds?
    ensures Sent(work[i].0) in SentWork(work)
    ensures RefOf(work[i].0) in t.outbox ==>
              RefOf(work[i].0) in AfterWork(t, work, at).outbox
              && AfterWork(t, work, at).outbox[RefOf(work[i].0)].publishedAt.Some?
  {
    var n := |work| - 1;
    WorkEffect(t, work[..n], at);
    if i < n {
      assert work[..n][i] == work[i];
      WorkPublishes(t, work[..n], i, at);
    }
  }

  // -------------------------------------------------------------------------
  // The stream
  // -------------------------------------------------------------------------

  datatype ChangeKind = INSERT | MODIFY | REMOVE

  /** The attributes the publisher looks at; `parsed` is absent when the schema rejects the item. */
  datatype Image = Image(sk: Option<string>, publishedAt: Option<nat>, parsed: Option<T.OutboxItem>)

  datatype StreamRecord = StreamRecord(kind: ChangeKind, image: Option<Image>, sequenceNumber: Option<string>)

  predicate Publishable(record: StreamRecord) {
    record.kind != REMOVE && record.image.Some? && record.image.value.sk.Some? && "OUTBOX#" <= record.image.value.sk.value
    && record.image.value.publishedAt.None? && record.image.value.parsed.Some?
  }

  function EventOf(record: StreamRecord): T.OutboxItem
    requires Publishable(record)
  {
    record.image.value.parsed.value
  }

  /** The events a run of records asks to publish, each with how it went. */
  function WorkOf(records: seq<StreamRecord>, attempts: seq<Attempt>): seq<(T.OutboxItem, Attempt)>
    requires |records| == |attempts|
  {
    if records == [] then []
    else
      var n := |records| - 1;
      WorkOf(records[..n], attempts[..n]) + (if Publishable(records[n]) then [(EventOf(records[n]), attempts[n])] else [])
  }

  predicate FailsAt(records: seq<StreamRecord>, attempts: seq<Attempt>, i: nat)
    requires i < |records| == |attempts|
  {
    Publishable(records[i]) && !attempts[i].Succeeds?
  }

  /** The place of the first failure, or the length of the batch. */
  function FirstFailure(records: seq<StreamRecord>, attempts: seq<Attempt>): (i: nat)
    requires |records| == |attempts|
    ensures i <= |records| && (i < |records| ==> FailsAt(records, attempts, i))
    ensures forall j: nat | j < i :: !FailsAt(records, attempts, j)
  {
    if records == [] then 0
    else
      var n := |records| - 1;
      var i := FirstFailure(records[..n], attempts[..n]);
      assert forall j: nat | j < n :: FailsAt(records[..n], attempts[..n], j) == FailsAt(records, attempts, j);
      if i < n then i else if FailsAt(records, attempts, n) then n else n + 1
  }

  lemma FirstFailureIs(records: seq<StreamRecord>, attempts: seq<Attempt>, i: nat)
    requires |records| == |attempts| && i <= |records| && (i < |records| ==> FailsAt(records, attempts, i))
    requires forall j: nat | j < i :: !FailsAt(records, attempts, j)
    ensures FirstFailure(records, attempts) == i
  {}

  /** How many records are touched: all up to and including the first failure. */
  function Taken(records: seq<StreamRecord>, attempts: seq<Attempt>): (n: nat)
    requires |records| == |attempts|
    ensures n <= |records|
  {
    var i := FirstFailure(records, attempts);
    if i < |records| then i + 1 else i
  }

  predicate SilentFailure(records: seq<StreamRecord>, attempts: seq<Attempt>)
    requires |records| == |attempts|
  {
    var i := FirstFailure(records, attempts);
    i < |records| && records[i].sequenceNumber.None?
  }

  class OutboxPublisher {
    const repository: WorkflowRepository
    const publisher: MessagePublisher

    constructor (repository: WorkflowRepository, publisher: MessagePublisher)
      ensures this.repository == repository && this.publisher == publisher
    {
      this.repository, this.publisher := repository, publisher;
    }

    method PublishRecord(record: StreamRecord, attempt: Attempt, now: nat) returns (threw: bool)
      modifies repository, publisher
      ensures threw <==> Publishable(record) && !attempt.Succeeds?
      ensures publisher.sent != old(publisher.sent) ==>
                && (record.kind == INSERT || record.kind == MODIFY) && record.image.Some?
                && record.image.value.publishedAt == None && record.image.value.parsed.Some?
                && record.image.value.sk.Some? && "OUTBOX#" <= record.image.value.sk.value
      ensures attempt == Succeeds && (record.kind == INSERT || record.kind == MODIFY) && record.image.Some?
              && record.image.value.publishedAt == None && record.image.value.parsed.Some?
              && record.image.value.sk.Some? && "OUTBOX#" <= record.image.value.sk.value ==>
                var o := record.image.value.parsed.value;
                && publisher.sent == old(publisher.sent) + [(o.destination, o.message)]
                && (RefOf(o) in repository.outbox ==> repository.outbox[RefOf(o)].publishedAt == Some(now))
      ensures repository.Contents()
           == if Publishable(record) then AfterAttempt(old(repository.Contents()), EventOf(record), attempt, repository.At(now))
              else old(repository.Contents())
      ensures publisher.sent
           == old(publisher.sent) + if Publishable(record) then SentBy(EventOf(record), attempt) else []
    {
      threw := false;
      if record.kind == REMOVE || record.image.None? {
        return;
      }
      var image := record.image.value;
      if image.sk.None? || !("OUTBOX#" <= image.sk.value) {
        return;
      }
      if image.publishedAt.Some? || image.parsed.None? {
        return;
      }
      threw := PublishEvent(repository, publisher, image.parsed.value, attempt, now);
    }

    /** The records are taken in order up to the first failure, which is reported by its
        sequence number; what comes after it is not touched. Nothing is reported exactly when
        nothing failed or the first failing record has no number. */
    method Handle(records: seq<StreamRecord>, attempts: seq<Attempt>, now: nat) returns (batchItemFailures: seq<string>)
      requires |records| == |attempts|
      modifies repository, publisher
      ensures var taken := Taken(records, attempts);
              repository.Contents()
              == AfterWork(old(repository.Contents()), WorkOf(records[..taken], attempts[..taken]), repository.At(now)) &&
              publisher.sent == old(publisher.sent) + SentWork(WorkOf(records[..taken], attempts[..taken]))
      ensures batchItemFailures == [] <==>
                (forall i: nat | i < |records| :: !FailsAt(records, attempts, i)) || SilentFailure(records, attempts)
      ensures batchItemFailures != [] ==>
                FirstFailure(records, attempts) < |records|
                && batchItemFailures == [batchItemFailures[0]]
                && records[FirstFailure(records, attempts)].sequenceNumber == Some(batchItemFailures[0])
    {
      hide AfterWork, SentWork, WorkOf, AfterAttempt, SentBy, Publishable, FirstFailure;
      batchItemFailures := [];
      ghost var t, sent := repository.Contents(), publisher.sent;
      NoRecords(t, records, attempts, repository.At(now));
      for i := 0 to |records|
        invariant batchItemFailures == []
        invariant repository.Contents() == AfterWork(t, WorkOf(records[..i], attempts[..i]), repository.At(now))
        invariant publisher.sent == sent + SentWork(WorkOf(records[..i], attempts[..i]))
        invariant forall j: nat | j < i :: !FailsAt(records, attempts, j)
      {
        RecordsSnoc(t, records, attempts, i, repository.At(now));
        var threw := PublishRecord(records[i], attempts[i], now);
        if threw {
          FirstFailureIs(records, attempts, i);
          if records[i].sequenceNumber.Some? {
            batchItemFailures := [records[i].sequenceNumber.value];
          }
          return;
        }
      }
      FirstFailureIs(records, attempts, |records|);
    }
  }

  /** A batch of numbered records is either done to the end or reported. */
  lemma NumberedFailuresAreReported(records: seq<StreamRecord>, attempts: seq<Attempt>)
    requires |records| == |attempts|
    requires forall i: nat | i < |records| && FailsAt(records, attempts, i) :: records[i].sequenceNumber.Some?
    ensures !SilentFailure(records, attempts)
    ensures Taken(records, attempts) == |records| || FailsAt(records, attempts, Taken(records, attempts) - 1)
  {
    hide FirstFailure;
  }

  /** The one thing the stream is not told: a fresh event whose publication fails, in a record
      without a number, followed by anything. The event is not sent, nothing after it is
      touched, and nothing is reported. */
  lemma UnnumberedFailureIsSilent(event: T.OutboxItem, rest: seq<StreamRecord>, attempts: seq<Attempt>)
    requires |rest| == |attempts| && event.publishedAt.None?
    ensures var records := [RecordOf(event, INSERT, None)] + rest;
            var all := [PublishThrows(false)] + attempts;
            && SilentFailure(records, all) && Taken(records, all) == 1
            && SentWork(WorkOf(records[..1], all[..1])) == []
  {
    hide FirstFailure, WorkOf, SentWork;
    var record := RecordOf(event, INSERT, None);
    var records, all := [record] + rest, [PublishThrows(false)] + attempts;
    FreshIsPublishable(event);
    assert records[0] == record && all[0] == PublishThrows(false);
    assert FailsAt(records, all, 0);
    FirstFailureIs(records, all, 0);
    assert records[..1] == [record] && all[..1] == [PublishThrows(false)];
    OneUnsent(record);
  }

  lemma FreshIsPublishable(event: T.OutboxItem)
    requires event.publishedAt.None?
    ensures Publishable(RecordOf(event, INSERT, None))
  {
    assert "OUTBOX#" <= OutboxKey(event.requestId, event.eventId).sk;
  }

  lemma OneUnsent(record: StreamRecord)
    requires Publishable(record)
    ensures SentWork(WorkOf([record], [PublishThrows(false)])) == []
  {
    hide Publishable, WorkOf, SentWork;
    var attempts, at := [PublishThrows(false)], T.When(0, 0, 0);
    NoRecords(T.EMPTY, [record], attempts, at);
    RecordsSnoc(T.EMPTY, [record], attempts, 0, at);
    assert [record][..1] == [record] && attempts[..1] == attempts;
  }

  lemma NoRecords(t: T.Table, records: seq<StreamRecord>, attempts: seq<Attempt>, at: T.When)
    requires |records| == |attempts|
    ensures AfterWork(t, WorkOf(records[..0], attempts[..0]), at) == t && SentWork(WorkOf(records[..0], attempts[..0])) == []
  {}

  lemma RecordsSnoc(t: T.Table, records: seq<StreamRecord>, attempts: seq<Attempt>, i: nat, at: T.When)
    requires i < |records| == |attempts|
    ensures var work, next := WorkOf(records[..i], attempts[..i]), WorkOf(records[..i + 1], attempts[..i + 1]);
            if Publishable(records[i])
            then AfterWork(t, next, at) == AfterAttempt(AfterWork(t, work, at), EventOf(records[i]), attempts[i], at)
                 && SentWork(next) == SentWork(work) + SentBy(EventOf(records[i]), attempts[i])
            else next == work
  {
    assert records[..i + 1][..i] == records[..i] && attempts[..i + 1][..i] == attempts[..i];
    if Publishable(records[i]) {
      WorkSnoc(t, WorkOf(records[..i], attempts[..i]), EventOf(records[i]), attempts[i], at);
    }
  }

  // -------------------------------------------------------------------------
  // Checkpoints
  // -------------------------------------------------------------------------

  lemma {:induction false} RecordInWork(records: seq<StreamRecord>, attempts: seq<Attempt>, i: nat)
    requires i < |records| == |attempts| && Publishable(records[i])
    ensures (EventOf(records[i]), attempts[i]) in WorkOf(records, attempts)
  {
    var n := |records| - 1;
    if i < n {
      assert records[..n][i] == records[i] && attempts[..n][i] == attempts[i];
      RecordInWork(records[..n], attempts[..n], i);
    }
  }

  /** The event of a record is on its queue and, if it still exists, marked published. */
  predicate Published(t: T.Table, sent: seq<Sending>, event: T.OutboxItem) {
    Sent(event) in sent && (RefOf(event) in t.outbox ==> t.outbox[RefOf(event)].publishedAt.Some?)
  }

  lemma RecordPublished(t: T.Table, records: seq<StreamRecord>, attempts: seq<Attempt>, i: nat, at: T.When)
    requires i < |records| == |attempts| && Publishable(records[i]) && attempts[i].Succeeds?
    ensures var work := WorkOf(records, attempts);
            Published(AfterWork(t, work, at), SentWork(work), EventOf(records[i]))
  {
    var work := WorkOf(records, attempts);
    RecordInWork(records, attempts, i);
    var j :| 0 <= j < |work| && work[j] == (EventOf(records[i]), attempts[i]);
    WorkPublishes(t, work, j, at);
    WorkEffect(t, work, at);
  }

  /** A batch that failed at record `k` and is delivered again from there loses nothing: all
      of its publishable events end up sent and marked. */
  lemma RetryCompletesTheBatch(t: T.Table, records: seq<StreamRecord>, attempts: seq<Attempt>, k: nat, retries: seq<Attempt>,
                               at: T.When, later: T.When)
    requires k < |records| == |attempts| && |retries| == |records| - k
    requires forall i: nat | i < k :: !FailsAt(records, attempts, i)
    requires forall i: nat | i < |retries| :: retries[i].Succeeds?
    ensures var first, second := WorkOf(records[..k + 1], attempts[..k + 1]), WorkOf(records[k..], retries);
            forall i: nat | i < |records| && Publishable(records[i]) ::
              Published(AfterWork(AfterWork(t, first, at), second, later), SentWork(first) + SentWork(second), EventOf(records[i]))
  {
    var first, second := WorkOf(records[..k + 1], attempts[..k + 1]), WorkOf(records[k..], retries);
    var mid := AfterWork(t, first, at);
    forall i: nat | i < |records| && Publishable(records[i])
      ensures Published(AfterWork(mid, second, later), SentWork(first) + SentWork(second), EventOf(records[i]))
    {
      WorkEffect(mid, second, later);
      if i < k {
        assert records[..k + 1][i] == records[i] && attempts[..k + 1][i] == attempts[i];
        assert !FailsAt(records, attempts, i);
        RecordPublished(t, records[..k + 1], attempts[..k + 1], i, at);
      } else {
        assert records[k..][i - k] == records[i];
        RecordPublished(mid, records[k..], retries, i - k, later);
      }
    }
  }

  // -------------------------------------------------------------------------
  // Feedback
  // -------------------------------------------------------------------------

  /** The stream record of an outbox item as written. */
  function RecordOf(item: T.OutboxItem, kind: ChangeKind, sequenceNumber: Option<string>): StreamRecord {
    StreamRecord(kind, Some(Image(Some(OutboxKey(item.requestId, item.eventId).sk), item.publishedAt, Some(item))), sequenceNumber)
  }

  /** Only outbox items carry the sort key the publisher looks for. */
  lemma OnlyOutboxKeysQualify(key: ItemKey)
    ensures "OUTBOX#" <= Physical(key).sk <==> key.OutboxAt?
  {
    assert "OUTBOX#"[0] == 'O' && "WORKFLOW"[0] == 'W' && "IDEM"[0] == 'I' && "STEP#"[0] == 'S';
  }

  /** One write of the repository. */
  ghost predicate Written(t: T.Table, t': T.Table) {
    || (exists c, at :: t' == T.CreateWorkflow(t, c, at).0)
    || (exists r, step, ref, at :: t' == T.BeginStep(t, r, step, ref, at).0)
    || (exists r, step, at :: t' == T.MarkUnknown(t, r, step, at))
    || (exists r, tenant, e, at :: t' == T.AdvanceStep(t, r, tenant, e, at).0)
    || (exists r, step, verdict, at :: t' == T.WriteTerminal(t, r, step, verdict, at).0)
    || (exists e, at :: t' == T.MarkPublished(t, e, at))
  }

  /** Of all the records the table's own writes put on the stream, only the insertion of an
      event is published: the echo of a mark never is, so every event is published once. */
  lemma OnlyFreshEventsArePublishable(t: T.Table, t': T.Table, e: T.EventRef, sequenceNumber: Option<string>)
    requires Written(t, t') && e in t'.outbox && (e !in t.outbox || t'.outbox[e] != t.outbox[e])
    ensures Publishable(RecordOf(t'.outbox[e], if e in t.outbox then MODIFY else INSERT, sequenceNumber)) <==> e !in t.outbox
  {
    hide T.EventIdOf, T.NewWorkflow, T.NewMapping, T.ClaimedItem, T.RebuiltStep, T.AdvancedItem, T.TerminalItem, T.TerminalStep,
      PendingOutboxIndexKeys;
    assert "OUTBOX#" <= OutboxKey(t'.outbox[e].requestId, t'.outbox[e].eventId).sk;
  }

  lemma {:induction false} QuietRecords(records: seq<StreamRecord>, attempts: seq<Attempt>)
    requires |records| == |attempts| && forall i: nat | i < |records| :: !Publishable(records[i])
    ensures WorkOf(records, attempts) == []
  {
    if records != [] {
      var n := |records| - 1;
      QuietRecords(records[..n], attempts[..n]);
    }
  }

  lemma {:induction false} FreshWork(records: seq<StreamRecord>, attempts: seq<Attempt>)
    requires |records| == |attempts| && forall i: nat | i < |records| :: Publishable(records[i]) && attempts[i].Succeeds?
    ensures |SentWork(WorkOf(records, attempts))| == |records|
  {
    if records != [] {
      var n := |records| - 1;
      FreshWork(records[..n], attempts[..n]);
      WorkSnoc(T.EMPTY, WorkOf(records[..n], attempts[..n]), EventOf(records[n]), attempts[n], T.When(0, 0, 0));
    }
  }

  /** n fresh events lead to n publications, and the records of the marks to none: the
      feedback through the stream ends after one round. */
  lemma FeedbackStops(t: T.Table, records: seq<StreamRecord>, attempts: seq<Attempt>, echoes: seq<StreamRecord>,
                      again: seq<Attempt>, at: T.When)
    requires |records| == |attempts| && |echoes| == |again|
    requires forall i: nat | i < |records| ::
               Publishable(records[i]) && attempts[i].Succeeds? && RefOf(EventOf(records[i])) in t.outbox
    requires var t' := AfterWork(t, WorkOf(records, attempts), at);
             forall echo | echo in echoes :: exists i: nat, s ::
               i < |records| && RefOf(EventOf(records[i])) in t'.outbox
               && echo == RecordOf(t'.outbox[RefOf(EventOf(records[i]))], MODIFY, s)
    ensures |SentWork(WorkOf(records, attempts))| == |records|
    ensures WorkOf(echoes, again) == []
  {
    hide WorkOf, AfterWork, SentWork;
    FreshWork(records, attempts);
    var t' := AfterWork(t, WorkOf(records, attempts), at);
    forall j: nat | j < |echoes| ensures !Publishable(echoes[j]) {
      assert echoes[j] in echoes;
      var i: nat, s :| i < |records| && RefOf(EventOf(records[i])) in t'.outbox
                       && echoes[j] == RecordOf(t'.outbox[RefOf(EventOf(records[i]))], MODIFY, s);
      RecordPublished(t, records, attempts, i, at);
    }
    QuietRecords(echoes, again);
  }
}
