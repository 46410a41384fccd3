/** The table, its stream and the publisher as one loop: every write puts records on the stream,
    and so does the publisher's own mark. Models the feedback around
    apps/outbox-publisher/src/handler.ts. */
module Feedback {
  import opened Contracts
  import opened Keys
  import opened Repository
  import opened Outbox
  import T = Table

  /** `sent` is what the publisher has put on the queues, `inserted` what the events ever inserted
      ask to be sent, both in order. */
  datatype Feed = Feed(table: T.Table, stream: seq<StreamRecord>, sent: seq<Sending>, inserted: seq<Sending>)

  const EMPTY_FEED: Feed := Feed(T.EMPTY, [], [], [])

  predicate Changed(t: T.Table, t': T.Table, e: T.EventRef) {
    e in t'.outbox && (e !in t.outbox || t'.outbox[e] != t.outbox[e])
  }

  /** A record of an item that is no outbox event. */
  ghost predicate OtherItem(record: StreamRecord) {
    record.image.Some? ==> exists key: ItemKey :: !key.OutboxAt? && record.image.value.sk == Some(Physical(key).sk)
  }

  ghost predicate RecordFor(t: T.Table, t': T.Table, e: T.EventRef, record: StreamRecord) {
    e in t'.outbox && record == RecordOf(t'.outbox[e], if e in t.outbox then MODIFY else INSERT, record.sequenceNumber)
  }

  /** What a write puts on the stream: the record of the outbox event it changed, if any, among
      records of other items. */
  ghost predicate Streamed(t: T.Table, t': T.Table, before: seq<StreamRecord>, event: seq<StreamRecord>, after: seq<StreamRecord>) {
    && (forall r | r in before + after :: OtherItem(r))
    && (event == [] ==> forall e :: !Changed(t, t', e))
    && (event != [] ==> |event| == 1 && exists e :: Changed(t, t', e) && RecordFor(t, t', e, event[0]))
  }

  /** What the newly inserted event asks to be sent. */
  ghost predicate Inserts(t: T.Table, t': T.Table, sendings: seq<Sending>) {
    if exists e :: e in t'.outbox && e !in t.outbox
    then exists e :: e in t'.outbox && e !in t.outbox && sendings == [Sent(t'.outbox[e])]
    else sendings == []
  }

  ghost predicate Writes(f: Feed, f': Feed) {
    && Written(f.table, f'.table) && f'.sent == f.sent
    && (exists before, event, after ::
          Streamed(f.table, f'.table, before, event, after) && f'.stream == f.stream + (before + event + after))
    && (exists sendings :: Inserts(f.table, f'.table, sendings) && f'.inserted == f.inserted + sendings)
  }

  /** The publisher takes the oldest record and succeeds; its mark is a write like any other. */
  ghost predicate Consumes(f: Feed, f': Feed) {
    f.stream != [] && f'.inserted == f.inserted &&
    var record, rest := f.stream[0], f.stream[1..];
    if !Publishable(record) then f' == f.(stream := rest)
    else
      && (exists at :: f'.table == AfterAttempt(f.table, EventOf(record), Succeeds, at))
      && f'.sent == f.sent + SentBy(EventOf(record), Succeeds)
      && (exists echo :: f'.stream == rest + echo && Streamed(f.table, f'.table, [], echo, []))
  }

  // -------------------------------------------------------------------------
  // The balance
  // -------------------------------------------------------------------------

  /** What the records on the stream will have sent. */
  function Pending(stream: seq<StreamRecord>): seq<Sending> {
    if stream == [] then []
    else (if Publishable(stream[0]) then [Sent(EventOf(stream[0]))] else []) + Pending(stream[1..])
  }

  lemma {:induction false} PendingAppend(a: seq<StreamRecord>, b: seq<StreamRecord>)
    ensures Pending(a + b) == Pending(a) + Pending(b)
  {
    if a == [] {
      assert a + b == b;
    } else {
      assert (a + b)[0] == a[0] && (a + b)[1..] == a[1..] + b;
      PendingAppend(a[1..], b);
    }
  }

  lemma {:induction false} OthersPendNothing(records: seq<StreamRecord>)
    requires forall r | r in records :: OtherItem(r)
    ensures Pending(records) == []
  {
    hide OtherItem, Publishable;
    if records != [] {
      OtherIsNotPublishable(records[0]);
      OthersPendNothing(records[1..]);
    }
  }

  lemma OtherIsNotPublishable(record: StreamRecord)
    requires OtherItem(record)
    ensures !Publishable(record)
  {
    if record.image.Some? {
      var key: ItemKey :| !key.OutboxAt? && record.image.value.sk == Some(Physical(key).sk);
      OnlyOutboxKeysQualify(key);
    }
  }

  lemma EventPends(t: T.Table, t': T.Table, event: seq<StreamRecord>, sendings: seq<Sending>)
    requires Written(t, t') && Streamed(t, t', [], event, []) && Inserts(t, t', sendings)
    ensures Pending(event) == sendings
  {
    hide Written, Publishable, OtherItem;
    if event != [] {
      var e :| Changed(t, t', e) && RecordFor(t, t', e, event[0]);
      OnlyFreshEventsArePublishable(t, t', e, event[0].sequenceNumber);
      assert event == [event[0]] && event[1..] == [] && Pending([]) == [];
      forall x | x in t'.outbox && x !in t.outbox ensures x == e { OneChange(t, t', x, e); }
    } else {
      assert forall e | e in t'.outbox && e !in t.outbox :: Changed(t, t', e);
    }
  }

  /** A write changes one event at most. */
  lemma OneChange(t: T.Table, t': T.Table, a: T.EventRef, b: T.EventRef)
    requires Written(t, t') && Changed(t, t', a) && Changed(t, t', b)
    ensures a == b
  {
    hide T.EventIdOf, T.NewWorkflow, T.NewMapping, T.ClaimedItem, T.RebuiltStep, T.AdvancedItem, T.TerminalItem, T.TerminalStep,
      T.PendingEvent;
  }

  /** Every event ever inserted has been sent, or its record is still on the stream; each once,
      and in order. */
  predicate Balanced(f: Feed) {
    f.inserted == f.sent + Pending(f.stream)
  }

  lemma WritesBalance(f: Feed, f': Feed)
    requires Balanced(f) && Writes(f, f')
    ensures Balanced(f')
  {
    hide Written, Inserts, Pending, OtherItem;
    var before, event, after :| Streamed(f.table, f'.table, before, event, after) && f'.stream == f.stream + (before + event + after);
    var sendings :| Inserts(f.table, f'.table, sendings) && f'.inserted == f.inserted + sendings;
    EventPends(f.table, f'.table, event, sendings);
    OthersPendNothing(before);
    OthersPendNothing(after);
    PendingAppend(f.stream, before + event + after);
    PendingAppend(before + event, after);
    PendingAppend(before, event);
  }

  lemma ConsumesBalance(f: Feed, f': Feed)
    requires Balanced(f) && Consumes(f, f')
    ensures Balanced(f')
  {
    hide Publishable, OtherItem, T.MarkPublished;
    var record, rest := f.stream[0], f.stream[1..];
    if Publishable(record) {
      var echo :| f'.stream == rest + echo && Streamed(f.table, f'.table, [], echo, []);
      var at :| f'.table == AfterAttempt(f.table, EventOf(record), Succeeds, at);
      MarkInsertsNothing(f.table, RefOf(EventOf(record)), at);
      EventPends(f.table, f'.table, echo, []);
      PendingAppend(rest, echo);
    }
  }

  lemma MarkInsertsNothing(t: T.Table, e: T.EventRef, at: T.When)
    ensures Written(t, T.MarkPublished(t, e, at)) && Inserts(t, T.MarkPublished(t, e, at), [])
  {}

  ghost predicate Runs(trace: seq<Feed>) {
    |trace| > 0 && trace[0] == EMPTY_FEED &&
    forall i: nat | i + 1 < |trace| :: Writes(trace[i], trace[i + 1]) || Consumes(trace[i], trace[i + 1])
  }

  lemma {:induction false} RunsBalance(trace: seq<Feed>, n: nat)
    requires Runs(trace) && n < |trace|
    ensures Balanced(trace[n])
  {
    hide Writes, Consumes, Balanced;
    if n == 0 {
      NothingIsBalanced();
    } else {
      RunsBalance(trace, n - 1);
      assert Writes(trace[n - 1], trace[n - 1 + 1]) || Consumes(trace[n - 1], trace[n - 1 + 1]);
      if Writes(trace[n - 1], trace[n]) { WritesBalance(trace[n - 1], trace[n]); }
      else { ConsumesBalance(trace[n - 1], trace[n]); }
    }
  }

  lemma NothingIsBalanced()
    ensures Balanced(EMPTY_FEED)
  {}

  /** Whenever the stream has run dry, what was sent is what was inserted: every event once, in
      the order of insertion, with marks echoed back or not. */
  lemma DryStreamHasSentAll(trace: seq<Feed>, n: nat)
    requires Runs(trace) && n < |trace| && trace[n].stream == []
    ensures trace[n].sent == trace[n].inserted
  {
    hide Runs;
    RunsBalance(trace, n);
  }

  // -------------------------------------------------------------------------
  // Running dry
  // -------------------------------------------------------------------------

  function Weight(stream: seq<StreamRecord>): nat {
    if stream == [] then 0 else (if Publishable(stream[0]) then 2 else 1) + Weight(stream[1..])
  }

  lemma {:induction false} WeightAppend(a: seq<StreamRecord>, b: seq<StreamRecord>)
    ensures Weight(a + b) == Weight(a) + Weight(b)
  {
    if a == [] {
      assert a + b == b;
    } else {
      assert (a + b)[0] == a[0] && (a + b)[1..] == a[1..] + b;
      WeightAppend(a[1..], b);
    }
  }

  lemma ConsumesShrinks(f: Feed, f': Feed)
    requires Consumes(f, f')
    ensures Weight(f'.stream) < Weight(f.stream)
  {
    hide Publishable, OtherItem, T.MarkPublished;
    var record, rest := f.stream[0], f.stream[1..];
    if Publishable(record) {
      var echo :| f'.stream == rest + echo && Streamed(f.table, f'.table, [], echo, []);
      var at :| f'.table == AfterAttempt(f.table, EventOf(record), Succeeds, at);
      MarkInsertsNothing(f.table, RefOf(EventOf(record)), at);
      EventPends(f.table, f'.table, echo, []);
      WeightAppend(rest, echo);
      if echo != [] {
        assert echo[1..] == [];
        assert Weight([]) == 0;
      }
    }
  }

  /** Left alone, the publisher empties the stream: its own echoes keep it busy for one more
      record each at most. */
  lemma {:induction false} StreamRunsDry(trace: seq<Feed>)
    requires |trace| > 0 && forall i: nat | i + 1 < |trace| :: Consumes(trace[i], trace[i + 1])
    ensures |trace| - 1 <= Weight(trace[0].stream) <= 2 * |trace[0].stream|
    decreases |trace|
  {
    hide Consumes;
    WeightBound(trace[0].stream);
    if |trace| > 1 {
      assert Consumes(trace[0], trace[0 + 1]);
      ConsumesShrinks(trace[0], trace[1]);
      forall i: nat | i + 1 < |trace[1..]| ensures Consumes(trace[1..][i], trace[1..][i + 1]) {
        assert Consumes(trace[i + 1], trace[i + 1 + 1]);
      }
      StreamRunsDry(trace[1..]);
    }
  }

  lemma {:induction false} WeightBound(stream: seq<StreamRecord>)
    ensures Weight(stream) <= 2 * |stream|
  {
    if stream != [] { WeightBound(stream[1..]); }
  }
}
