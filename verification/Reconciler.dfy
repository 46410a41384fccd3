/** The sweep that republishes what the stream missed. Models apps/reconciler/src/handler.ts. */
module Reconciler {
  import opened Contracts
  import opened Keys
  import opened TableInvariant
  import opened Repository
  import opened Outbox
  import T = Table

  datatype ReconcileSummary = ReconcileSummary(republished: nat, publishFailures: nat, staleWorkflows: nat)

  function Zip(events: seq<T.OutboxItem>, attempts: seq<Attempt>): (work: Work)
    requires |events| <= |attempts|
    ensures |work| == |events| && forall i | 0 <= i < |work| :: work[i] == (events[i], attempts[i])
  {
    seq(|events|, i requires 0 <= i < |events| => (events[i], attempts[i]))
  }

  function Successes(attempts: seq<Attempt>): nat {
    if attempts == [] then 0
    else Successes(attempts[..|attempts| - 1]) + if attempts[|attempts| - 1].Succeeds? then 1 else 0
  }

  lemma {:induction false} WorkKeepsInv(t: T.Table, work: Work, at: T.When)
    requires TableInv(t)
    ensures TableInv(AfterWork(t, work, at))
  {
    hide TableInv, T.MarkPublished;
    if work != [] {
      var n := |work| - 1;
      WorkKeepsInv(t, work[..n], at);
      PublishKeeps(AfterWork(t, work[..n], at), RefOf(work[n].0), at);
    }
  }

  lemma {:induction false} SuccessesAreCounted(attempts: seq<Attempt>)
    ensures Successes(attempts) == |set i | 0 <= i < |attempts| && attempts[i].Succeeds?|
  {
    var all := set i | 0 <= i < |attempts| && attempts[i].Succeeds?;
    if attempts == [] {
      assert all == {};
    } else {
      var n := |attempts| - 1;
      SuccessesAreCounted(attempts[..n]);
      var before := set i | 0 <= i < |attempts[..n]| && attempts[..n][i].Succeeds?;
      assert all == before + if attempts[n].Succeeds? then {n} else {};
    }
  }

  lemma CountOfPending(attempts: seq<Attempt>, n: nat)
    requires n <= |attempts|
    ensures Successes(attempts[..n]) == |set i | 0 <= i < n && attempts[i].Succeeds?|
  {
    SuccessesAreCounted(attempts[..n]);
    assert (set i | 0 <= i < |attempts[..n]| && attempts[..n][i].Succeeds?) == (set i | 0 <= i < n && attempts[i].Succeeds?);
  }

  lemma NoWork(t: T.Table, events: seq<T.OutboxItem>, attempts: seq<Attempt>, at: T.When)
    requires |events| <= |attempts|
    ensures AfterWork(t, Zip(events[..0], attempts), at) == t && SentWork(Zip(events[..0], attempts)) == []
    ensures Successes(attempts[..0]) == 0
  {}

  lemma ZipSnoc(t: T.Table, events: seq<T.OutboxItem>, attempts: seq<Attempt>, i: nat, at: T.When)
    requires i < |events| <= |attempts|
    ensures AfterWork(t, Zip(events[..i + 1], attempts), at)
         == AfterAttempt(AfterWork(t, Zip(events[..i], attempts), at), events[i], attempts[i], at)
    ensures SentWork(Zip(events[..i + 1], attempts)) == SentWork(Zip(events[..i], attempts)) + SentBy(events[i], attempts[i])
    ensures Successes(attempts[..i + 1]) == Successes(attempts[..i]) + if attempts[i].Succeeds? then 1 else 0
  {
    hide AfterWork, SentWork, AfterAttempt, SentBy;
    assert Zip(events[..i + 1], attempts) == Zip(events[..i], attempts) + [(events[i], attempts[i])];
    WorkSnoc(t, Zip(events[..i], attempts), events[i], attempts[i], at);
    assert attempts[..i + 1][..i] == attempts[..i];
  }

  /** All the clock readings a sweep compares fit the width of the index keys. */
  ghost predicate InTime(t: T.Table, now: nat) {
    TimesFit(t) && FitsWidth(now)
  }

  lemma WorkKeepsTimes(t: T.Table, work: Work, at: T.When)
    requires TimesFit(t)
    ensures TimesFit(AfterWork(t, work, at))
  {
    hide FitsWidth, AfterWork, SentWork;
    WorkEffect(t, work, at);
  }

  class Reconciler {
    const repository: WorkflowRepository
    const publisher: MessagePublisher
    const outboxStaleAfterMs: nat
    const pageSize: nat

    constructor (repository: WorkflowRepository, publisher: MessagePublisher, outboxStaleAfterMs: nat, pageSize: nat)
      ensures this.repository == repository && this.publisher == publisher
      ensures this.outboxStaleAfterMs == outboxStaleAfterMs && this.pageSize == pageSize
    {
      this.repository, this.publisher := repository, publisher;
      this.outboxStaleAfterMs, this.pageSize := outboxStaleAfterMs, pageSize;
    }

    /** Every event of one page is attempted whatever happens to the others, and no workflow is
        judged: nothing but the outbox is written. `attempts[i]` is how event i goes. */
    method Reconcile(now: nat, attempts: seq<Attempt>)
      returns (summary: ReconcileSummary, ghost pending: seq<T.OutboxItem>)
      requires TableInv(repository.Contents()) && |attempts| >= pageSize
      modifies repository`outbox, publisher
      ensures |pending| <= pageSize
      ensures old(InTime(repository.Contents(), now)) ==>
                StaleEvents(old(repository.Contents()), now - outboxStaleAfterMs, pageSize, pending)
      ensures repository.Contents()
           == AfterWork(old(repository.Contents()), Zip(pending, attempts), repository.At(now))
      ensures publisher.sent == old(publisher.sent) + SentWork(Zip(pending, attempts))
      ensures summary.republished == |set i | 0 <= i < |pending| && attempts[i].Succeeds?|
      ensures summary.republished + summary.publishFailures == |pending|
      ensures TableInv(repository.Contents())
      ensures old(InTime(repository.Contents(), now)) ==>
                exists refs :: OverdueRefs(repository.Contents(), now, pageSize, refs) && |refs| == summary.staleWorkflows
    {
      hide TableInv, AfterWork, SentWork, AfterAttempt, SentBy, StaleEvents, OverdueRefs, Successes;
      ghost var t, sent := repository.Contents(), publisher.sent;
      var republished, publishFailures := 0, 0;
      var events := repository.ListPendingOutbox(now, outboxStaleAfterMs, pageSize);
      pending := events;
      NoWork(t, events, attempts, repository.At(now));
      for i := 0 to |events|
        invariant repository.Contents() == AfterWork(t, Zip(events[..i], attempts), repository.At(now))
        invariant publisher.sent == sent + SentWork(Zip(events[..i], attempts))
        invariant republished == Successes(attempts[..i]) && republished + publishFailures == i
      {
        ZipSnoc(t, events, attempts, i, repository.At(now));
        var threw := PublishEvent(repository, publisher, events[i], attempts[i], now);
        if threw {
          publishFailures := publishFailures + 1;
        } else {
          republished := republished + 1;
        }
      }
      assert events[..|events|] == events;
      CountOfPending(attempts, |events|);
      WorkKeepsInv(t, Zip(events, attempts), repository.At(now));
      if InTime(t, now) { WorkKeepsTimes(t, Zip(events, attempts), repository.At(now)); }
      var stale := repository.ListStaleProcessing(now, pageSize);
      summary := ReconcileSummary(republished, publishFailures, |stale|);
    }
  }

  // -------------------------------------------------------------------------
  // Drain
  // -------------------------------------------------------------------------

  function Unpublished(t: T.Table): set<T.EventRef> {
    set e | e in t.outbox && t.outbox[e].publishedAt.None?
  }

  ghost predicate AllOlder(t: T.Table, before: int) {
    forall e | e in Unpublished(t) :: t.outbox[e].createdAt < before
  }

  function Faultless(events: seq<T.OutboxItem>): (work: Work)
    ensures |work| == |events| && forall i | 0 <= i < |work| :: work[i] == (events[i], Succeeds)
  {
    seq(|events|, i requires 0 <= i < |events| => (events[i], Succeeds))
  }

  /** What `Reconcile` does when every attempt succeeds. */
  ghost predicate FaultlessSweep(t: T.Table, t': T.Table, before: int, pageSize: nat) {
    exists events, at :: StaleEvents(t, before, pageSize, events) && t' == AfterWork(t, Faultless(events), at)
  }

  lemma ReconcileIsSweep(t: T.Table, t': T.Table, before: int, pageSize: nat, pending: seq<T.OutboxItem>,
                         attempts: seq<Attempt>, at: T.When)
    requires |pending| <= |attempts| && StaleEvents(t, before, pageSize, pending)
    requires t' == AfterWork(t, Zip(pending, attempts), at)
    requires forall i | 0 <= i < |pending| :: attempts[i].Succeeds?
    ensures FaultlessSweep(t, t', before, pageSize)
  {
    hide StaleEvents, AfterWork;
    assert Zip(pending, attempts) == Faultless(pending);
  }

  function Refs(events: seq<T.OutboxItem>): set<T.EventRef> {
    set i | 0 <= i < |events| :: RefOf(events[i])
  }

  lemma {:induction false} DistinctRefs(events: seq<T.OutboxItem>)
    requires forall i, j | 0 <= i < j < |events| :: RefOf(events[i]) != RefOf(events[j])
    ensures |Refs(events)| == |events|
  {
    if events == [] {
      assert Refs(events) == {};
    } else {
      var n := |events| - 1;
      DistinctRefs(events[..n]);
      assert forall i | 0 <= i < n :: events[..n][i] == events[i];
      assert Refs(events) == Refs(events[..n]) + {RefOf(events[n])};
    }
  }

  lemma SweepLeaves(t: T.Table, events: seq<T.OutboxItem>, before: int, pageSize: nat, at: T.When)
    requires StaleEvents(t, before, pageSize, events)
    ensures Unpublished(AfterWork(t, Faultless(events), at)) == Unpublished(t) - Refs(events)
    ensures Refs(events) <= Unpublished(t)
  {
    hide AfterWork, SentWork;
    var work := Faultless(events);
    var t' := AfterWork(t, work, at);
    WorkEffect(t, work, at);
    forall i | 0 <= i < |events| ensures RefOf(events[i]) !in Unpublished(t') && RefOf(events[i]) in Unpublished(t) {
      WorkPublishes(t, work, i, at);
      assert events[i] in events;
    }
    assert forall i | 0 <= i < |work| :: RefOf(work[i].0) in Refs(events);
  }

  function Less(n: nat, m: nat): nat {
    if n < m then 0 else n - m
  }

  lemma SweepPublishes(t: T.Table, t': T.Table, before: int, pageSize: nat)
    requires FaultlessSweep(t, t', before, pageSize) && AllOlder(t, before)
    ensures |Unpublished(t')| == Less(|Unpublished(t)|, pageSize)
    ensures forall b | AllOlder(t, b) :: AllOlder(t', b)
  {
    hide AfterWork, SentWork, Refs, Faultless;
    var events, at :| StaleEvents(t, before, pageSize, events) && t' == AfterWork(t, Faultless(events), at);
    SweepLeaves(t, events, before, pageSize, at);
    DistinctRefs(events);
    WorkEffect(t, Faultless(events), at);
    if |events| < pageSize {
      forall e | e in Unpublished(t) ensures e in Refs(events) {
        assert Stale(t, e, before);
        EventRefIn(t, events, e);
      }
      assert Unpublished(t') == {};
      assert Unpublished(t) == Refs(events);
    }
  }

  lemma EventRefIn(t: T.Table, events: seq<T.OutboxItem>, e: T.EventRef)
    requires e in t.outbox && t.outbox[e] in events && RefOf(t.outbox[e]) == e
    ensures e in Refs(events)
  {}

  lemma {:induction false} Drain(tables: seq<T.Table>, before: seq<int>, pageSize: nat)
    requires |tables| == |before| + 1
    requires forall i | 0 <= i < |before| ::
               FaultlessSweep(tables[i], tables[i + 1], before[i], pageSize) && AllOlder(tables[0], before[i])
    ensures |Unpublished(tables[|before|])| == Less(|Unpublished(tables[0])|, |before| * pageSize)
    decreases |before|
  {
    hide FaultlessSweep, Unpublished, AllOlder;
    if before != [] {
      SweepPublishes(tables[0], tables[1], before[0], pageSize);
      forall i | 0 <= i < |before[1..]|
        ensures FaultlessSweep(tables[1..][i], tables[1..][i + 1], before[1..][i], pageSize)
        ensures AllOlder(tables[1..][0], before[1..][i])
      {
        assert FaultlessSweep(tables[i + 1], tables[i + 2], before[i + 1], pageSize) && AllOlder(tables[0], before[i + 1]);
      }
      Drain(tables[1..], before[1..], pageSize);
      assert (|before| - 1) * pageSize + pageSize == |before| * pageSize;
    }
  }

  /** With n stale events, no new ones and no failures, ceil(n / pageSize) sweeps publish all
      of them, and no smaller number does. */
  lemma DrainsInCeilingSweeps(tables: seq<T.Table>, before: seq<int>, pageSize: nat)
    requires |tables| == |before| + 1 && pageSize > 0
    requires forall i | 0 <= i < |before| ::
               FaultlessSweep(tables[i], tables[i + 1], before[i], pageSize) && AllOlder(tables[0], before[i])
    ensures Unpublished(tables[|before|]) == {} <==> |before| >= (|Unpublished(tables[0])| + pageSize - 1) / pageSize
  {
    hide FaultlessSweep, AllOlder, Unpublished;
    Drain(tables, before, pageSize);
    CeilingDivision(|Unpublished(tables[0])|, pageSize, |before|);
  }

  lemma CeilingDivision(n: nat, p: nat, k: nat)
    requires p > 0
    ensures n <= k * p <==> k >= (n + p - 1) / p
  {
    var q := (n + p - 1) / p;
    assert q * p <= n + p - 1 < q * p + p;
    if k >= q { assert k * p >= q * p; } else { assert k * p <= (q - 1) * p == q * p - p; }
  }
}
