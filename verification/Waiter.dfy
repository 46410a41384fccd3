/** Waiting for a workflow to end: bounded, backed-off, jittered polling under a deadline.
    Models packages/persistence/src/waiter.ts and `jitter` of packages/contracts/src/time.ts. */
module Waiter {
  import opened Contracts

  // -------------------------------------------------------------------------
  // Jitter
  // -------------------------------------------------------------------------

  /** `Math.round`: halves go up. */
  function MathRound(x: real): int {
    (x + 0.5).Floor
  }

  function Ceiling(x: real): int {
    -(-x).Floor
  }

  function Min(a: real, b: real): real {
    if a <= b then a else b
  }

  function Max(a: real, b: real): real {
    if a >= b then a else b
  }

  function Spread(baseDelayMs: real, ratio: real): real {
    baseDelayMs * ratio
  }

  function Offset(random: real, spread: real): real {
    (random * 2.0 - 1.0) * spread
  }

  function Jitter(baseDelayMs: real, ratio: real, random: real): real {
    if ratio <= 0.0 then baseDelayMs
    else Max(0.0, MathRound(baseDelayMs + Offset(random, Spread(baseDelayMs, ratio))) as real)
  }

  datatype PollingSettings = PollingSettings(initialDelayMs: real, maxDelayMs: real, backoffFactor: real, jitterRatio: real)

  /** What the configuration guarantees. */
  predicate Configured(p: PollingSettings) {
    0.0 < p.initialDelayMs <= p.maxDelayMs && 1.0 <= p.backoffFactor && 0.0 <= p.jitterRatio <= 1.0
  }

  /** The shortest first sleep jitter can make. */
  function LeastDelay(p: PollingSettings): real {
    if p.jitterRatio <= 0.0 then p.initialDelayMs
    else MathRound(p.initialDelayMs - Spread(p.initialDelayMs, p.jitterRatio)) as real
  }

  lemma ProductNotNegative(a: real, b: real)
    requires a >= 0.0 && b >= 0.0
    ensures a * b >= 0.0
  {}

  lemma ProductMonotone(a: real, b: real, c: real)
    requires a <= b && c >= 0.0
    ensures a * c <= b * c
  {
    ProductNotNegative(b - a, c);
    assert (b - a) * c == b * c - a * c;
  }

  lemma OffsetAtLeast(random: real, spread: real)
    requires spread >= 0.0 && 0.0 <= random
    ensures Offset(random, spread) >= -spread
  {
    ProductNotNegative(random * 2.0, spread);
    assert (random * 2.0 - 1.0) * spread == random * 2.0 * spread - spread;
  }

  lemma SpreadBounds(a: real, b: real, ratio: real)
    requires 0.0 <= a <= b && 0.0 <= ratio <= 1.0
    ensures Spread(b, ratio) >= 0.0 && a - Spread(a, ratio) <= b - Spread(b, ratio)
  {
    ProductNotNegative(b, ratio);
    ProductMonotone(a, b, 1.0 - ratio);
    assert a * (1.0 - ratio) == a - a * ratio && b * (1.0 - ratio) == b - b * ratio;
  }

  lemma RoundMonotone(x: real, y: real)
    requires x <= y
    ensures MathRound(x) <= MathRound(y)
  {}

  /** Whatever is drawn, a base delay of at least the first one sleeps at least that long. */
  lemma JitterAtLeast(p: PollingSettings, delay: real, random: real)
    requires Configured(p) && delay >= p.initialDelayMs && 0.0 <= random < 1.0
    ensures Jitter(delay, p.jitterRatio, random) >= LeastDelay(p)
    ensures Jitter(delay, p.jitterRatio, random) >= 0.0
  {
    hide MathRound, Spread, Offset;
    if p.jitterRatio > 0.0 {
      var spread := Spread(delay, p.jitterRatio);
      SpreadBounds(p.initialDelayMs, delay, p.jitterRatio);
      OffsetAtLeast(random, spread);
      RoundMonotone(p.initialDelayMs - Spread(p.initialDelayMs, p.jitterRatio), delay + Offset(random, spread));
    }
  }

  lemma OffsetBounds(random: real, spread: real)
    requires spread >= 0.0 && 0.0 <= random < 1.0
    ensures -spread <= Offset(random, spread) <= spread
    ensures Offset(0.0, spread) == -spread && Offset(0.5, spread) == 0.0
  {
    OffsetAtLeast(random, spread);
    ProductNotNegative(2.0 - random * 2.0, spread);
    assert (2.0 - random * 2.0) * spread == spread - (random * 2.0 - 1.0) * spread;
    assert (0.0 * 2.0 - 1.0) * spread == -spread;
    assert (0.5 * 2.0 - 1.0) * spread == 0.0;
  }

  /** The sleep lies between the base delay less and plus the jittered share of it, reaches the
      lower end at the smallest draw and is the rounded base delay itself in the middle. Without
      jitter it is the base delay. */
  lemma JitterWithinShare(baseDelayMs: real, ratio: real, random: real)
    requires baseDelayMs >= 0.0 && 0.0 < ratio <= 1.0 && 0.0 <= random < 1.0
    ensures MathRound(baseDelayMs - baseDelayMs * ratio) as real <= Jitter(baseDelayMs, ratio, random)
         <= MathRound(baseDelayMs + baseDelayMs * ratio) as real
    ensures Jitter(baseDelayMs, ratio, 0.0) == MathRound(baseDelayMs - baseDelayMs * ratio) as real
    ensures Jitter(baseDelayMs, ratio, 0.5) == MathRound(baseDelayMs) as real
    ensures Jitter(baseDelayMs, 0.0, random) == baseDelayMs
  {
    var spread := Spread(baseDelayMs, ratio);
    SpreadBounds(0.0, baseDelayMs, ratio);
    OffsetBounds(random, spread);
    hide Offset, Spread;
    assert spread == baseDelayMs * ratio by { SpreadIs(baseDelayMs, ratio); }
    assert 0.0 <= baseDelayMs - spread by { SpreadIs(0.0, ratio); }
    RoundedOffsets(baseDelayMs, spread, Offset(random, spread));
  }

  lemma SpreadIs(baseDelayMs: real, ratio: real)
    ensures Spread(baseDelayMs, ratio) == baseDelayMs * ratio
    ensures Spread(0.0, ratio) == 0.0
  {}

  lemma RoundedOffsets(base: real, spread: real, offset: real)
    requires 0.0 <= base - spread && -spread <= offset <= spread
    ensures 0 <= MathRound(base - spread) <= MathRound(base + offset) <= MathRound(base + spread)
    ensures MathRound(base) >= 0
  {
    RoundMonotone(0.0, base - spread);
    RoundMonotone(0.0, base);
    RoundMonotone(base - spread, base + offset);
    RoundMonotone(base + offset, base + spread);
  }

  // -------------------------------------------------------------------------
  // Backoff
  // -------------------------------------------------------------------------

  function Power(x: real, n: nat): real {
    if n == 0 then 1.0 else Power(x, n - 1) * x
  }

  /** The base delay before the (n+1)-th sleep, in closed form. */
  function BaseDelay(p: PollingSettings, n: nat): real {
    Min(Uncapped(p, n), p.maxDelayMs)
  }

  function Uncapped(p: PollingSettings, n: nat): real {
    p.initialDelayMs * Power(p.backoffFactor, n)
  }

  lemma {:induction false} PowerAtLeastOne(x: real, n: nat)
    requires x >= 1.0
    ensures Power(x, n) >= 1.0
  {
    if n > 0 {
      PowerAtLeastOne(x, n - 1);
      ProductMonotone(1.0, x, Power(x, n - 1));
    }
  }

  lemma UncappedStep(p: PollingSettings, n: nat)
    requires Configured(p)
    ensures Uncapped(p, n + 1) == Uncapped(p, n) * p.backoffFactor
    ensures Uncapped(p, n) >= p.initialDelayMs
  {
    var f, power := p.backoffFactor, Power(p.backoffFactor, n);
    PowerAtLeastOne(f, n);
    Regroup(p.initialDelayMs, power, f);
    ProductMonotone(1.0, power, p.initialDelayMs);
  }

  /** Multiplying and capping step by step is capping the whole product once. */
  lemma BackoffStep(p: PollingSettings, n: nat)
    requires Configured(p)
    ensures Min(BaseDelay(p, n) * p.backoffFactor, p.maxDelayMs) == BaseDelay(p, n + 1)
    ensures p.initialDelayMs <= BaseDelay(p, n) <= BaseDelay(p, n + 1) <= p.maxDelayMs
  {
    hide Uncapped;
    UncappedStep(p, n);
    CapOnce(Uncapped(p, n), p.backoffFactor, p.maxDelayMs);
  }

  lemma Regroup(a: real, b: real, c: real)
    ensures a * (b * c) == a * b * c
    ensures b * a == a * b
  {}

  lemma CapOnce(a: real, f: real, cap: real)
    requires a >= 0.0 && cap >= 0.0 && f >= 1.0
    ensures Min(Min(a, cap) * f, cap) == Min(a * f, cap) >= Min(a, cap)
  {
    ProductMonotone(1.0, f, a);
    ProductMonotone(1.0, f, cap);
    Regroup(a, f, 1.0);
    Regroup(cap, f, 1.0);
  }

  // -------------------------------------------------------------------------
  // The wait
  // -------------------------------------------------------------------------

  datatype Reading = Absent | Present(status: WorkflowStatus)

  /** What the outside does in one round: whether the caller has gone, how long the read takes,
      the random draw, and whether the caller goes during the sleep. */
  datatype Round = Round(aborted: bool, latency: real, random: real, abortedAfter: Option<real>)

  /** What the n-th read sees if it begins at a moment. */
  type World = (nat, real) -> Reading

  /** The workflow is open until the moment `landed`, and has a terminal status from then on. */
  ghost predicate Lands(world: World, landed: real, status: WorkflowStatus) {
    IsTerminal(status) && forall n, at :: world(n, at) == Present(if at >= landed then status else Processing)
  }

  predicate Possible(round: Round) {
    round.latency >= 0.0 && 0.0 <= round.random < 1.0 && (round.abortedAfter.Some? ==> round.abortedAfter.value >= 0.0)
  }

  datatype Outcome = TERMINAL(status: WorkflowStatus) | TIMED_OUT | ABORTED | MISSING

  datatype WaitResult = WaitResult(outcome: Outcome, attempts: nat, waitedMs: real)

  /** When the read after one that began at `readAt` begins. */
  function NextRead(p: PollingSettings, deadlineAt: real, round: Round, readAt: real, n: nat): real {
    var ended := readAt + round.latency;
    ended + Min(Jitter(BaseDelay(p, n), p.jitterRatio, round.random), deadlineAt - ended)
  }

  /** The first read is immediate, and each later one follows a jittered sleep, or comes at the
      deadline if that is sooner. */
  ghost predicate Timeline(p: PollingSettings, startedAt: real, deadlineAt: real, rounds: seq<Round>, readAt: seq<real>) {
    |readAt| <= |rounds| && (|readAt| > 0 ==> readAt[0] == startedAt) &&
    forall i | 0 < i < |readAt| :: readAt[i] == NextRead(p, deadlineAt, rounds[i - 1], readAt[i - 1], i - 1)
  }

  lemma TimelineGrows(p: PollingSettings, startedAt: real, deadlineAt: real, rounds: seq<Round>, readAt: seq<real>, now: real)
    requires Timeline(p, startedAt, deadlineAt, rounds, readAt) && |readAt| < |rounds|
    requires if |readAt| == 0 then now == startedAt
             else now == NextRead(p, deadlineAt, rounds[|readAt| - 1], readAt[|readAt| - 1], |readAt| - 1)
    ensures Timeline(p, startedAt, deadlineAt, rounds, readAt + [now])
  {
    hide NextRead;
  }

  /** With budget B and shortest delay s, how many reads there can be. */
  function ReadBound(p: PollingSettings, startedAt: real, deadlineAt: real): int
    requires LeastDelay(p) > 0.0
  {
    Ceiling(Max(0.0, deadlineAt - startedAt) / LeastDelay(p)) + 1
  }

  /** k sleeps of s. */
  function Total(k: int, s: real): real {
    k as real * s
  }

  lemma TotalStep(k: int, s: real)
    ensures Total(k + 1, s) == Total(k, s) + s
    ensures Total(0, s) == 0.0
  {
    assert (k as real + 1.0) * s == k as real * s + s;
  }

  lemma FewEnough(budget: real, s: real, k: nat)
    requires s > 0.0 && budget >= 0.0 && Total(k as int - 1, s) < budget
    ensures k <= Ceiling(budget / s)
  {
    var q := budget / s;
    assert q * s == budget;
    if k as real - 1.0 >= q {
      ProductMonotone(q, k as real - 1.0, s);
    }
  }

  lemma BoundHolds(p: PollingSettings, startedAt: real, deadlineAt: real, k: nat)
    requires LeastDelay(p) > 0.0 && (k == 0 || Total(k - 1, LeastDelay(p)) < deadlineAt - startedAt)
    ensures k < ReadBound(p, startedAt, deadlineAt)
  {
    var s, budget := LeastDelay(p), Max(0.0, deadlineAt - startedAt);
    if k == 0 {
      assert budget / s >= 0.0;
    } else {
      hide Total, LeastDelay;
      FewEnough(budget, s, k);
    }
  }

  lemma NoReadsYet(p: PollingSettings, startedAt: real, deadlineAt: real, rounds: seq<Round>)
    ensures Timeline(p, startedAt, deadlineAt, rounds, [])
  {}

  lemma NextReadIs(p: PollingSettings, deadlineAt: real, round: Round, readAt: real, n: nat)
    ensures NextRead(p, deadlineAt, round, readAt, n)
         == readAt + round.latency + Min(Jitter(BaseDelay(p, n), p.jitterRatio, round.random), deadlineAt - (readAt + round.latency))
  {
    hide Jitter, BaseDelay;
  }

  lemma FirstDelay(p: PollingSettings)
    requires Configured(p)
    ensures BaseDelay(p, 0) == p.initialDelayMs
  {}

  /** The clock is exact: a sleep of d ends d later. `rounds` is the outside for as long as it
      is given; `None` means it was not given for long enough. */
  method WaitForTerminalState(p: PollingSettings, startedAt: real, deadlineAt: real, rounds: seq<Round>, world: World)
    returns (result: Option<WaitResult>, ghost endedAt: real, ghost readAt: seq<real>, ghost delays: seq<real>)
    requires Configured(p) && forall i | 0 <= i < |rounds| :: Possible(rounds[i])
    // Each read is a round; what each outcome says about the last one.
    ensures |readAt| <= |rounds| && (result.Some? ==> result.value.attempts == |readAt|)
    ensures result.Some? && result.value.outcome.TERMINAL? ==>
              |readAt| > 0 && world(|readAt| - 1, readAt[|readAt| - 1]) == Present(result.value.outcome.status)
              && IsTerminal(result.value.outcome.status)
    ensures result.Some? && result.value.outcome.MISSING? ==> |readAt| > 0 && world(|readAt| - 1, readAt[|readAt| - 1]) == Absent
    ensures result.Some? && result.value.outcome.ABORTED? ==>
              (|readAt| < |rounds| && rounds[|readAt|].aborted) ||
              (|readAt| > 0 && world(|readAt| - 1, readAt[|readAt| - 1]) == Present(Processing) && rounds[|readAt| - 1].abortedAfter.Some?)
    ensures result.None? ==> |readAt| == |rounds|
    ensures forall i | 0 <= i < |readAt| :: !rounds[i].aborted
    ensures forall i | 0 <= i < |readAt| - 1 :: world(i, readAt[i]) == Present(Processing)
    ensures Timeline(p, startedAt, deadlineAt, rounds, readAt)
    ensures forall i | 0 <= i < |readAt| :: startedAt <= readAt[i] <= Max(startedAt, deadlineAt)
    // A timeout is an open workflow at the last read, which ended at or after the deadline.
    ensures result.Some? && result.value.outcome.TIMED_OUT? ==>
              |readAt| > 0 && world(|readAt| - 1, readAt[|readAt| - 1]) == Present(Processing)
              && readAt[|readAt| - 1] + rounds[|readAt| - 1].latency >= deadlineAt
    // With immediate reads a terminal write that lands by the deadline is always answered.
    ensures forall landed: real, status | Lands(world, landed, status) && landed <= deadlineAt ::
              (forall i | 0 <= i < |readAt| :: rounds[i].latency == 0.0) && result.Some? && !result.value.outcome.ABORTED? ==>
                result.value.outcome == TERMINAL(status)
    // No sleep ends after the deadline: only the last read can take the wait past it.
    ensures startedAt <= endedAt
    ensures result.Some? ==> result.value.waitedMs == endedAt - startedAt
    ensures endedAt <= Max(startedAt, deadlineAt) + (if |readAt| > 0 then rounds[|readAt| - 1].latency else 0.0)
    // The number of reads is bounded, so a long enough run of rounds always ends.
    ensures LeastDelay(p) > 0.0 ==> |readAt| <= ReadBound(p, startedAt, deadlineAt)
    ensures LeastDelay(p) > 0.0 && |rounds| >= ReadBound(p, startedAt, deadlineAt) ==> result.Some?
    // The base delays are the capped geometric ones.
    ensures |delays| == |readAt| && forall i | 0 <= i < |delays| :: delays[i] == BaseDelay(p, i)
  {
    hide Total, Jitter, BaseDelay, LeastDelay, ReadBound, Timeline, NextRead;
    NoReadsYet(p, startedAt, deadlineAt, rounds);
    var now, delay, attempts := startedAt, p.initialDelayMs, 0;
    FirstDelay(p);
    TotalStep(0, LeastDelay(p));
    readAt, delays := [], [];
    ghost var s := LeastDelay(p);
    while attempts < |rounds|
      invariant attempts == |readAt| <= |rounds|
      invariant startedAt <= now <= Max(startedAt, deadlineAt)
      invariant delay == BaseDelay(p, attempts) >= p.initialDelayMs
      invariant forall i | 0 <= i < |readAt| :: world(i, readAt[i]) == Present(Processing) && !rounds[i].aborted
      invariant Timeline(p, startedAt, deadlineAt, rounds, readAt)
      invariant if attempts == 0 then now == startedAt
                else now == NextRead(p, deadlineAt, rounds[attempts - 1], readAt[attempts - 1], attempts - 1)
      invariant forall i | 0 <= i < |readAt| :: startedAt <= readAt[i] <= Max(startedAt, deadlineAt)
      invariant |delays| == |readAt| && forall i | 0 <= i < |delays| :: delays[i] == BaseDelay(p, i)
      invariant s > 0.0 ==> attempts == 0 || Total(attempts - 1, s) < deadlineAt - startedAt
      invariant s > 0.0 ==> now >= deadlineAt || now - startedAt >= Total(attempts, s)
    {
      var round := rounds[attempts];
      if s > 0.0 { BoundHolds(p, startedAt, deadlineAt, attempts); }
      if round.aborted {
        return Some(WaitResult(ABORTED, attempts, now - startedAt)), now, readAt, delays;
      }
      attempts := attempts + 1;
      TimelineGrows(p, startedAt, deadlineAt, rounds, readAt, now);
      readAt, delays := readAt + [now], delays + [delay];
      var seen := world(attempts - 1, now);
      now := now + round.latency;
      if seen == Absent {
        return Some(WaitResult(MISSING, attempts, now - startedAt)), now, readAt, delays;
      }
      if IsTerminal(seen.status) {
        return Some(WaitResult(TERMINAL(seen.status), attempts, now - startedAt)), now, readAt, delays;
      }
      var remaining := deadlineAt - now;
      if remaining <= 0.0 {
        return Some(WaitResult(TIMED_OUT, attempts, now - startedAt)), now, readAt, delays;
      }
      JitterAtLeast(p, delay, round.random);
      var sleepFor := Min(Jitter(delay, p.jitterRatio, round.random), remaining);
      if round.abortedAfter.Some? && round.abortedAfter.value < sleepFor {
        now := now + round.abortedAfter.value;
        return Some(WaitResult(ABORTED, attempts, now - startedAt)), now, readAt, delays;
      }
      NextReadIs(p, deadlineAt, round, readAt[attempts - 1], attempts - 1);
      now := now + sleepFor;
      TotalStep(attempts - 1, s);
      BackoffStep(p, attempts - 1);
      BackoffStep(p, attempts);
      delay := Min(delay * p.backoffFactor, p.maxDelayMs);
    }
    if s > 0.0 { BoundHolds(p, startedAt, deadlineAt, attempts); }
    result, endedAt := None, now;
  }
}
