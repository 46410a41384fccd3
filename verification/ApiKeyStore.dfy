/** The cached credential document. Models apps/api/src/auth/api-key-store.ts. */
module ApiKeyStore {
  import opened Text
  import opened Contracts

  // -------------------------------------------------------------------------
  // The document and its index
  // -------------------------------------------------------------------------

  datatype ApiKey = ApiKey(kid: string, hash: string, expiresAt: Option<nat>)

  datatype TenantStatus = Active | Disabled

  datatype Tenant = Tenant(tenantId: TenantId, status: TenantStatus, keys: seq<ApiKey>)

  /** A document that passed its schema. */
  type ApiKeyDocument = seq<Tenant>

  datatype ResolvedCaller = ResolvedCaller(tenantId: TenantId, kid: string)

  datatype Entry = Entry(tenant: Tenant, key: ApiKey)

  function KeyEntries(tenant: Tenant): (r: seq<Entry>)
    ensures |r| == |tenant.keys| && forall i | 0 <= i < |r| :: r[i] == Entry(tenant, tenant.keys[i])
  {
    seq(|tenant.keys|, i requires 0 <= i < |tenant.keys| => Entry(tenant, tenant.keys[i]))
  }

  function Entries(document: ApiKeyDocument): seq<Entry> {
    if document == [] then [] else Entries(document[..|document| - 1]) + KeyEntries(document[|document| - 1])
  }

  predicate Admitted(e: Entry, now: nat) {
    e.tenant.status == Active && (e.key.expiresAt.None? || e.key.expiresAt.value > now)
  }

  function CallerOf(e: Entry): ResolvedCaller {
    ResolvedCaller(e.tenant.tenantId, e.key.kid)
  }

  /** The index holds exactly the admitted hashes; of several entries the last one wins. */
  ghost predicate Indexes(index: map<string, ResolvedCaller>, entries: seq<Entry>, now: nat) {
    && (forall h | h in index :: exists i :: LastFor(entries, now, h, i) && index[h] == CallerOf(entries[i]))
    && (forall i | 0 <= i < |entries| && Admitted(entries[i], now) :: entries[i].key.hash in index)
  }

  ghost predicate LastFor(entries: seq<Entry>, now: nat, hash: string, i: int) {
    0 <= i < |entries| && Admitted(entries[i], now) && entries[i].key.hash == hash &&
    forall j | i < j < |entries| && Admitted(entries[j], now) :: entries[j].key.hash != hash
  }

  function IndexOf(entries: seq<Entry>, now: nat): map<string, ResolvedCaller> {
    if entries == [] then map[]
    else
      var n := |entries| - 1;
      var index := IndexOf(entries[..n], now);
      if Admitted(entries[n], now) then index[entries[n].key.hash := CallerOf(entries[n])] else index
  }

  lemma {:induction false} IndexIsExact(entries: seq<Entry>, now: nat)
    ensures Indexes(IndexOf(entries, now), entries, now)
  {
    if entries != [] {
      var n := |entries| - 1;
      IndexIsExact(entries[..n], now);
      IndexSnoc(IndexOf(entries[..n], now), entries[..n], entries[n], now);
      assert entries[..n] + [entries[n]] == entries;
    }
  }

  lemma IndexSnoc(index: map<string, ResolvedCaller>, entries: seq<Entry>, e: Entry, now: nat)
    requires Indexes(index, entries, now)
    ensures Indexes(if Admitted(e, now) then index[e.key.hash := CallerOf(e)] else index, entries + [e], now)
  {
    var after := if Admitted(e, now) then index[e.key.hash := CallerOf(e)] else index;
    forall h | h in after ensures exists i :: LastFor(entries + [e], now, h, i) && after[h] == CallerOf((entries + [e])[i]) {
      if Admitted(e, now) && h == e.key.hash {
        assert LastFor(entries + [e], now, h, |entries|);
      } else {
        var i :| LastFor(entries, now, h, i) && index[h] == CallerOf(entries[i]);
        assert LastFor(entries + [e], now, h, i);
      }
    }
  }

  lemma EntriesSnoc(document: ApiKeyDocument, i: nat)
    requires i < |document|
    ensures Entries(document[..i + 1]) == Entries(document[..i]) + KeyEntries(document[i])
  {
    assert document[..i + 1][..i] == document[..i];
  }

  lemma IndexOfSnoc(entries: seq<Entry>, e: Entry, now: nat)
    ensures IndexOf(entries + [e], now)
         == if Admitted(e, now) then IndexOf(entries, now)[e.key.hash := CallerOf(e)] else IndexOf(entries, now)
  {
    assert (entries + [e])[..|entries|] == entries;
  }

  lemma {:induction false} SkippedTenant(entries: seq<Entry>, skipped: seq<Entry>, now: nat)
    requires forall i | 0 <= i < |skipped| :: !Admitted(skipped[i], now)
    ensures IndexOf(entries + skipped, now) == IndexOf(entries, now)
  {
    if skipped == [] {
      assert entries + skipped == entries;
    } else {
      var n := |skipped| - 1;
      SkippedTenant(entries, skipped[..n], now);
      IndexOfSnoc(entries + skipped[..n], skipped[n], now);
      assert entries + skipped == (entries + skipped[..n]) + [skipped[n]];
    }
  }

  method BuildIndex(document: ApiKeyDocument, now: nat) returns (index: map<string, ResolvedCaller>)
    ensures index == IndexOf(Entries(document), now)
  {
    hide IndexOf, Entries;
    index := map[];
    assert IndexOf(Entries(document[..0]), now) == map[] by { NothingIndexed(document, now); }
    for t := 0 to |document|
      invariant index == IndexOf(Entries(document[..t]), now)
    {
      var tenant := document[t];
      ghost var before := Entries(document[..t]);
      EntriesSnoc(document, t);
      if tenant.status != Active {
        SkippedTenant(before, KeyEntries(tenant), now);
        continue;
      }
      assert before + KeyEntries(tenant)[..0] == before;
      for k := 0 to |tenant.keys|
        invariant index == IndexOf(before + KeyEntries(tenant)[..k], now)
      {
        var key := tenant.keys[k];
        IndexOfSnoc(before + KeyEntries(tenant)[..k], Entry(tenant, key), now);
        assert before + KeyEntries(tenant)[..k + 1] == (before + KeyEntries(tenant)[..k]) + [Entry(tenant, key)];
        if key.expiresAt.Some? && key.expiresAt.value <= now {
          continue;
        }
        index := index[key.hash := ResolvedCaller(tenant.tenantId, key.kid)];
      }
      assert KeyEntries(tenant)[..|tenant.keys|] == KeyEntries(tenant);
    }
    assert document[..|document|] == document;
  }

  lemma NothingIndexed(document: ApiKeyDocument, now: nat)
    ensures IndexOf(Entries(document[..0]), now) == map[]
  {}

  // -------------------------------------------------------------------------
  // The cache as a value
  // -------------------------------------------------------------------------

  datatype Options = Options(cacheTtlMs: nat, negativeCacheMs: nat)

  datatype Cache = Cache(
    index: map<string, ResolvedCaller>,
    loadedAt: nat,
    loadedEver: bool,
    lastMissRefreshAt: nat,
    nextRefreshAllowedAt: nat)

  /** How a fetch of the secret ends. A valid document is indexed at one clock reading and
      stamped with a later one. */
  datatype Fetch = Unreachable | NoString | Invalid | Valid(document: ApiKeyDocument, builtAt: nat, loadedAt: nat)

  datatype Resolution = Resolved(caller: Option<ResolvedCaller>) | Throws

  predicate Held(c: Cache, now: nat) {
    c.loadedEver && now < c.nextRefreshAllowedAt
  }

  function Refreshed(c: Cache, o: Options, now: nat, fetch: Fetch): (Cache, bool) {
    if Held(c, now) then (c, false)
    else if fetch.Valid? then
      (Cache(IndexOf(Entries(fetch.document), fetch.builtAt), fetch.loadedAt, true, c.lastMissRefreshAt, 0), false)
    else if c.loadedEver then (c.(nextRefreshAllowedAt := now + o.negativeCacheMs), false)
    else (c, true)
  }

  function LookUp(c: Cache, digest: string): Option<ResolvedCaller> {
    if digest in c.index then Some(c.index[digest]) else None
  }

  /** One call of `resolve`: the key, the clock, and how a fetch because of age and one because
      of a miss would end. */
  datatype Call = Call(digest: string, now: nat, aged: Fetch, missed: Fetch)

  /** The state when the index is first consulted. */
  function AfterAge(c: Cache, o: Options, call: Call): (Cache, bool) {
    if call.now as int - c.loadedAt as int >= o.cacheTtlMs then Refreshed(c, o, call.now, call.aged) else (c, false)
  }

  predicate MissDue(c: Cache, o: Options, call: Call) {
    call.digest !in c.index && call.now as int - c.lastMissRefreshAt as int >= o.negativeCacheMs
  }

  function AfterResolve(c: Cache, o: Options, call: Call): (Cache, Resolution) {
    var (c1, threw) := AfterAge(c, o, call);
    if threw then (c1, Throws)
    else if MissDue(c1, o, call) then
      var (c2, threwAgain) := Refreshed(c1.(lastMissRefreshAt := call.now), o, call.now, call.missed);
      (c2, if threwAgain then Throws else Resolved(LookUp(c2, call.digest)))
    else (c1, Resolved(LookUp(c1, call.digest)))
  }

  class SecretsApiKeyStore {
    const options: Options
    var index: map<string, ResolvedCaller>
    var loadedAt: nat
    var loadedEver: bool
    var lastMissRefreshAt: nat
    var nextRefreshAllowedAt: nat
    /** The last valid document, and the clock when it was indexed. */
    ghost var source: Option<(ApiKeyDocument, nat)>
    /** How often the secret was asked for. */
    ghost var fetches: nat

    ghost function Contents(): Cache
      reads this
    {
      Cache(index, loadedAt, loadedEver, lastMissRefreshAt, nextRefreshAllowedAt)
    }

    ghost predicate Valid()
      reads this
    {
      (loadedEver <==> source.Some?) &&
      index == match source { case None => map[] case Some((document, builtAt)) => IndexOf(Entries(document), builtAt) }
    }

    constructor (options: Options)
      ensures Valid() && this.options == options && Contents() == Cache(map[], 0, false, 0, 0) && fetches == 0
    {
      this.options := options;
      index, loadedAt, loadedEver, lastMissRefreshAt, nextRefreshAllowedAt := map[], 0, false, 0, 0;
      source, fetches := None, 0;
    }

    /** The index is built before any field moves: either all of them do or none. */
    method Load(fetch: Fetch) returns (ok: bool)
      requires Valid()
      modifies this
      ensures Valid() && ok == fetch.Valid? && lastMissRefreshAt == old(lastMissRefreshAt)
      ensures fetches == old(fetches) + 1
      ensures ok ==> source == Some((fetch.document, fetch.builtAt)) && loadedEver
                     && loadedAt == fetch.loadedAt && nextRefreshAllowedAt == 0
      ensures !ok ==> source == old(source) && Contents() == old(Contents())
    {
      fetches := fetches + 1;
      if !fetch.Valid? {
        return false;
      }
      var rebuilt := BuildIndex(fetch.document, fetch.builtAt);
      index := rebuilt;
      loadedAt := fetch.loadedAt;
      loadedEver := true;
      nextRefreshAllowedAt := 0;
      source := Some((fetch.document, fetch.builtAt));
      ok := true;
    }

    method RefreshOrServeStale(now: nat, fetch: Fetch) returns (threw: bool)
      requires Valid()
      modifies this
      ensures Valid() && (Contents(), threw) == Refreshed(old(Contents()), options, now, fetch)
      ensures fetches == old(fetches) + One(!Held(old(Contents()), now))
    {
      if loadedEver && now < nextRefreshAllowedAt {
        return false;
      }
      var ok := Load(fetch);
      if ok {
        return false;
      }
      if !loadedEver {
        return true;
      }
      nextRefreshAllowedAt := now + options.negativeCacheMs;
      threw := false;
    }

    method Resolve(presentedKey: string, now: nat, aged: Fetch, missed: Fetch) returns (resolution: Resolution)
      requires Valid()
      modifies this
      ensures Valid()
      ensures (Contents(), resolution)
           == AfterResolve(old(Contents()), options, Call(Sha256Hex(Codes(presentedKey)), now, aged, missed))
      ensures fetches
           == old(fetches) + FetchesOf(old(Contents()), options, Call(Sha256Hex(Codes(presentedKey)), now, aged, missed))
    {
      hide IndexOf, Entries, Sha256Hex;
      if now as int - loadedAt as int >= options.cacheTtlMs {
        var threw := RefreshOrServeStale(now, aged);
        if threw {
          return Throws;
        }
      }
      var digest := Sha256Hex(Codes(presentedKey));
      if digest in index {
        return Resolved(Some(index[digest]));
      }
      if now as int - lastMissRefreshAt as int >= options.negativeCacheMs {
        lastMissRefreshAt := now;
        var threw := RefreshOrServeStale(now, missed);
        if threw {
          return Throws;
        }
        return Resolved(if digest in index then Some(index[digest]) else None);
      }
      resolution := Resolved(None);
    }
  }

  // -------------------------------------------------------------------------
  // Freshness
  // -------------------------------------------------------------------------

  predicate Forward(fetch: Fetch, now: nat) {
    fetch.Valid? ==> fetch.loadedAt >= now
  }

  /** An answer comes from a document younger than the lifetime, or while failures hold
      refreshes back: revocation takes no longer than that. */
  lemma FreshOrFailing(c: Cache, o: Options, call: Call)
    requires o.cacheTtlMs > 0 && o.negativeCacheMs > 0 && Forward(call.aged, call.now) && Forward(call.missed, call.now)
    ensures var (c', resolution) := AfterResolve(c, o, call);
            resolution.Resolved? ==>
              resolution.caller == LookUp(c', call.digest) &&
              (call.now as int - c'.loadedAt as int < o.cacheTtlMs || call.now < c'.nextRefreshAllowedAt)
  {
    hide IndexOf, Entries;
  }

  /** A store that has loaded once keeps serving whatever fails; one that has not throws rather
      than reject everybody. */
  lemma LoadedNeverThrows(c: Cache, o: Options, call: Call)
    ensures var (c', resolution) := AfterResolve(c, o, call);
            && (c.loadedEver ==> resolution.Resolved? && c'.loadedEver)
            && (resolution.Throws? ==> !c'.loadedEver && c'.index == c.index)
  {
    hide IndexOf, Entries;
  }

  /** A key added to the document since the last load is found at once, unless a miss or a
      failure was too recent. */
  lemma AddedKeyIsFound(c: Cache, o: Options, call: Call, i: int)
    requires call.digest !in c.index && call.now as int - c.loadedAt as int < o.cacheTtlMs && !Held(c, call.now)
    requires call.now as int - c.lastMissRefreshAt as int >= o.negativeCacheMs && call.missed.Valid?
    requires LastFor(Entries(call.missed.document), call.missed.builtAt, call.digest, i)
    ensures AfterResolve(c, o, call).1 == Resolved(Some(CallerOf(Entries(call.missed.document)[i])))
  {
    hide Entries;
    IndexIsExact(Entries(call.missed.document), call.missed.builtAt);
  }

  /** It throws exactly when nothing was ever loaded and the fetch it needs fails: the one its age
      asks for, or the one a miss asks for. Nobody is turned away on an empty index instead. */
  lemma ThrowsExactlyWhenNeverLoaded(c: Cache, o: Options, call: Call)
    ensures AfterResolve(c, o, call).1.Throws? <==>
              !c.loadedEver &&
              if call.now >= c.loadedAt + o.cacheTtlMs then !call.aged.Valid?
              else call.digest !in c.index && call.now >= c.lastMissRefreshAt + o.negativeCacheMs && !call.missed.Valid?
  {
    hide IndexOf, Entries;
  }

  /** A hit in a young cache is answered from the index, and nothing else happens. */
  lemma HitCostsNothing(c: Cache, o: Options, call: Call)
    requires call.now < c.loadedAt + o.cacheTtlMs && call.digest in c.index
    ensures AfterResolve(c, o, call) == (c, Resolved(Some(c.index[call.digest])))
    ensures FetchesOf(c, o, call) == 0
  {}

  /** An old cache is replaced by the document fetched, if one can be fetched, before anything is
      looked up in it. */
  lemma AgedCacheIsReplaced(c: Cache, o: Options, call: Call)
    requires call.now >= c.loadedAt + o.cacheTtlMs && call.aged.Valid?
    requires !c.loadedEver || call.now >= c.nextRefreshAllowedAt
    ensures var index := IndexOf(Entries(call.aged.document), call.aged.builtAt);
            && (call.digest in index ==>
                  AfterResolve(c, o, call)
                  == (Cache(index, call.aged.loadedAt, true, c.lastMissRefreshAt, 0), Resolved(Some(index[call.digest]))))
            && FetchesOf(c, o, call) >= 1
  {
    hide IndexOf, Entries;
  }

  /** A failed refresh keeps everything and holds the next one back for exactly the cool-down; a
      successful one holds back nothing. */
  lemma CoolDownIsExact(c: Cache, o: Options, now: nat, fetch: Fetch, later: nat)
    requires c.loadedEver && now >= c.nextRefreshAllowedAt
    ensures var c' := Refreshed(c, o, now, fetch).0;
            if fetch.Valid? then !Held(c', later) && c'.loadedAt == fetch.loadedAt
            else c' == c.(nextRefreshAllowedAt := c'.nextRefreshAllowedAt) && (Held(c', later) <==> later < now + o.negativeCacheMs)
  {
    hide IndexOf, Entries;
  }

  /** While it is held back, nothing is fetched and nothing changes but the time of the miss. */
  lemma HeldServesStale(c: Cache, o: Options, call: Call)
    requires c.loadedEver && call.now < c.nextRefreshAllowedAt
    ensures FetchesOf(c, o, call) == 0 && AfterResolve(c, o, call).1 == Resolved(LookUp(c, call.digest))
    ensures var c' := AfterResolve(c, o, call).0; c' == c.(lastMissRefreshAt := c'.lastMissRefreshAt)
  {}

  /** A key resolves to a caller exactly when the indexed document admits it, and to the last
      entry that does. */
  lemma ResolvesAsDocumented(document: ApiKeyDocument, builtAt: nat, presentedKey: string)
    ensures var digest, entries, index := Sha256Hex(Codes(presentedKey)), Entries(document), IndexOf(Entries(document), builtAt);
            (digest in index <==> exists i :: LastFor(entries, builtAt, digest, i))
            && forall i | LastFor(entries, builtAt, digest, i) :: index[digest] == CallerOf(entries[i])
  {
    IndexIsExact(Entries(document), builtAt);
  }

  /** The key belongs to an active tenant and has not expired. */
  ghost predicate Grants(document: ApiKeyDocument, builtAt: nat, digest: string, caller: ResolvedCaller) {
    exists tenant, key ::
      tenant in document && key in tenant.keys && tenant.status == Active && key.hash == digest
      && (key.expiresAt == None || key.expiresAt.value > builtAt)
      && caller.tenantId == tenant.tenantId && caller.kid == key.kid
  }

  lemma {:induction false} EntryIsListed(document: ApiKeyDocument, e: Entry)
    ensures e in Entries(document) <==> e.tenant in document && e.key in e.tenant.keys
  {
    if document != [] {
      var n := |document| - 1;
      EntryIsListed(document[..n], e);
      assert document == document[..n] + [document[n]];
      if e.tenant == document[n] && e.key in e.tenant.keys {
        var i :| 0 <= i < |e.tenant.keys| && e.tenant.keys[i] == e.key;
        assert KeyEntries(document[n])[i] == e;
      }
    }
  }

  /** The index in terms of the document: a digest is there exactly when some active tenant has an
      unexpired key with it, and every caller it answers is granted by the document. */
  lemma IndexGrantsAsDocumented(document: ApiKeyDocument, builtAt: nat, digest: string)
    ensures var index := IndexOf(Entries(document), builtAt);
            && (digest in index <==> exists caller :: Grants(document, builtAt, digest, caller))
            && (digest in index ==> Grants(document, builtAt, digest, index[digest]))
  {
    hide Entries, IndexOf;
    var entries, index := Entries(document), IndexOf(Entries(document), builtAt);
    IndexIsExact(entries, builtAt);
    if digest in index {
      var i :| LastFor(entries, builtAt, digest, i) && index[digest] == CallerOf(entries[i]);
      EntryIsListed(document, entries[i]);
      assert entries[i].tenant in document && entries[i].key in entries[i].tenant.keys;
      assert Grants(document, builtAt, digest, index[digest]);
    }
    if caller :| Grants(document, builtAt, digest, caller) {
      var tenant, key :| tenant in document && key in tenant.keys && tenant.status == Active && key.hash == digest
        && (key.expiresAt == None || key.expiresAt.value > builtAt)
        && caller.tenantId == tenant.tenantId && caller.kid == key.kid;
      EntryIsListed(document, Entry(tenant, key));
      var i :| 0 <= i < |entries| && entries[i] == Entry(tenant, key);
      assert Admitted(entries[i], builtAt);
      assert digest in index;
    }
  }

  // -------------------------------------------------------------------------
  // How often the secret is fetched
  // -------------------------------------------------------------------------

  function One(b: bool): nat {
    if b then 1 else 0
  }

  function FetchesOf(c: Cache, o: Options, call: Call): nat {
    var (c1, threw) := AfterAge(c, o, call);
    One(call.now as int - c.loadedAt as int >= o.cacheTtlMs && !Held(c, call.now))
    + One(!threw && MissDue(c1, o, call) && !Held(c1, call.now))
  }

  function AfterCalls(c: Cache, o: Options, calls: seq<Call>): Cache {
    if calls == [] then c
    else AfterResolve(AfterCalls(c, o, calls[..|calls| - 1]), o, calls[|calls| - 1]).0
  }

  function Fetches(c: Cache, o: Options, calls: seq<Call>): nat {
    if calls == [] then 0
    else
      var n := |calls| - 1;
      Fetches(c, o, calls[..n]) + FetchesOf(AfterCalls(c, o, calls[..n]), o, calls[n])
  }

  /** Fetches by what brought them about and how they ended, with the time of the last. */
  datatype Tally = Tally(aged: nat, lastAged: nat, missed: nat, lastMissed: nat, failed: nat, lastFailed: nat)

  /** n events at least `gap` apart since `start`, the last one at `last`. */
  predicate Spaced(n: nat, gap: nat, start: nat, last: nat) {
    n > 0 ==> start <= last && (n - 1) * gap <= last - start
  }

  lemma SpacedStep(n: nat, gap: nat, start: nat, last: nat, now: nat)
    requires Spaced(n, gap, start, last) && start <= now && (n > 0 ==> last + gap <= now)
    ensures Spaced(n + 1, gap, start, now)
  {
    if n > 0 { assert n * gap == (n - 1) * gap + gap; }
  }

  lemma SpacedFit(n: nat, gap: nat, start: nat, last: nat, length: nat)
    requires Spaced(n, gap, start, last) && last <= start + length && gap > 0
    ensures n <= length / gap + 1
  {
    if n > 0 { Quotient(n - 1, gap, length); }
  }

  lemma Quotient(m: nat, gap: nat, length: nat)
    requires gap > 0 && m * gap <= length
    ensures m <= length / gap
  {
    var q := length / gap;
    assert length < q * gap + gap;
    NextMultiple(m, q, gap);
  }

  lemma NextMultiple(m: nat, q: nat, gap: nat)
    ensures m > q ==> m * gap >= q * gap + gap
  {
    if m > q {
      assert (m - q - 1) * gap >= 0;
      assert m * gap == (m - q - 1) * gap + q * gap + gap;
    }
  }

  ghost predicate TallyOk(t: Tally, c: Cache, o: Options, start: nat, now: nat) {
    && c.loadedEver && start <= now && t.lastAged <= now && t.lastMissed <= now && t.lastFailed <= now
    && Spaced(t.aged, o.cacheTtlMs, start, t.lastAged) && (t.aged > 0 ==> t.lastAged <= c.loadedAt)
    && Spaced(t.missed, o.negativeCacheMs, start, t.lastMissed) && (t.missed > 0 ==> t.lastMissed <= c.lastMissRefreshAt)
    && Spaced(t.failed, o.negativeCacheMs, start, t.lastFailed)
    && (t.failed > 0 ==> t.lastFailed + o.negativeCacheMs <= c.nextRefreshAllowedAt || t.lastFailed + o.negativeCacheMs <= now)
  }

  function AgedTally(t: Tally, now: nat, ok: bool): Tally {
    if ok then t.(aged := t.aged + 1, lastAged := now) else t.(failed := t.failed + 1, lastFailed := now)
  }

  function MissedTally(t: Tally, now: nat, ok: bool): Tally {
    if ok then t.(missed := t.missed + 1, lastMissed := now) else t.(failed := t.failed + 1, lastFailed := now)
  }

  lemma AgedRefresh(t: Tally, c: Cache, o: Options, start: nat, now: nat, fetch: Fetch)
    requires TallyOk(t, c, o, start, now) && Forward(fetch, now) && !Held(c, now) && o.negativeCacheMs > 0
    requires now as int - c.loadedAt as int >= o.cacheTtlMs
    ensures TallyOk(AgedTally(t, now, fetch.Valid?), Refreshed(c, o, now, fetch).0, o, start, now)
  {
    hide IndexOf, Entries, Spaced;
    if fetch.Valid? { SpacedStep(t.aged, o.cacheTtlMs, start, t.lastAged, now); }
    else { SpacedStep(t.failed, o.negativeCacheMs, start, t.lastFailed, now); }
  }

  lemma MissedRefresh(t: Tally, c: Cache, o: Options, start: nat, now: nat, fetch: Fetch)
    requires TallyOk(t, c, o, start, now) && Forward(fetch, now) && !Held(c, now) && o.negativeCacheMs > 0
    requires now as int - c.lastMissRefreshAt as int >= o.negativeCacheMs
    ensures TallyOk(MissedTally(t, now, fetch.Valid?), Refreshed(c.(lastMissRefreshAt := now), o, now, fetch).0, o, start, now)
  {
    hide IndexOf, Entries, Spaced;
    if fetch.Valid? { SpacedStep(t.missed, o.negativeCacheMs, start, t.lastMissed, now); }
    else { SpacedStep(t.failed, o.negativeCacheMs, start, t.lastFailed, now); }
  }

  lemma TallyCall(t: Tally, c: Cache, o: Options, start: nat, call: Call) returns (t': Tally)
    requires TallyOk(t, c, o, start, call.now) && o.negativeCacheMs > 0
    requires Forward(call.aged, call.now) && Forward(call.missed, call.now)
    ensures TallyOk(t', AfterResolve(c, o, call).0, o, start, call.now)
    ensures t'.aged + t'.missed + t'.failed == t.aged + t.missed + t.failed + FetchesOf(c, o, call)
  {
    hide IndexOf, Entries, Spaced;
    t' := t;
    var c1 := AfterAge(c, o, call).0;
    if call.now as int - c.loadedAt as int >= o.cacheTtlMs && !Held(c, call.now) {
      AgedRefresh(t, c, o, start, call.now, call.aged);
      t' := AgedTally(t, call.now, call.aged.Valid?);
    }
    if MissDue(c1, o, call) && !Held(c1, call.now) {
      MissedRefresh(t', c1, o, start, call.now, call.missed);
      t' := MissedTally(t', call.now, call.missed.Valid?);
    }
  }

  ghost predicate InWindow(calls: seq<Call>, start: nat, length: nat) {
    (forall i | 0 <= i < |calls| ::
       start <= calls[i].now <= start + length && Forward(calls[i].aged, calls[i].now) && Forward(calls[i].missed, calls[i].now))
    && forall i, j | 0 <= i < j < |calls| :: calls[i].now <= calls[j].now
  }

  lemma {:induction false} TallyCalls(c: Cache, o: Options, calls: seq<Call>, start: nat, length: nat) returns (t: Tally)
    requires c.loadedEver && InWindow(calls, start, length) && o.negativeCacheMs > 0
    ensures TallyOk(t, AfterCalls(c, o, calls), o, start, if calls == [] then start else calls[|calls| - 1].now)
    ensures t.aged + t.missed + t.failed == Fetches(c, o, calls)
  {
    hide IndexOf, Entries;
    if calls == [] {
      t := Tally(0, 0, 0, 0, 0, 0);
    } else {
      var n := |calls| - 1;
      t := TallyCalls(c, o, calls[..n], start, length);
      t := TallyCall(t, AfterCalls(c, o, calls[..n]), o, start, calls[n]);
    }
  }

  /** Once loaded, whatever fails and whatever keys are presented, a window of length T sees at
      most T/ttl + 2 T/negative + 3 fetches. */
  lemma FetchBound(c: Cache, o: Options, calls: seq<Call>, start: nat, length: nat)
    requires c.loadedEver && InWindow(calls, start, length) && o.cacheTtlMs > 0 && o.negativeCacheMs > 0
    ensures Fetches(c, o, calls) <= length / o.cacheTtlMs + 2 * (length / o.negativeCacheMs) + 3
  {
    hide IndexOf, Entries, Spaced;
    var t := TallyCalls(c, o, calls, start, length);
    SpacedFit(t.aged, o.cacheTtlMs, start, t.lastAged, length);
    SpacedFit(t.missed, o.negativeCacheMs, start, t.lastMissed, length);
    SpacedFit(t.failed, o.negativeCacheMs, start, t.lastFailed, length);
  }

  /** A request to the API at a clock reading. */
  datatype Request = Request(presentedKey: string, now: nat, aged: Fetch, missed: Fetch)

  function CallOf(r: Request): Call {
    Call(Sha256Hex(Codes(r.presentedKey)), r.now, r.aged, r.missed)
  }

  function CallsOf(requests: seq<Request>): (calls: seq<Call>)
    ensures |calls| == |requests| && forall i | 0 <= i < |calls| :: calls[i] == CallOf(requests[i])
  {
    seq(|requests|, i requires 0 <= i < |requests| => CallOf(requests[i]))
  }

  lemma CallsSnoc(c: Cache, o: Options, requests: seq<Request>, i: nat)
    requires i < |requests|
    ensures AfterCalls(c, o, CallsOf(requests[..i + 1]))
         == AfterResolve(AfterCalls(c, o, CallsOf(requests[..i])), o, CallOf(requests[i])).0
    ensures Fetches(c, o, CallsOf(requests[..i + 1]))
         == Fetches(c, o, CallsOf(requests[..i])) + FetchesOf(AfterCalls(c, o, CallsOf(requests[..i])), o, CallOf(requests[i]))
  {
    hide AfterResolve, FetchesOf, Sha256Hex;
    assert CallsOf(requests[..i + 1])[..i] == CallsOf(requests[..i]);
  }

  /** One request after the other: the store's own count of fetches stays within the bound. */
  method ServeWindow(store: SecretsApiKeyStore, requests: seq<Request>, ghost start: nat, ghost length: nat)
    returns (resolutions: seq<Resolution>)
    requires store.Valid() && store.loadedEver && store.options.cacheTtlMs > 0 && store.options.negativeCacheMs > 0
    requires InWindow(CallsOf(requests), start, length)
    modifies store
    ensures store.Valid() && |resolutions| == |requests|
    ensures store.Contents() == AfterCalls(old(store.Contents()), store.options, CallsOf(requests))
    ensures store.fetches - old(store.fetches)
         <= length / store.options.cacheTtlMs + 2 * (length / store.options.negativeCacheMs) + 3
  {
    hide AfterCalls, Fetches, AfterResolve, FetchesOf, InWindow, Sha256Hex, IndexOf, Entries;
    ghost var c, o := store.Contents(), store.options;
    resolutions := [];
    assert AfterCalls(c, o, CallsOf(requests[..0])) == c && Fetches(c, o, CallsOf(requests[..0])) == 0 by { NoCalls(c, o, requests); }
    for i := 0 to |requests|
      invariant store.Valid() && |resolutions| == i
      invariant store.Contents() == AfterCalls(c, o, CallsOf(requests[..i]))
      invariant store.fetches == old(store.fetches) + Fetches(c, o, CallsOf(requests[..i]))
    {
      CallsSnoc(c, o, requests, i);
      var resolution := store.Resolve(requests[i].presentedKey, requests[i].now, requests[i].aged, requests[i].missed);
      resolutions := resolutions + [resolution];
    }
    assert requests[..|requests|] == requests;
    FetchBound(c, o, CallsOf(requests), start, length);
  }

  lemma NoCalls(c: Cache, o: Options, requests: seq<Request>)
    ensures AfterCalls(c, o, CallsOf(requests[..0])) == c && Fetches(c, o, CallsOf(requests[..0])) == 0
  {}
}
