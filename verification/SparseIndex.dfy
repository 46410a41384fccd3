/** Queries of a sparse index and sweeps over its ten shards. Models the query loops of
    packages/persistence/src/workflow-repository.ts. */
module SparseIndex {
  import opened Text
  import opened Contracts
  import opened Keys

  // -------------------------------------------------------------------------
  // Querying a sparse index
  // -------------------------------------------------------------------------

  lemma {:induction false} LexTotal(a: string, b: string)
    ensures LexLess(a, b) || LexLess(b, a) || a == b
    decreases |a|
  {
    if a != "" && b != "" && a[0] == b[0] {
      LexTotal(a[1..], b[1..]);
      assert a == [a[0]] + a[1..] && b == [b[0]] + b[1..];
    }
  }

  lemma {:induction false} LexTransitive(a: string, b: string, c: string)
    requires LexLess(a, b) && LexLess(b, c)
    ensures LexLess(a, c)
    decreases |a|
  {
    if a != "" && a[0] == b[0] == c[0] { LexTransitive(a[1..], b[1..], c[1..]); }
  }

  lemma {:induction false} LexIrreflexive(a: string)
    ensures !LexLess(a, a)
    decreases |a|
  {
    if a != "" { LexIrreflexive(a[1..]); }
  }

  /** `a` does not come after `b`. */
  predicate LexUpTo(a: string, b: string) {
    !LexLess(b, a)
  }

  /** The entry lies in the shard, before the boundary. */
  predicate Matches<K(==)>(index: map<K, IndexKeys>, key: K, shard: string, boundary: string) {
    key in index && index[key].pk == shard && LexLess(index[key].sk, boundary)
  }

  function SortKey<K(==)>(index: map<K, IndexKeys>, key: K): string {
    if key in index then index[key].sk else ""
  }

  predicate Distinct<K(==)>(s: seq<K>) {
    forall i, j | 0 <= i < j < |s| :: s[i] != s[j]
  }

  lemma DistinctAppend<K>(a: seq<K>, b: seq<K>)
    requires Distinct(a) && Distinct(b) && forall k | k in a :: k !in b
    ensures Distinct(a + b)
  {
    forall i, j | 0 <= i < j < |a + b| ensures (a + b)[i] != (a + b)[j] {
      if i < |a| <= j { assert a[i] in a && b[j - |a|] in b; }
    }
  }

  /** What a query of one shard answers: the matching entries in key order, as many as asked
      for, and the lowest ones. */
  ghost predicate Page<K(!new)>(index: map<K, IndexKeys>, shard: string, boundary: string, limit: nat, page: seq<K>) {
    && Distinct(page) && |page| <= limit
    && (forall k | k in page :: Matches(index, k, shard, boundary))
    && (|page| < limit ==> forall k :: Matches(index, k, shard, boundary) ==> k in page)
    && (forall i, j | 0 <= i < j < |page| :: LexUpTo(SortKey(index, page[i]), SortKey(index, page[j])))
    && (forall k, p | Matches(index, k, shard, boundary) && k !in page && p in page :: LexUpTo(SortKey(index, p), SortKey(index, k)))
  }

  method Lowest<K(==)>(index: map<K, IndexKeys>, keys: set<K>) returns (lowest: K)
    requires keys != {} && keys <= index.Keys
    ensures lowest in keys && forall k | k in keys :: LexUpTo(index[lowest].sk, index[k].sk)
  {
    lowest :| lowest in keys;
    LexIrreflexive(index[lowest].sk);
    var rest := keys - {lowest};
    while rest != {}
      invariant rest <= keys && lowest in keys
      invariant forall k | k in keys && k !in rest :: LexUpTo(index[lowest].sk, index[k].sk)
      decreases rest
    {
      var key :| key in rest;
      rest := rest - {key};
      LexIrreflexive(index[key].sk);
      if LexLess(index[key].sk, index[lowest].sk) {
        forall k | k in keys && k !in rest ensures LexUpTo(index[key].sk, index[k].sk) {
          if k != key {
            LexTotal(index[key].sk, index[lowest].sk);
            if LexLess(index[k].sk, index[key].sk) { LexTransitive(index[k].sk, index[key].sk, index[lowest].sk); }
          }
        }
        lowest := key;
      }
    }
  }

  method Query<K(==,!new)>(index: map<K, IndexKeys>, shard: string, boundary: string, limit: nat) returns (page: seq<K>)
    ensures Page(index, shard, boundary, limit, page)
  {
    var rest := set k | k in index && Matches(index, k, shard, boundary);
    page := [];
    while rest != {} && |page| < limit
      invariant Distinct(page) && |page| <= limit
      invariant forall k :: Matches(index, k, shard, boundary) <==> k in page || k in rest
      invariant forall k | k in page :: k !in rest
      invariant forall i, j | 0 <= i < j < |page| :: LexUpTo(SortKey(index, page[i]), SortKey(index, page[j]))
      invariant forall k, p | k in rest && p in page :: LexUpTo(SortKey(index, p), SortKey(index, k))
      decreases rest
    {
      var next := Lowest(index, rest);
      rest := rest - {next};
      page := page + [next];
    }
  }

  // -------------------------------------------------------------------------
  // Sweeping every shard
  // -------------------------------------------------------------------------

  datatype Index = PendingOutbox | ProcessingWorkflows

  function ShardKey(which: Index, shard: nat): string {
    match which
    case PendingOutbox => PendingShardKey(shard)
    case ProcessingWorkflows => ProcessingShardKey(shard)
  }

  /** The entry lies in one of the ten shards, before the boundary. */
  ghost predicate Due<K>(which: Index, index: map<K, IndexKeys>, key: K, boundary: string, shards: nat) {
    exists shard: nat :: shard < shards && Matches(index, key, ShardKey(which, shard), boundary)
  }

  /** What a sweep lists: distinct due entries, at most `limit`, and all of them if fewer. */
  ghost predicate Swept<K(!new)>(which: Index, index: map<K, IndexKeys>, boundary: string, limit: nat, shards: nat, found: seq<K>) {
    && Distinct(found) && |found| <= limit
    && (forall k | k in found :: Due(which, index, k, boundary, shards))
    && (|found| < limit ==> forall k :: Due(which, index, k, boundary, shards) ==> k in found)
  }

  lemma OneShardEach<K>(which: Index, index: map<K, IndexKeys>, key: K, boundary: string, a: nat, b: nat)
    requires Matches(index, key, ShardKey(which, a), boundary) && Matches(index, key, ShardKey(which, b), boundary)
    ensures a == b
  {
    ShardKeysDistinct(a, b);
  }

  lemma NextShard<K(!new)>(which: Index, index: map<K, IndexKeys>, boundary: string, limit: nat, shard: nat,
                           found: seq<K>, page: seq<K>)
    requires Swept(which, index, boundary, limit, shard, found) && |found| < limit
    requires Page(index, ShardKey(which, shard), boundary, limit - |found|, page)
    ensures Swept(which, index, boundary, limit, shard + 1, found + page)
  {
    hide Matches, LexUpTo, ShardKey;
    forall k | k in found && k in page ensures false {
      var s: nat :| s < shard && Matches(index, k, ShardKey(which, s), boundary);
      OneShardEach(which, index, k, boundary, s, shard);
    }
    DistinctAppend(found, page);
    forall k | k in found + page ensures Due(which, index, k, boundary, shard + 1) {
      if k in page { assert Matches(index, k, ShardKey(which, shard), boundary); }
    }
    if |found + page| < limit {
      forall k | Due(which, index, k, boundary, shard + 1) ensures k in found + page {
        var s: nat :| s < shard + 1 && Matches(index, k, ShardKey(which, s), boundary);
        if s < shard { assert Due(which, index, k, boundary, shard); }
      }
    }
  }

  lemma FullSweep<K(!new)>(which: Index, index: map<K, IndexKeys>, boundary: string, limit: nat, shards: nat, more: nat,
                           found: seq<K>)
    requires Swept(which, index, boundary, limit, shards, found) && |found| >= limit && shards <= more
    ensures Swept(which, index, boundary, limit, more, found)
  {
    hide Matches, ShardKey;
  }

  /** The entry of an item in the shard its key hashes to is due by its timestamp alone. */
  lemma DueByTime<K>(which: Index, index: map<K, IndexKeys>, key: K, text: string, at: nat, suffix: string, boundary: nat)
    requires FitsWidth(at) && FitsWidth(boundary)
    requires key in index && index[key] == IndexKeys(ShardKey(which, Shard(text)), ChronoPrefix(at) + "#" + suffix)
    ensures Due(which, index, key, ChronoPrefix(boundary), PENDING_SHARDS) <==> at < boundary
  {
    hide FitsWidth, ChronoPrefix, Shard, ShardKey, LexLess;
    ChronoOrder(at, suffix, boundary);
    if at < boundary {
      assert Matches(index, key, ShardKey(which, Shard(text)), ChronoPrefix(boundary));
    }
  }
}
