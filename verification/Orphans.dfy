/** The bounded pool of blocks whose parent has not arrived: buckets keyed by
    the awaited parent, and a reverse index from block hash to bucket.
 */
module OrphanPool {
  import opened Base
  import opened KeyOrder

  datatype Orphan = Orphan(block: Block, arrival: nat, peer: string)

  datatype Orphans = Orphans(pool: map<Hash, seq<Orphan>>, byHash: map<Hash, Hash>)

  const NO_ORPHANS := Orphans(map[], map[])

  // --- Size ---

  /** Number of pooled blocks, over all buckets. */
  ghost function Size(pool: map<Hash, seq<Orphan>>): nat
    decreases |pool|
  {
    if pool == map[] then 0
    else
      var k :| k in pool;
      |pool[k]| + Size(pool - {k})
  }

  lemma {:induction false} SizeWithout(pool: map<Hash, seq<Orphan>>, k: Hash)
    requires k in pool
    ensures Size(pool) == |pool[k]| + Size(pool - {k})
    decreases |pool|
  {
    var j :| j in pool && Size(pool) == |pool[j]| + Size(pool - {j});
    if j != k {
      SizeWithout(pool - {j}, k);
      SizeWithout(pool - {k}, j);
      assert pool - {j} - {k} == pool - {k} - {j};
    }
  }

  lemma SizeUpdated(pool: map<Hash, seq<Orphan>>, k: Hash, v: seq<Orphan>)
    ensures Size(pool[k := v]) == Size(pool - {k}) + |v|
    ensures Size(pool) == Size(pool - {k}) + if k in pool then |pool[k]| else 0
  {
    SizeWithout(pool[k := v], k);
    assert pool[k := v] - {k} == pool - {k};
    if k in pool {
      SizeWithout(pool, k);
    } else {
      assert pool - {k} == pool;
    }
  }

  // --- The oldest entry ---

  datatype Candidate = Candidate(key: Hash, pos: nat, arrival: nat)

  function Older(best: Option<Candidate>, key: Hash, pos: nat, arrival: nat): Option<Candidate> {
    if best.None? || arrival < best.value.arrival then Some(Candidate(key, pos, arrival)) else best
  }

  function ScanBucket(key: Hash, entries: seq<Orphan>, best: Option<Candidate>): Option<Candidate> {
    if |entries| == 0 then best
    else
      var n := |entries| - 1;
      Older(ScanBucket(key, entries[..n], best), key, n, entries[n].arrival)
  }

  /** The first strictly oldest entry in key order, then bucket order. */
  function ScanKeys(pool: map<Hash, seq<Orphan>>, keys: seq<Hash>): Option<Candidate>
    requires forall k | k in keys :: k in pool
  {
    if |keys| == 0 then None
    else
      var n := |keys| - 1;
      ScanBucket(keys[n], pool[keys[n]], ScanKeys(pool, keys[..n]))
  }

  ghost predicate Points(pool: map<Hash, seq<Orphan>>, c: Candidate) {
    c.key in pool && c.pos < |pool[c.key]| && pool[c.key][c.pos].arrival == c.arrival
  }

  lemma {:induction false} ScanBucketOldest(pool: map<Hash, seq<Orphan>>, key: Hash, n: nat, best: Option<Candidate>)
    requires key in pool && n <= |pool[key]|
    requires best.Some? ==> Points(pool, best.value)
    ensures var r := ScanBucket(key, pool[key][..n], best);
            && (r.None? <==> best.None? && n == 0)
            && (r.Some? ==> Points(pool, r.value))
            && (best.Some? ==> r.value.arrival <= best.value.arrival)
            && (forall i | 0 <= i < n :: r.value.arrival <= pool[key][i].arrival)
  {
    if n > 0 {
      ScanBucketOldest(pool, key, n - 1, best);
      assert pool[key][..n][..n - 1] == pool[key][..n - 1];
    }
  }

  lemma {:induction false} ScanKeysOldest(pool: map<Hash, seq<Orphan>>, keys: seq<Hash>)
    requires forall k | k in keys :: k in pool
    ensures var r := ScanKeys(pool, keys);
            && (r.Some? ==> Points(pool, r.value))
            && (r.None? ==> forall k | k in keys :: pool[k] == [])
            && (r.Some? ==> forall k, i | k in keys && 0 <= i < |pool[k]| :: r.value.arrival <= pool[k][i].arrival)
  {
    if |keys| > 0 {
      var n := |keys| - 1;
      ScanKeysOldest(pool, keys[..n]);
      ScanBucketOldest(pool, keys[n], |pool[keys[n]]|, ScanKeys(pool, keys[..n]));
      assert pool[keys[n]][..|pool[keys[n]]|] == pool[keys[n]];
      assert keys == keys[..n] + [keys[n]];
    }
  }

  function Oldest(pool: map<Hash, seq<Orphan>>): Option<Candidate> {
    ScanKeys(pool, SortedKeys(pool.Keys))
  }

  /** What eviction removes was pooled, and nothing pooled arrived before it. */
  lemma OldestIsOldest(pool: map<Hash, seq<Orphan>>)
    ensures Oldest(pool).Some? ==>
              && Points(pool, Oldest(pool).value)
              && forall k, i | k in pool && 0 <= i < |pool[k]| :: Oldest(pool).value.arrival <= pool[k][i].arrival
    ensures Oldest(pool).None? ==> forall k | k in pool :: pool[k] == []
  {
    ScanKeysOldest(pool, SortedKeys(pool.Keys));
  }

  // --- Eviction and insertion ---

  function Evict(o: Orphans, at: Candidate): Orphans
    requires at.key in o.pool && at.pos < |o.pool[at.key]|
  {
    var entries := o.pool[at.key];
    var left := entries[..at.pos] + entries[at.pos + 1..];
    Orphans(if left == [] then o.pool - {at.key} else o.pool[at.key := left],
            o.byHash - {entries[at.pos].block.Id()})
  }

  ghost function Prune(o: Orphans): Orphans {
    OldestIsOldest(o.pool);
    if Size(o.pool) < ORPHAN_POOL_MAX || Oldest(o.pool).None? then o else Evict(o, Oldest(o.pool).value)
  }

  function Insert(o: Orphans, b: Block, arrival: nat, peer: string): Orphans {
    var bucket := if b.Parent() in o.pool then o.pool[b.Parent()] else [];
    Orphans(o.pool[b.Parent() := bucket + [Orphan(b, arrival, peer)]], o.byHash[b.Id() := b.Parent()])
  }

  /** Make room, then pool the block. */
  ghost function AddOrphan(o: Orphans, b: Block, arrival: nat, peer: string): Orphans {
    Insert(Prune(o), b, arrival, peer)
  }

  // --- What the pool keeps ---

  /** Every bucket is non-empty and holds only children of its key. */
  ghost predicate Sorted(pool: map<Hash, seq<Orphan>>) {
    forall k | k in pool :: |pool[k]| > 0 && forall i | 0 <= i < |pool[k]| :: pool[k][i].block.Parent() == k
  }

  ghost predicate PooledUnder(pool: map<Hash, seq<Orphan>>, k: Hash, h: Hash) {
    k in pool && exists i :: 0 <= i < |pool[k]| && pool[k][i].block.Id() == h
  }

  /** Reverse entries point at pooled blocks, hashes in `pending` excepted. */
  ghost predicate Indexed(o: Orphans, pending: set<Hash>) {
    forall h | h in o.byHash && h !in pending :: PooledUnder(o.pool, o.byHash[h], h)
  }

  lemma EvictKeeps(o: Orphans, at: Candidate, pending: set<Hash>)
    requires Points(o.pool, at) && Sorted(o.pool)
    ensures Sorted(Evict(o, at).pool)
    ensures Size(Evict(o, at).pool) == Size(o.pool) - 1
    ensures Indexed(o, pending) ==> Indexed(Evict(o, at), pending)
  {
    var entries := o.pool[at.key];
    var left := entries[..at.pos] + entries[at.pos + 1..];
    SizeUpdated(o.pool, at.key, left);
    if Indexed(o, pending) {
      forall h | h in Evict(o, at).byHash && h !in pending
        ensures PooledUnder(Evict(o, at).pool, o.byHash[h], h)
      {
        var k := o.byHash[h];
        assert PooledUnder(o.pool, k, h);
        if k == at.key {
          var i :| 0 <= i < |entries| && entries[i].block.Id() == h;
          assert i != at.pos;
          var j := if i < at.pos then i else i - 1;
          assert left[j] == entries[i];
        }
      }
    }
  }

  lemma InsertKeeps(o: Orphans, b: Block, arrival: nat, peer: string, pending: set<Hash>)
    requires Sorted(o.pool)
    ensures Sorted(Insert(o, b, arrival, peer).pool)
    ensures Size(Insert(o, b, arrival, peer).pool) == Size(o.pool) + 1
    ensures Indexed(o, pending) ==> Indexed(Insert(o, b, arrival, peer), pending)
  {
    var bucket := if b.Parent() in o.pool then o.pool[b.Parent()] else [];
    var bucket' := bucket + [Orphan(b, arrival, peer)];
    SizeUpdated(o.pool, b.Parent(), bucket');
    var o' := Insert(o, b, arrival, peer);
    if Indexed(o, pending) {
      forall h | h in o'.byHash && h !in pending
        ensures PooledUnder(o'.pool, o'.byHash[h], h)
      {
        if h == b.Id() {
          assert bucket'[|bucket|].block == b;
        } else {
          var k := o.byHash[h];
          assert PooledUnder(o.pool, k, h);
          var i :| 0 <= i < |o.pool[k]| && o.pool[k][i].block.Id() == h;
          assert o'.pool[k][i] == o.pool[k][i];
        }
      }
    }
  }

  /** Pooling a block keeps the buckets sorted, the size bounded and the
      reverse index sound. */
  lemma AddOrphanKeeps(o: Orphans, b: Block, arrival: nat, peer: string, pending: set<Hash>)
    requires Sorted(o.pool)
    ensures Sorted(AddOrphan(o, b, arrival, peer).pool)
    ensures Size(o.pool) <= ORPHAN_POOL_MAX ==> Size(AddOrphan(o, b, arrival, peer).pool) <= ORPHAN_POOL_MAX
    ensures Indexed(o, pending) ==> Indexed(AddOrphan(o, b, arrival, peer), pending)
  {
    OldestIsOldest(o.pool);
    if Size(o.pool) >= ORPHAN_POOL_MAX && Oldest(o.pool).Some? {
      EvictKeeps(o, Oldest(o.pool).value, pending);
    }
    InsertKeeps(Prune(o), b, arrival, peer, pending);
  }

  // --- Where everything stands ---

  function Bucket(pool: map<Hash, seq<Orphan>>, k: Hash): seq<Orphan> {
    if k in pool then pool[k] else []
  }

  /** Nothing pooled arrived before the i-th entry waiting for k; of what arrived at
      the same moment it comes first, in the order of the awaited parents and then
      of its bucket. */
  ghost predicate GoesFirst(pool: map<Hash, seq<Orphan>>, k: Hash, i: nat) {
    && k in pool && i < |pool[k]|
    && forall j, n | j in pool && 0 <= n < |pool[j]| :: NotBefore(pool[k][i].arrival, k, i, pool[j][n].arrival, j, n)
  }

  predicate NotBefore(arrival: nat, k: Hash, i: int, later: nat, j: Hash, n: int) {
    arrival < later || (arrival == later && (Less(k, j) || (k == j && i <= n)))
  }

  lemma {:induction false} ScanBucketFirst(pool: map<Hash, seq<Orphan>>, key: Hash, n: nat, best: Option<Candidate>)
    requires key in pool && n <= |pool[key]|
    ensures var r := ScanBucket(key, pool[key][..n], best);
            || (r == best && (r.Some? ==> forall i | 0 <= i < n :: r.value.arrival <= pool[key][i].arrival))
            || (&& r.Some? && r.value.key == key && r.value.pos < n
                && (best.Some? ==> r.value.arrival < best.value.arrival)
                && forall i | 0 <= i < n :: NotBefore(r.value.arrival, key, r.value.pos, pool[key][i].arrival, key, i))
    ensures ScanBucket(key, pool[key][..n], best).None? ==> n == 0
  {
    if n > 0 {
      ScanBucketFirst(pool, key, n - 1, best);
      assert pool[key][..n][..n - 1] == pool[key][..n - 1];
    }
  }

  /** Among the buckets of some keys, nothing stands before this entry. */
  ghost predicate FirstOf(pool: map<Hash, seq<Orphan>>, keys: seq<Hash>, c: Candidate) {
    && c.key in keys
    && forall k | k in keys :: FirstInBucket(pool, k, c)
  }

  ghost predicate FirstInBucket(pool: map<Hash, seq<Orphan>>, k: Hash, c: Candidate) {
    k in pool ==> forall i | 0 <= i < |pool[k]| :: NotBefore(c.arrival, c.key, c.pos, pool[k][i].arrival, k, i)
  }

  /** A strictly older entry in a later bucket stands before all there were. */
  lemma OlderFirst(pool: map<Hash, seq<Orphan>>, k: Hash, before: Candidate, c: Candidate)
    requires FirstInBucket(pool, k, before) && c.arrival < before.arrival
    ensures FirstInBucket(pool, k, c)
  {
    hide Less;
  }

  /** A bucket with nothing older, further back in key order. */
  lemma StillFirst(pool: map<Hash, seq<Orphan>>, k: Hash, c: Candidate)
    requires k in pool && Less(c.key, k) && forall i | 0 <= i < |pool[k]| :: c.arrival <= pool[k][i].arrival
    ensures FirstInBucket(pool, k, c)
  {
    hide Less;
  }

  lemma {:induction false} ScanKeysFirst(pool: map<Hash, seq<Orphan>>, keys: seq<Hash>)
    requires forall k | k in keys :: k in pool
    requires forall i, j | 0 <= i < j < |keys| :: Less(keys[i], keys[j])
    ensures ScanKeys(pool, keys).Some? ==> FirstOf(pool, keys, ScanKeys(pool, keys).value)
  {
    hide Less, ScanBucket, NotBefore, FirstInBucket;
    if |keys| > 0 {
      var n := |keys| - 1;
      var init, last := keys[..n], keys[n];
      ScanKeysFirst(pool, init);
      ScanKeysOldest(pool, init);
      ScanBucketFirst(pool, last, |pool[last]|, ScanKeys(pool, init));
      assert pool[last][..|pool[last]|] == pool[last];
      assert keys == init + [last];
      if ScanKeys(pool, keys).Some? {
        ScanStep(pool, init, last, ScanKeys(pool, init), ScanKeys(pool, keys).value);
      }
    }
  }

  lemma ScanStep(pool: map<Hash, seq<Orphan>>, init: seq<Hash>, last: Hash, before: Option<Candidate>, c: Candidate)
    requires last in pool && forall k | k in init :: k in pool && Less(k, last)
    requires if before.Some? then FirstOf(pool, init, before.value) else forall k | k in init :: pool[k] == []
    requires || (before == Some(c) && forall i | 0 <= i < |pool[last]| :: c.arrival <= pool[last][i].arrival)
             || (&& c.key == last && (before.Some? ==> c.arrival < before.value.arrival)
                 && forall i | 0 <= i < |pool[last]| ::
                      NotBefore(c.arrival, last, c.pos, pool[last][i].arrival, last, i))
    ensures FirstOf(pool, init + [last], c)
  {
    hide Less;
    if before == Some(c) && forall i | 0 <= i < |pool[last]| :: c.arrival <= pool[last][i].arrival {
      StillFirst(pool, last, c);
    } else {
      forall k | k in init
        ensures FirstInBucket(pool, k, c)
      {
        if before.Some? {
          OlderFirst(pool, k, before.value, c);
        }
      }
    }
  }

  lemma OldestGoesFirst(pool: map<Hash, seq<Orphan>>)
    ensures Oldest(pool).Some? ==> GoesFirst(pool, Oldest(pool).value.key, Oldest(pool).value.pos)
  {
    hide Less, SortedKeys;
    OldestIsOldest(pool);
    SortedKeysAscend(pool.Keys);
    ScanKeysFirst(pool, SortedKeys(pool.Keys));
  }

  lemma {:induction false} FullHasOldest(pool: map<Hash, seq<Orphan>>)
    requires Sorted(pool) && Size(pool) > 0
    ensures Oldest(pool).Some?
  {
    hide Oldest;
    OldestIsOldest(pool);
    assert pool != map[];
    var k :| k in pool;
    assert |pool[k]| > 0;
  }

  /** The pool with the block at the back of its bucket, and with the i-th entry
      waiting for k gone if the pool was full. */
  ghost predicate Takes(o: Orphans, q: Orphans, b: Block, arrival: nat, peer: string, k: Hash, i: nat) {
    var full := Size(o.pool) >= 2_000;
    && (full ==> GoesFirst(o.pool, k, i))
    && (forall j :: Bucket(q.pool, j)
                    == (if full && j == k then o.pool[k][..i] + o.pool[k][i + 1..] else Bucket(o.pool, j))
                       + if j == b.Parent() then [Orphan(b, arrival, peer)] else [])
    && q.byHash == (if full then o.byHash - {o.pool[k][i].block.Id()} else o.byHash)[b.Id() := b.Parent()]
  }

  /** Pooling a block puts it at the back of the bucket of its parent, with its
      arrival and its peer, and indexes it. Everything pooled before stays where it
      was, but for one entry, the first of the oldest, when 2,000 were pooled. */
  lemma PooledExactly(o: Orphans, b: Block, arrival: nat, peer: string)
    requires Sorted(o.pool)
    ensures var q := AddOrphan(o, b, arrival, peer);
            && Sorted(q.pool) && Size(q.pool) == (if Size(o.pool) < 2_000 then Size(o.pool) + 1 else Size(o.pool))
            && exists k, i :: Takes(o, q, b, arrival, peer, k, i)
  {
    hide Oldest, Size, GoesFirst, Indexed, Takes;
    if Size(o.pool) >= ORPHAN_POOL_MAX {
      FullHasOldest(o.pool);
      OldestIsOldest(o.pool);
      EvictKeeps(o, Oldest(o.pool).value, {});
      FullTakes(o, b, arrival, peer);
    } else {
      RoomTakes(o, b, arrival, peer);
    }
    InsertKeeps(Prune(o), b, arrival, peer, {});
  }

  lemma FullTakes(o: Orphans, b: Block, arrival: nat, peer: string)
    requires Oldest(o.pool).Some? && Size(o.pool) >= ORPHAN_POOL_MAX
    ensures var at := Oldest(o.pool).value; Takes(o, AddOrphan(o, b, arrival, peer), b, arrival, peer, at.key, at.pos)
  {
    hide Oldest, Size, GoesFirst;
    OldestIsOldest(o.pool);
    OldestGoesFirst(o.pool);
  }

  lemma RoomTakes(o: Orphans, b: Block, arrival: nat, peer: string)
    requires Size(o.pool) < ORPHAN_POOL_MAX
    ensures Takes(o, AddOrphan(o, b, arrival, peer), b, arrival, peer, b.Parent(), 0)
  {
    hide Oldest, Size, GoesFirst;
    OldestIsOldest(o.pool);
  }
}
