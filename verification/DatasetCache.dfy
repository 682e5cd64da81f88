/** The dataset cache of the proof of work: lookup, an unlocked build, and a
    first-in first-out insertion, interleaved over many threads.
 */
module Datasets {
  import opened Base
  import opened Ledgers

  /** Dataset size in words before rounding, epoch, and previous hash. */
  datatype Key = Key(words: nat, epoch: u64, prev: seq<byte>)

  datatype Dataset = Dataset(mem: seq<u64>, mask: nat)

  const DATASET_CACHE_CAPACITY: nat := 3

  // --- Building ---

  /** The smallest power of two that is at least n. */
  function RoundUp(n: nat, p: nat): (r: nat)
    requires p > 0
    ensures r >= p
    decreases n - p
  {
    if p >= n then p else RoundUp(n, 2 * p)
  }

  lemma {:induction false} RoundUpIsPower(n: nat, k: nat)
    ensures exists j: nat :: j >= k && RoundUp(n, Pow2(k)) == Pow2(j) && (j == k || Pow2(j) < 2 * n)
    ensures RoundUp(n, Pow2(k)) >= n
    decreases n - Pow2(k)
  {
    if Pow2(k) >= n {
      assert RoundUp(n, Pow2(k)) == Pow2(k);
    } else {
      RoundUpIsPower(n, k + 1);
      var j: nat :| j >= k + 1 && RoundUp(n, Pow2(k + 1)) == Pow2(j) && (j == k + 1 || Pow2(j) < 2 * n);
      assert RoundUp(n, Pow2(k)) == Pow2(j);
    }
  }

  /** The dataset of a key. The word generator is a parameter. */
  function Built(word: (Key, nat) -> u64, key: Key): Dataset {
    var n := RoundUp(key.words, 1);
    Dataset(seq(n, i requires 0 <= i < n => word(key, i)), n - 1)
  }

  /** A dataset's length is a power of two covering the configured size by less
      than double, and its mask is one less, so a masked index is in bounds. */
  lemma BuiltShape(word: (Key, nat) -> u64, key: Key)
    ensures var d := Built(word, key);
            && |d.mem| == d.mask + 1 && |d.mem| >= key.words
            && exists j: nat :: |d.mem| == Pow2(j) && (j == 0 || Pow2(j) < 2 * key.words)
  {
    assert Pow2(0) == 1;
    RoundUpIsPower(key.words, 0);
  }

  /** Word i of a dataset is the i-th word generated for its key. */
  lemma BuiltWords(word: (Key, nat) -> u64, key: Key, i: nat)
    ensures var d := Built(word, key);
            && (i < |d.mem| ==> d.mem[i] == word(key, i))
            && (i < key.words ==> i < |d.mem|)
  {
    BuiltShape(word, key);
  }

  method Build(word: (Key, nat) -> u64, key: Key) returns (d: Dataset)
    ensures d == Built(word, key)
  {
    var n := 1;
    while n < key.words
      invariant n > 0 && RoundUp(key.words, n) == RoundUp(key.words, 1)
      decreases key.words - n
    {
      n := 2 * n;
    }
    var mem := [];
    for i := 0 to n
      invariant mem == seq(i, j requires 0 <= j < i => word(key, j))
    {
      mem := mem + [word(key, i)];
    }
    return Dataset(mem, n - 1);
  }

  // --- The cache as a value ---

  datatype Cache = Cache(entries: map<Key, Dataset>, order: seq<Key>)

  const EMPTY_CACHE := Cache(map[], [])

  ghost predicate AllDistinct(order: seq<Key>) {
    forall i, j | 0 <= i < j < |order| :: order[i] != order[j]
  }

  ghost predicate Listing(c: Cache) {
    && AllDistinct(c.order)
    && (forall k :: k in c.entries <==> k in c.order)
  }

  /** The queue lists the map without duplicates, at most the capacity is held,
      and every entry is what building its key yields. */
  ghost predicate CacheOk(word: (Key, nat) -> u64, c: Cache) {
    && Listing(c) && |c.order| <= DATASET_CACHE_CAPACITY
    && (forall k | k in c.entries :: c.entries[k] == Built(word, k))
  }

  function Restrict(entries: map<Key, Dataset>, keys: seq<Key>): map<Key, Dataset> {
    map k | k in entries && k in keys :: entries[k]
  }

  /** Queue length to drop so that at most max(capacity, 1) entries remain. */
  function Excess(n: nat, capacity: nat): nat {
    var keep := if capacity > 1 then capacity else 1;
    if n > keep then n - keep else 0
  }

  /** Insert a missing key at the back, and drop the oldest beyond capacity. */
  function Inserted(c: Cache, key: Key, d: Dataset): Cache {
    if key in c.entries then c
    else
      var order := c.order + [key];
      var left := order[Excess(|order|, DATASET_CACHE_CAPACITY)..];
      Cache(Restrict(c.entries[key := d], left), left)
  }

  lemma InsertedKeeps(word: (Key, nat) -> u64, c: Cache, key: Key)
    requires CacheOk(word, c)
    ensures CacheOk(word, Inserted(c, key, Built(word, key)))
    ensures key in Inserted(c, key, Built(word, key)).entries
    ensures Inserted(c, key, Built(word, key)).entries[key] == Built(word, key)
  {
    hide Built, Listing, Restrict;
    if key !in c.entries {
      var order := c.order + [key];
      var n := Excess(|order|, DATASET_CACHE_CAPACITY);
      var left := order[n..];
      assert left[|left| - 1] == key;
      AppendedListing(c, key, Built(word, key));
      SuffixDistinct(order, n);
      forall k | k in left
        ensures k in c.entries[key := Built(word, key)]
      {
        SuffixIn(order, n, k);
      }
      ListingOf(c.entries[key := Built(word, key)], left);
      RestrictOk(word, c.entries[key := Built(word, key)], left);
    }
  }

  /** First in, first out: a new key goes to the back with its dataset; with three
      cached the one at the front goes; all others keep place and dataset. */
  lemma InsertedExactly(c: Cache, key: Key, d: Dataset)
    requires Listing(c) && |c.order| <= 3
    ensures var q := Inserted(c, key, d);
            if key in c.entries then q == c
            else
              && q.order == (if |c.order| == 3 then c.order[1..] else c.order) + [key]
              && (forall k :: k in q.entries <==> k in q.order)
              && (forall k | k in q.entries :: q.entries[k] == if k == key then d else c.entries[k])
  {
    if key !in c.entries {
      var order := c.order + [key];
      var n := Excess(|order|, DATASET_CACHE_CAPACITY);
      assert order[n..] == (if |c.order| == 3 then c.order[1..] else c.order) + [key];
      forall k | k in order[n..]
        ensures k in c.entries[key := d]
      {
        SuffixIn(order, n, k);
      }
    }
  }

  lemma AppendedListing(c: Cache, key: Key, d: Dataset)
    requires Listing(c) && key !in c.entries
    ensures AllDistinct(c.order + [key])
    ensures forall k :: k in c.order + [key] <==> k in c.entries[key := d]
    ensures Listing(Cache(c.entries[key := d], c.order + [key]))
  {
    assert key !in c.order;
    forall k
      ensures k in c.order + [key] <==> k in c.order || k == key
    {
    }
  }

  lemma SuffixIn(all: seq<Key>, n: nat, k: Key)
    requires n <= |all| && k in all[n..]
    ensures k in all
  {
    var i :| 0 <= i < |all[n..]| && all[n..][i] == k;
    assert all[n + i] == k;
  }

  lemma RestrictOk(word: (Key, nat) -> u64, entries: map<Key, Dataset>, keys: seq<Key>)
    requires forall k | k in entries :: entries[k] == Built(word, k)
    ensures forall k | k in Restrict(entries, keys) :: Restrict(entries, keys)[k] == Built(word, k)
    ensures forall k | k in keys && k in entries :: k in Restrict(entries, keys)
  {
    hide Built;
  }

  // --- The cache object ---

  class DatasetCache {
    var entries: map<Key, Dataset>
    var order: seq<Key>

    ghost function View(): Cache
      reads this
    {
      Cache(entries, order)
    }

    constructor ()
      ensures View() == EMPTY_CACHE
    {
      entries, order := map[], [];
    }

    method Get(key: Key) returns (r: Option<Dataset>)
      ensures r == if key in entries then Some(entries[key]) else None
    {
      r := if key in entries then Some(entries[key]) else None;
    }

    /** Keep the first queue entry of every cached key. On a listing, nothing changes. */
    method RetainOrderForEntries()
      requires Listing(View())
      modifies this`order
      ensures View() == old(View())
    {
      var kept: seq<Key> := [];
      for i := 0 to |order|
        invariant kept == order[..i]
      {
        var key := order[i];
        assert forall j | 0 <= j < i :: order[j] != key;
        assert key in order;
        if key in entries && key !in kept {
          kept := kept + [key];
        }
        assert order[..i + 1] == order[..i] + [key];
      }
      order := kept;
    }

    /** Evict from the front until the capacity holds, never the active key,
        which is at the back. Rotating it stops the loop once it is alone. */
    method EvictOverCapacityLimit(active: Key, capacity: nat) returns (evicted: seq<Key>)
      requires Listing(View()) && |order| > 0 && order[|order| - 1] == active
      modifies this
      ensures var n := Excess(|old(order)|, capacity);
              evicted == old(order)[..n] && order == old(order)[n..] && entries == Restrict(old(entries), order)
      ensures Listing(View()) && active in entries
    {
      hide Listing, Restrict, AllDistinct;
      ghost var all, had, n := order, entries, 0;
      evicted := [];
      var rotations := 0;
      WholeListing(had, all);
      ListingSize(View());
      while |entries| > capacity && rotations <= |order|
        invariant n < |all| && evicted == all[..n] && order == all[n..] && |entries| == |order|
        invariant entries == Restrict(had, order) && Listing(View())
        invariant n <= Excess(|all|, capacity)
        invariant rotations > 0 ==> n == |all| - 1
        decreases |entries|, |order| + 1 - rotations
      {
        var candidate := order[0];
        FrontOf(all, n);
        if candidate == active {
          OnlyLast(had, all, n);
          order := order[1..] + [candidate];
          rotations := rotations + 1;
        } else {
          PopFront(had, all, n);
          order := order[1..];
          entries := entries - {candidate};
          evicted := evicted + [candidate];
          rotations := 0;
          n := n + 1;
          ListingSize(View());
        }
      }
      RetainOrderForEntries();
      LastListed(View());
    }

    /** Insert unless another thread got there first; the stored dataset wins. */
    method InsertIfAbsent(key: Key, d: Dataset) returns (r: Dataset, inserted: bool)
      requires Listing(View())
      modifies this
      ensures View() == Inserted(old(View()), key, d) && Listing(View())
      ensures inserted == (key !in old(entries)) && r == if inserted then d else old(entries)[key]
    {
      if key in entries {
        RetainOrderForEntries();
        return entries[key], false;
      }
      AppendedListing(View(), key, d);
      entries := entries[key := d];
      order := order + [key];
      var evicted := EvictOverCapacityLimit(key, DATASET_CACHE_CAPACITY);
      return d, true;
    }

    /** Look up, else build and insert; what is returned is always what a fresh
        build gives. */
    method GetCached(word: (Key, nat) -> u64, key: Key) returns (d: Dataset)
      requires CacheOk(word, View())
      modifies this
      ensures d == Built(word, key) && CacheOk(word, View()) && key in entries
    {
      hide Built, Listing, Inserted;
      var found := Get(key);
      if found.Some? {
        return found.value;
      }
      var built := Build(word, key);
      InsertedKeeps(word, View(), key);
      var inserted;
      d, inserted := InsertIfAbsent(key, built);
    }

    method Clear()
      modifies this
      ensures View() == EMPTY_CACHE
    {
      entries, order := map[], [];
    }
  }

  function KeySet(order: seq<Key>): set<Key> {
    if |order| == 0 then {} else KeySet(order[..|order| - 1]) + {order[|order| - 1]}
  }

  lemma {:induction false} KeySetHolds(order: seq<Key>, k: Key)
    ensures k in KeySet(order) <==> k in order
  {
    if |order| > 0 {
      KeySetHolds(order[..|order| - 1], k);
      assert order == order[..|order| - 1] + [order[|order| - 1]];
    }
  }

  lemma {:induction false} KeySetCount(order: seq<Key>)
    requires AllDistinct(order)
    ensures |KeySet(order)| == |order|
  {
    if |order| > 0 {
      var init, last := order[..|order| - 1], order[|order| - 1];
      KeySetCount(init);
      KeySetHolds(init, last);
    }
  }

  lemma ListingSize(c: Cache)
    requires Listing(c)
    ensures |c.entries| == |c.order|
  {
    KeySetCount(c.order);
    forall k
      ensures k in c.entries <==> k in KeySet(c.order)
    {
      KeySetHolds(c.order, k);
    }
    assert c.entries.Keys == KeySet(c.order);
  }

  /** The active key sits at the back, so at the front it is alone. */
  lemma OnlyLast(entries: map<Key, Dataset>, all: seq<Key>, n: nat)
    requires Listing(Cache(entries, all)) && n < |all| && all[n] == all[|all| - 1]
    ensures n == |all| - 1 && all[n..][1..] + [all[n]] == all[n..]
  {
  }

  lemma LastListed(c: Cache)
    requires Listing(c) && |c.order| > 0
    ensures c.order[|c.order| - 1] in c.entries
  {
  }

  lemma WholeListing(entries: map<Key, Dataset>, order: seq<Key>)
    requires Listing(Cache(entries, order))
    ensures order[..0] == [] && order[0..] == order && Restrict(entries, order) == entries
  {
  }

  lemma FrontOf(all: seq<Key>, n: nat)
    requires n < |all|
    ensures all[n..][0] == all[n] && all[n..][1..] == all[n + 1..] && all[..n] + [all[n]] == all[..n + 1]
  {
  }

  lemma Suffix(all: seq<Key>, n: nat, k: Key)
    requires AllDistinct(all) && n < |all|
    ensures k in all[n + 1..] <==> k in all[n..] && k != all[n]
    ensures k in all[n..] ==> k in all
  {
    if k in all[n..] {
      var i :| 0 <= i < |all[n..]| && all[n..][i] == k;
      assert all[n + i] == k;
      if i > 0 {
        assert all[n + 1..][i - 1] == k;
      }
    }
    if k in all[n + 1..] {
      var i :| 0 <= i < |all[n + 1..]| && all[n + 1..][i] == k;
      assert all[n..][i + 1] == k && all[n + 1 + i] == k;
    }
  }

  lemma SuffixDistinct(all: seq<Key>, n: nat)
    requires AllDistinct(all) && n <= |all|
    ensures AllDistinct(all[n..])
  {
  }

  /** Dropping the front of a listing leaves a listing of the rest. */
  lemma PopFront(entries: map<Key, Dataset>, all: seq<Key>, n: nat)
    requires Listing(Cache(entries, all)) && n < |all|
    ensures Restrict(entries, all[n..]) - {all[n]} == Restrict(entries, all[n + 1..])
    ensures Listing(Cache(Restrict(entries, all[n + 1..]), all[n + 1..]))
  {
    assert AllDistinct(all);
    SuffixDistinct(all, n + 1);
    forall k
      ensures k in all[n + 1..] <==> k in all[n..] && k != all[n]
      ensures k in all[n..] ==> k in entries
    {
      Suffix(all, n, k);
    }
    RestrictPop(entries, all[n..], all[n + 1..], all[n]);
    ListingOf(entries, all[n + 1..]);
  }

  lemma RestrictPop(entries: map<Key, Dataset>, more: seq<Key>, less: seq<Key>, key: Key)
    requires forall k :: k in less <==> k in more && k != key
    ensures Restrict(entries, more) - {key} == Restrict(entries, less)
  {
  }

  lemma ListingOf(entries: map<Key, Dataset>, order: seq<Key>)
    requires AllDistinct(order) && forall k | k in order :: k in entries
    ensures Listing(Cache(Restrict(entries, order), order))
  {
  }

  // --- Interleaved lookups ---

  /** A call to the cached lookup: about to look, missed, built, or returned. */
  datatype Call =
    | Looking(key: Key)
    | Missed(key: Key)
    | Finished(key: Key, built: Dataset)
    | Returned(key: Key, result: Dataset)

  datatype World = World(cache: Cache, calls: map<nat, Call>)

  datatype Event = Begin(id: nat, key: Key) | Look(id: nat) | BuildIt(id: nat) | InsertIt(id: nat) | ClearCache

  /** One atomic step of some thread. */
  function Step(word: (Key, nat) -> u64, s: World, e: Event): World {
    match e
    case Begin(id, key) => if id in s.calls then s else s.(calls := s.calls[id := Looking(key)])
    case Look(id) =>
      if id !in s.calls || !s.calls[id].Looking? then s
      else
        var key := s.calls[id].key;
        s.(calls := s.calls[id := if key in s.cache.entries then Returned(key, s.cache.entries[key]) else Missed(key)])
    case BuildIt(id) =>
      if id !in s.calls || !s.calls[id].Missed? then s
      else s.(calls := s.calls[id := Finished(s.calls[id].key, Built(word, s.calls[id].key))])
    case InsertIt(id) =>
      if id !in s.calls || !s.calls[id].Finished? then s
      else
        var (key, d) := (s.calls[id].key, s.calls[id].built);
        var result := if key in s.cache.entries then s.cache.entries[key] else d;
        World(Inserted(s.cache, key, d), s.calls[id := Returned(key, result)])
    case ClearCache => s.(cache := EMPTY_CACHE)
  }

  function Run(word: (Key, nat) -> u64, events: seq<Event>): World {
    if |events| == 0 then World(EMPTY_CACHE, map[])
    else Step(word, Run(word, events[..|events| - 1]), events[|events| - 1])
  }

  ghost predicate Sound(word: (Key, nat) -> u64, s: World) {
    && CacheOk(word, s.cache)
    && (forall id | id in s.calls && s.calls[id].Finished? :: s.calls[id].built == Built(word, s.calls[id].key))
    && (forall id | id in s.calls && s.calls[id].Returned? :: s.calls[id].result == Built(word, s.calls[id].key))
  }

  lemma StepKeeps(word: (Key, nat) -> u64, s: World, e: Event)
    requires Sound(word, s)
    ensures Sound(word, Step(word, s, e))
  {
    hide Built, Inserted, Listing;
    if e.InsertIt? && e.id in s.calls && s.calls[e.id].Finished? {
      InsertedKeeps(word, s.cache, s.calls[e.id].key);
    }
    EmptyOk(word);
  }

  lemma EmptyOk(word: (Key, nat) -> u64)
    ensures CacheOk(word, EMPTY_CACHE)
  {
  }

  /** Over every interleaving, a returned dataset is exactly what building its
      key anew would give, and the cache stays a bounded duplicate-free queue. */
  lemma {:induction false} CachedIsBuilt(word: (Key, nat) -> u64, events: seq<Event>)
    ensures Sound(word, Run(word, events))
  {
    hide Step, CacheOk;
    if |events| == 0 {
      EmptyOk(word);
    } else {
      CachedIsBuilt(word, events[..|events| - 1]);
      StepKeeps(word, Run(word, events[..|events| - 1]), events[|events| - 1]);
    }
  }
}
