/** Acceptance with its orphan promotion: what one outer call guarantees, by
    induction over the mutual recursion of acceptance and promotion.
 */
module Acceptance {
  import opened Base
  import opened BlockTree
  import opened Validity
  import opened OrphanPool
  import opened ChainDisk
  import opened Consensus
  import opened Tables
  import opened Invariants
  import opened WriteLog

  // --- Pooled blocks ---

  /** A block that may be submitted without being genesis. */
  ghost predicate Waits(c: Crypto, b: Block) {
    Proper(c, b) && b.Height() > 0
  }

  ghost predicate AllWait(c: Crypto, entries: seq<Orphan>) {
    forall i | 0 <= i < |entries| :: Waits(c, entries[i].block)
  }

  ghost predicate PoolProper(c: Crypto, pool: map<Hash, seq<Orphan>>) {
    forall k | k in pool :: AllWait(c, pool[k])
  }

  lemma AddOrphanProper(c: Crypto, o: Orphans, b: Block, arrival: nat, peer: string)
    requires PoolProper(c, o.pool) && Waits(c, b)
    ensures PoolProper(c, AddOrphan(o, b, arrival, peer).pool)
  {
    hide Waits, Oldest, Size;
    OldestIsOldest(o.pool);
    var p := Prune(o);
    assert PoolProper(c, p.pool);
    var bucket := if b.Parent() in p.pool then p.pool[b.Parent()] else [];
    assert AllWait(c, bucket);
    assert AllWait(c, bucket + [Orphan(b, arrival, peer)]);
  }

  // --- The chain side of one step ---

  ghost predicate NoFailure(w: World) {
    forall n :: w.dbOk(n)
  }

  /** The tip stays, and with it the recovery note, or moves to a strictly
      heavier chain. */
  ghost predicate Rises(s: Node, t: Node) {
    (t.tip == s.tip && Chain(t) == Chain(s) && t.pending == s.pending) || Work(Chain(t)) > Work(Chain(s))
  }

  /** Accepted when some reading of the clock was at most two hours behind it. */
  ghost predicate OnTime(w: World, b: Block) {
    b.Height() == 0 || exists n :: b.header.timestamp <= w.clock(n) + MAX_FUTURE_TIMESTAMP_SECS
  }

  ghost predicate AllOnTime(w: World, known: map<Hash, Block>) {
    forall h | h in known :: OnTime(w, known[h])
  }

  /** What every step keeps about the tree, the records and the disk. */
  ghost predicate Keeps(c: Crypto, s: Node, t: Node) {
    && Inv(c, t)
    && Grows(s.known, t.known)
    && t.disk.genesisHash == s.disk.genesisHash
    && (DiskOk(s) ==> DiskOk(t))
    && (DiskOk(s) && Tidy(s) ==> Tidy(t))
    && (DiskOk(s) && LogOk(s) ==> LogOk(t))
    && (Exact(s) ==> Exact(t))
    && (Tracked(s) ==> Tracked(t))
  }

  lemma KeepsTransitive(c: Crypto, s: Node, t: Node, u: Node)
    requires Keeps(c, s, t) && Keeps(c, t, u)
    ensures Keeps(c, s, u)
  {
    hide Inv, DiskOk, Tidy, LogOk, Exact, Tracked;
  }

  /** Everything a step promises about the chain. */
  ghost predicate Safe(c: Crypto, w: World, s: Node, t: Node) {
    && Keeps(c, s, t)
    && Rises(s, t)
    && (AllOnTime(w, s.known) ==> AllOnTime(w, t.known))
    && (NoFailure(w) && TopOfRecord(s) ==> TopOfRecord(t))
  }

  lemma SafeTransitive(c: Crypto, w: World, s: Node, t: Node, u: Node)
    requires Safe(c, w, s, t) && Safe(c, w, t, u)
    ensures Safe(c, w, s, u)
  {
    hide Keeps, Chain, TopOfRecord, Work, AllOnTime;
    KeepsTransitive(c, s, t, u);
  }

  /** Only the pool or the counter differ. */
  ghost predicate SameChain(s: Node, t: Node) {
    && t.known == s.known && t.tip == s.tip && t.disk == s.disk && t.pending == s.pending
    && t.work == s.work && t.seen == s.seen && t.log == s.log
  }

  lemma SameChainKeeps(c: Crypto, s: Node, t: Node)
    requires Inv(c, s) && SameChain(s, t)
    ensures Keeps(c, s, t)
  {
    hide Rooted, Judged, Path, Exact, Offset, Mixed, Describes, Crossed, TipsIn, NoGenesisRecord, LoggedAt;
    SameTable(s, t);
  }

  lemma SameChainSafe(c: Crypto, w: World, s: Node, t: Node)
    requires Inv(c, s) && SameChain(s, t)
    ensures Safe(c, w, s, t)
  {
    hide Keeps, Inv, Path, Work;
    SameChainKeeps(c, s, t);
  }

  // --- Genesis ---

  /** On an empty node the genesis branch compares nothing but the hash a block
      claims, so there the block that claims it has to be genesis. */
  ghost predicate Trusted(s: Node, b: Block) {
    s.known == map[] && b.Id() == GENESIS_HASH ==> b == GenesisBlock()
  }

  /** A node that has just accepted genesis. */
  ghost function WithGenesis(s: Node): Node {
    var b := GenesisBlock();
    var taken := Tick(s).(known := map[b.Id() := b], tip := b.Id(), pending := None,
                          work := s.work[b.Id() := b.header.difficulty], seen := s.seen + {b.Id()});
    Written(taken, PersistExtension(s.disk, b))
  }

  lemma GenesisSafe(c: Crypto, w: World, s: Node, b: Block)
    requires Inv(c, s) && Trusted(s, b) && b.Height() == 0
    ensures Safe(c, w, s, ApplyGenesis(w, s, b).0)
  {
    hide Inv, Safe, PersistExtension;
    var t := ApplyGenesis(w, s, b).0;
    if t == s || t == Tick(s) {
      SameChainSafe(c, w, s, t);
    } else {
      assert t == WithGenesis(s);
      FirstBlock(c, w, s);
    }
  }

  lemma FirstBlock(c: Crypto, w: World, s: Node)
    requires Inv(c, s) && s.known == map[]
    ensures Safe(c, w, s, WithGenesis(s))
  {
    hide Inv, PersistExtension, Describes, Exact, Tracked, Path, Work, DiskOk, Grows, Tidy;
    var t := WithGenesis(s);
    GenesisInv(c, s);
    GenesisDiskOk(s);
    if DiskOk(s) && LogOk(s) {
      LogAppends(c, s, t);
    }
    NeverTracked(s);
  }

  lemma NeverTracked(s: Node)
    requires s.known == map[]
    ensures !Tracked(s)
  {
  }

  lemma GenesisInv(c: Crypto, s: Node)
    requires Inv(c, s) && s.known == map[]
    ensures Inv(c, WithGenesis(s)) && Exact(WithGenesis(s)) && Grows(s.known, WithGenesis(s).known)
    ensures Chain(WithGenesis(s)) == [GenesisBlock()] && Work(Chain(WithGenesis(s))) > Work(Chain(s))
    ensures TopOfRecord(WithGenesis(s))
  {
    hide Judged, PersistExtension, ValidOn;
    GenesisTree(c, GenesisBlock());
    assert Chain(s) == [];
    var t := WithGenesis(s);
    assert Exact(s);
    assert t.work == map[GENESIS_HASH := 1];
    assert OffAt(t.known, t.work, GENESIS_HASH, 0);
  }

  lemma GenesisTree(c: Crypto, b: Block)
    requires b == GenesisBlock()
    ensures var known := map[b.Id() := b];
            Rooted(known) && Judged(c, known) && Path(known, b.Id()) == [b] && Work([b]) == 1
  {
    hide Verdict, Shape;
    var known := map[b.Id() := b];
    assert RootedAt(known, b.Id()) && JudgedAt(c, known, b.Id());
    assert [b][..0] == [];
  }

  lemma GenesisDiskOk(s: Node)
    requires s.known == map[]
    ensures DiskOk(s) ==> DiskOk(WithGenesis(s)) && Tidy(WithGenesis(s))
    ensures WithGenesis(s).disk.genesisHash == s.disk.genesisHash
  {
    GenesisDisk(s.disk, GenesisBlock());
    assert Chain(WithGenesis(s)) == [GenesisBlock()];
  }

  lemma GenesisDisk(d: Disk, b: Block)
    requires b == GenesisBlock()
    ensures d.heights == map[] ==> Describes(PersistExtension(d, b), [b]) && NoneAbove(PersistExtension(d, b), [b])
    ensures b.Id() in PersistExtension(d, b).blocks && PersistExtension(d, b).blocks[b.Id()] == b
  {
  }

  // --- Children ---

  /** A block that passes every check on its parent is valid there. */
  lemma ChildIsValid(c: Crypto, s: Node, b: Block)
    requires Inv(c, s) && b.Parent() in s.known && b.Height() > 0 && Shape(c, b) == None
    requires b.header.timestamp > s.known[b.Parent()].header.timestamp
    requires Verdict(c, Path(s.known, b.Parent()), b).Success?
    ensures ValidOn(c, Path(s.known, b.Parent()), b)
  {
    hide Verdict, Shape, Rooted, Judged, TableOk;
  }

  lemma AdmitChildSafe(c: Crypto, w: World, s: Node, b: Block)
    requires Inv(c, s) && Proper(c, b) && b.Id() !in s.seen && b.Parent() in s.known && b.Height() > 0
    requires Shape(c, b) == None
    ensures Safe(c, w, s, AdmitChild(c, w, s, b).node)
  {
    hide Integrate, Verdict, Path, Shape, ValidOn, Proper, Safe, Work, Inv, Fit;
    var a := AdmitChild(c, w, s, b);
    if a.node == s || a.node == Tick(s) {
      SameChainSafe(c, w, s, a.node);
    } else {
      SameChainSafe(c, w, s, Tick(s));
      TickInv(c, s);
      ChildIsValid(c, s, b);
      UnseenFits(c, s, b);
      PlaceSafe(c, w, Tick(s), b);
      SafeTransitive(c, w, s, Tick(s), a.node);
    }
  }

  lemma ExtendKeeps(c: Crypto, s: Node, b: Block)
    requires Inv(c, s) && Fit(c, s.known, b) && b.Parent() == s.tip
    ensures Keeps(c, s, ExtendBy(s, b))
  {
    hide Inv, Fit, Path, DiskOk, LogOk, Exact, Offset, Mixed, Tracked, Grows, PersistExtension, Tidy;
    WritesKeepMark(s.disk, b);
    ExtendInv(c, s, b);
    ExtendTable(c, s, b);
    if DiskOk(s) {
      ExtendDisk(c, s, b);
      if LogOk(s) {
        LogAppends(c, s, ExtendBy(s, b));
      }
    }
    if Tracked(s) {
      ExtendTracked(c, s, b);
    }
  }

  lemma WritesKeepMark(d: Disk, b: Block)
    ensures PersistExtension(d, b).genesisHash == StoreBlock(d, b).genesisHash == d.genesisHash
  {
  }

  lemma {:induction false} IndexKeepsMark(d: Disk, path: seq<Block>)
    ensures IndexAll(d, path).genesisHash == d.genesisHash
  {
    if |path| > 0 {
      IndexKeepsMark(d, path[..|path| - 1]);
    }
  }

  lemma ReorgKeepsMark(d: Disk, path: seq<Block>, previousTip: nat)
    requires |path| > 0
    ensures PersistReorg(d, path, previousTip).genesisHash == d.genesisHash
  {
    IndexKeepsMark(d, path);
  }

  lemma StoreKeeps(c: Crypto, s: Node, b: Block)
    requires Inv(c, s) && Fit(c, s.known, b) && b.Parent() != s.tip
    ensures Keeps(c, s, StoreAside(s, b))
  {
    hide Inv, ValidOn, Proper, Path, DiskOk, LogOk, Exact, Offset, Mixed, Tracked, Grows, Tidy;
    StoreInv(c, s, b);
    StoreTable(c, s, b);
    TipKnownOf(c, s, b.Parent());
    if DiskOk(s) {
      StoreDisk(c, s, b);
      if LogOk(s) {
        LogAppends(c, s, StoreAside(s, b));
      }
    }
    if Tracked(s) {
      StoreTracked(c, s, b);
    }
  }

  lemma MoveKeeps(c: Crypto, s: Node, h: Hash)
    requires Inv(c, s) && Leaves(s, h)
    ensures Keeps(c, s, MoveTo(c, s, h))
  {
    hide Inv, Path, DiskOk, LogOk, Exact, Offset, Mixed, Tracked, PersistReorg, RecoveryFor, SwitchedWork, Tidy;
    PathEnds(s.known, h);
    ReorgKeepsMark(s.disk, Path(s.known, h), if |Chain(s)| == 0 then 0 else |Chain(s)| - 1);
    MoveInv(c, s, h);
    MoveTable(c, s, h);
    if DiskOk(s) {
      MoveDisk(c, s, h);
      if LogOk(s) {
        LogAppends(c, s, MoveTo(c, s, h));
      }
    }
    if Tracked(s) {
      MoveTracked(c, s, h);
    }
  }

  lemma PlaceKeeps(c: Crypto, w: World, s: Node, b: Block)
    requires Inv(c, s) && Fit(c, s.known, b)
    ensures Keeps(c, s, Integrate(c, w, s, b).0)
  {
    hide Inv, Fit, Keeps, ExtendBy, StoreAside, MoveTo, Outweighs, Leaves;
    if !w.dbOk(s.ticks) {
      SameChainKeeps(c, s, Tick(s));
    } else if b.Parent() == s.tip {
      ExtendKeeps(c, s, b);
    } else {
      StoreKeeps(c, s, b);
      StoreInv(c, s, b);
      NewLeaves(c, s, b);
      PlacedFields(c, s, b);
      var stored := StoreAside(s, b);
      if Outweighs(s, b) && w.dbOk(stored.ticks) {
        MoveKeeps(c, stored, b.Id());
        KeepsTransitive(c, s, stored, MoveTo(c, stored, b.Id()));
      } else {
        SameChainKeeps(c, stored, Tick(stored));
        KeepsTransitive(c, s, stored, Tick(stored));
      }
    }
  }

  lemma PlaceSafe(c: Crypto, w: World, s: Node, b: Block)
    requires Inv(c, s) && Fit(c, s.known, b) && OnTime(w, b)
    ensures Safe(c, w, s, Integrate(c, w, s, b).0)
  {
    hide Fit, Path, Work, Inv, Keeps, TopOfRecord, Integrate, OnTime, Outweighs;
    PlaceKeeps(c, w, s, b);
    IntegrateSafe(c, w, s, b);
    if NoFailure(w) && TopOfRecord(s) {
      IntegrateTops(c, w, s, b);
    }
    if Integrate(c, w, s, b).1 == Refused {
      SameChainRises(s, Tick(s));
    }
  }

  lemma SameChainRises(s: Node, t: Node)
    requires SameChain(s, t)
    ensures Rises(s, t)
  {
    hide Path, Work;
  }

  lemma AdmitSafe(c: Crypto, w: World, s: Node, b: Block, peer: string)
    requires Inv(c, s) && Proper(c, b) && Trusted(s, b) && Sorted(s.orphans.pool) && PoolProper(c, s.orphans.pool)
    ensures Safe(c, w, s, Admit(c, w, s, b, peer).node)
    ensures PoolProper(c, Admit(c, w, s, b, peer).node.orphans.pool)
  {
    hide AdmitChild, Shape, Proper, Safe, AddOrphan, ApplyGenesis, Inv, PoolProper, Trusted;
    AdmitBasics(c, w, s, b, peer);
    var a := Admit(c, w, s, b, peer);
    if Shape(c, b).Some? || b.Id() in s.seen {
      SameChainSafe(c, w, s, a.node);
    } else if b.Height() == 0 {
      GenesisSafe(c, w, s, b);
      GenesisKeepsPool(w, s, b);
    } else if b.Parent() !in s.known {
      SameChainSafe(c, w, s, a.node);
      AddOrphanProper(c, s.orphans, b, w.clock(s.ticks), peer);
    } else {
      AdmitChildSafe(c, w, s, b);
    }
  }

  lemma GenesisKeepsPool(w: World, s: Node, b: Block)
    ensures ApplyGenesis(w, s, b).0.orphans == s.orphans
  {
  }

  // --- The recursion ---

  /** One outer call, promotions included: the tree only grows, the invariant,
      the disk and its log are kept, the tip never loses work, and without
      failing writes it stays on top of the record. */
  lemma {:induction false} ApplySafe(c: Crypto, w: World, s: Node, b: Block, peer: string)
    requires Inv(c, s) && Proper(c, b) && Trusted(s, b) && Sorted(s.orphans.pool) && PoolProper(c, s.orphans.pool)
    ensures Safe(c, w, s, Apply(c, w, s, b, peer).0)
    ensures PoolProper(c, Apply(c, w, s, b, peer).0.orphans.pool)
    decreases Size(s.orphans.pool), 2, 0
  {
    hide Admit, Safe, Sorted, PoolProper, Proper, Promote, Trusted;
    AdmitSafe(c, w, s, b, peer);
    AdmitBasics(c, w, s, b, peer);
    AdmitKeepsSize(c, w, s, b, peer);
    var a := Admit(c, w, s, b, peer);
    if a.Integrated? {
      SafeInv(c, w, s, a.node);
      PromoteSafe(c, w, a.node, b.Id());
      SafeTransitive(c, w, s, a.node, Promote(c, w, a.node, b.Id()));
    }
  }

  lemma SafeInv(c: Crypto, w: World, s: Node, t: Node)
    requires Safe(c, w, s, t)
    ensures Inv(c, t) && Grows(s.known, t.known) && Keeps(c, s, t)
  {
    hide Inv;
  }

  lemma AdmitKeepsSize(c: Crypto, w: World, s: Node, b: Block, peer: string)
    requires Sorted(s.orphans.pool)
    ensures Admit(c, w, s, b, peer).Integrated? ==> Admit(c, w, s, b, peer).node.orphans == s.orphans
  {
    hide AdmitChild, Shape, AddOrphan, ApplyGenesis;
    AdmitBasics(c, w, s, b, peer);
  }

  lemma {:induction false} PromoteSafe(c: Crypto, w: World, s: Node, h: Hash)
    requires Inv(c, s) && Sorted(s.orphans.pool) && PoolProper(c, s.orphans.pool) && h in s.known
    ensures Safe(c, w, s, Promote(c, w, s, h))
    ensures PoolProper(c, Promote(c, w, s, h).orphans.pool)
    decreases Size(s.orphans.pool), 1, 0
  {
    hide Safe, Inv, PromoteAll;
    if h in s.orphans.pool {
      SizeWithout(s.orphans.pool, h);
      var t := TakeBucket(s, h);
      SameChainSafe(c, w, s, t);
      SafeInv(c, w, s, t);
      PromoteAllSafe(c, w, t, s.orphans.pool[h]);
      SafeTransitive(c, w, s, t, Promote(c, w, s, h));
    } else {
      SameChainSafe(c, w, s, s);
    }
  }

  lemma {:induction false} PromoteAllSafe(c: Crypto, w: World, s: Node, waiting: seq<Orphan>)
    requires Inv(c, s) && Sorted(s.orphans.pool) && PoolProper(c, s.orphans.pool)
    requires forall i | 0 <= i < |waiting| :: waiting[i].block.Parent() in s.known
    requires AllWait(c, waiting)
    ensures Safe(c, w, s, PromoteAll(c, w, s, waiting))
    ensures PoolProper(c, PromoteAll(c, w, s, waiting).orphans.pool)
    decreases Size(s.orphans.pool) + |waiting|, 0, |waiting|
  {
    hide Safe, Inv, Apply, Proper;
    if |waiting| == 0 {
      SameChainSafe(c, w, s, s);
    } else {
      var first := waiting[0];
      var t := DropReverse(s, first.block.Id());
      SameChainSafe(c, w, s, t);
      SafeInv(c, w, s, t);
      assert Waits(c, first.block);
      assert Trusted(t, first.block);
      ApplySafe(c, w, t, first.block, first.peer);
      var u := Apply(c, w, t, first.block, first.peer).0;
      SafeInv(c, w, t, u);
      PromoteAllSafe(c, w, u, waiting[1..]);
      var v := PromoteAll(c, w, u, waiting[1..]);
      SafeTransitive(c, w, s, t, u);
      SafeTransitive(c, w, s, u, v);
    }
  }

  // --- The pool side of the recursion ---

  /** No orphan waits for a block that is already known, `h` excepted. */
  ghost predicate OnlyWaitsFor(s: Node, h: Option<Hash>) {
    forall k | k in s.orphans.pool :: k !in s.known || h == Some(k)
  }

  /** The pool between outer calls: buckets sorted and non-empty, bounded, the
      reverse index sound except for `pending`, and nothing promotable left. */
  ghost predicate PoolInv(s: Node, pending: set<Hash>) {
    && Sorted(s.orphans.pool)
    && Size(s.orphans.pool) <= ORPHAN_POOL_MAX
    && Indexed(s.orphans, pending)
    && OnlyWaitsFor(s, None)
  }

  ghost predicate PoolInvBut(s: Node, pending: set<Hash>, h: Hash) {
    && Sorted(s.orphans.pool)
    && Size(s.orphans.pool) <= ORPHAN_POOL_MAX
    && Indexed(s.orphans, pending)
    && OnlyWaitsFor(s, Some(h))
  }

  lemma AddOrphanKeys(o: Orphans, b: Block, arrival: nat, peer: string, k: Hash)
    requires k in AddOrphan(o, b, arrival, peer).pool
    ensures k in o.pool || k == b.Parent()
  {
    hide Oldest, Size;
    OldestIsOldest(o.pool);
  }

  lemma IntegrateKnown(c: Crypto, w: World, s: Node, b: Block, k: Hash)
    requires k in Integrate(c, w, s, b).0.known
    ensures k in s.known || k == b.Id()
  {
    hide ExtendBy, StoreAside, MoveTo, Outweighs;
    PlacedFields(c, s, b);
  }

  lemma IntegrateRefused(c: Crypto, w: World, s: Node, b: Block)
    requires Integrate(c, w, s, b).1 == Refused
    ensures Integrate(c, w, s, b).0.known == s.known
  {
    hide ExtendBy, StoreAside, MoveTo, Outweighs;
  }

  lemma AdmitKnown(c: Crypto, w: World, s: Node, b: Block, peer: string)
    requires s.known != map[]
    ensures Admit(c, w, s, b, peer).Settled? ==> Admit(c, w, s, b, peer).node.known == s.known
    ensures Admit(c, w, s, b, peer).Integrated? ==> b.Parent() in s.known
    ensures forall k | k in Admit(c, w, s, b, peer).node.known :: k in s.known || k == b.Id()
  {
    hide Integrate, Verdict, Shape, AddOrphan, Path;
    var i := Integrate(c, w, Tick(s), b);
    forall k | k in Admit(c, w, s, b, peer).node.known
      ensures k in s.known || k == b.Id()
    {
      if k in i.0.known {
        IntegrateKnown(c, w, Tick(s), b, k);
      }
    }
    if i.1 == Refused {
      IntegrateRefused(c, w, Tick(s), b);
    }
  }

  lemma AdmitPool(c: Crypto, w: World, s: Node, b: Block, peer: string, pending: set<Hash>)
    requires PoolInv(s, pending) && s.known != map[]
    ensures match Admit(c, w, s, b, peer)
            case Settled(t, _) => PoolInv(t, pending)
            case Integrated(t, _) => PoolInvBut(t, pending, b.Id())
  {
    hide AdmitChild, Shape, AddOrphan, ApplyGenesis, Size, Sorted, Indexed;
    AdmitBasics(c, w, s, b, peer);
    AdmitKnown(c, w, s, b, peer);
    var a := Admit(c, w, s, b, peer);
    if b.Parent() !in s.known {
      AddOrphanKeeps(s.orphans, b, w.clock(s.ticks), peer, pending);
      forall k | k in AddOrphan(s.orphans, b, w.clock(s.ticks), peer).pool
        ensures k !in s.known
      {
        AddOrphanKeys(s.orphans, b, w.clock(s.ticks), peer, k);
      }
      GenesisKeepsPool(w, s, b);
    }
  }

  /** One outer call leaves the pool in order: nothing in it could be promoted,
      it holds at most the maximum, no bucket is empty, and every reverse entry
      points at a pooled block. */
  lemma {:induction false} ApplyPool(c: Crypto, w: World, s: Node, b: Block, peer: string, pending: set<Hash>)
    requires PoolInv(s, pending) && s.known != map[]
    ensures PoolInv(Apply(c, w, s, b, peer).0, pending)
    decreases Size(s.orphans.pool), 2, 0
  {
    hide Admit, PoolInv, PoolInvBut, Promote;
    PoolInvSorted(s, pending);
    AdmitPool(c, w, s, b, peer, pending);
    AdmitBasics(c, w, s, b, peer);
    AdmitKeepsSize(c, w, s, b, peer);
    var a := Admit(c, w, s, b, peer);
    if a.Integrated? {
      PromotePool(c, w, a.node, b.Id(), pending);
    }
  }

  lemma PoolInvSorted(s: Node, pending: set<Hash>)
    requires PoolInv(s, pending)
    ensures Sorted(s.orphans.pool)
  {
  }

  function Ids(entries: seq<Orphan>): set<Hash> {
    set i | 0 <= i < |entries| :: entries[i].block.Id()
  }

  lemma PooledHasId(pool: map<Hash, seq<Orphan>>, h: Hash, k: Hash)
    requires PooledUnder(pool, h, k)
    ensures k in Ids(pool[h])
  {
  }

  lemma IdsSplit(entries: seq<Orphan>)
    requires |entries| > 0
    ensures Ids(entries) == {entries[0].block.Id()} + Ids(entries[1..])
  {
    forall i | 0 <= i < |entries|
      ensures entries[i].block.Id() in {entries[0].block.Id()} + Ids(entries[1..])
    {
      if i > 0 {
        assert entries[1..][i - 1] == entries[i];
      }
    }
  }

  /** Taking a bucket out leaves only its own blocks without a pooled target. */
  lemma TakeBucketPool(s: Node, h: Hash, pending: set<Hash>)
    requires PoolInvBut(s, pending, h) && h in s.orphans.pool
    ensures PoolInv(TakeBucket(s, h), pending + Ids(s.orphans.pool[h]))
    ensures Size(TakeBucket(s, h).orphans.pool) + |s.orphans.pool[h]| == Size(s.orphans.pool)
  {
    SizeWithout(s.orphans.pool, h);
    var o, o' := s.orphans, TakeBucket(s, h).orphans;
    forall k | k in o'.byHash && k !in pending + Ids(o.pool[h])
      ensures PooledUnder(o'.pool, o'.byHash[k], k)
    {
      assert PooledUnder(o.pool, o.byHash[k], k);
      if o.byHash[k] == h {
        PooledHasId(o.pool, h, k);
      }
    }
  }

  lemma {:induction false} PromotePool(c: Crypto, w: World, s: Node, h: Hash, pending: set<Hash>)
    requires PoolInvBut(s, pending, h) && h in s.known
    ensures PoolInv(Promote(c, w, s, h), pending)
    decreases Size(s.orphans.pool), 1, 0
  {
    if h in s.orphans.pool {
      TakeBucketPool(s, h, pending);
      PromoteAllPool(c, w, TakeBucket(s, h), s.orphans.pool[h], pending);
    }
  }

  lemma DropReversePool(s: Node, waiting: seq<Orphan>, pending: set<Hash>)
    requires |waiting| > 0 && PoolInv(s, pending + Ids(waiting))
    ensures PoolInv(DropReverse(s, waiting[0].block.Id()), pending + Ids(waiting[1..]))
  {
    hide Size;
    IdsSplit(waiting);
  }

  lemma {:induction false} PromoteAllPool(c: Crypto, w: World, s: Node, waiting: seq<Orphan>, pending: set<Hash>)
    requires PoolInv(s, pending + Ids(waiting)) && s.known != map[]
    requires forall i | 0 <= i < |waiting| :: waiting[i].block.Parent() in s.known
    ensures PoolInv(PromoteAll(c, w, s, waiting), pending)
    decreases Size(s.orphans.pool) + |waiting|, 0, |waiting|
  {
    hide PoolInv, Apply;
    PoolInvSorted(s, pending + Ids(waiting));
    if |waiting| == 0 {
      assert pending + Ids(waiting) == pending;
    } else {
      var first := waiting[0];
      DropReversePool(s, waiting, pending);
      var t := DropReverse(s, first.block.Id());
      ApplyPool(c, w, t, first.block, first.peer, pending + Ids(waiting[1..]));
      PromoteAllPool(c, w, Apply(c, w, t, first.block, first.peer).0, waiting[1..], pending);
    }
  }
}
