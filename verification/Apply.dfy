/** The acceptance entry point and the orphan pool, which call each other:
    accepting a block re-submits the blocks that were waiting for it.
 */
module ApplyBlocks {
  import opened Base
  import opened KeyOrder
  import opened Ledgers
  import opened BlockTree
  import opened Validity
  import opened OrphanPool
  import opened ChainDisk
  import opened Works
  import opened Consensus
  import opened Tables
  import opened Invariants
  import opened Acceptance
  import opened ChainStates
  import opened Accept

  // --- The orphan pool in place ---

  /** Number of pooled blocks, counted bucket by bucket. */
  method CountOrphans(pool: map<Hash, seq<Orphan>>) returns (total: nat)
    ensures total == Size(pool)
  {
    total := 0;
    var left := pool;
    while left != map[]
      invariant total + Size(left) == Size(pool)
      decreases |left|
    {
      var k := Least(left.Keys);
      SizeWithout(left, k);
      total := total + |left[k]|;
      left := left - {k};
    }
  }

  /** The oldest entry, in one pass over the buckets. */
  method FindOldest(pool: map<Hash, seq<Orphan>>) returns (oldest: Option<Candidate>)
    ensures oldest == Oldest(pool)
  {
    var keys := SortedKeys(pool.Keys);
    oldest := None;
    assert keys[..0] == [];
    for i := 0 to |keys|
      invariant forall k | k in keys[..i] :: k in pool
      invariant oldest == ScanKeys(pool, keys[..i])
    {
      assert keys[i] in keys;
      var entries := pool[keys[i]];
      ghost var before := oldest;
      assert entries[..0] == [];
      for pos := 0 to |entries|
        invariant oldest == ScanBucket(keys[i], entries[..pos], before)
      {
        assert entries[..pos + 1][..pos] == entries[..pos];
        if oldest.None? || entries[pos].arrival < oldest.value.arrival {
          oldest := Some(Candidate(keys[i], pos, entries[pos].arrival));
        }
      }
      assert entries[..|entries|] == entries && keys[..i + 1][..i] == keys[..i];
    }
    assert keys[..|keys|] == keys;
  }

  method PruneOldOrphans(g: ChainState)
    requires g.Valid()
    modifies g`orphanPool, g`orphanByHash, g`abs
    ensures g.Valid() && g.abs == old(g.abs).(orphans := Prune(old(g.abs.orphans)))
  {
    hide TreeInv, Exact, Offset, Mixed, FieldsOk, Path, Oldest, Size, PoolOk;
    SameTable(g.abs, g.abs.(orphans := Prune(g.abs.orphans)));
    PrunedPool(g.c, g.abs.orphans);
    var total := CountOrphans(g.orphanPool);
    if total < ORPHAN_POOL_MAX {
      return;
    }
    var oldest := FindOldest(g.orphanPool);
    if oldest.Some? {
      OldestIsOldest(g.orphanPool);
      var key, pos := oldest.value.key, oldest.value.pos;
      var entries := g.orphanPool[key];
      g.orphanByHash := g.orphanByHash - {entries[pos].block.Id()};
      var left := entries[..pos] + entries[pos + 1..];
      g.orphanPool := if left == [] then g.orphanPool - {key} else g.orphanPool[key := left];
      g.abs := g.abs.(orphans := Orphans(g.orphanPool, g.orphanByHash));
    }
  }

  lemma PrunedPool(c: Crypto, o: Orphans)
    requires PoolOk(c, o.pool)
    ensures PoolOk(c, Prune(o).pool)
  {
    hide Oldest, Size, Waits;
    OldestIsOldest(o.pool);
  }

  /** Pool a block whose parent is unknown, making room first. */
  method AddToPool(g: ChainState, b: Block, peer: string)
    requires g.Valid() && Waits(g.c, b)
    modifies g
    ensures g.Valid() && g.snapshots == old(g.snapshots)
    ensures var s := old(g.abs); g.abs == Tick(s).(orphans := AddOrphan(s.orphans, b, g.w.clock(s.ticks), peer))
  {
    hide TreeInv, Exact, Offset, Mixed, FieldsOk, Path, Waits, Prune, PoolOk;
    AddedPool(g.c, g.abs.orphans, b, g.w.clock(g.abs.ticks), peer);
    PruneOldOrphans(g);
    var now := g.Now();
    var bucket := if b.Parent() in g.orphanPool then g.orphanPool[b.Parent()] else [];
    g.orphanByHash := g.orphanByHash[b.Id() := b.Parent()];
    g.orphanPool := g.orphanPool[b.Parent() := bucket + [Orphan(b, now, peer)]];
    SameTable(g.abs, g.abs.(orphans := Orphans(g.orphanPool, g.orphanByHash)));
    g.abs := g.abs.(orphans := Orphans(g.orphanPool, g.orphanByHash));
  }

  lemma AddedPool(c: Crypto, o: Orphans, b: Block, arrival: nat, peer: string)
    requires PoolOk(c, o.pool) && Waits(c, b)
    ensures PoolOk(c, AddOrphan(o, b, arrival, peer).pool)
  {
    hide Waits, AddOrphan, PoolProper, Sorted;
    AddOrphanProper(c, o, b, arrival, peer);
    AddOrphanKeeps(o, b, arrival, peer, {});
  }

  // --- One block, before promotion ---

  /** The genesis branch: no validation beyond the claimed hash, and no
      promotion. On an empty node whatever claims the genesis hash becomes the
      chain; if it is genesis, the fields stand for the node that accepted it. */
  method AdmitGenesis(g: ChainState, b: Block) returns (r: AcceptResult)
    requires g.Valid() && b.Height() == 0
    modifies g
    ensures g.snapshots == old(g.snapshots)
    ensures r == if b.Id() != GENESIS_HASH then Rejected(GenesisHashMismatch)
                 else if |old(g.blocks)| != 0 then Rejected(GenesisAlreadyApplied)
                 else if !g.w.dbOk(old(g.ticks)) then Rejected(PersistenceFailed)
                 else CanonExtension(0)
    ensures r.CanonExtension? ==>
              && g.blocks == [b] && g.canonIndex == old(g.canonIndex)[GENESIS_HASH := 0]
              && g.cumulativeWork == old(g.cumulativeWork)[GENESIS_HASH := b.header.difficulty]
              && g.seenBlocks == old(g.seenBlocks) + {GENESIS_HASH} && g.disk == PersistExtension(old(g.disk), b)
    ensures !r.CanonExtension? || Trusted(old(g.abs), b) ==>
              g.Valid() && (g.abs, r) == ApplyGenesis(g.w, old(g.abs), b)
  {
    hide Inv, FieldsOk, Path, PoolOk, PersistExtension;
    ghost var s := g.abs;
    if b.Id() != GENESIS_HASH {
      return Rejected(GenesisHashMismatch);
    }
    ChainEnds(g.c, g.abs);
    if |g.blocks| != 0 {
      return Rejected(GenesisAlreadyApplied);
    }
    var cw := b.header.difficulty;
    GenesisInv(g.c, s);
    var written := g.ChainWrite();
    if !written {
      return Rejected(PersistenceFailed);
    }
    PutGenesis(g, b, cw, s);
    return CanonExtension(0);
  }

  /** The writes of the genesis branch, once the database has granted them. */
  method PutGenesis(g: ChainState, b: Block, cw: nat, ghost s: Node)
    requires g.Valid() && g.abs == Tick(s) && |g.blocks| == 0 && b.Id() == GENESIS_HASH
    requires s.known == map[] && Inv(g.c, WithGenesis(s)) && Chain(WithGenesis(s)) == [GenesisBlock()]
    requires cw == b.header.difficulty
    modifies g
    ensures g.disk == PersistExtension(old(g.disk), b) && g.snapshots == old(g.snapshots)
    ensures g.blocks == old(g.blocks) + [b] && g.canonIndex == old(g.canonIndex)[b.Id() := b.Height()]
    ensures g.cumulativeWork == old(g.cumulativeWork)[b.Id() := cw] && g.seenBlocks == old(g.seenBlocks) + {b.Id()}
    ensures b == GenesisBlock() ==> g.Valid() && g.abs == WithGenesis(s)
  {
    hide Inv, FieldsOk, Path, PoolOk, PersistExtension;
    GenesisFields(g);
    PushGenesis(g, b, cw);
    if b == GenesisBlock() {
      g.abs := WithGenesis(s);
      assert g.abs == g.Reading(map[b.Id() := b], b.Id());
    }
  }

  /** The field updates of the genesis branch. */
  method PushGenesis(g: ChainState, b: Block, cw: nat)
    modifies g`disk, g`writes, g`pendingReorgRecovery, g`cumulativeWork, g`seenBlocks, g`canonIndex, g`blocks
    ensures g.disk == PersistExtension(old(g.disk), b) && g.writes == old(g.writes) + [Write(g.disk, b.Id())]
    ensures g.blocks == old(g.blocks) + [b] && g.canonIndex == old(g.canonIndex)[b.Id() := b.Height()]
    ensures g.cumulativeWork == old(g.cumulativeWork)[b.Id() := cw] && g.seenBlocks == old(g.seenBlocks) + {b.Id()}
    ensures g.pendingReorgRecovery == None
  {
    hide PersistExtension, IndexOk, Positioned, AllResolve;
    g.Put(PersistExtension(g.disk, b), b.Id());
    PushCanonical(g, b, cw);
  }

  lemma GenesisFields(g: ChainState)
    requires g.Valid() && |g.blocks| == 0
    ensures var b := GenesisBlock();
            && g.blocks + [b] == [b]
            && FieldsOk(g.c, map[b.Id() := b], g.blocks + [b], g.canonIndex[b.Id() := b.Height()], g.sideBlocks,
                        Ledger(g.balances, g.nonces))
  {
    hide PoolOk, Exec, Same, Judged, Rooted, TableOk;
    ChainEnds(g.c, g.abs);
    GenesisExecutes(g.c);
    EmptyExec(g.c);
    assert g.blocks + [GenesisBlock()] == [GenesisBlock()];
  }

  /** The work on record for a hash. */
  method WorkOf(g: ChainState, h: Hash) returns (n: nat)
    ensures n == Recorded(g.cumulativeWork, h)
  {
    n := if h in g.cumulativeWork then g.cumulativeWork[h] else 0;
  }

  /** Place a validated child: on the tip, or on the side with a possible switch. */
  method IntegrateBlock(g: ChainState, b: Block, cw: nat, tipWork: nat, state: TxExecutionState)
    returns (how: Placement)
    requires g.Valid() && Fit(g.c, g.abs.known, b)
    requires cw == Recorded(g.abs.work, b.Parent()) + b.header.difficulty && tipWork == Recorded(g.abs.work, g.abs.tip)
    requires b.Parent() == g.abs.tip ==> LedgerOk(g.c, g.blocks + [b], state.View())
    modifies g
    ensures g.Valid() && KeepsSnapshots(g.abs.known, old(g.snapshots), g.snapshots)
    ensures (g.abs, how) == Integrate(g.c, g.w, old(g.abs), b)
  {
    hide Inv, PoolOk, FieldsOk, Path, Recorded, Fit, LedgerOk, ExtendBy, StoreAside, MoveTo, Outweighs, SmallSnapshots;
    var tip := g.TipHash();
    if b.Parent() == tip {
      var written := ExtendTip(g, b, cw, state);
      how := if written then Extended else Refused;
    } else {
      how := PlaceOnSide(g, b, cw, tipWork);
    }
  }

  /** Stages 3 to 6 for a block whose parent is known. Nothing is changed but
      the count of clock readings; what passes is valid on its parent, and comes
      with the account state of the extended chain. */
  method ValidateChild(g: ChainState, b: Block) returns (r: Result<TxExecutionState, Reason>)
    requires g.Valid() && b.Height() > 0 && Shape(g.c, b) == None && b.Parent() in g.abs.known
    modifies g`ticks, g`abs
    ensures g.Valid() && (g.abs == old(g.abs) || g.abs == Tick(old(g.abs)))
    ensures r.Success? <==>
            && ValidOn(g.c, Path(g.abs.known, b.Parent()), b)
            && b.header.timestamp <= g.w.clock(old(g.ticks)) + MAX_FUTURE_TIMESTAMP_SECS
    ensures match r
            case Failure(e) => AdmitChild(g.c, g.w, old(g.abs), b) == Settled(g.abs, Rejected(e))
            case Success(state) =>
              && fresh(state) && g.abs == Tick(old(g.abs)) && ValidOn(g.c, Path(g.abs.known, b.Parent()), b)
              && AdmitChild(g.c, g.w, old(g.abs), b) == IntegrateResult(Integrate(g.c, g.w, g.abs, b), b)
              && (b.Parent() == g.abs.tip ==> LedgerOk(g.c, g.blocks + [b], state.View()))
  {
    hide Inv, PoolOk, FieldsOk, Path, Integrate, HeaderError, Exec, Settle, ValidOn, LedgerOk;
    ShapeHasCoinbase(g.c, b);
    ParentEnds(g, b);
    var parent := g.BlockByHash(b.Parent());
    if b.header.timestamp <= parent.value.header.timestamp {
      return Failure(TimestampNotMonotonic);
    }
    var now := g.Now();
    if b.header.timestamp > now + MAX_FUTURE_TIMESTAMP_SECS {
      return Failure(TooFarInFuture);
    }
    var headerError := CheckHeader(g, b);
    if headerError.Some? {
      return Failure(headerError.value);
    }
    var executed := ExecuteOnParent(g, b);
    match executed {
      case Failure(e) => return Failure(e);
      case Success(_) =>
    }
    Validated(g, b, executed.value.View());
    return executed;
  }

  lemma ParentEnds(g: ChainState, b: Block)
    requires g.Valid() && b.Parent() in g.abs.known
    ensures var path := Path(g.abs.known, b.Parent());
            ValidOn(g.c, path, b) ==> b.header.timestamp > g.abs.known[b.Parent()].header.timestamp
                                      && HeaderError(g.c, path, b) == None && Exec(g.c, path).Success?
                                      && Settle(g.c, Exec(g.c, path).value, b).Success?
  {
    hide TreeInv, TableOk, PoolOk, FieldsOk, Path, HeaderError, Settle, Exec;
    PathEnds(g.abs.known, b.Parent());
    if b.Height() > 0 && Shape(g.c, b) == None {
      ShapeHasCoinbase(g.c, b);
    }
  }

  /** A block that passed every stage is valid on its parent, and its ledger is
      what the extended chain produces. */
  lemma Validated(g: ChainState, b: Block, l: Ledger)
    requires g.Valid() && b.Height() > 0 && Shape(g.c, b) == None
    requires b.Parent() in g.abs.known && |b.txs| > 0
    requires b.header.timestamp > g.abs.known[b.Parent()].header.timestamp
    requires HeaderError(g.c, Path(g.abs.known, b.Parent()), b) == None
    requires Exec(g.c, Path(g.abs.known, b.Parent())).Success?
    requires var settled := Settle(g.c, Exec(g.c, Path(g.abs.known, b.Parent())).value, b);
             settled.Success? && Same(l, settled.value)
    ensures ValidOn(g.c, Path(g.abs.known, b.Parent()), b)
    ensures b.Parent() == g.abs.tip ==> LedgerOk(g.c, g.blocks + [b], l)
  {
    hide TreeInv, TableOk, PoolOk, FieldsOk, Path, HeaderError, Settle, Same, Exec, ValidOn;
    ChildIsValid(g.c, g.abs, b);
    ValidExtends(g.c, Path(g.abs.known, b.Parent()), b);
  }

  /** Stages 3 to 8 for a block whose parent is known. */
  method AdmitChildBlock(g: ChainState, b: Block) returns (r: AcceptResult, placed: bool)
    requires g.Valid() && Proper(g.c, b) && b.Height() > 0 && Shape(g.c, b) == None
    requires b.Id() !in g.abs.seen && b.Parent() in g.abs.known
    modifies g
    ensures g.Valid() && KeepsSnapshots(g.abs.known, old(g.snapshots), g.snapshots)
    ensures AdmitChild(g.c, g.w, old(g.abs), b) == if placed then Integrated(g.abs, r) else Settled(g.abs, r)
  {
    hide Inv, PoolOk, FieldsOk, Path, Recorded, Integrate, AdmitChild, Proper, ValidOn, LedgerOk, Fit, SmallSnapshots,
      Young;
    var tip := g.TipHash();
    var tipWork := WorkOf(g, tip);
    var parentWork := WorkOf(g, b.Parent());
    var cw := parentWork + b.header.difficulty;
    ghost var s := g.abs;
    var validated := ValidateChild(g, b);
    match validated {
      case Failure(e) => return Rejected(e), false;
      case Success(state) =>
        UnseenFits(g.c, g.abs, b);
        var how := IntegrateBlock(g, b, cw, tipWork, state);
        match how {
          case Refused => return Rejected(PersistenceFailed), false;
          case Extended => return CanonExtension(b.Height()), true;
          case SideOnly => return SideChain(b.Height()), true;
        }
    }
  }

  /** Everything acceptance does with a block before promoting orphans. */
  method AdmitBlock(g: ChainState, b: Block, peer: string) returns (r: AcceptResult, placed: bool)
    requires g.Valid() && Proper(g.c, b) && Trusted(g.abs, b)
    modifies g
    ensures g.Valid() && KeepsSnapshots(g.abs.known, old(g.snapshots), g.snapshots)
    ensures Admit(g.c, g.w, old(g.abs), b, peer) == if placed then Integrated(g.abs, r) else Settled(g.abs, r)
  {
    hide Inv, PoolOk, Path, Proper, Trusted, ApplyGenesis, AddOrphan, AdmitChild, TxRoot, IndexOk, LedgerOk,
      SmallSnapshots, Young, PersistExtension;
    if b.weight > BLOCK_WEIGHT_LIMIT {
      return Rejected(Overweight), false;
    }
    if b.header.txRoot != TxRoot(g.c, b.txs) {
      return Rejected(TxRootMismatch), false;
    }
    if b.Height() > 0 {
      if |b.txs| == 0 {
        return Rejected(MissingCoinbase), false;
      }
      if b.txs[0].moduleName != "coinbase" || b.txs[0].methodName != "reward" {
        return Rejected(FirstTxNotCoinbase), false;
      }
    }
    if b.Id() in g.seenBlocks {
      return Rejected(Duplicate), false;
    }
    if b.Height() == 0 {
      r := AdmitGenesis(g, b);
      return r, false;
    }
    IndexKnown(g);
    if b.Parent() !in g.canonIndex && b.Parent() !in g.sideBlocks {
      AddToPool(g, b, peer);
      return StoredOrphan(b.Id()), false;
    }
    r, placed := AdmitChildBlock(g, b);
  }

  /** Take a whole bucket out of the pool. */
  method TakeBucketFrom(g: ChainState, parent: Hash) returns (waiting: seq<Orphan>)
    requires g.Valid() && parent in g.orphanPool
    modifies g`orphanPool, g`abs
    ensures g.Valid() && g.abs == TakeBucket(old(g.abs), parent)
    ensures waiting == old(g.orphanPool[parent]) && |waiting| > 0 && AllWait(g.c, waiting)
    ensures forall i | 0 <= i < |waiting| :: waiting[i].block.Parent() == parent
    ensures Size(g.abs.orphans.pool) + |waiting| == Size(old(g.abs.orphans.pool))
  {
    hide TreeInv, Exact, Offset, Mixed, FieldsOk, Path, Waits, Size;
    SameTable(g.abs, TakeBucket(g.abs, parent));
    SizeWithout(g.orphanPool, parent);
    waiting := g.orphanPool[parent];
    g.orphanPool := g.orphanPool - {parent};
    g.abs := TakeBucket(g.abs, parent);
  }

  method DropFromIndex(g: ChainState, h: Hash)
    requires g.Valid()
    modifies g`orphanByHash, g`abs
    ensures g.Valid() && g.abs == DropReverse(old(g.abs), h)
  {
    hide TreeInv, Exact, Offset, Mixed, FieldsOk, Path, PoolOk;
    SameTable(g.abs, DropReverse(g.abs, h));
    g.orphanByHash := g.orphanByHash - {h};
    g.abs := DropReverse(g.abs, h);
  }

  // --- Acceptance and promotion ---

  /** The single entry point for blocks. */
  method ApplyBlock(g: ChainState, b: Block, peer: string) returns (r: AcceptResult)
    requires g.Valid() && Proper(g.c, b) && Trusted(g.abs, b)
    modifies g
    ensures g.Valid() && (g.abs, r) == Apply(g.c, g.w, old(g.abs), b, peer)
    ensures Grows(old(g.abs.known), g.abs.known) && KeepsSnapshots(g.abs.known, old(g.snapshots), g.snapshots)
    decreases Size(g.abs.orphans.pool), 2, 0
  {
    hide Inv, FieldsOk, Path, Proper, Trusted, Admit, Size, Promote, KeepsSnapshots, Safe, Sorted, PoolProper;
    ghost var s := g.abs;
    AdmitKeepsSize(g.c, g.w, s, b, peer);
    AdmitBasics(g.c, g.w, s, b, peer);
    ApplySafe(g.c, g.w, s, b, peer);
    SafeInv(g.c, g.w, s, Apply(g.c, g.w, s, b, peer).0);
    ghost var before := g.snapshots;
    var placed;
    r, placed := AdmitBlock(g, b, peer);
    if placed {
      ghost var known, between := g.abs.known, g.snapshots;
      ProcessOrphans(g, b.Id());
      KeepsSnapshotsOn(known, g.abs.known, before, between, g.snapshots);
    }
  }

  /** Re-submit the blocks that were waiting for this one. */
  method ProcessOrphans(g: ChainState, parent: Hash)
    requires g.Valid() && parent in g.abs.known
    modifies g
    ensures g.Valid() && g.abs == Promote(g.c, g.w, old(g.abs), parent)
    ensures Grows(old(g.abs.known), g.abs.known) && KeepsSnapshots(g.abs.known, old(g.snapshots), g.snapshots)
    decreases Size(g.abs.orphans.pool), 1, 0
  {
    hide Inv, FieldsOk, Path, Proper, Apply, PoolProper, Sorted, Size, Promote, PromoteAll, SmallSnapshots, Young,
      Grows, KeepsSnapshots;
    ghost var s := g.abs;
    PromoteIs(g.c, g.w, s, parent);
    NothingSaved(s.known, g.snapshots);
    if parent !in g.orphanPool {
      return;
    }
    var waiting := TakeBucketFrom(g, parent);
    ghost var goal := PromoteAll(g.c, g.w, g.abs, waiting);
    ghost var before := g.snapshots;
    var i := 0;
    while i < |waiting|
      invariant 0 <= i <= |waiting|
      invariant g.Valid()
      invariant Size(g.abs.orphans.pool) + |waiting| <= Size(s.orphans.pool)
      invariant AllWait(g.c, waiting)
      invariant Grows(s.known, g.abs.known) && KeepsSnapshots(g.abs.known, before, g.snapshots)
      invariant forall j | 0 <= j < |waiting| :: waiting[j].block.Parent() in g.abs.known
      invariant PromoteAll(g.c, g.w, g.abs, waiting[i..]) == goal
    {
      var orphan := waiting[i];
      ghost var known, between := g.abs.known, g.snapshots;
      PromoteNext(g.c, g.w, g.abs, waiting, i);
      DropFromIndex(g, orphan.block.Id());
      var _ := ApplyBlock(g, orphan.block, orphan.peer);
      KeepsSnapshotsOn(known, g.abs.known, before, between, g.snapshots);
      GrowsOn(s.known, known, g.abs.known);
      i := i + 1;
    }
    NoneLeft(g.c, g.w, g.abs, waiting);
  }

  /** Where nothing has happened, nothing was saved. */
  lemma NothingSaved(known: map<Hash, Block>, sn: Snapshots)
    ensures Grows(known, known) && KeepsSnapshots(known, sn, sn)
  {
  }

  lemma GrowsOn(known: map<Hash, Block>, later: map<Hash, Block>, last: map<Hash, Block>)
    requires Grows(known, later) && Grows(later, last)
    ensures Grows(known, last)
  {
  }

  lemma PromoteNext(c: Crypto, w: World, s: Node, waiting: seq<Orphan>, i: nat)
    requires Sorted(s.orphans.pool) && i < |waiting|
    requires forall j | 0 <= j < |waiting| :: waiting[j].block.Parent() in s.known
    ensures var first := waiting[i];
            var next := Apply(c, w, DropReverse(s, first.block.Id()), first.block, first.peer).0;
            && Sorted(next.orphans.pool) && s.known.Keys <= next.known.Keys
            && Size(next.orphans.pool) <= Size(s.orphans.pool)
            && PromoteAll(c, w, s, waiting[i..]) == PromoteAll(c, w, next, waiting[i + 1..])
  {
    hide Apply;
    assert waiting[i..][0] == waiting[i] && waiting[i..][1..] == waiting[i + 1..];
  }

  lemma NoneLeft(c: Crypto, w: World, s: Node, waiting: seq<Orphan>)
    requires Sorted(s.orphans.pool)
    ensures PromoteAll(c, w, s, waiting[|waiting|..]) == s
  {
  }
}
