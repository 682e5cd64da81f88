/** Block numbers nobody has checked: acceptance takes a valid child of the tip
    whatever its number, and what becomes of the node, its database and the
    waiting blocks then.
 */
module Numbering {
  import opened Base
  import opened Ledgers
  import opened BlockTree
  import opened Validity
  import opened OrphanPool
  import opened ChainDisk
  import opened Works
  import opened Consensus
  import opened Tables
  import opened Invariants
  import opened ChainStates
  import opened Replay
  import opened Accept
  import opened ApplyBlocks
  import opened PlainBlocks

  // --- Taking the block ---

  /** What acceptance asks of a child of the tip. */
  ghost predicate Takes(c: Crypto, w: World, ticks: nat, seen: set<Hash>, path: seq<Block>, b: Block) {
    && b.Id() !in seen && ValidOn(c, path, b)
    && b.header.timestamp <= w.clock(ticks) + MAX_FUTURE_TIMESTAMP_SECS && w.dbOk(ticks + 1)
  }

  /** A child of the tip that arrives without anyone having checked its number,
      up to the promotion of orphans. Acceptance takes it under just the
      conditions under which it takes any block; but positions, and with them
      what the index resolves to and what a restart reads, stay right exactly
      when the number is the position. */
  method AcceptOnTip(g: ChainState, b: Block) returns (r: AcceptResult)
    requires g.Valid() && g.abs.known != map[] && b.Parent() == g.abs.tip && b.Height() > 0
    modifies g
    ensures if Takes(g.c, g.w, old(g.ticks), old(g.seenBlocks), old(g.blocks), b) then r == CanonExtension(b.Height())
            else r.Rejected? && g.Valid() && g.blocks == old(g.blocks) && g.disk == old(g.disk)
    ensures r.CanonExtension? ==>
              && g.blocks == old(g.blocks) + [b] && g.canonIndex == old(g.canonIndex)[b.Id() := b.Height()]
              && g.seenBlocks == old(g.seenBlocks) + {b.Id()} && g.disk == PersistExtension(old(g.disk), b)
              && (Positioned(g.blocks) <==> b.Height() == |old(g.blocks)|)
              && (AllResolve(g.blocks, g.canonIndex, g.sideBlocks) <==> b.Height() == |old(g.blocks)|)
              && (ResolveBlock(g.blocks, g.canonIndex, g.sideBlocks, b.Id()) == None <==> b.Height() > |old(g.blocks)|)
    ensures r.CanonExtension? ==>
              LedgerOk(g.c, g.blocks, Ledger(g.balances, g.nonces)) && g.ticks == old(g.ticks) + 2
    ensures g.orphanPool == old(g.orphanPool) && g.orphanByHash == old(g.orphanByHash)
  {
    hide Inv, PoolOk, FieldsOk, Path, LedgerOk, ValidOn, Integrate, AdmitChild, Recorded, Fit, KeepsSnapshots, ExtendBy,
      IndexOk, Positioned, AllResolve, ResolveBlock, PersistExtension, Unplaced, Shape;
    TipIsKnown(g.c, g.abs);
    TipPositions(g);
    OnlyValid(g.c, g.blocks, b);
    if Shape(g.c, b).Some? {
      return Rejected(Shape(g.c, b).value);
    }
    if b.Id() in g.seenBlocks {
      return Rejected(Duplicate);
    }
    NotPlaced(g, b);
    var parentWork := WorkOf(g, b.Parent());
    var cw := parentWork + b.header.difficulty;
    var validated := ValidateChild(g, b);
    match validated {
      case Failure(e) =>
        return Rejected(e);
      case Success(state) =>
        PushedExactly(g.blocks, g.canonIndex, g.sideBlocks, b);
        var written := ExtendTip(g, b, cw, state);
        return if written then CanonExtension(b.Height()) else Rejected(PersistenceFailed);
    }
  }

  lemma OnlyValid(c: Crypto, path: seq<Block>, b: Block)
    ensures ValidOn(c, path, b) ==> Shape(c, b) == None
  {
    hide Shape, Verdict;
  }

  /** Of what is not yet seen only genesis can be in the index, at height 0. */
  lemma NotPlaced(g: ChainState, b: Block)
    requires g.Valid() && b.Id() !in g.seenBlocks && b.Height() > 0
    ensures Unplaced(g.canonIndex, b)
  {
    hide PoolOk, SideOk, LedgerOk, Path, TreeInv, TableOk;
    if b.Id() in g.canonIndex {
      IndexKnown(g);
      ChainLinked(g.c, g.abs);
      assert g.blocks[0] == GenesisBlock();
    }
  }

  lemma TipPositions(g: ChainState)
    requires g.Valid()
    ensures Positioned(g.blocks) && IndexOk(g.blocks, g.canonIndex)
  {
    hide PoolOk, SideOk, LedgerOk, Path, Inv;
    ChainLinked(g.c, g.abs);
  }

  /** What a restart reads of the database that such a block has left. */
  lemma NumberedReload(g: ChainState, b: Block)
    requires g.Valid() && g.abs.known != map[] && DiskOk(g.abs) && b.Id() !in g.canonIndex
    ensures var d := PersistExtension(g.disk, b);
            && (Load(d) == Success(g.blocks + [b]) <==> b.Height() == |g.blocks|)
            && (b.Height() < |g.blocks| ==> Load(d) == Success(g.blocks[..b.Height()] + [b]))
            && (b.Height() > |g.blocks| && Tidy(g.abs) ==> Load(d) == Failure(HeightMissing(|g.blocks|)))
  {
    hide Inv, PoolOk, SideOk, LedgerOk, Path, Load, PersistExtension, Describes, NoneAbove;
    NotOnChain(g, b.Id());
    ExtensionReadsBack(g.disk, g.blocks, b);
  }

  lemma NotOnChain(g: ChainState, h: Hash)
    requires g.Valid() && h !in g.canonIndex
    ensures !OnPath(g.blocks, h)
  {
    hide Inv, PoolOk, SideOk, LedgerOk, Path;
  }

  // --- The blocks that were waiting ---

  /** How a submission ends: with a result, or not at all. */
  datatype Submission = Returned(result: AcceptResult) | Panicked

  /** A block whose parent is in the index and resolves to nothing. Acceptance has
      taken the index for proof that the parent can be read. */
  method SubmitUnresolved(g: ChainState, b: Block) returns (r: Submission)
    requires b.Height() > 0 && b.Parent() in g.canonIndex
    requires ResolveBlock(g.blocks, g.canonIndex, g.sideBlocks, b.Parent()) == None
    ensures r.Panicked? <==> Shape(g.c, b) == None && b.Id() !in g.seenBlocks
    ensures r.Returned? ==> r.result.Rejected?
  {
    hide Shape;
    if Shape(g.c, b).Some? {
      return Returned(Rejected(Shape(g.c, b).value));
    }
    if b.Id() in g.seenBlocks {
      return Returned(Rejected(Duplicate));
    }
    return Panicked;
  }

  /** One of these blocks would get past the checks that need no parent. */
  ghost predicate AnyStops(c: Crypto, entries: seq<Orphan>, seen: set<Hash>) {
    exists i :: 0 <= i < |entries| && Shape(c, entries[i].block) == None && entries[i].block.Id() !in seen
  }

  /** Promotion of the blocks that waited for a hash which resolves to nothing. */
  method PromoteUnresolved(g: ChainState, parent: Hash) returns (panicked: bool)
    requires parent in g.canonIndex && ResolveBlock(g.blocks, g.canonIndex, g.sideBlocks, parent) == None
    requires parent in g.orphanPool ==>
               forall i | 0 <= i < |g.orphanPool[parent]| ::
                 g.orphanPool[parent][i].block.Parent() == parent && g.orphanPool[parent][i].block.Height() > 0
    modifies g`orphanPool, g`orphanByHash
    ensures panicked <==> parent in old(g.orphanPool) && AnyStops(g.c, old(g.orphanPool)[parent], g.seenBlocks)
    ensures g.orphanPool == old(g.orphanPool) - {parent}
  {
    hide Shape, ResolveBlock;
    if parent !in g.orphanPool {
      assert g.orphanPool - {parent} == g.orphanPool;
      return false;
    }
    var waiting := g.orphanPool[parent];
    g.orphanPool := g.orphanPool - {parent};
    for i := 0 to |waiting|
      invariant g.orphanPool == old(g.orphanPool) - {parent}
      invariant forall j | 0 <= j < i ::
                  Shape(g.c, waiting[j].block).Some? || waiting[j].block.Id() in g.seenBlocks
    {
      g.orphanByHash := g.orphanByHash - {waiting[i].block.Id()};
      var one := SubmitUnresolved(g, waiting[i].block);
      if one.Panicked? {
        return true;
      }
    }
    return false;
  }

  /** A child of the tip numbered above its position, promotion included. It is
      accepted like any other; then the node panics exactly when a well-formed
      block was waiting for it, and either way a restart no longer loads. */
  method SubmitNumberedHigh(g: ChainState, b: Block) returns (r: Submission)
    requires g.Valid() && g.abs.known != map[] && DiskOk(g.abs) && Tidy(g.abs)
    requires b.Parent() == g.abs.tip && b.Height() > |g.blocks| && b.Id() !in g.canonIndex
    modifies g
    ensures var takes := Takes(g.c, g.w, old(g.ticks), old(g.seenBlocks), old(g.blocks), b);
            var stops := b.Id() in old(g.orphanPool)
                         && AnyStops(g.c, old(g.orphanPool)[b.Id()], old(g.seenBlocks) + {b.Id()});
            && (r == Returned(CanonExtension(b.Height())) <==> takes && !stops)
            && (r == Panicked <==> takes && stops)
            && (takes ==> g.blocks == old(g.blocks) + [b] && Load(g.disk) == Failure(HeightMissing(|old(g.blocks)|)))
            && (!takes ==> g.Valid() && g.blocks == old(g.blocks) && g.disk == old(g.disk))
  {
    hide Inv, PoolOk, FieldsOk, Path, Takes, AnyStops, Positioned, AllResolve, ResolveBlock, PersistExtension, Load,
      DiskOk, Describes;
    BucketWaits(g, b.Id());
    NumberedReload(g, b);
    var accepted := AcceptOnTip(g, b);
    if !accepted.CanonExtension? {
      return Returned(accepted);
    }
    var panicked := PromoteUnresolved(g, b.Id());
    return if panicked then Panicked else Returned(accepted);
  }

  lemma BucketWaits(g: ChainState, h: Hash)
    requires g.Valid()
    ensures h in g.orphanPool ==>
              forall i | 0 <= i < |g.orphanPool[h]| ::
                g.orphanPool[h][i].block.Parent() == h && g.orphanPool[h][i].block.Height() > 0
  {
    hide Inv, FieldsOk, Path, Proper;
  }

  // --- On top of a block numbered too low ---

  /** Stages 3 to 6 for a child of the last block, on fields of which nothing is
      asked but that the parent's hash resolves to some block. */
  method ValidateOnTip(g: ChainState, e: Block) returns (r: Result<TxExecutionState, Reason>)
    requires |g.blocks| > 0 && e.Parent() == g.blocks[|g.blocks| - 1].Id() && e.Height() > 0 && |e.txs| > 0
    requires ResolveBlock(g.blocks, g.canonIndex, g.sideBlocks, e.Parent()).Some?
    modifies g`ticks
    ensures r.Success? <==>
            && e.header.timestamp
               > ResolveBlock(g.blocks, g.canonIndex, g.sideBlocks, e.Parent()).value.header.timestamp
            && e.header.timestamp <= g.w.clock(old(g.ticks)) + MAX_FUTURE_TIMESTAMP_SECS
            && HeaderErrorOn(g.c, WalkBack(g.blocks, g.canonIndex, g.sideBlocks, e.Parent(), RETARGET_WINDOW + 1), e)
               == None
            && Settle(g.c, Ledger(g.balances, g.nonces), e).Success?
  {
    hide Inv, PoolOk, FieldsOk, Path, ResolveBlock, WalkBack, HeaderErrorOn, Settle;
    var parent := g.BlockByHash(e.Parent());
    if e.header.timestamp <= parent.value.header.timestamp {
      return Failure(TimestampNotMonotonic);
    }
    var now := g.w.clock(g.ticks);
    g.ticks := g.ticks + 1;
    if e.header.timestamp > now + MAX_FUTURE_TIMESTAMP_SECS {
      return Failure(TooFarInFuture);
    }
    var headerError := CheckHeader(g, e);
    if headerError.Some? {
      return Failure(headerError.value);
    }
    var state := new TxExecutionState(g.balances, g.nonces);
    r := SettleInPlace(g.c, e, state);
  }

  /** The walk over a chain under its own hashes, an entry of the index moved that
      none of its blocks has. */
  lemma {:induction false} WalkOnChain(blocks: seq<Block>, index: map<Hash, nat>, side: map<Hash, Block>, b: Block,
                                       i: nat, n: nat)
    requires IndexOk(blocks, index) && Linked(blocks) && b.Id() !in index && i < |blocks|
    ensures WalkBack(blocks + [b], index[b.Id() := b.Height()], side, blocks[i].Id(), n)
            == Ancestors(blocks[..i + 1], n)
    decreases n
  {
    hide AllZeros, IndexOk, Linked, ResolveBlock, Ancestors;
    if n > 0 {
      ResolvesOwn(blocks, index, side, b, i);
      AncestorsStep(blocks[..i + 1], n);
      assert blocks[..i + 1][..i] == blocks[..i];
      LinkedBelow(blocks, i);
      if i > 0 {
        WalkOnChain(blocks, index, side, b, i - 1, n - 1);
      }
    } else {
      NoAncestors(blocks[..i + 1]);
    }
  }

  lemma ResolvesOwn(blocks: seq<Block>, index: map<Hash, nat>, side: map<Hash, Block>, b: Block, i: nat)
    requires IndexOk(blocks, index) && b.Id() !in index && i < |blocks|
    ensures ResolveBlock(blocks + [b], index[b.Id() := b.Height()], side, blocks[i].Id()) == Some(blocks[i])
  {
  }

  lemma LinkedBelow(blocks: seq<Block>, i: nat)
    requires Linked(blocks) && i < |blocks|
    ensures if i == 0 then AllZeros(blocks[i].Parent()) else blocks[i].Parent() == blocks[i - 1].Id()
  {
    hide AllZeros;
    GenesisParent();
  }

  lemma GenesisParent()
    ensures AllZeros(GenesisBlock().Parent())
  {
  }

  /** The hash of a block numbered too low leads to the older block at its number,
      and the walk from there runs down the chain below. */
  lemma LoweredWalk(blocks: seq<Block>, index: map<Hash, nat>, side: map<Hash, Block>, b: Block, n: nat)
    requires IndexOk(blocks, index) && Linked(blocks) && b.Id() !in index && 0 < b.Height() < |blocks|
    ensures var more, later := blocks + [b], index[b.Id() := b.Height()];
            && ResolveBlock(more, later, side, b.Id()) == Some(blocks[b.Height()])
            && WalkBack(more, later, side, b.Id(), n) == Ancestors(blocks[..b.Height() + 1], n)
  {
    hide AllZeros, IndexOk;
    var k := b.Height();
    assert (blocks + [b])[k] == blocks[k];
    WalkOnChain(blocks, index, side, b, k, n);
    if n > 0 {
      assert OwnEntry(blocks, index, k) by { EntryOf(blocks, index, k); }
    }
  }

  ghost predicate OwnEntry(blocks: seq<Block>, index: map<Hash, nat>, k: nat)
    requires k < |blocks|
  {
    blocks[k].Id() in index && index[blocks[k].Id()] == k
  }

  lemma EntryOf(blocks: seq<Block>, index: map<Hash, nat>, k: nat)
    requires IndexOk(blocks, index) && k < |blocks|
    ensures OwnEntry(blocks, index, k)
  {
  }

  /** What a child of a block numbered too low has to meet: the timestamp and the
      retarget of the older block with that number, but the accounts of the whole
      chain with the misnumbered block on top. */
  ghost predicate FitsLowered(c: Crypto, w: World, ticks: nat, blocks: seq<Block>, b: Block, e: Block)
    requires b.Height() < |blocks| && e.Height() > 0 && |e.txs| > 0
  {
    && e.header.timestamp > blocks[b.Height()].header.timestamp
    && e.header.timestamp <= w.clock(ticks + 2) + MAX_FUTURE_TIMESTAMP_SECS
    && HeaderError(c, blocks[..b.Height() + 1], e) == None
    && Exec(c, blocks + [b]).Success? && Settle(c, Exec(c, blocks + [b]).value, e).Success?
  }

  /** A child of the tip numbered below its position, and then a child of that: the
      first is taken like any other, the second judged against a parent that is
      not its own. */
  method SubmitNumberedLow(g: ChainState, b: Block, e: Block) returns (taken: bool, fits: bool)
    requires g.Valid() && g.abs.known != map[] && b.Parent() == g.abs.tip && b.Id() !in g.canonIndex
    requires 0 < b.Height() < |g.blocks| && e.Parent() == b.Id() && e.Height() > 0
    modifies g
    ensures taken <==> Takes(g.c, g.w, old(g.ticks), old(g.seenBlocks), old(g.blocks), b)
    ensures taken ==>
              (fits <==> && Shape(g.c, e) == None && e.Id() !in old(g.seenBlocks) + {b.Id()} && |e.txs| > 0
                         && FitsLowered(g.c, g.w, old(g.ticks), old(g.blocks), b, e))
  {
    hide Inv, PoolOk, SideOk, Path, Takes, Positioned, AllResolve, ResolveBlock, PersistExtension, Shape, LedgerOk,
      IndexOk, FitsLowered;
    ghost var blocks, index, ticks, seen := g.blocks, g.canonIndex, g.ticks, g.seenBlocks;
    TipPositions(g);
    ChainLinked(g.c, g.abs);
    var accepted := AcceptOnTip(g, b);
    if !accepted.CanonExtension? {
      return false, false;
    }
    fits := JudgeOnLowered(g, b, e, blocks, index, ticks);
    return true, fits;
  }

  /** The child, once the misnumbered block is in. */
  method JudgeOnLowered(g: ChainState, b: Block, e: Block, ghost blocks: seq<Block>, ghost index: map<Hash, nat>,
                        ghost ticks: nat)
    returns (fits: bool)
    requires IndexOk(blocks, index) && Linked(blocks) && b.Id() !in index && 0 < b.Height() < |blocks|
    requires g.blocks == blocks + [b] && g.canonIndex == index[b.Id() := b.Height()] && g.ticks == ticks + 2
    requires LedgerOk(g.c, g.blocks, Ledger(g.balances, g.nonces)) && e.Parent() == b.Id() && e.Height() > 0
    modifies g`ticks
    ensures fits <==> && Shape(g.c, e) == None && e.Id() !in g.seenBlocks && |e.txs| > 0
                      && FitsLowered(g.c, g.w, ticks, blocks, b, e)
  {
    hide Inv, PoolOk, FieldsOk, Path, ResolveBlock, WalkBack, Shape, HeaderErrorOn, Settle, LedgerOk, IndexOk, Exec,
      Ancestors, Linked;
    if Shape(g.c, e).Some? || e.Id() in g.seenBlocks {
      return false;
    }
    ShapeHasCoinbase(g.c, e);
    LoweredWalk(blocks, index, g.sideBlocks, b, RETARGET_WINDOW + 1);
    LedgerSettles(g.c, g.blocks, Ledger(g.balances, g.nonces), e);
    var judged := ValidateOnTip(g, e);
    return judged.Success?;
  }

  lemma LedgerSettles(c: Crypto, blocks: seq<Block>, l: Ledger, e: Block)
    requires LedgerOk(c, blocks, l)
    ensures Exec(c, blocks).Success?
    ensures Settle(c, l, e).Success? <==> Settle(c, Exec(c, blocks).value, e).Success?
  {
    hide Exec, Settle;
    SettleCongruent(c, l, Exec(c, blocks).value, e);
  }

  // --- When the number is as good as checked ---

  /** A block five heights above genesis that names genesis as its parent. */
  function GapBlock(): Block {
    PlainBlock(GENESIS_HASH, 0, 5, TARGET_BLOCK_TIME)
  }

  /** The gap is real: block five passes every stage on top of genesis. */
  lemma GapAccepted()
    ensures ValidOn(PlainCrypto(), [GenesisBlock()], GapBlock())
    ensures GapBlock().Parent() == GENESIS_HASH && GapBlock().Height() == 5 > |[GenesisBlock()]|
    ensures !Proper(PlainCrypto(), GapBlock())
  {
    hide ValidOn, PlainCrypto, Name;
    GenesisGood(PlainCrypto());
    PlainValid([GenesisBlock()], GapBlock(), 0, 5);
  }

  lemma GenesisGood(c: Crypto)
    ensures GoodChain(c, [GenesisBlock()]) && Steady([GenesisBlock()])
    ensures [GenesisBlock()][0].Id() == GENESIS_HASH
  {
    assert SteadyAt([GenesisBlock()], 0);
  }

  /** Digests bind the height they were computed for, and none is the hash of
      genesis; collision-free digests do. */
  ghost predicate DigestsBind(c: Crypto) {
    && (forall x, y :: c.digest(x).Some? && c.digest(y).Some? && c.digest(x).value.hex == c.digest(y).value.hex ==>
          x.number == y.number)
    && (forall x :: c.digest(x).Some? ==> c.digest(x).value.hex != GENESIS_HASH)
  }

  lemma ValidHash(c: Crypto, path: seq<Block>, b: Block)
    requires ValidOn(c, path, b)
    ensures var x := PowInputOf(b.header);
            c.digest(x).Some? && c.digest(x).value.hex == b.Id() && x.number == b.Height()
  {
    hide Shape, Exec, Settle, RequiredDifficulty, DistinctIds, BigEndian;
  }

  /** The hash a chain ends with fixes its length. */
  lemma SameEnd(c: Crypto, path: seq<Block>, other: seq<Block>)
    requires DigestsBind(c) && GoodChain(c, path) && GoodChain(c, other)
    requires path[|path| - 1].Id() == other[|other| - 1].Id()
    ensures |path| == |other|
  {
    hide ValidOn;
    EndHash(c, path);
    EndHash(c, other);
  }

  lemma EndHash(c: Crypto, path: seq<Block>)
    requires GoodChain(c, path)
    ensures |path| == 1 ==> path[|path| - 1].Id() == GENESIS_HASH
    ensures |path| > 1 ==>
              var x := PowInputOf(path[|path| - 1].header);
              c.digest(x).Some? && c.digest(x).value.hex == path[|path| - 1].Id() && x.number == |path| - 1
  {
    hide ValidOn;
    if |path| > 1 {
      assert ValidAt(c, path, |path| - 1);
      ValidHash(c, path[..|path| - 1], path[|path| - 1]);
    }
  }

  /** When digests bind heights, the check the callers owe comes down to the one
      they make: a block numbered one above its parent is proper. */
  lemma NumberedIsProper(c: Crypto, path: seq<Block>, b: Block)
    requires DigestsBind(c) && GoodChain(c, path) && path[|path| - 1].Id() == b.Parent()
    ensures b.Height() == |path| ==> Proper(c, b)
    ensures ValidOn(c, path, b) ==> (Proper(c, b) <==> b.Height() == |path|)
  {
    hide ValidOn, GoodChain;
    forall other: seq<Block> |
      GoodChain(c, other) && other != [] && other[|other| - 1].Id() == b.Parent() && ValidOn(c, other, b)
      ensures |other| == |path| && b.Id() != GENESIS_HASH
    {
      SameEnd(c, path, other);
      ValidHash(c, other, b);
    }
    NonEmpty(c);
  }

  lemma NonEmpty(c: Crypto)
    ensures forall path {:trigger GoodChain(c, path)} | GoodChain(c, path) :: path != []
  {
  }
}
