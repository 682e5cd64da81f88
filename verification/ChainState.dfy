/** The in-memory chain state: the real fields, and how they hang together with
    the abstract node they stand for.
 */
module ChainStates {
  import opened Base
  import opened Ledgers
  import opened BlockTree
  import opened OrphanPool
  import opened ChainDisk
  import opened Consensus
  import opened Tables
  import opened Invariants
  import opened Acceptance

  // --- How each field reads off the tree ---

  /** The index maps exactly the hashes of the canonical blocks to their positions. */
  ghost predicate IndexOk(blocks: seq<Block>, index: map<Hash, nat>) {
    && (forall i | 0 <= i < |blocks| :: blocks[i].Id() in index && index[blocks[i].Id()] == i)
    && (forall h | h in index :: index[h] < |blocks| && blocks[index[h]].Id() == h)
  }

  /** The side store holds exactly the known blocks that are not canonical. */
  ghost predicate SideOk(known: map<Hash, Block>, index: map<Hash, nat>, side: map<Hash, Block>) {
    && (forall h :: h in side <==> h in known && h !in index)
    && (forall h | h in side :: side[h] == known[h])
  }

  /** The ledger reads like the execution of the canonical blocks from genesis. */
  ghost predicate LedgerOk(c: Crypto, blocks: seq<Block>, l: Ledger) {
    Exec(c, blocks).Success? && Same(l, Exec(c, blocks).value)
  }

  /** The chain fields, for a tree and the chain to its tip. */
  ghost predicate FieldsOk(c: Crypto, known: map<Hash, Block>, blocks: seq<Block>, index: map<Hash, nat>,
                           side: map<Hash, Block>, l: Ledger)
  {
    && IndexOk(blocks, index)
    && SideOk(known, index, side)
    && LedgerOk(c, blocks, l)
  }

  ghost predicate PoolOk(c: Crypto, pool: map<Hash, seq<Orphan>>) {
    Sorted(pool) && PoolProper(c, pool)
  }

  datatype Snapshots = Snapshots(
    metadata: map<nat, (nat, Hash)>,
    roots: map<nat, string>,
    balances: map<nat, map<Address, u128>>,
    nonces: map<nat, map<Address, u64>>)

  /** What a hash resolves to. */
  function ResolveBlock(blocks: seq<Block>, index: map<Hash, nat>, side: map<Hash, Block>, h: Hash): Option<Block> {
    if h in index then if index[h] < |blocks| then Some(blocks[index[h]]) else None
    else if h in side then Some(side[h])
    else None
  }

  /** A node that knows nothing yet. */
  function EmptyNode(d: Disk, ticks: nat): Node {
    Node(map[], NullHash(), NO_ORPHANS, None, d, ticks, map[], {}, [])
  }

  class ChainState {
    const c: Crypto
    const w: World

    /** Canonical blocks, index 0 = genesis. */
    var blocks: seq<Block>
    var balances: map<Address, u128>
    var nonces: map<Address, u64>
    var seenBlocks: set<Hash>
    /** Valid blocks on non-canonical branches. */
    var sideBlocks: map<Hash, Block>
    /** Cumulative work ending at each known block. */
    var cumulativeWork: map<Hash, nat>
    var orphanPool: map<Hash, seq<Orphan>>
    var orphanByHash: map<Hash, Hash>
    /** Block hash to canonical height. */
    var canonIndex: map<Hash, nat>
    var pendingReorgRecovery: Option<Recovery>
    var disk: Disk
    var snapshots: Snapshots
    /** Clock readings and chain writes so far. */
    var ticks: nat

    /** The node these fields stand for. */
    ghost var abs: Node
    /** Every disk image left behind so far. */
    ghost var writes: seq<Write>

    ghost predicate Valid()
      reads this
    {
      && Inv(c, abs)
      && PoolOk(c, abs.orphans.pool)
      && blocks == Chain(abs)
      && FieldsOk(c, abs.known, blocks, canonIndex, sideBlocks, Ledger(balances, nonces))
      && abs == Reading(abs.known, abs.tip)
    }

    /** The node with this tree and tip, everything else as the fields have it. */
    ghost function Reading(known: map<Hash, Block>, tip: Hash): Node
      reads this
    {
      Node(known, tip, Orphans(orphanPool, orphanByHash), pendingReorgRecovery, disk, ticks, cumulativeWork, seenBlocks,
           writes)
    }

    /** An empty in-memory state on top of a database. */
    constructor (c: Crypto, w: World, disk: Disk, snapshots: Snapshots)
      ensures Valid()
      ensures this.c == c && this.w == w && this.snapshots == snapshots
      ensures abs == EmptyNode(disk, 0)
      ensures blocks == [] && balances == map[] && nonces == map[]
      ensures seenBlocks == {} && sideBlocks == map[] && cumulativeWork == map[] && canonIndex == map[]
    {
      this.c, this.w := c, w;
      blocks, balances, nonces := [], map[], map[];
      seenBlocks, sideBlocks, cumulativeWork := {}, map[], map[];
      orphanPool, orphanByHash, canonIndex := map[], map[], map[];
      pendingReorgRecovery := None;
      this.disk, this.snapshots, ticks := disk, snapshots, 0;
      writes := [];
      abs := EmptyNode(disk, 0);
    }

    /** The one place where the database changes: each write leaves an image
        behind, with the tip the node then has. */
    method Put(d: Disk, ghost tip: Hash)
      modifies this`disk, this`writes
      ensures disk == d && writes == old(writes) + [Write(d, tip)]
    {
      disk := d;
      writes := writes + [Write(d, tip)];
    }

    method CurrentHeight() returns (height: nat)
      ensures height == if |blocks| == 0 then 0 else blocks[|blocks| - 1].Height()
      ensures Valid() ==> height == if |blocks| == 0 then 0 else |blocks| - 1
    {
      hide PoolOk, FieldsOk, Path, TreeInv, TableOk;
      if Valid() {
        ChainLinked(c, abs);
      }
      if |blocks| == 0 {
        return 0;
      }
      return blocks[|blocks| - 1].Height();
    }

    method TipHash() returns (h: Hash)
      ensures h == if |blocks| == 0 then NullHash() else blocks[|blocks| - 1].Id()
      ensures Valid() ==> h == abs.tip
    {
      hide PoolOk, FieldsOk, Path, TreeInv, TableOk;
      if Valid() {
        ChainEnds(c, abs);
      }
      if |blocks| == 0 {
        return NullHash();
      }
      return blocks[|blocks| - 1].Id();
    }

    /** Canonical blocks first, then the side store. An index entry that points
        past the end of the chain finds nothing. */
    method BlockByHash(h: Hash) returns (b: Option<Block>)
      ensures b == ResolveBlock(blocks, canonIndex, sideBlocks, h)
      ensures Valid() ==> b == if h in abs.known then Some(abs.known[h]) else None
    {
      hide PoolOk, Path, TreeInv, TableOk, LedgerOk;
      if Valid() && h in canonIndex {
        ChainKnown(c, abs, canonIndex[h]);
      }
      if h in canonIndex {
        if canonIndex[h] < |blocks| {
          return Some(blocks[canonIndex[h]]);
        }
        return None;
      }
      if h in sideBlocks {
        return Some(sideBlocks[h]);
      }
      return None;
    }

    method Now() returns (t: Seconds)
      requires Valid()
      modifies this`ticks, this`abs
      ensures t == w.clock(old(ticks))
      ensures Valid() && abs == Tick(old(abs))
    {
      hide TreeInv, PoolOk, FieldsOk, Path, Exact, Offset, Mixed;
      SameTable(abs, Tick(abs));
      t := w.clock(ticks);
      ticks := ticks + 1;
      abs := Tick(abs);
    }

    /** Try the next chain write: whether the database takes it. */
    method ChainWrite() returns (ok: bool)
      requires Valid()
      modifies this`ticks, this`abs
      ensures ok == w.dbOk(old(ticks))
      ensures Valid() && abs == Tick(old(abs))
    {
      hide TreeInv, PoolOk, FieldsOk, Path, Exact, Offset, Mixed;
      SameTable(abs, Tick(abs));
      ok := w.dbOk(ticks);
      ticks := ticks + 1;
      abs := Tick(abs);
    }
  }
}
