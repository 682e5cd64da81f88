/** The first start of a node: genesis is written to the database and pushed
    into memory, past acceptance. Neither its work nor its hash goes on record.
 */
module Bootstraps {
  import opened Base
  import opened BlockTree
  import opened OrphanPool
  import opened ChainDisk
  import opened Consensus
  import opened Tables
  import opened Invariants
  import opened WriteLog
  import opened Acceptance
  import opened ChainStates
  import opened Accept
  import opened Runs

  // --- The writes ---

  /** Indexing genesis moves the stored tip only where none lies above it. */
  predicate MovesTip(d: Disk) {
    d.tipHeight.None? || d.tipHeight.value == 0
  }

  /** The database after the first n of the five writes: the block, its height,
      the tip height, the tip hash, and the mark that genesis is there. */
  function BootDisk(d: Disk, n: nat): Disk {
    var stored := if n < 1 then d else StoreBlock(d, GenesisBlock());
    var indexed := if n < 2 then stored else stored.(heights := stored.heights[0 := GENESIS_HASH]);
    var raised := if n < 3 || !MovesTip(d) then indexed else indexed.(tipHeight := Some(0));
    var pointed := if n < 4 || !MovesTip(d) then raised else raised.(tipHash := Some(GENESIS_HASH));
    if n < 5 then pointed else pointed.(genesisHash := Some(GENESIS_HASH))
  }

  /** The next writes, from a given one on, succeed. */
  ghost predicate WritesOk(w: World, at: nat, n: nat) {
    forall i | at <= i < at + n :: w.dbOk(i)
  }

  datatype BootError = StoredMismatch(stored: Hash) | WriteFailed

  /** Try one write; on success its image is left behind. */
  method TryPut(g: ChainState, d: Disk) returns (ok: bool)
    modifies g`disk, g`writes, g`ticks
    ensures ok == g.w.dbOk(old(g.ticks)) && g.disk == if ok then d else old(g.disk)
    ensures g.ticks == old(g.ticks) + 1
  {
    ok := g.w.dbOk(g.ticks);
    g.ticks := g.ticks + 1;
    if ok {
      g.Put(d, GENESIS_HASH);
    }
  }

  method StoreGenesisIndex(g: ChainState) returns (ok: bool)
    modifies g`disk, g`writes, g`ticks
    ensures ok ==> g.disk ==
                   var indexed := old(g.disk).(heights := old(g.disk).heights[0 := GENESIS_HASH]);
                   if MovesTip(old(g.disk)) then indexed.(tipHeight := Some(0), tipHash := Some(GENESIS_HASH))
                   else indexed
    ensures !ok ==> g.disk in Indexing(old(g.disk))
    ensures WritesOk(g.w, old(g.ticks), 3) ==> ok
    ensures old(g.ticks) <= g.ticks <= old(g.ticks) + 3
    ensures ok && MovesTip(old(g.disk)) ==> g.ticks == old(g.ticks) + 3
  {
    ghost var d := g.disk;
    ok := TryPut(g, g.disk.(heights := g.disk.heights[0 := GENESIS_HASH]));
    if !ok {
      return;
    }
    var currentTip := if g.disk.tipHeight.Some? then g.disk.tipHeight.value else 0;
    if 0 >= currentTip {
      ok := TryPut(g, g.disk.(tipHeight := Some(0)));
      if !ok {
        return;
      }
      ok := TryPut(g, g.disk.(tipHash := Some(GENESIS_HASH)));
    }
  }

  /** What indexing genesis can leave behind when a write of it fails. */
  ghost function Indexing(d: Disk): seq<Disk> {
    var indexed := d.(heights := d.heights[0 := GENESIS_HASH]);
    if MovesTip(d) then [d, indexed, indexed.(tipHeight := Some(0))] else [d]
  }

  /** A failed bootstrap stopped after one of the first four writes. */
  ghost predicate StoppedAt(d: Disk, e: Disk, n: nat) {
    n < 5 && e == BootDisk(d, n)
  }

  /** Write and push genesis unless the database carries the genesis mark; if it
      does, the mark has to be right. */
  method BootstrapChain(g: ChainState) returns (r: Result<(), BootError>)
    modifies g`blocks, g`canonIndex, g`disk, g`writes, g`ticks
    ensures match old(g.disk.genesisHash)
            case Some(stored) =>
              && r == (if stored == GENESIS_HASH then Success(()) else Failure(StoredMismatch(stored)))
              && g.blocks == old(g.blocks) && g.canonIndex == old(g.canonIndex) && g.disk == old(g.disk)
              && g.ticks == old(g.ticks)
            case None =>
              if r.Success? then
                && g.blocks == old(g.blocks) + [GenesisBlock()]
                && g.canonIndex == old(g.canonIndex)[GENESIS_HASH := 0]
                && g.disk == BootDisk(old(g.disk), 5)
              else
                && g.blocks == old(g.blocks) && g.canonIndex == old(g.canonIndex)
                && exists n: nat :: StoppedAt(old(g.disk), g.disk, n)
    ensures WritesOk(g.w, old(g.ticks), 5) && old(g.disk.genesisHash).None? ==> r.Success?
    ensures r.Success? && old(g.disk.genesisHash).None? && MovesTip(old(g.disk)) ==> g.ticks == old(g.ticks) + 5
  {
    ghost var d := g.disk;
    assert WritesOk(g.w, g.ticks, 5) ==> WritesOk(g.w, g.ticks + 1, 3);
    match g.disk.genesisHash {
      case None =>
        var genesis := GenesisBlock();
        var stored := TryPut(g, StoreBlock(g.disk, genesis));
        if !stored {
          assert StoppedAt(d, g.disk, 0);
          return Failure(WriteFailed);
        }
        var indexed := StoreGenesisIndex(g);
        if !indexed {
          assert StoppedAt(d, g.disk, 1) || StoppedAt(d, g.disk, 2) || StoppedAt(d, g.disk, 3);
          return Failure(WriteFailed);
        }
        var marked := TryPut(g, g.disk.(genesisHash := Some(genesis.Id())));
        if !marked {
          assert StoppedAt(d, g.disk, 4);
          return Failure(WriteFailed);
        }
        g.blocks := g.blocks + [genesis];
        g.canonIndex := g.canonIndex[genesis.Id() := 0];
        return Success(());
      case Some(stored) =>
        if stored != GENESIS_HASH {
          return Failure(StoredMismatch(stored));
        }
        return Success(());
    }
  }

  // --- Interrupted ---

  /** The canonical blocks a start ends up with: those it loads, and genesis once
      more where the mark is missing. */
  function Opened(d: Disk): Result<seq<Block>, LoadError> {
    var loaded :- Load(d);
    Success(loaded + if d.genesisHash.None? then [GenesisBlock()] else [])
  }

  /** A first start interrupted between its five writes can be taken up again,
      except in one place: once the tip height is stored and until the mark is,
      the next start finds genesis in the database and pushes it a second time,
      so that positions and heights disagree from then on. */
  lemma InterruptedExactly(n: nat)
    requires n <= 5
    ensures Opened(BootDisk(EMPTY_DISK, n)).Success?
    ensures var blocks := Opened(BootDisk(EMPTY_DISK, n)).value;
            && (blocks == [GenesisBlock()] <==> !(3 <= n <= 4))
            && (Positioned(blocks) <==> !(3 <= n <= 4))
            && (3 <= n <= 4 ==> blocks == [GenesisBlock(), GenesisBlock()])
  {
    var d := BootDisk(EMPTY_DISK, n);
    var g := GenesisBlock();
    if n >= 3 {
      assert d.tipHeight == Some(0) && d.heights[0] == GENESIS_HASH && d.blocks[GENESIS_HASH] == g;
      assert [] + [g] == [g] && [g] + [] == [g] && [g] + [g] == [g, g];
      assert LoadUpTo(d, 0) == Success([g]);
      assert [g, g][1].Height() == 0;
    } else {
      assert [] + [g] == [g];
    }
  }

  /** The same holds of any database without the mark that already has a chain:
      the start puts a second genesis on top of it. */
  lemma UnmarkedChain(d: Disk, path: seq<Block>)
    requires Describes(d, path) && Linked(path)
    ensures Opened(d).Success?
    ensures Positioned(Opened(d).value) <==> d.genesisHash.Some?
    ensures Opened(d).value == path <==> d.genesisHash.Some?
  {
    hide Load;
    LoadReadsBack(d, path);
    if d.genesisHash.None? {
      assert Opened(d).value[|path|] == GenesisBlock();
    }
  }

  // --- The bootstrapped node ---

  /** Genesis in memory and on disk, on no record. */
  function BootedNode(ticks: nat): Node {
    var d := BootDisk(EMPTY_DISK, 5);
    Node(map[GENESIS_HASH := GenesisBlock()], GENESIS_HASH, NO_ORPHANS, None, d, ticks, map[], {},
         [Write(d, GENESIS_HASH)])
  }

  lemma BootedTree(c: Crypto, ticks: nat)
    ensures var s := BootedNode(ticks);
            && TreeInv(c, s.known, s.tip) && Chain(s) == [GenesisBlock()] && Work(Chain(s)) == 1 && SeenOk(s)
  {
    GenesisTree(c, GenesisBlock());
  }

  lemma BootedTable(c: Crypto, ticks: nat)
    ensures Offset(BootedNode(ticks)) && Tracked(BootedNode(ticks)) && TopOfRecord(BootedNode(ticks))
  {
    hide TreeInv;
    var s := BootedNode(ticks);
    BootedTree(c, ticks);
    assert OffAt(s.known, s.work, GENESIS_HASH, 1);
    assert s.known.Keys == {GENESIS_HASH};
    assert !Crossed(s.known, s.log);
  }

  lemma BootedDisk(c: Crypto, ticks: nat)
    ensures DiskOk(BootedNode(ticks)) && LogOk(BootedNode(ticks)) && Tidy(BootedNode(ticks))
  {
    hide TreeInv;
    var s := BootedNode(ticks);
    BootedTree(c, ticks);
    assert [GenesisBlock()][0].Id() == GENESIS_HASH;
    assert Describes(s.disk, [GenesisBlock()]);
    forall i: nat | i < |s.log|
      ensures LoggedAt(s.known, s.log, s.disk.genesisHash, i)
    {
    }
  }

  /** A bootstrapped node is where runs start: sound, its records all short by
      the genesis difficulty, its tip on top of them and heaviest. */
  lemma BootedLive(c: Crypto, w: World, ticks: nat)
    ensures Live(c, w, BootedNode(ticks)) && TopOfRecord(BootedNode(ticks)) && Heaviest(BootedNode(ticks))
    ensures Offset(BootedNode(ticks)) && !Exact(BootedNode(ticks))
    ensures !Crossed(BootedNode(ticks).known, BootedNode(ticks).log)
    ensures PoolInv(BootedNode(ticks), {}) && Tidy(BootedNode(ticks))
  {
    hide TreeInv, DiskOk, Tidy, LogOk, Tracked, Offset, Crossed, Mixed, Exact, Path, Work;
    BootedTree(c, ticks);
    BootedTable(c, ticks);
    BootedDisk(c, ticks);
    BootedEdges(ticks);
  }

  lemma BootedEdges(ticks: nat)
    ensures !Exact(BootedNode(ticks)) && !Crossed(BootedNode(ticks).known, BootedNode(ticks).log)
  {
    assert GENESIS_HASH in BootedNode(ticks).known.Keys;
  }

  /** The other way to start: an empty node that accepts genesis as a block. */
  lemma AcceptedLive(c: Crypto, w: World)
    requires w.dbOk(0)
    ensures var s := ApplyGenesis(w, EmptyNode(EMPTY_DISK, 0), GenesisBlock()).0;
            Live(c, w, s) && TopOfRecord(s) && Exact(s) && PoolInv(s, {}) && Tidy(s)
  {
    hide DiskOk, Tidy, LogOk, Exact, Offset, Mixed, Tracked, TopOfRecord, AllOnTime, Keeps, Describes, TreeInv, OnTime;
    var e := EmptyNode(EMPTY_DISK, 0);
    EmptySound(c);
    FirstBlock(c, w, e);
    assert ApplyGenesis(w, e, GenesisBlock()).0 == WithGenesis(e);
    FirstKept(c, w, e);
  }

  lemma EmptySound(c: Crypto)
    ensures var e := EmptyNode(EMPTY_DISK, 0);
            Inv(c, e) && DiskOk(e) && Tidy(e) && LogOk(e) && Exact(e) && TopOfRecord(e)
            && forall w :: AllOnTime(w, e.known)
  {
  }

  lemma FirstKept(c: Crypto, w: World, e: Node)
    requires e == EmptyNode(EMPTY_DISK, 0) && Inv(c, e) && Keeps(c, e, WithGenesis(e))
    requires DiskOk(e) && Tidy(e) && LogOk(e) && Exact(e) && AllOnTime(w, e.known)
    ensures var t := WithGenesis(e);
            && DiskOk(t) && Tidy(t) && LogOk(t) && Exact(t) && Inv(c, t) && TopOfRecord(t) && AllOnTime(w, t.known)
            && t.orphans == NO_ORPHANS && t.known == map[GENESIS_HASH := GenesisBlock()]
  {
    hide DiskOk, Tidy, LogOk, Tracked, Offset, Mixed, TreeInv, PersistExtension;
    GenesisInv(c, e);
  }
}
