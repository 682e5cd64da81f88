/** Startup on the in-memory state: load the stored chain, bootstrap, restore the
    newest acceptable snapshot and replay the rest through acceptance, or rebuild
    everything from genesis. And what a restart comes back to, after a run or
    after a crash.
 */
module Startup {
  import opened Base
  import opened Ledgers
  import opened StateRoots
  import opened BlockTree
  import opened Validity
  import opened OrphanPool
  import opened ChainDisk
  import opened Works
  import opened Consensus
  import opened Tables
  import opened Invariants
  import opened WriteLog
  import opened Acceptance
  import opened ChainStates
  import opened Accept
  import opened ApplyBlocks
  import opened Runs
  import opened ChainRuns
  import opened Bootstraps
  import opened SnapshotChecks
  import opened Recovery

  /** The canonical fields hold exactly this chain and the tables made from it. */
  ghost predicate Loaded(g: ChainState, path: seq<Block>)
    reads g
  {
    g.blocks == path && g.canonIndex == IndexOf(path) && g.cumulativeWork == WorkTable(path)
    && g.seenBlocks == IdsOf(path)
  }

  lemma Snoc(path: seq<Block>, b: Block)
    ensures IndexOf(path + [b]) == IndexOf(path)[b.Id() := b.Height()]
    ensures WorkTable(path + [b]) == WorkTable(path)[b.Id() := Work(path) + b.header.difficulty]
    ensures IdsOf(path + [b]) == IdsOf(path) + {b.Id()}
    ensures Work(path + [b]) == Work(path) + b.header.difficulty
  {
    assert (path + [b])[..|path|] == path;
  }

  // --- Loading the stored chain ---

  /** Reload the canonical chain named by the height index. */
  method LoadCanonChain(g: ChainState, ghost path: seq<Block>) returns (r: Result<(), LoadError>)
    requires Loaded(g, [])
    modifies g`blocks, g`canonIndex, g`seenBlocks, g`cumulativeWork
    ensures match Load(g.disk)
            case Success(loaded) => r == Success(()) && g.blocks == loaded
            case Failure(e) => r == Failure(e)
    ensures Describes(g.disk, path) ==> Loaded(g, path)
    ensures g.disk.tipHeight.None? ==> Loaded(g, [])
  {
    hide Work, IndexOf, WorkTable, IdsOf, Describes;
    if g.disk.tipHeight.None? {
      assert !Describes(g.disk, path) by { NoTip(g.disk, path); }
      return Success(());
    }
    var tipHeight := g.disk.tipHeight.value;
    var cumulative := 0;
    NoWork();
    WholeChain(g.disk, path);
    assert path[..0] == [];
    for h := 0 to tipHeight + 1
      invariant h == 0 ==> g.blocks == []
      invariant h > 0 ==> LoadUpTo(g.disk, h - 1) == Success(g.blocks)
      invariant cumulative == Work(g.blocks)
      invariant Describes(g.disk, path) ==> tipHeight + 1 == |path| && Loaded(g, path[..h])
    {
      DescribedHas(g.disk, path, h);
      if h !in g.disk.heights {
        LoadFails(g.disk, h, tipHeight);
        return Failure(HeightMissing(h));
      }
      var hash := g.disk.heights[h];
      if hash !in g.disk.blocks {
        LoadFails(g.disk, h, tipHeight);
        return Failure(BlockMissing(hash));
      }
      var blk := g.disk.blocks[hash];
      Snoc(g.blocks, blk);
      DescribedAt(g.disk, path, h);
      cumulative := cumulative + blk.header.difficulty;
      g.seenBlocks := g.seenBlocks + {hash};
      g.canonIndex := g.canonIndex[hash := blk.Height()];
      g.cumulativeWork := g.cumulativeWork[hash := cumulative];
      g.blocks := g.blocks + [blk];
    }
    WholeChain(g.disk, path);
    return Success(());
  }

  lemma NoWork()
    ensures Work([]) == 0
  {
  }

  lemma NoTip(d: Disk, path: seq<Block>)
    requires d.tipHeight.None?
    ensures !Describes(d, path)
  {
  }

  lemma DescribedHas(d: Disk, path: seq<Block>, h: nat)
    ensures Describes(d, path) && h < |path| ==> h in d.heights && d.heights[h] in d.blocks
  {
  }

  lemma DescribedAt(d: Disk, path: seq<Block>, h: nat)
    requires h in d.heights && d.heights[h] in d.blocks && d.tipHeight.Some? && h <= d.tipHeight.value
    ensures Describes(d, path) ==>
              h < |path| && d.blocks[d.heights[h]] == path[h] && d.heights[h] == path[h].Id()
              && path[..h] + [path[h]] == path[..h + 1]
    ensures Describes(d, path) ==> d.tipHeight == Some(|path| - 1)
  {
  }

  lemma WholeChain(d: Disk, path: seq<Block>)
    ensures Describes(d, path) ==> d.tipHeight == Some(|path| - 1) && path[..|path|] == path
  {
  }

  // --- Restoring a snapshot ---

  method RebuildIndexes(g: ChainState)
    modifies g`canonIndex, g`seenBlocks, g`cumulativeWork
    ensures Loaded(g, g.blocks)
  {
    hide Work, IndexOf, WorkTable, IdsOf;
    g.canonIndex, g.cumulativeWork, g.seenBlocks := map[], map[], {};
    var cw := 0;
    EmptyTables(g.blocks);
    for i := 0 to |g.blocks|
      invariant cw == Work(g.blocks[..i])
      invariant g.canonIndex == IndexOf(g.blocks[..i]) && g.cumulativeWork == WorkTable(g.blocks[..i])
      invariant g.seenBlocks == IdsOf(g.blocks[..i])
    {
      var b := g.blocks[i];
      Snoc(g.blocks[..i], b);
      assert g.blocks[..i] + [b] == g.blocks[..i + 1];
      cw := cw + b.header.difficulty;
      g.canonIndex := g.canonIndex[b.Id() := b.Height()];
      g.cumulativeWork := g.cumulativeWork[b.Id() := cw];
      g.seenBlocks := g.seenBlocks + {b.Id()};
    }
    assert g.blocks[..|g.blocks|] == g.blocks;
  }

  lemma EmptyTables(blocks: seq<Block>)
    ensures IndexOf(blocks[..0]) == map[] && WorkTable(blocks[..0]) == map[] && IdsOf(blocks[..0]) == {}
    ensures Work(blocks[..0]) == 0
  {
  }

  function Truncated(blocks: seq<Block>, keep: nat): seq<Block> {
    if |blocks| > keep then blocks[..keep] else blocks
  }

  /** Read a snapshot and check it against the canonical chain on disk. */
  method CheckSnapshot(c: Crypto, d: Disk, sn: Snapshots, height: nat) returns (r: Result<Ledger, SnapshotError>)
    ensures r == SnapshotAt(c, d, sn, height)
  {
    hide Root, NonZero;
    if height !in sn.metadata {
      return Failure(MissingMetadata);
    }
    var (metadataHeight, snapshotHash) := sn.metadata[height];
    if metadataHeight != height {
      return Failure(MetadataHeightMismatch);
    }
    if height !in d.heights {
      return Failure(MissingHeightIndex);
    }
    var canonicalHash := d.heights[height];
    if snapshotHash != canonicalHash {
      return Failure(HashMismatch);
    }
    if canonicalHash !in d.blocks {
      return Failure(MissingBlock);
    }
    var canonicalBlock := d.blocks[canonicalHash];
    var balances := if height in sn.balances then sn.balances[height] else map[];
    var nonces := if height in sn.nonces then sn.nonces[height] else map[];
    balances, nonces := NonZero(balances), NonZero(nonces);
    var computed := ComputeStateRoot(c, Ledger(balances, nonces));
    if computed.Failure? {
      return Failure(InvalidState);
    }
    if height in sn.roots && sn.roots[height] != computed.value {
      return Failure(StoredRootMismatch);
    }
    var isGenesis := height == 0 && canonicalBlock.header.stateRoot == NullHash();
    if canonicalBlock.header.stateRoot != computed.value && !isGenesis {
      return Failure(BlockRootMismatch);
    }
    return Success(Ledger(balances, nonces));
  }

  /** Restore the snapshot at a height if every check passes; otherwise change
      nothing. */
  method RestoreSnapshotAt(g: ChainState, height: nat) returns (r: Result<(), SnapshotError>)
    modifies g`balances, g`nonces, g`blocks, g`canonIndex, g`seenBlocks, g`cumulativeWork
    ensures match SnapshotAt(g.c, g.disk, g.snapshots, height)
            case Failure(e) => r == Failure(e) && unchanged(g)
            case Success(l) =>
              r == Success(()) && Ledger(g.balances, g.nonces) == l && Loaded(g, Truncated(old(g.blocks), height + 1))
  {
    hide SnapshotAt, Work, IndexOf, WorkTable, IdsOf;
    var checked := CheckSnapshot(g.c, g.disk, g.snapshots, height);
    match checked {
      case Failure(e) => return Failure(e);
      case Success(l) =>
        g.balances, g.nonces := l.balances, l.nonces;
        if |g.blocks| > height + 1 {
          g.blocks := g.blocks[..height + 1];
        }
        RebuildIndexes(g);
        return Success(());
    }
  }

  /** The newest acceptable snapshot at or below a height. */
  function Newest(c: Crypto, d: Disk, sn: Snapshots, max: int): (h: Option<nat>)
    ensures match h
            case None => forall k: nat | k <= max :: SnapshotAt(c, d, sn, k).Failure?
            case Some(n) => n <= max && SnapshotAt(c, d, sn, n).Success?
                            && forall k: nat | n < k <= max :: SnapshotAt(c, d, sn, k).Failure?
    decreases max
  {
    if max < 0 then None
    else if SnapshotAt(c, d, sn, max).Success? then Some(max)
    else Newest(c, d, sn, max - 1)
  }

  /** Try the stored snapshots from the newest down and restore the first that
      passes. */
  method RestoreLatestSnapshot(g: ChainState, maxHeight: nat) returns (r: Option<nat>)
    modifies g`balances, g`nonces, g`blocks, g`canonIndex, g`seenBlocks, g`cumulativeWork
    ensures r == Newest(g.c, g.disk, g.snapshots, maxHeight)
    ensures match r
            case None => unchanged(g)
            case Some(h) =>
              Success(Ledger(g.balances, g.nonces)) == SnapshotAt(g.c, g.disk, g.snapshots, h)
              && Loaded(g, Truncated(old(g.blocks), h + 1))
  {
    hide SnapshotAt, Loaded, IndexOf, WorkTable, IdsOf;
    var h: int := maxHeight;
    while h >= 0
      invariant -1 <= h <= maxHeight
      invariant unchanged(g)
      invariant Newest(g.c, g.disk, g.snapshots, h) == Newest(g.c, g.disk, g.snapshots, maxHeight)
    {
      var restored := RestoreSnapshotAt(g, h);
      if restored.Success? {
        return Some(h);
      }
      h := h - 1;
    }
    return None;
  }

  // --- Replay through acceptance ---

  /** A clock that has not gone back behind the blocks already accepted. */
  ghost predicate InTime(w: World, known: map<Hash, Block>) {
    forall h, n: nat | h in known :: known[h].header.timestamp <= w.clock(n) + MAX_FUTURE_TIMESTAMP_SECS
  }

  /** What startup needs from outside: such a clock, and writes that succeed while
      the stored chain is replayed, a clock reading and a write for each block.
      What happens to later writes is left open. */
  ghost predicate Ready(w: World, s: Node) {
    WritesOk(w, 0, 2 * |Chain(s)|) && InTime(w, s.known)
  }

  /** The next stored block is valid on the replayed prefix. */
  lemma NextIsValid(c: Crypto, s: Node, t: Node, n: nat)
    requires Inv(c, s) && Holds(s, t, n) && 0 < n < |Chain(s)|
    ensures var b := Chain(s)[n];
            && b.Height() == n && b.Id() in s.known && s.known[b.Id()] == b
            && b.Id() !in t.known && b.Parent() in t.known && b.Parent() == t.tip
            && Path(t.known, b.Parent()) == Chain(s)[..n] && t.known[b.Parent()] == Chain(s)[..n][n - 1]
            && ValidOn(c, Chain(s)[..n], b)
            && Recorded(t.work, b.Parent()) == Work(Chain(s)[..n]) && b.Id() !in t.seen
  {
    hide Path, Rooted, Judged, TableOk, TreeOf, WorkTable, IdsOf, Work, ValidOn, Distinct;
    ChainLinked(c, s);
    ChainKnown(c, s, n);
    ChainKnown(c, s, n - 1);
    PrefixTree(c, s, n);
    NotInPrefix(c, s, n);
    var b := Chain(s)[n];
    JudgedOne(c, s, b.Id());
    ChainDistinct(c, s, n);
    TreeOfHolds(Chain(s)[..n], n - 1);
    TableKeys(Chain(s)[..n]);
    WorkShape(Chain(s)[..n], n - 1);
    assert Chain(s)[..n][n - 1] == Chain(s)[n - 1] && Chain(s)[..n][..n] == Chain(s)[..n];
  }

  lemma JudgedOne(c: Crypto, s: Node, h: Hash)
    requires Inv(c, s) && h in s.known && s.known[h].Height() > 0
    ensures ValidOn(c, Path(s.known, s.known[h].Parent()), s.known[h])
  {
    hide Rooted, ValidOn, Path, Proper, TableOk;
    assert JudgedAt(c, s.known, h);
  }

  lemma NotInPrefix(c: Crypto, s: Node, n: nat)
    requires Inv(c, s) && n < |Chain(s)|
    ensures Chain(s)[n].Id() !in TreeOf(Chain(s)[..n])
  {
    hide Path, Inv, TreeOf;
    ChainDistinct(c, s, n + 1);
    var path := Chain(s)[..n + 1];
    assert forall i | 0 <= i < n :: Chain(s)[..n][i] == path[i] && path[i].Id() != path[n].Id();
    if Chain(s)[n].Id() in TreeOf(Chain(s)[..n]) {
      TreeOfOnly(Chain(s)[..n], Chain(s)[n].Id());
    }
  }

  lemma TreeSnoc(path: seq<Block>, n: nat)
    requires n < |path|
    ensures TreeOf(path[..n + 1]) == TreeOf(path[..n])[path[n].Id() := path[n]]
    ensures WorkTable(path[..n + 1]) ==
            WorkTable(path[..n])[path[n].Id() := Work(path[..n]) + path[n].header.difficulty]
    ensures IdsOf(path[..n + 1]) == IdsOf(path[..n]) + {path[n].Id()}
  {
    assert path[..n + 1][..n] == path[..n];
  }

  /** Accepting the next stored block extends the chain by it, from genesis on. */
  lemma ReplayStep(c: Crypto, w: World, s: Node, t: Node, n: nat)
    requires Inv(c, s) && InTime(w, s.known) && Holds(s, t, n) && n < |Chain(s)| && WritesOk(w, t.ticks, 2)
    ensures Sorted(t.orphans.pool)
    ensures var b := Chain(s)[n];
            var (u, r) := Apply(c, w, t, b, "anon");
            && Trusted(t, b) && r == CanonExtension(n) && Holds(s, u, n + 1)
            && u.disk == PersistExtension(t.disk, b) && u.log == t.log + [Write(u.disk, b.Id())]
            && t.ticks <= u.ticks <= t.ticks + 2
  {
    hide Path, TreeOf, WorkTable, IdsOf, Work, Inv, ValidOn, PersistExtension, Apply, ExtendBy, Recorded;
    var b := Chain(s)[n];
    NextIsStored(c, s, n);
    if n == 0 {
      TreeSnoc(Chain(s), n);
      GenesisStep(c, w, s, t);
    } else {
      NextIsValid(c, s, t, n);
      ChildStep(c, w, t, b, Chain(s)[..n]);
      HeldNext(s, t, n);
    }
  }

  /** Extending by the next stored block holds one block more. */
  lemma HeldNext(s: Node, t: Node, n: nat)
    requires Holds(s, t, n) && 0 < n < |Chain(s)| && Recorded(t.work, Chain(s)[n].Parent()) == Work(Chain(s)[..n])
    ensures var b := Chain(s)[n];
            var u := ExtendBy(Tick(t), b);
            && Holds(s, u, n + 1) && u.disk == PersistExtension(t.disk, b)
            && u.log == t.log + [Write(u.disk, b.Id())] && u.ticks == t.ticks + 2
  {
    hide Path, TreeOf, WorkTable, IdsOf, Work, PersistExtension, Recorded;
    TreeSnoc(Chain(s), n);
  }

  lemma NextIsStored(c: Crypto, s: Node, n: nat)
    requires Inv(c, s) && n < |Chain(s)|
    ensures Chain(s)[n].Height() == n && Chain(s)[n].Id() in s.known
    ensures n == 0 ==> Chain(s)[n] == GenesisBlock()
  {
    hide Path, Inv;
    ChainLinked(c, s);
    ChainKnown(c, s, n);
  }

  lemma GenesisStep(c: Crypto, w: World, s: Node, t: Node)
    requires w.dbOk(t.ticks) && Holds(s, t, 0) && |Chain(s)| > 0 && Chain(s)[0] == GenesisBlock()
    ensures Sorted(t.orphans.pool)
    ensures Apply(c, w, t, GenesisBlock(), "anon") == (WithGenesis(t), CanonExtension(0))
    ensures TreeOf(Chain(s)[..0]) == map[] && WorkTable(Chain(s)[..0]) == map[] && IdsOf(Chain(s)[..0]) == {}
    ensures Work(Chain(s)[..0]) == 0
  {
    hide Path, PersistExtension, Promote;
    assert t.known == map[] && t.seen == {};
    assert Shape(c, GenesisBlock()) == None;
  }

  lemma ChildStep(c: Crypto, w: World, t: Node, b: Block, path: seq<Block>)
    requires w.dbOk(t.ticks + 1) && b.Height() > 0 && b.Id() !in t.seen && b.Parent() in t.known && b.Parent() == t.tip
    requires Path(t.known, b.Parent()) == path && |path| > 0 && t.known[b.Parent()] == path[|path| - 1]
    requires ValidOn(c, path, b)
    requires forall n: nat :: b.header.timestamp <= w.clock(n) + MAX_FUTURE_TIMESTAMP_SECS
    requires t.orphans == NO_ORPHANS
    ensures Sorted(t.orphans.pool)
    ensures Apply(c, w, t, b, "anon") == (ExtendBy(Tick(t), b), CanonExtension(b.Height()))
  {
    hide Path, Verdict, Shape, Promote, PersistExtension, Recorded;
    AdmitBasics(c, w, t, b, "anon");
    PromoteIs(c, w, ExtendBy(Tick(t), b), b.Id());
  }

  // --- The replay methods ---

  datatype StartupError =
    | LoadFailed(error: LoadError)
    | TipMissing
    | HeightIndexMissing(height: int)
    | StoredBlockMissing(hash: Hash)
    | StoredHeightMismatch(height: int, reported: int)
    | ReplayRejected(height: int, result: AcceptResult)
    | BootstrapFailed(cause: BootError)

  /** Rewriting the entries of a described chain changes nothing but the tip. */
  lemma RewriteIsIdempotent(d: Disk, path: seq<Block>, e: Disk, n: nat)
    requires Describes(d, path) && n < |path| && path[n].Height() == n
    requires e.blocks == d.blocks && e.heights == d.heights && e.genesisHash == d.genesisHash
    ensures PersistExtension(e, path[n]) == PointTip(d, path[n])
    ensures n == |path| - 1 ==> PointTip(d, path[n]) == d
  {
    assert d.blocks[path[n].Id() := path[n]] == d.blocks;
    assert d.heights[n := path[n].Id()] == d.heights;
  }

  /** What every replay starts from: a stored chain, and an outside that lets it
      be replayed. */
  ghost predicate Replayable(g: ChainState, s: Node)
    reads g
  {
    Inv(g.c, s) && s.known != map[] && DiskOk(s) && InTime(g.w, s.known)
  }

  /** The database grants what it takes to replay so many blocks from now on. */
  ghost predicate Granted(g: ChainState, blocks: nat)
    reads g
  {
    WritesOk(g.w, g.ticks, 2 * blocks)
  }

  /** An image of the stored chain up to one of its blocks. */
  ghost predicate ImageOf(s: Node, e: Write) {
    e.disk.genesisHash == s.disk.genesisHash && exists k: nat :: UpTo(Chain(s), e, k)
  }

  ghost predicate UpTo(path: seq<Block>, e: Write, k: nat) {
    k < |path| && e.tip == path[k].Id() && Describes(e.disk, path[..k + 1])
  }

  /** What a recovery leaves behind: the disk it found, and after each write the
      chain up to the block replayed last. */
  ghost predicate ReplayLog(s: Node, log: seq<Write>) {
    && |log| > 0 && |Chain(s)| > 0 && log[0] == Write(s.disk, Chain(s)[|Chain(s)| - 1].Id())
    && forall e | e in log :: ImageOf(s, e)
  }

  ghost predicate EndsWith(log: seq<Write>, e: Write) {
    |log| > 0 && log[|log| - 1] == e
  }

  /** The node has the whole stored chain again, the disk is as it was found, and
      the log says what was written in between. */
  ghost predicate Recovered(g: ChainState, s: Node)
    reads g
  {
    && Holds(s, g.abs, |Chain(s)|) && g.disk == s.disk
    && ReplayLog(s, g.writes) && EndsWith(g.writes, Write(g.disk, g.abs.tip))
  }

  /** The log at the beginning of a recovery: the disk as found. */
  ghost predicate LogOpen(g: ChainState, s: Node)
    reads g
  {
    |Chain(s)| > 0 && g.writes == [Write(g.disk, Chain(s)[|Chain(s)| - 1].Id())]
  }

  lemma OpenLogs(c: Crypto, s: Node)
    requires Inv(c, s) && s.known != map[] && DiskOk(s)
    ensures |Chain(s)| > 0 && ReplayLog(s, [Write(s.disk, Chain(s)[|Chain(s)| - 1].Id())])
  {
    hide Path, Inv, ImageOf;
    ChainEnds(c, s);
    var n := |Chain(s)| - 1;
    assert Chain(s)[..n + 1] == Chain(s);
    ImageUpTo(s, Write(s.disk, Chain(s)[n].Id()), n);
  }

  /** Replaying a stored block leaves the chain up to it on disk. */
  lemma ReplayLogs(c: Crypto, s: Node, log: seq<Write>, d: Disk, n: nat)
    requires Inv(c, s) && s.known != map[] && DiskOk(s) && n < |Chain(s)| && ReplayLog(s, log)
    requires d == PointTip(s.disk, Chain(s)[n])
    ensures ReplayLog(s, log + [Write(d, Chain(s)[n].Id())])
    ensures n == |Chain(s)| - 1 ==> d == s.disk
  {
    hide Path, Inv, ImageOf;
    NextIsStored(c, s, n);
    assert UpTo(Chain(s), Write(d, Chain(s)[n].Id()), n);
    assert ImageOf(s, Write(d, Chain(s)[n].Id())) by { ImageUpTo(s, Write(d, Chain(s)[n].Id()), n); }
  }

  lemma ImageUpTo(s: Node, e: Write, k: nat)
    requires e.disk.genesisHash == s.disk.genesisHash && UpTo(Chain(s), e, k)
    ensures ImageOf(s, e)
  {
  }

  lemma NextIsProper(c: Crypto, s: Node, n: nat)
    requires Inv(c, s) && n < |Chain(s)|
    ensures Proper(c, Chain(s)[n])
  {
    hide Path, Rooted, Proper, ValidOn, TableOk;
    ChainKnown(c, s, n);
    assert JudgedAt(c, s.known, Chain(s)[n].Id());
  }

  /** Feed the stored blocks above a height back through acceptance. */
  method ReplayStoredCanonicalTail(g: ChainState, restoredHeight: nat, ghost s: Node)
    returns (r: Result<nat, StartupError>)
    requires g.Valid() && Replayable(g, s)
    requires restoredHeight < |Chain(s)| && Holds(s, g.abs, restoredHeight + 1) && g.disk == s.disk
    requires Granted(g, |Chain(s)| - restoredHeight - 1) && LogOpen(g, s)
    modifies g
    ensures g.Valid() && r == Success(|Chain(s)| - 1) && KeepsSnapshots(g.abs.known, old(g.snapshots), g.snapshots)
    ensures Recovered(g, s) && g.disk == s.disk && old(g.writes) <= g.writes
  {
    hide Inv, PoolOk, FieldsOk, Path, TreeOf, Apply, Holds, InTime, PersistExtension, PointTip, SmallSnapshots;
    if g.disk.tipHeight.None? {
      return Failure(TipMissing);
    }
    var tipHeight := g.disk.tipHeight.value;
    OpenLogs(g.c, s);
    if tipHeight <= restoredHeight {
      HoldsTip(s, g.abs);
      return Success(tipHeight);
    }
    r := ReplayFrom(g, restoredHeight + 1, tipHeight, s);
  }

  lemma HoldsTip(s: Node, t: Node)
    requires |Chain(s)| > 0 && Holds(s, t, |Chain(s)|)
    ensures t.tip == Chain(s)[|Chain(s)| - 1].Id()
  {
    hide Path, TreeOf, WorkTable, IdsOf;
  }

  /** The first n stored blocks are back, and the database is ready for the rest. */
  ghost predicate Replayed(g: ChainState, s: Node, n: nat)
    reads g
  {
    && g.Valid() && Holds(s, g.abs, n) && Granted(g, |Chain(s)| - n)
    && g.disk.blocks == s.disk.blocks && g.disk.heights == s.disk.heights && g.disk.genesisHash == s.disk.genesisHash
    && ReplayLog(s, g.writes)
  }

  /** Acceptance takes the next stored block. */
  method ReplayBlock(g: ChainState, block: Block, ghost n: nat, ghost s: Node) returns (accepted: AcceptResult)
    requires Replayable(g, s) && n < |Chain(s)| && block == Chain(s)[n] && Replayed(g, s, n)
    modifies g
    ensures accepted == CanonExtension(n) && Replayed(g, s, n + 1)
    ensures n == |Chain(s)| - 1 ==> Recovered(g, s) && g.disk == s.disk
    ensures Grows(old(g.abs.known), g.abs.known) && KeepsSnapshots(g.abs.known, old(g.snapshots), g.snapshots)
    ensures old(g.writes) <= g.writes
  {
    hide Inv, PoolOk, FieldsOk, Path, TreeOf, Apply, Holds, InTime, Trusted, Proper, PersistExtension, KeepsSnapshots,
      ReplayLog, Grows;
    ReplayStep(g.c, g.w, s, g.abs, n);
    NextIsStored(g.c, s, n);
    NextIsProper(g.c, s, n);
    RewriteIsIdempotent(s.disk, Chain(s), g.disk, n);
    ReplayLogs(g.c, s, g.writes, PointTip(s.disk, Chain(s)[n]), n);
    accepted := ApplyBlock(g, block, "anon");
    if n == |Chain(s)| - 1 {
      HoldsTip(s, g.abs);
    }
  }

  method ReplayFrom(g: ChainState, start: nat, tipHeight: nat, ghost s: Node) returns (r: Result<nat, StartupError>)
    requires Replayable(g, s) && start <= tipHeight == |Chain(s)| - 1 && Replayed(g, s, start)
    modifies g
    ensures g.Valid() && r == Success(tipHeight) && KeepsSnapshots(g.abs.known, old(g.snapshots), g.snapshots)
    ensures Recovered(g, s) && g.disk == s.disk && old(g.writes) <= g.writes
  {
    hide Inv, PoolOk, FieldsOk, Path, TreeOf, Holds, InTime, KeepsSnapshots, ReplayLog, Grows, Recovered;
    NothingSaved(g.abs.known, g.snapshots);
    for height := start to tipHeight + 1
      invariant Replayed(g, s, height) && (height == tipHeight + 1 ==> Recovered(g, s) && g.disk == s.disk)
      invariant KeepsSnapshots(g.abs.known, old(g.snapshots), g.snapshots) && old(g.writes) <= g.writes
    {
      if height !in g.disk.heights {
        return Failure(HeightIndexMissing(height));
      }
      var hash := g.disk.heights[height];
      if hash !in g.disk.blocks {
        return Failure(StoredBlockMissing(hash));
      }
      var block := g.disk.blocks[hash];
      assert block == Chain(s)[height];
      NextIsStored(g.c, s, height);
      if block.Height() != height {
        return Failure(StoredHeightMismatch(height, block.Height()));
      }
      ghost var known, between := g.abs.known, g.snapshots;
      var accepted := ReplayBlock(g, block, height, s);
      KeepsSnapshotsOn(known, g.abs.known, old(g.snapshots), between, g.snapshots);
      if accepted != CanonExtension(height) {
        return Failure(ReplayRejected(height, accepted));
      }
    }
    return Success(tipHeight);
  }

  /** A crash in the middle of a replay has moved the stored tip down to the last
      replayed block: a start then loads the chain up to there and no further. */
  lemma ReplayCrashLoads(d: Disk, path: seq<Block>, e: Disk, n: nat)
    requires Describes(d, path) && n < |path| && path[n].Height() == n
    requires e == PointTip(d, path[n])
    ensures Load(e) == Success(path[..n + 1])
  {
    LoadSame(d, e, n);
    LoadPrefix(d, path, n);
  }

  lemma {:induction false} LoadSame(d: Disk, e: Disk, n: nat)
    requires d.blocks == e.blocks && d.heights == e.heights
    ensures LoadUpTo(d, n) == LoadUpTo(e, n)
  {
    if n > 0 {
      LoadSame(d, e, n - 1);
    }
  }

  /** No side block, no orphan, no recovery note: what a restart never restores. */
  ghost predicate Bare(g: ChainState)
    reads g
  {
    g.sideBlocks == map[] && g.orphanPool == map[] && g.orphanByHash == map[] && g.pendingReorgRecovery == None
  }

  /** Take the loaded fields for a node holding the first n blocks. */
  ghost method Adopt(g: ChainState, s: Node, n: nat)
    requires Inv(g.c, s) && 1 <= n <= |Chain(s)|
    requires Loaded(g, Chain(s)[..n]) && Bare(g) && LedgerOk(g.c, Chain(s)[..n], Ledger(g.balances, g.nonces))
    modifies g`abs
    ensures g.Valid() && Holds(s, g.abs, n)
  {
    hide Path, Inv, TreeOf, FieldsOk, LedgerOk, IndexOf, WorkTable, IdsOf;
    var path := Chain(s)[..n];
    PrefixFields(g.c, s, n, Ledger(g.balances, g.nonces));
    assert path[n - 1] == Chain(s)[n - 1];
    g.abs := g.Reading(TreeOf(path), Chain(s)[n - 1].Id());
    HolderSound(g.c, s, g.abs, n);
  }

  /** Empty the canonical fields. */
  method ClearChain(g: ChainState)
    requires Bare(g)
    modifies g`blocks, g`canonIndex, g`cumulativeWork, g`seenBlocks, g`balances, g`nonces, g`abs
    ensures g.Valid() && g.abs == EmptyNode(g.disk, g.ticks).(log := g.writes)
  {
    hide TreeInv, TableOk, FieldsOk, PoolOk;
    NothingLoaded(g.c, EmptyNode(g.disk, g.ticks).(log := g.writes));
    g.blocks, g.canonIndex, g.cumulativeWork, g.seenBlocks := [], map[], map[], {};
    g.balances, g.nonces := map[], map[];
    g.abs := EmptyNode(g.disk, g.ticks).(log := g.writes);
  }

  lemma NothingLoaded(c: Crypto, s: Node)
    requires s.known == map[] && s.tip == NullHash() && s.work == map[] && s.seen == {}
    ensures TreeInv(c, s.known, s.tip) && TableOk(s) && PoolOk(c, map[]) && Chain(s) == []
    ensures FieldsOk(c, map[], [], map[], map[], Ledger(map[], map[]))
  {
  }

  /** Read the whole stored chain, forget everything derived from it, and feed
      it back through acceptance from genesis. */
  method RebuildFromGenesis(g: ChainState, ghost s: Node) returns (r: Result<nat, StartupError>)
    requires Replayable(g, s) && Bare(g) && g.disk == s.disk && Granted(g, |Chain(s)|) && LogOpen(g, s)
    modifies g
    ensures g.Valid() && r == Success(|Chain(s)| - 1) && KeepsSnapshots(g.abs.known, old(g.snapshots), g.snapshots)
    ensures Recovered(g, s) && g.disk == s.disk && old(g.writes) <= g.writes
  {
    hide Inv, PoolOk, FieldsOk, Path, TreeOf, Holds, InTime, KeepsSnapshots, ReplayLog, Grows, Recovered;
    if g.disk.tipHeight.None? {
      return Failure(TipMissing);
    }
    var tipHeight := g.disk.tipHeight.value;
    var blocks := [];
    for height := 0 to tipHeight + 1
      invariant blocks == Chain(s)[..height] && tipHeight + 1 == |Chain(s)| && g.disk == s.disk
      invariant Bare(g) && g.snapshots == old(g.snapshots) && Granted(g, |Chain(s)|) && g.writes == old(g.writes)
    {
      DescribedHas(g.disk, Chain(s), height);
      if height !in g.disk.heights {
        return Failure(HeightIndexMissing(height));
      }
      var hash := g.disk.heights[height];
      if hash !in g.disk.blocks {
        return Failure(StoredBlockMissing(hash));
      }
      var block := g.disk.blocks[hash];
      assert block == Chain(s)[height];
      NextIsStored(g.c, s, height);
      if block.Height() != height {
        return Failure(StoredHeightMismatch(height, block.Height()));
      }
      blocks := blocks + [block];
    }
    assert blocks == Chain(s);
    OpenLogs(g.c, s);
    ClearChain(g);
    NothingHeld(s, g.abs);
    NothingSaved(g.abs.known, g.snapshots);
    for height := 0 to |blocks|
      invariant Replayed(g, s, height) && (height == |blocks| ==> Recovered(g, s) && g.disk == s.disk)
      invariant KeepsSnapshots(g.abs.known, old(g.snapshots), g.snapshots) && old(g.writes) <= g.writes
    {
      ghost var known, between := g.abs.known, g.snapshots;
      var accepted := ReplayBlock(g, blocks[height], height, s);
      KeepsSnapshotsOn(known, g.abs.known, old(g.snapshots), between, g.snapshots);
      if accepted != CanonExtension(height) {
        return Failure(ReplayRejected(height, accepted));
      }
    }
    return Success(tipHeight);
  }

  lemma NothingHeld(s: Node, t: Node)
    requires t.known == map[] && t.tip == NullHash() && t.orphans == NO_ORPHANS && t.work == map[] && t.seen == {}
    ensures Holds(s, t, 0)
  {
    hide Path;
    assert Chain(s)[..0] == [];
  }

  // --- The choice ---

  /** Snapshot records may hold anything, except that none was written at
      height 0 and that their maps fit in memory; the chain is not past the last
      halving. */
  ghost predicate Plausible(c: Crypto, s: Node, sn: Snapshots) {
    NoCollisions(c) && SmallSnapshots(sn) && |Chain(s)| <= 128 * HALVING_INTERVAL
  }

  /** The newest accepted snapshot is a prefix of the chain with the ledger that
      executing it yields. */
  lemma NewestSound(c: Crypto, s: Node, sn: Snapshots)
    requires Inv(c, s) && s.known != map[] && DiskOk(s) && Plausible(c, s, sn)
    ensures |Chain(s)| > 0
    ensures match Newest(c, s.disk, sn, |Chain(s)| - 1)
            case None => true
            case Some(h) =>
              h < |Chain(s)| && SnapshotAt(c, s.disk, sn, h).Success?
              && LedgerOk(c, Chain(s)[..h + 1], SnapshotAt(c, s.disk, sn, h).value)
  {
    hide Path, Inv, LedgerOk, SnapshotAt, Plausible, DiskOk;
    ChainEnds(c, s);
    var newest := Newest(c, s.disk, sn, |Chain(s)| - 1);
    if newest.Some? {
      AcceptedSound(c, s, sn, newest.value);
    }
  }

  lemma AcceptedSound(c: Crypto, s: Node, sn: Snapshots, h: nat)
    requires Inv(c, s) && s.known != map[] && DiskOk(s) && Plausible(c, s, sn)
    requires h < |Chain(s)| && SnapshotAt(c, s.disk, sn, h).Success?
    ensures LedgerOk(c, Chain(s)[..h + 1], SnapshotAt(c, s.disk, sn, h).value)
  {
    hide Path, Exec, Inv, Same, Fits, NoCollisions, DiskOk, Root, Stored, SmallMaps;
    StoredSmall(sn, h);
    SnapshotSound(c, s, sn, h);
  }

  lemma StoredSmall(sn: Snapshots, h: nat)
    requires SmallSnapshots(sn)
    ensures Fits(Stored(sn, h))
  {
    hide NonZero;
    NormTwice(Ledger(if h in sn.balances then sn.balances[h] else map[],
                     if h in sn.nonces then sn.nonces[h] else map[]));
    assert NonZero(map[]) == map[] by { NothingNonZero(); }
  }

  lemma NothingNonZero()
    ensures NonZero(map[]) == map[]
  {
  }

  /** A database in which a first start got no further than the height index. */
  ghost predicate Blank(d: Disk) {
    d == BootDisk(EMPTY_DISK, 0) || d == BootDisk(EMPTY_DISK, 1) || d == BootDisk(EMPTY_DISK, 2)
  }

  lemma BlankBoots(d: Disk)
    requires Blank(d)
    ensures BootDisk(d, 5) == BootDisk(EMPTY_DISK, 5) && d.genesisHash == None
    ensures Opened(d) == Success([GenesisBlock()]) && Load(d) == Success([]) && d.tipHeight == None && MovesTip(d)
  {
    assert BootDisk(d, 5).blocks == BootDisk(EMPTY_DISK, 5).blocks;
    assert BootDisk(d, 5).heights == BootDisk(EMPTY_DISK, 5).heights;
    assert [] + [GenesisBlock()] == [GenesisBlock()];
  }

  /** The fields as a bootstrap leaves them: genesis pushed, nothing on record. */
  ghost predicate Booted(g: ChainState)
    reads g
  {
    && g.blocks == [GenesisBlock()] && g.canonIndex == map[GENESIS_HASH := 0]
    && g.cumulativeWork == map[] && g.seenBlocks == {}
    && g.disk == BootDisk(EMPTY_DISK, 5)
  }

  /** What a database can be started from: nothing but an unfinished bootstrap,
      or the marked chain of a sound node. */
  ghost predicate Startable(c: Crypto, w: World, d: Disk, sn: Snapshots, s: Node) {
    if Blank(d) then WritesOk(w, 0, 5) && 0 !in sn.metadata && s == BootedNode(0)
    else
      && Inv(c, s) && s.known != map[] && DiskOk(s) && s.disk == d && d.genesisHash == Some(GENESIS_HASH)
      && Ready(w, s) && Plausible(c, s, sn)
  }

  /** A new in-memory state with the chain that the database names. */
  method LoadFresh(c: Crypto, w: World, disk: Disk, snapshots: Snapshots, ghost path: seq<Block>)
    returns (r: Result<ChainState, LoadError>)
    ensures match r
            case Success(g) =>
              && fresh(g) && g.c == c && g.w == w && g.snapshots == snapshots && g.disk == disk
              && Bare(g) && g.ticks == 0
              && Ledger(g.balances, g.nonces) == EMPTY_LEDGER && Load(disk) == Success(g.blocks)
              && (Describes(disk, path) ==> Loaded(g, path))
              && (disk.tipHeight.None? ==>
                    g.blocks == [] && g.canonIndex == map[] && g.cumulativeWork == map[] && g.seenBlocks == {})
            case Failure(e) => Load(disk) == Failure(e)
  {
    hide Inv, PoolOk, FieldsOk, Path, Load, Describes, IndexOf, WorkTable, IdsOf;
    var g := new ChainState(c, w, disk, snapshots);
    NoTables();
    var loaded := LoadCanonChain(g, path);
    match loaded {
      case Failure(e) => return Failure(e);
      case Success(_) => return Success(g);
    }
  }

  /** Open the database: load the stored chain, then bootstrap. */
  method OpenChain(c: Crypto, w: World, disk: Disk, snapshots: Snapshots, ghost path: seq<Block>)
    returns (r: Result<ChainState, StartupError>)
    ensures r.Success? ==>
              && fresh(r.value) && r.value.c == c && r.value.w == w && r.value.snapshots == snapshots && Bare(r.value)
              && Ledger(r.value.balances, r.value.nonces) == EMPTY_LEDGER
              && Opened(disk) == Success(r.value.blocks)
              && (disk.genesisHash.Some? ==> r.value.disk == disk && r.value.ticks == 0)
              && (Describes(disk, path) && disk.genesisHash.Some? ==> Loaded(r.value, path))
              && (Blank(disk) ==> Booted(r.value) && r.value.ticks == 5)
    ensures Load(disk).Success?
            && (disk.genesisHash == Some(GENESIS_HASH) || (disk.genesisHash.None? && WritesOk(w, 0, 5)))
            ==> r.Success?
  {
    hide Inv, PoolOk, FieldsOk, Path, Load, Opened, Describes, IndexOf, WorkTable, IdsOf, BootDisk, Blank,
      TreeInv, SnapshotAt, StoppedAt, MovesTip, WritesOk;
    var loaded := LoadFresh(c, w, disk, snapshots, path);
    if loaded.Failure? {
      return Failure(LoadFailed(loaded.error));
    }
    var g := loaded.value;
    if Blank(disk) {
      BlankBoots(disk);
    }
    OpenedIs(disk, g.blocks);
    var booted := BootstrapChain(g);
    match booted {
      case Failure(e) => return Failure(BootstrapFailed(e));
      case Success(_) => return Success(g);
    }
  }

  lemma OpenedIs(d: Disk, loaded: seq<Block>)
    requires Load(d) == Success(loaded)
    ensures Opened(d) == Success(if d.genesisHash.None? then loaded + [GenesisBlock()] else loaded)
  {
    hide Load;
    assert loaded + [] == loaded;
  }

  lemma NoTables()
    ensures IndexOf([]) == map[] && WorkTable([]) == map[] && IdsOf([]) == {}
  {
  }

  /** The fields of a bootstrap stand for the bootstrapped node. */
  ghost method AdoptBooted(g: ChainState)
    requires Booted(g) && Bare(g) && Ledger(g.balances, g.nonces) == EMPTY_LEDGER
    modifies g`abs
    ensures g.Valid() && g.abs == BootedNode(g.ticks).(log := g.writes)
  {
    hide TreeInv, FieldsOk, Exact, Offset, Mixed;
    BootedTree(g.c, g.ticks);
    BootedTable(g.c, g.ticks);
    SameTable(BootedNode(g.ticks), BootedNode(g.ticks).(log := g.writes));
    BootedFields(g.c);
    g.abs := BootedNode(g.ticks).(log := g.writes);
  }

  lemma BootedFields(c: Crypto)
    ensures FieldsOk(c, map[GENESIS_HASH := GenesisBlock()], [GenesisBlock()], map[GENESIS_HASH := 0], map[],
                     EMPTY_LEDGER)
  {
    hide Exec;
    GenesisExecutes(c);
  }

  /** The recovery choice: the newest acceptable snapshot and the tail above it,
      a full rebuild, or nothing to do on a chain of genesis alone. */
  method RecoverAccounts(g: ChainState, ghost s: Node) returns (r: Result<(), StartupError>)
    requires Bare(g) && Ledger(g.balances, g.nonces) == EMPTY_LEDGER
    requires if Booted(g) then 0 !in g.snapshots.metadata
             else
               && Replayable(g, s) && s.disk == g.disk && Plausible(g.c, s, g.snapshots) && Loaded(g, Chain(s))
               && Granted(g, |Chain(s)|)
    modifies g
    ensures r == Success(()) && g.Valid() && g.disk == old(g.disk)
            && KeepsSnapshots(g.abs.known, old(g.snapshots), g.snapshots)
    ensures if old(Booted(g)) then g.abs == BootedNode(old(g.ticks)).(log := g.writes) else Recovered(g, s)
  {
    hide Inv, PoolOk, FieldsOk, Path, TreeOf, InTime, Holds, Plausible, SnapshotAt, LedgerOk, IndexOf, WorkTable, IdsOf,
      Describes, SmallSnapshots, BootDisk, ReplayLog, EndsWith, Recovered, WritesOk, KeepsSnapshots, DiskOk,
      Newest;
    ghost var booted := Booted(g);
    if booted {
      NoneAtZero(g.c, g.disk, g.snapshots);
    } else {
      NewestSound(g.c, s, g.snapshots);
      ChainHeight(g.c, s);
      g.writes := [Write(g.disk, Chain(s)[|Chain(s)| - 1].Id())];
    }
    var currentHeight := g.blocks[|g.blocks| - 1].Height();
    var restored := RestoreLatestSnapshot(g, currentHeight);
    if restored.Some? {
      assert Truncated(Chain(s), restored.value + 1) == Chain(s)[..restored.value + 1];
    }
    r := ResumeOrRebuild(g, restored, currentHeight, s);
  }

  /** The second half of the choice: go on from the restored snapshot, or rebuild
      unless the chain is genesis alone. */
  method ResumeOrRebuild(g: ChainState, restored: Option<nat>, currentHeight: nat, ghost s: Node)
    returns (r: Result<(), StartupError>)
    requires Bare(g)
    requires if Booted(g) && restored.None? then currentHeight == 0 && Ledger(g.balances, g.nonces) == EMPTY_LEDGER
             else Replayable(g, s) && s.disk == g.disk && Granted(g, |Chain(s)|) && LogOpen(g, s)
    requires !Booted(g) && restored.None? ==>
               && Loaded(g, Chain(s)) && Ledger(g.balances, g.nonces) == EMPTY_LEDGER
               && currentHeight == |Chain(s)| - 1
    requires restored.Some? ==>
               && restored.value < |Chain(s)| && Loaded(g, Chain(s)[..restored.value + 1])
               && LedgerOk(g.c, Chain(s)[..restored.value + 1], Ledger(g.balances, g.nonces))
    modifies g
    ensures r == Success(()) && g.Valid() && g.disk == old(g.disk)
            && KeepsSnapshots(g.abs.known, old(g.snapshots), g.snapshots)
    ensures if old(Booted(g)) && restored.None? then g.abs == BootedNode(old(g.ticks)).(log := g.writes)
            else Recovered(g, s)
  {
    hide Inv, PoolOk, FieldsOk, Path, TreeOf, InTime, Holds, LedgerOk, IndexOf, WorkTable, IdsOf, Describes,
      SmallSnapshots, BootDisk, ReplayLog, EndsWith, Recovered, WritesOk, Young;
    ghost var booted := Booted(g);
    match restored {
      case Some(height) =>
        var replayed := ResumeFrom(g, height, s);
        match replayed {
          case Failure(e) => return Failure(e);
          case Success(_) =>
        }
      case None =>
        if currentHeight > 0 {
          var rebuilt := RebuildFromGenesis(g, s);
          match rebuilt {
            case Failure(e) => return Failure(e);
            case Success(_) =>
          }
        } else if booted {
          AdoptBooted(g);
        } else {
          AdoptAlone(g, s);
        }
    }
    return Success(());
  }

  /** A stored chain of genesis alone needs no replay. */
  ghost method AdoptAlone(g: ChainState, s: Node)
    requires Replayable(g, s) && s.disk == g.disk && Bare(g) && |Chain(s)| == 1 && LogOpen(g, s)
    requires Loaded(g, Chain(s)) && Ledger(g.balances, g.nonces) == EMPTY_LEDGER
    modifies g`abs
    ensures g.Valid() && Recovered(g, s) && g.disk == s.disk
  {
    hide Inv, DiskOk, PoolOk, FieldsOk, Path, InTime, Holds, LedgerOk, IndexOf, WorkTable, IdsOf, ReplayLog;
    OpenLogs(g.c, s);
    GenesisAlone(g.c, s);
    Adopt(g, s, 1);
    HoldsTip(s, g.abs);
  }

  /** From a restored snapshot on. */
  method ResumeFrom(g: ChainState, height: nat, ghost s: Node) returns (r: Result<nat, StartupError>)
    requires Replayable(g, s) && s.disk == g.disk && Bare(g) && height < |Chain(s)| && Granted(g, |Chain(s)|)
    requires LogOpen(g, s)
    requires Loaded(g, Chain(s)[..height + 1]) && LedgerOk(g.c, Chain(s)[..height + 1], Ledger(g.balances, g.nonces))
    modifies g
    ensures g.Valid() && r == Success(|Chain(s)| - 1) && KeepsSnapshots(g.abs.known, old(g.snapshots), g.snapshots)
    ensures Recovered(g, s) && g.disk == s.disk && old(g.writes) <= g.writes
  {
    hide Inv, DiskOk, PoolOk, FieldsOk, Path, InTime, Holds, LedgerOk, IndexOf, WorkTable, IdsOf, KeepsSnapshots;
    Adopt(g, s, height + 1);
    r := ReplayStoredCanonicalTail(g, height, s);
  }

  lemma NoneAtZero(c: Crypto, d: Disk, sn: Snapshots)
    requires 0 !in sn.metadata
    ensures Newest(c, d, sn, 0) == None
  {
  }

  lemma ChainHeight(c: Crypto, s: Node)
    requires Inv(c, s) && |Chain(s)| > 0
    ensures Chain(s)[|Chain(s)| - 1].Height() == |Chain(s)| - 1
  {
    hide Path, Inv;
    ChainLinked(c, s);
  }

  lemma GenesisAlone(c: Crypto, s: Node)
    requires Inv(c, s) && |Chain(s)| == 1
    ensures Chain(s)[..1] == Chain(s) && LedgerOk(c, Chain(s), Ledger(map[], map[]))
  {
    hide Path, Exec, Inv;
    ChainLinked(c, s);
    GenesisExecutes(c);
    assert Chain(s) == [GenesisBlock()];
  }

  /** The log of a first run starts with the disk that the bootstrap has left. */
  ghost method StartLog(g: ChainState)
    requires g.Valid()
    modifies g`writes, g`abs
    ensures g.Valid() && g.abs == old(g.abs).(log := [Write(g.disk, g.abs.tip)])
  {
    hide TreeInv, PoolOk, FieldsOk, Path, Exact, Offset, Mixed;
    SameTable(g.abs, g.abs.(log := [Write(g.disk, g.abs.tip)]));
    g.writes := [Write(g.disk, g.abs.tip)];
    g.abs := g.abs.(log := g.writes);
  }

  /** A node that was started is a sound start for the next run: runs and
      restarts can follow each other. A restart, unlike a bootstrap, has every
      work of its chain exactly on record. */
  lemma StartedLive(c: Crypto, w: World, d: Disk, sn: Snapshots, s: Node, t: Node)
    requires Startable(c, w, d, sn, s)
    requires if Blank(d) then t == BootedNode(t.ticks)
             else Holds(s, t, |Chain(s)|) && t.disk == d && ReplayLog(s, t.log) && EndsWith(t.log, Write(d, t.tip))
    ensures Live(c, w, t) && TopOfRecord(t) && Heaviest(t) && Chain(t) == Chain(s)
    ensures t.disk.genesisHash == Some(GENESIS_HASH)
    ensures !Blank(d) ==> Exact(t)
  {
    hide Path, Inv, DiskOk, LogOk, InTime, WritesOk, Plausible, TopOfRecord, Heaviest, Exact, Tracked, TreeOf,
      WorkTable, IdsOf, AllOnTime, BootDisk;
    if Blank(d) {
      BootedLive(c, w, t.ticks);
      BootedTree(c, t.ticks);
      BootedTree(c, 0);
      BootedMark(t.ticks);
    } else {
      HeldLive(c, w, s, t);
    }
  }

  lemma BootedMark(ticks: nat)
    ensures BootedNode(ticks).disk.genesisHash == Some(GENESIS_HASH)
  {
  }

  lemma HeldLive(c: Crypto, w: World, s: Node, t: Node)
    requires Inv(c, s) && s.known != map[] && DiskOk(s) && InTime(w, s.known)
    requires Holds(s, t, |Chain(s)|) && t.disk == s.disk && ReplayLog(s, t.log) && EndsWith(t.log, Write(t.disk, t.tip))
    ensures Live(c, w, t) && TopOfRecord(t) && Heaviest(t) && Chain(t) == Chain(s) && Exact(t)
  {
    hide Path, Inv, Exact, Tracked, TopOfRecord, Heaviest, TreeOf, WorkTable, IdsOf, Describes;
    ChainEnds(c, s);
    assert Chain(s)[..|Chain(s)|] == Chain(s);
    HolderSound(c, s, t, |Chain(s)|);
    ImagedDisk(c, s, t.disk, t);
    TipIsKnown(c, t);
    forall i: nat | i < |t.log|
      ensures LoggedAt(t.known, t.log, t.disk.genesisHash, i)
    {
      ImageLogged(c, s, t, t.log[i]);
    }
    HeldOnTime(w, s, t);
  }

  lemma ImageLogged(c: Crypto, s: Node, t: Node, e: Write)
    requires Inv(c, s) && Holds(s, t, |Chain(s)|) && ImageOf(s, e)
    ensures e.tip in t.known && Describes(e.disk, Path(t.known, e.tip)) && e.disk.genesisHash == s.disk.genesisHash
  {
    hide Path, Inv, TreeOf, WorkTable, IdsOf, Describes;
    PrefixTree(c, s, |Chain(s)|);
    assert Chain(s)[..|Chain(s)|] == Chain(s);
    var k: nat :| UpTo(Chain(s), e, k);
  }

  lemma HeldOnTime(w: World, s: Node, t: Node)
    requires InTime(w, s.known) && Grows(t.known, s.known)
    ensures AllOnTime(w, t.known)
  {
    forall h | h in t.known
      ensures OnTime(w, t.known[h])
    {
      assert t.known[h].header.timestamp <= w.clock(0) + MAX_FUTURE_TIMESTAMP_SECS;
    }
  }

  /** Startup, whether the database is empty, was left by a bootstrap cut short
      before the tip height, or holds the marked chain of a sound node: it
      succeeds on that chain, with an account state that reads like executing
      it, and the node is ready for the next run. */
  method InitializeChainState(c: Crypto, w: World, disk: Disk, snapshots: Snapshots, ghost s: Node)
    returns (r: Result<ChainState, StartupError>)
    requires Startable(c, w, disk, snapshots, s)
    ensures r.Success? && fresh(r.value) && r.value.Valid() && r.value.c == c && r.value.w == w
    ensures r.value.blocks == Chain(s) && r.value.disk == s.disk
    ensures Live(c, w, r.value.abs) && TopOfRecord(r.value.abs) && Heaviest(r.value.abs)
    ensures if Blank(disk) then r.value.abs == BootedNode(5)
            else Exact(r.value.abs) && |r.value.writes| > 0 && r.value.writes[0] == Write(disk, r.value.abs.tip)
    ensures r.value.disk.genesisHash == Some(GENESIS_HASH)
            && KeepsSnapshots(r.value.abs.known, snapshots, r.value.snapshots)
  {
    hide Inv, PoolOk, FieldsOk, Path, TreeOf, InTime, WritesOk, Holds, Plausible, Load, Live, TopOfRecord, Heaviest,
      Exact, LedgerOk, SmallSnapshots, BootDisk, Describes;
    StartableOpens(c, w, disk, snapshots, s);
    var start := OpenChain(c, w, disk, snapshots, Chain(s));
    match start {
      case Failure(e) => return Failure(e);
      case Success(g) =>
        assert Booted(g) == Blank(disk);
        var recovered := RecoverAccounts(g, s);
        match recovered {
          case Failure(e) => return Failure(e);
          case Success(_) =>
        }
        if Blank(disk) {
          StartLog(g);
        } else {
          HoldsTip(s, g.abs);
        }
        StartedLive(c, w, disk, snapshots, s, g.abs);
        return Success(g);
    }
  }

  lemma StartableOpens(c: Crypto, w: World, d: Disk, sn: Snapshots, s: Node)
    requires Startable(c, w, d, sn, s)
    ensures Load(d).Success? && (d.genesisHash == Some(GENESIS_HASH) || (d.genesisHash.None? && WritesOk(w, 0, 5)))
    ensures !Blank(d) ==> Describes(d, Chain(s)) && d.genesisHash.Some?
    ensures Blank(d) ==> d.genesisHash.None? && s.disk == BootDisk(EMPTY_DISK, 5)
  {
    hide Path, Inv, Load, Plausible;
    if Blank(d) {
      BlankBoots(d);
    } else {
      LoadReadsBack(d, Chain(s));
    }
  }

  /** Any two ways of starting from the same database agree: same chain, and
      every balance and nonce reads the same. */
  lemma StartupsAgree(g: ChainState, h: ChainState)
    requires g.Valid() && h.Valid() && g.c == h.c && g.blocks == h.blocks
    ensures Same(Ledger(g.balances, g.nonces), Ledger(h.balances, h.nonces))
  {
    hide PoolOk, Inv, Path, Exec, IndexOk, SideOk;
  }

  // --- Restart after any run ---

  /** A later world: a clock that only moves forward. */
  ghost predicate Later(w: World, v: World) {
    forall i: nat, j: nat :: w.clock(i) <= v.clock(j)
  }

  lemma LaterInTime(c: Crypto, w: World, v: World, s: Node)
    requires Inv(c, s) && AllOnTime(w, s.known) && Later(w, v)
    ensures InTime(v, s.known)
  {
    hide Path, Inv, Later;
    TreeOfInv(c, s);
    forall h, n: nat | h in s.known
      ensures s.known[h].header.timestamp <= v.clock(n) + MAX_FUTURE_TIMESTAMP_SECS
    {
      LaterOnTime(w, v, s.known, h, n);
    }
  }

  lemma LaterOnTime(w: World, v: World, known: map<Hash, Block>, h: Hash, n: nat)
    requires Rooted(known) && h in known && AllOnTime(w, known) && Later(w, v)
    ensures known[h].header.timestamp <= v.clock(n) + MAX_FUTURE_TIMESTAMP_SECS
  {
    assert RootedAt(known, h) && OnTime(w, known[h]);
  }

  /** The disk of a live node, once marked, can be started from later. */
  lemma LiveRestarts(c: Crypto, w: World, v: World, s: Node, sn: Snapshots)
    requires Live(c, w, s) && s.disk.genesisHash == Some(GENESIS_HASH)
    requires Later(w, v) && WritesOk(v, 0, 2 * |Chain(s)|) && Plausible(c, s, sn)
    ensures Startable(c, v, s.disk, sn, s) && !Blank(s.disk)
  {
    hide Inv, DiskOk, LogOk, Exact, Tracked, Plausible, AllOnTime, InTime, Later, WritesOk, Sorted, PoolProper, Path;
    MarkedNotBlank(s.disk);
    LaterInTime(c, w, v, s);
  }

  lemma MarkedNotBlank(d: Disk)
    requires d.genesisHash.Some?
    ensures !Blank(d)
  {
  }

  /** Whatever a run did and whichever of its writes failed, a restart on the
      database it left comes back on the same chain with the same accounts, and
      with every work of that chain exactly on record, however short the records
      of the run had been. */
  method RestartAfterRun(c: Crypto, w: World, v: World, ghost s: Node, ghost inputs: seq<Input>, disk: Disk,
                         snapshots: Snapshots)
    returns (r: Result<ChainState, StartupError>)
    requires Live(c, w, s) && s.disk.genesisHash == Some(GENESIS_HASH) && AllProper(c, inputs)
    requires disk == Reached(c, w, s, inputs).disk && Later(w, v)
    requires WritesOk(v, 0, 2 * |Chain(Reached(c, w, s, inputs))|) && Plausible(c, Reached(c, w, s, inputs), snapshots)
    ensures r.Success? && fresh(r.value) && r.value.Valid() && r.value.c == c && r.value.w == v && r.value.disk == disk
    ensures r.value.blocks == Chain(Reached(c, w, s, inputs))
    ensures LedgerOk(c, Chain(Reached(c, w, s, inputs)), Ledger(r.value.balances, r.value.nonces))
    ensures Live(c, v, r.value.abs) && Exact(r.value.abs) && TopOfRecord(r.value.abs) && Heaviest(r.value.abs)
  {
    hide Inv, Reached, Path, Plausible, Later, WritesOk, AllProper, Live, Heaviest, TopOfRecord, Exact, Tracked,
      LedgerOk, PoolOk, IndexOk, SideOk, Blank;
    ghost var t := Reached(c, w, s, inputs);
    Reachable(c, w, s, inputs);
    LiveRestarts(c, w, v, t, snapshots);
    r := InitializeChainState(c, v, disk, snapshots, t);
  }

  /** A crash at any moment: a restart from any image that the in-place methods
      have left behind comes back on the whole chain to the tip of that moment,
      with the accounts of that chain. The images that a recovery leaves belong
      to them: after a crash in the middle of a replay that is the chain up to
      the block replayed last. */
  method RestartAfterCrash(g: ChainState, ghost i: nat, v: World, disk: Disk, snapshots: Snapshots)
    returns (r: Result<ChainState, StartupError>)
    requires g.Valid() && Live(g.c, g.w, g.abs) && g.disk.genesisHash == Some(GENESIS_HASH)
    requires i < |g.writes| && disk == g.writes[i].disk && Later(g.w, v)
    requires WritesOk(v, 0, 2 * |Chain(Imaged(g.abs, i))|) && Plausible(g.c, Imaged(g.abs, i), snapshots)
    ensures r.Success? && fresh(r.value) && r.value.Valid() && r.value.c == g.c && r.value.w == v
            && r.value.disk == disk
    ensures g.writes[i].tip in g.abs.known && r.value.blocks == Path(g.abs.known, g.writes[i].tip)
    ensures LedgerOk(g.c, Path(g.abs.known, g.writes[i].tip), Ledger(r.value.balances, r.value.nonces))
    ensures Live(g.c, v, r.value.abs) && Exact(r.value.abs) && Heaviest(r.value.abs)
    ensures i == |g.writes| - 1 ==> r.value.blocks == g.blocks
  {
    hide Inv, Path, Plausible, Later, WritesOk, Heaviest, TopOfRecord, Exact, Tracked, LedgerOk, PoolOk, IndexOk,
      SideOk, Blank, Imaged, DiskOk, Ready, InTime, AllOnTime, LoggedAt;
    ImagedSound(g.c, g.abs, i);
    ImagedStarts(g.c, g.w, v, g.abs, i, snapshots);
    r := InitializeChainState(g.c, v, disk, snapshots, Imaged(g.abs, i));
  }

  lemma ImagedStarts(c: Crypto, w: World, v: World, s: Node, i: nat, sn: Snapshots)
    requires Live(c, w, s) && s.disk.genesisHash == Some(GENESIS_HASH) && i < |s.log|
    requires Later(w, v) && WritesOk(v, 0, 2 * |Chain(Imaged(s, i))|) && Plausible(c, Imaged(s, i), sn)
    ensures Startable(c, v, s.log[i].disk, sn, Imaged(s, i)) && !Blank(s.log[i].disk)
  {
    hide Inv, Path, DiskOk, LogOk, Exact, Tracked, Plausible, AllOnTime, Later, WritesOk, Sorted, PoolProper;
    ImagedSound(c, s, i);
    MarkedNotBlank(s.log[i].disk);
    LaterInTime(c, w, v, s);
    InTimeOn(v, s.known, Imaged(s, i).known);
  }

  lemma InTimeOn(v: World, known: map<Hash, Block>, fewer: map<Hash, Block>)
    requires InTime(v, known) && Grows(fewer, known)
    ensures InTime(v, fewer)
  {
  }

  /** A chain of young blocks is not past the last halving. */
  lemma YoungChain(c: Crypto, s: Node)
    requires Inv(c, s) && Young(s.known)
    ensures |Chain(s)| <= 128 * HALVING_INTERVAL
  {
    hide Path, Inv;
    ChainLinked(c, s);
    if |Chain(s)| > 0 {
      ChainKnown(c, s, |Chain(s)| - 1);
    }
  }

  const NO_SNAPSHOTS := Snapshots(map[], map[], map[], map[])

  /** The whole life of a node: bootstrapped on an empty database, fed any blocks
      in any order, whichever writes fail, and started again on the database and
      the snapshots it has left. It comes back on the same chain, with the same
      balance and nonce for every account. */
  method RunThenRestart(c: Crypto, w: World, v: World, inputs: seq<Input>)
    returns (g: ChainState, r: Result<ChainState, StartupError>)
    requires WritesOk(w, 0, 5) && AllProper(c, inputs) && Later(w, v) && NoCollisions(c)
    requires var s := Run(c, w, BootedNode(5), inputs); Young(s.known) && WritesOk(v, 0, 2 * |Chain(s)|)
    ensures fresh(g) && g.Valid() && g.c == c && Live(c, w, g.abs)
    ensures Live(c, w, BootedNode(5)) && g.abs == Reached(c, w, BootedNode(5), inputs)
    ensures r.Success? && fresh(r.value) && r.value.Valid() && r.value.c == c && r.value.w == v
    ensures r.value.blocks == g.blocks && r.value.disk == g.disk
    ensures Same(Ledger(g.balances, g.nonces), Ledger(r.value.balances, r.value.nonces))
    ensures Live(c, v, r.value.abs) && Exact(r.value.abs) && Heaviest(r.value.abs)
  {
    hide Inv, Path, Later, WritesOk, Heaviest, TopOfRecord, Exact, Tracked, LedgerOk, PoolOk, FieldsOk, Blank, Live,
      Young, SmallSnapshots, AllProper, NoCollisions, BootDisk, Run, Grows;
    EmptyStarts(c, w);
    var first := InitializeChainState(c, w, EMPTY_DISK, NO_SNAPSHOTS, BootedNode(0));
    g := first.value;
    ghost var start, saved := g.abs, g.snapshots;
    LiveFacts(c, w, start);
    SubmitAll(g, inputs);
    Reachable(c, w, start, inputs);
    ReachedIs(c, w, start, inputs);
    KeepsSnapshotsOn(start.known, g.abs.known, NO_SNAPSHOTS, saved, g.snapshots);
    LiveFacts(c, w, g.abs);
    SavedSnapshots(g.abs.known, g.snapshots);
    YoungChain(c, g.abs);
    LiveRestarts(c, w, v, g.abs, g.snapshots);
    r := InitializeChainState(c, v, g.disk, g.snapshots, g.abs);
    StartupsAgree(g, r.value);
  }

  lemma LiveFacts(c: Crypto, w: World, s: Node)
    requires Live(c, w, s)
    ensures Inv(c, s) && s.known != map[] && Sorted(s.orphans.pool)
  {
    hide Inv, DiskOk, LogOk, Exact, Tracked, AllOnTime;
  }

  lemma ReachedIs(c: Crypto, w: World, s: Node, inputs: seq<Input>)
    requires Live(c, w, s)
    ensures Sorted(s.orphans.pool) && Reached(c, w, s, inputs) == Run(c, w, s, inputs)
  {
    hide Inv, DiskOk, LogOk, Exact, Tracked, AllOnTime, Run;
  }

  lemma SavedSnapshots(known: map<Hash, Block>, after: Snapshots)
    requires KeepsSnapshots(known, NO_SNAPSHOTS, after) && Young(known)
    ensures SmallSnapshots(after)
  {
    hide Young;
    assert SmallSnapshots(NO_SNAPSHOTS);
  }

  lemma EmptyStarts(c: Crypto, w: World)
    requires WritesOk(w, 0, 5)
    ensures Startable(c, w, EMPTY_DISK, NO_SNAPSHOTS, BootedNode(0)) && Blank(EMPTY_DISK)
  {
    hide BootedNode;
    assert BootDisk(EMPTY_DISK, 0) == EMPTY_DISK;
  }
}
