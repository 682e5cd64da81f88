/** The persistent chain: stored blocks, the canonical height index and the
    tip metadata, with the three writes that touch them.
 */
module ChainDisk {
  import opened Base
  import opened BlockTree

  datatype Disk = Disk(
    blocks: map<Hash, Block>,
    heights: map<nat, Hash>,
    tipHeight: Option<nat>,
    tipHash: Option<Hash>,
    genesisHash: Option<Hash>)

  const EMPTY_DISK := Disk(map[], map[], None, None, None)

  /** What the disk holds after a write, and the tip the node then has. */
  datatype Write = Write(disk: Disk, tip: Hash)

  // --- Writes, each one atomic batch ---

  function StoreBlock(d: Disk, b: Block): Disk {
    d.(blocks := d.blocks[b.Id() := b])
  }

  /** Block and height entry of one canonical block. */
  function IndexBlock(d: Disk, b: Block): Disk {
    d.(blocks := d.blocks[b.Id() := b], heights := d.heights[b.Height() := b.Id()])
  }

  function IndexAll(d: Disk, path: seq<Block>): Disk {
    if |path| == 0 then d else IndexBlock(IndexAll(d, path[..|path| - 1]), path[|path| - 1])
  }

  function PointTip(d: Disk, b: Block): Disk {
    d.(tipHeight := Some(b.Height()), tipHash := Some(b.Id()))
  }

  function DropHeights(d: Disk, above: nat, upTo: nat): Disk {
    d.(heights := map n | n in d.heights && !(above < n <= upTo) :: d.heights[n])
  }

  function PersistExtension(d: Disk, b: Block): Disk {
    PointTip(IndexBlock(d, b), b)
  }

  function PersistReorg(d: Disk, path: seq<Block>, previousTip: nat): Disk
    requires |path| > 0
  {
    var tip := path[|path| - 1];
    PointTip(DropHeights(IndexAll(d, path), tip.Height(), previousTip), tip)
  }

  // --- Reading a chain back ---

  datatype LoadError = HeightMissing(height: nat) | BlockMissing(hash: Hash)

  /** The first n + 1 blocks named by the height index. */
  function LoadUpTo(d: Disk, n: nat): Result<seq<Block>, LoadError> {
    var before :- if n == 0 then Success([]) else LoadUpTo(d, n - 1);
    if n !in d.heights then Failure(HeightMissing(n))
    else if d.heights[n] !in d.blocks then Failure(BlockMissing(d.heights[n]))
    else Success(before + [d.blocks[d.heights[n]]])
  }

  /** What a restart reads: the canonical chain, or nothing if none was stored. */
  function Load(d: Disk): Result<seq<Block>, LoadError> {
    if d.tipHeight.None? then Success([]) else LoadUpTo(d, d.tipHeight.value)
  }

  /** The disk describes this chain: its heights, its blocks, and its tip. */
  ghost predicate Describes(d: Disk, path: seq<Block>) {
    && |path| > 0
    && (forall i | 0 <= i < |path| ::
          && i in d.heights && d.heights[i] == path[i].Id()
          && path[i].Id() in d.blocks && d.blocks[path[i].Id()] == path[i])
    && d.tipHeight == Some(|path| - 1)
    && d.tipHash == Some(path[|path| - 1].Id())
  }

  /** It has no height entries above the chain. */
  ghost predicate NoneAbove(d: Disk, path: seq<Block>) {
    forall n | n in d.heights :: n < |path|
  }

  lemma {:induction false} LoadPrefix(d: Disk, path: seq<Block>, n: nat)
    requires Describes(d, path) && n < |path|
    ensures LoadUpTo(d, n) == Success(path[..n + 1])
  {
    if n > 0 {
      LoadPrefix(d, path, n - 1);
    }
    assert path[..n + 1] == path[..n] + [path[n]];
  }

  /** A restart reads back exactly the chain the disk describes. */
  lemma LoadReadsBack(d: Disk, path: seq<Block>)
    requires Describes(d, path)
    ensures Load(d) == Success(path)
  {
    LoadPrefix(d, path, |path| - 1);
    assert path[..|path|] == path;
  }

  lemma {:induction false} LoadFails(d: Disk, n: nat, m: nat)
    requires n <= m && LoadUpTo(d, n).Failure?
    ensures LoadUpTo(d, m) == LoadUpTo(d, n)
    decreases m
  {
    if n < m {
      LoadFails(d, n, m - 1);
    }
  }

  /** Storing a side block leaves the described chain as it was. */
  lemma StoreKeepsChain(d: Disk, path: seq<Block>, b: Block)
    requires Describes(d, path)
    requires !OnPath(path, b.Id())
    ensures Describes(StoreBlock(d, b), path)
  {
    forall i | 0 <= i < |path|
      ensures path[i].Id() != b.Id()
    {
      assert path[i].Id() == b.Id() ==> OnPath(path, b.Id());
    }
  }

  lemma ExtensionAppends(d: Disk, path: seq<Block>, b: Block)
    requires Describes(d, path) && b.Height() == |path|
    requires !OnPath(path, b.Id())
    ensures Describes(PersistExtension(d, b), path + [b])
    ensures NoneAbove(d, path) ==> NoneAbove(PersistExtension(d, b), path + [b])
    ensures PersistExtension(d, b).blocks == d.blocks[b.Id() := b]
  {
    StoreKeepsChain(d, path, b);
  }

  /** Rewriting stored blocks changes none of them. */
  lemma {:induction false} IndexAllBlocks(d: Disk, path: seq<Block>)
    requires forall i | 0 <= i < |path| :: path[i].Id() in d.blocks && d.blocks[path[i].Id()] == path[i]
    ensures IndexAll(d, path).blocks == d.blocks
  {
    if |path| > 0 {
      var init, last := path[..|path| - 1], path[|path| - 1];
      IndexAllBlocks(d, init);
      assert d.blocks[last.Id() := last] == d.blocks;
    }
  }

  /** The entry at one height. */
  lemma {:induction false} IndexAllAt(d: Disk, path: seq<Block>, n: nat)
    requires forall i | 0 <= i < |path| :: path[i].Height() == i
    ensures n in IndexAll(d, path).heights <==> n in d.heights || n < |path|
    ensures n < |path| ==> IndexAll(d, path).heights[n] == path[n].Id()
    ensures n >= |path| && n in d.heights ==> IndexAll(d, path).heights[n] == d.heights[n]
  {
    if |path| > 0 {
      IndexAllAt(d, path[..|path| - 1], n);
    }
  }

  lemma IndexAllShape(d: Disk, path: seq<Block>)
    requires forall i | 0 <= i < |path| :: path[i].Height() == i
    requires forall i | 0 <= i < |path| :: path[i].Id() in d.blocks && d.blocks[path[i].Id()] == path[i]
    ensures IndexAll(d, path).blocks == d.blocks
    ensures forall n :: n in IndexAll(d, path).heights <==> n in d.heights || 0 <= n < |path|
    ensures forall i | 0 <= i < |path| :: IndexAll(d, path).heights[i] == path[i].Id()
    ensures forall n | n in d.heights && n >= |path| :: IndexAll(d, path).heights[n] == d.heights[n]
  {
    hide IndexAll;
    IndexAllBlocks(d, path);
    forall n: nat
      ensures n in IndexAll(d, path).heights <==> n in d.heights || n < |path|
      ensures n < |path| ==> IndexAll(d, path).heights[n] == path[n].Id()
      ensures n >= |path| && n in d.heights ==> IndexAll(d, path).heights[n] == d.heights[n]
    {
      IndexAllAt(d, path, n);
    }
  }

  /** Rewriting the index describes exactly the new chain, even a shorter one. */
  lemma ReorgReplaces(d: Disk, before: seq<Block>, path: seq<Block>)
    requires Describes(d, before) && |path| > 0
    requires forall i | 0 <= i < |path| :: path[i].Height() == i
    requires forall i | 0 <= i < |path| :: path[i].Id() in d.blocks && d.blocks[path[i].Id()] == path[i]
    ensures Describes(PersistReorg(d, path, |before| - 1), path)
    ensures NoneAbove(d, before) ==> NoneAbove(PersistReorg(d, path, |before| - 1), path)
    ensures PersistReorg(d, path, |before| - 1).blocks == d.blocks
  {
    IndexAllShape(d, path);
  }

  // --- A block that is not numbered by its position ---

  /** Two databases with the same entries below a height read the same up to there. */
  lemma {:induction false} LoadBelow(d: Disk, path: seq<Block>, e: Disk, n: nat)
    requires Describes(d, path) && n < |path|
    requires forall i | 0 <= i <= n ::
               i in e.heights && e.heights[i] == path[i].Id() && path[i].Id() in e.blocks
               && e.blocks[path[i].Id()] == path[i]
    ensures LoadUpTo(e, n) == Success(path[..n + 1])
  {
    if n > 0 {
      LoadBelow(d, path, e, n - 1);
    }
    assert path[..n + 1] == path[..n] + [path[n]];
  }

  /** What a load reads is as long as it says. */
  lemma {:induction false} LoadLength(d: Disk, n: nat)
    ensures LoadUpTo(d, n).Success? ==> |LoadUpTo(d, n).value| == n + 1
  {
    if n > 0 {
      LoadLength(d, n - 1);
    }
  }

  /** What a restart reads after a block was written as the new tip under its own
      number: numbered too low, the block takes the place of an older one and
      the chain ends there; numbered too high, the first height without an entry
      stops the load. Only its position as its number gives the chain with the
      block on top. */
  lemma ExtensionReadsBack(d: Disk, path: seq<Block>, b: Block)
    requires Describes(d, path) && !OnPath(path, b.Id())
    ensures b.Height() <= |path| ==> Load(PersistExtension(d, b)) == Success(path[..b.Height()] + [b])
    ensures b.Height() > |path| && NoneAbove(d, path) ==>
              Load(PersistExtension(d, b)) == Failure(HeightMissing(|path|))
    ensures Load(PersistExtension(d, b)) == Success(path + [b]) <==> b.Height() == |path|
  {
    var e := PersistExtension(d, b);
    assert forall i | 0 <= i < |path| :: path[i].Id() == b.Id() ==> OnPath(path, b.Id());
    LoadLength(e, b.Height());
    if b.Height() <= |path| {
      if b.Height() > 0 {
        LoadBelow(d, path, e, b.Height() - 1);
      }
      assert LoadUpTo(e, b.Height()) == Success(path[..b.Height()] + [b]);
      assert path[..|path|] == path;
    } else if NoneAbove(d, path) {
      LoadBelow(d, path, e, |path| - 1);
      LoadFails(e, |path|, b.Height());
    }
  }
}
