/** Block acceptance as an abstract machine. A node is a tree of known blocks,
    a tip, an orphan pool, the work on record and a disk with its log; the
    canonical chain, the side blocks and the ledger are read off the tree and the
    tip. The class in ChainState.dfy maintains all of it incrementally and is
    proved to agree.
 */
module Consensus {
  import opened Base
  import opened BlockTree
  import opened Validity
  import opened OrphanPool
  import opened ChainDisk
  import opened Works

  /** What the node meets from outside: the n-th wall-clock reading, whether
      the n-th chain write and each of the snapshot writes that follow it
      succeed. */
  datatype World = World(
    clock: nat -> Seconds,
    dbOk: nat -> bool,
    snapshotOk: (nat, nat) -> bool)

  ghost predicate ValidAt(c: Crypto, path: seq<Block>, i: nat)
    requires i < |path|
  {
    ValidOn(c, path[..i], path[i])
  }

  /** A chain from genesis, every further block valid on the ones below it. */
  ghost predicate GoodChain(c: Crypto, path: seq<Block>) {
    && |path| > 0 && Linked(path)
    && forall i: nat {:trigger ValidAt(c, path, i)} | 0 < i < |path| :: ValidAt(c, path, i)
  }

  /** What acceptance leaves to its callers: wherever a block is valid, its
      height is one above its parent's and its hash is not that of genesis. Of a
      block that is valid nowhere nothing is asked. */
  ghost predicate Proper(c: Crypto, b: Block) {
    forall path: seq<Block> {:trigger ValidOn(c, path, b)} |
      GoodChain(c, path) && path[|path| - 1].Id() == b.Parent() && ValidOn(c, path, b) ::
      b.Height() == |path| && b.Id() != GENESIS_HASH
  }

  /** Transactions a reorganisation displaced, and the ids that won. */
  datatype Recovery = Recovery(displaced: seq<Tx>, winning: set<string>)

  datatype Node = Node(
    known: map<Hash, Block>,
    tip: Hash,
    orphans: Orphans,
    pending: Option<Recovery>,
    disk: Disk,
    ticks: nat,
    work: map<Hash, nat>,
    seen: set<Hash>,
    log: seq<Write>)

  datatype AcceptResult =
    | CanonExtension(height: nat)
    | SideChain(height: nat)
    | StoredOrphan(hash: Hash)
    | Rejected(reason: Reason)

  /** The canonical chain. */
  ghost function Chain(s: Node): seq<Block> {
    Path(s.known, s.tip)
  }

  // --- Recovery data ---

  function Bodies(path: seq<Block>): seq<Tx> {
    if |path| == 0 then [] else Bodies(path[..|path| - 1]) + path[|path| - 1].Body()
  }

  function IdSet(c: Crypto, txs: seq<Tx>): set<string> {
    set i | 0 <= i < |txs| :: c.txId(txs[i])
  }

  function Without(c: Crypto, txs: seq<Tx>, ids: set<string>): seq<Tx> {
    if |txs| == 0 then []
    else
      var init, last := txs[..|txs| - 1], txs[|txs| - 1];
      Without(c, init, ids) + if c.txId(last) in ids then [] else [last]
  }

  /** What switching chains displaces and what it confirms, above the fork. */
  function RecoveryFor(c: Crypto, before: seq<Block>, after: seq<Block>): Recovery {
    var n := Fork(before, after);
    var winning := IdSet(c, Bodies(after[n..]));
    Recovery(Without(c, Bodies(before[n..]), winning), winning)
  }

  // --- Placing a validated block ---

  datatype Placement = Extended | SideOnly | Refused

  function Tick(s: Node): Node {
    s.(ticks := s.ticks + 1)
  }

  /** Leave a disk image behind. The log keeps every image and the tip the node
      has once the write is done. */
  function Written(s: Node, d: Disk): Node {
    s.(disk := d, log := s.log + [Write(d, s.tip)])
  }

  /** Know a block, with its work on record. */
  function Record(s: Node, b: Block): Node {
    s.(known := s.known[b.Id() := b],
       work := s.work[b.Id() := Recorded(s.work, b.Parent()) + b.header.difficulty],
       seen := s.seen + {b.Id()})
  }

  /** The table of recorded work after a switch. */
  function SwitchedWork(work: map<Hash, nat>, before: seq<Block>, after: seq<Block>): map<Hash, nat> {
    var n := Fork(before, after);
    Rewritten(work, after, n, StartingWork(work, after, n))
  }

  /** The tip extended by a child. */
  ghost function ExtendBy(s: Node, b: Block): Node {
    Written(Record(Tick(s), b).(tip := b.Id(), pending := None), PersistExtension(s.disk, b))
  }

  /** A block stored beside the canonical chain. */
  ghost function StoreAside(s: Node, b: Block): Node {
    Written(Record(Tick(s), b), StoreBlock(s.disk, b))
  }

  /** The tip moved to a known block. */
  ghost function MoveTo(c: Crypto, s: Node, h: Hash): Node
    requires h in s.known
  {
    var path := Path(s.known, h);
    var moved := Tick(s).(tip := h,
                          pending := Some(RecoveryFor(c, Chain(s), path)),
                          work := SwitchedWork(s.work, Chain(s), path));
    Written(moved, PersistReorg(s.disk, path, if |Chain(s)| == 0 then 0 else |Chain(s)| - 1))
  }

  /** Move the tip to a stored block with more work. A failed write leaves the
      chain where it was. */
  ghost function Reorganise(c: Crypto, w: World, s: Node, h: Hash): (Node, Placement)
    requires h in s.known
  {
    if w.dbOk(s.ticks) then (MoveTo(c, s, h), Extended) else (Tick(s), SideOnly)
  }

  /** Whether the work a block would have on record beats that of the tip. */
  predicate Outweighs(s: Node, b: Block) {
    Recorded(s.work, b.Parent()) + b.header.difficulty > Recorded(s.work, s.tip)
  }

  /** Extend the tip, or store on the side and switch if the branch has strictly
      more work on record than the tip. */
  ghost function Integrate(c: Crypto, w: World, s: Node, b: Block): (Node, Placement) {
    if !w.dbOk(s.ticks) then (Tick(s), Refused)
    else if b.Parent() == s.tip then (ExtendBy(s, b), Extended)
    else if Outweighs(s, b) then Reorganise(c, w, StoreAside(s, b), b.Id())
    else (StoreAside(s, b), SideOnly)
  }

  ghost function ApplyGenesis(w: World, s: Node, b: Block): (Node, AcceptResult) {
    if b.Id() != GENESIS_HASH then (s, Rejected(GenesisHashMismatch))
    else if s.known != map[] then (s, Rejected(GenesisAlreadyApplied))
    else if !w.dbOk(s.ticks) then (Tick(s), Rejected(PersistenceFailed))
    else
      var taken := Tick(s).(known := map[b.Id() := b], tip := b.Id(), pending := None,
                            work := s.work[b.Id() := b.header.difficulty], seen := s.seen + {b.Id()});
      (Written(taken, PersistExtension(s.disk, b)), CanonExtension(0))
  }

  // --- Acceptance and orphan promotion ---

  /** How far a block gets before its waiting children are looked at. */
  datatype Admission = Settled(node: Node, result: AcceptResult) | Integrated(node: Node, result: AcceptResult)

  ghost function IntegrateResult(r: (Node, Placement), b: Block): Admission {
    match r.1
    case Refused => Settled(r.0, Rejected(PersistenceFailed))
    case Extended => Integrated(r.0, CanonExtension(b.Height()))
    case SideOnly => Integrated(r.0, SideChain(b.Height()))
  }

  /** Stages 3 to 8 for a block whose parent is known. */
  ghost function AdmitChild(c: Crypto, w: World, s: Node, b: Block): Admission
    requires b.Parent() in s.known && Shape(c, b) == None && b.Height() > 0
  {
    if b.header.timestamp <= s.known[b.Parent()].header.timestamp then Settled(s, Rejected(TimestampNotMonotonic))
    else if b.header.timestamp > w.clock(s.ticks) + MAX_FUTURE_TIMESTAMP_SECS then
      Settled(Tick(s), Rejected(TooFarInFuture))
    else
      match Verdict(c, Path(s.known, b.Parent()), b)
      case Failure(e) => Settled(Tick(s), Rejected(e))
      case Success(_) => IntegrateResult(Integrate(c, w, Tick(s), b), b)
  }

  /** Everything acceptance does before promoting orphans. */
  ghost function Admit(c: Crypto, w: World, s: Node, b: Block, peer: string): Admission {
    if Shape(c, b).Some? then Settled(s, Rejected(Shape(c, b).value))
    else if b.Id() in s.seen then Settled(s, Rejected(Duplicate))
    else if b.Height() == 0 then
      var (after, result) := ApplyGenesis(w, s, b);
      Settled(after, result)
    else if b.Parent() !in s.known then
      Settled(Tick(s).(orphans := AddOrphan(s.orphans, b, w.clock(s.ticks), peer)), StoredOrphan(b.Id()))
    else AdmitChild(c, w, s, b)
  }

  lemma IntegrateBasics(c: Crypto, w: World, s: Node, b: Block)
    ensures Integrate(c, w, s, b).0.orphans == s.orphans
    ensures s.known.Keys <= Integrate(c, w, s, b).0.known.Keys
    ensures Integrate(c, w, s, b).1 != Refused ==>
              Integrate(c, w, s, b).0.known == s.known[b.Id() := b]
  {
    hide RecoveryFor, PersistReorg, PersistExtension, StoreBlock, Path, SwitchedWork;
  }

  lemma AdmitChildBasics(c: Crypto, w: World, s: Node, b: Block)
    requires b.Parent() in s.known && Shape(c, b) == None && b.Height() > 0
    ensures AdmitChild(c, w, s, b).node.orphans == s.orphans
    ensures s.known.Keys <= AdmitChild(c, w, s, b).node.known.Keys
    ensures AdmitChild(c, w, s, b).Integrated? ==> b.Id() in AdmitChild(c, w, s, b).node.known
  {
    hide Integrate, Verdict, Path, Shape;
    IntegrateBasics(c, w, Tick(s), b);
  }

  lemma AdmitBasics(c: Crypto, w: World, s: Node, b: Block, peer: string)
    requires Sorted(s.orphans.pool)
    ensures Sorted(Admit(c, w, s, b, peer).node.orphans.pool)
    ensures s.known.Keys <= Admit(c, w, s, b, peer).node.known.Keys
    ensures b.Parent() in s.known ==> Admit(c, w, s, b, peer).node.orphans == s.orphans
    ensures Admit(c, w, s, b, peer).Integrated? ==> b.Id() in Admit(c, w, s, b, peer).node.known
  {
    hide AddOrphan, AdmitChild, Shape, PersistExtension;
    AddOrphanKeeps(s.orphans, b, w.clock(s.ticks), peer, {});
    if Shape(c, b) == None && b.Height() > 0 && b.Parent() in s.known {
      AdmitChildBasics(c, w, s, b);
    }
  }

  /** Accept one block. Measure: pooled blocks, then which function. */
  ghost function Apply(c: Crypto, w: World, s: Node, b: Block, peer: string): (r: (Node, AcceptResult))
    requires Sorted(s.orphans.pool)
    ensures Sorted(r.0.orphans.pool)
    ensures s.known.Keys <= r.0.known.Keys
    ensures b.Parent() in s.known ==> Size(r.0.orphans.pool) <= Size(s.orphans.pool)
    decreases Size(s.orphans.pool), 2, 0
  {
    AdmitBasics(c, w, s, b, peer);
    match Admit(c, w, s, b, peer)
    case Settled(after, result) => (after, result)
    case Integrated(placed, result) => (Promote(c, w, placed, b.Id()), result)
  }

  /** Re-submit the orphans that waited for a block. */
  ghost function Promote(c: Crypto, w: World, s: Node, h: Hash): (r: Node)
    requires Sorted(s.orphans.pool) && h in s.known
    ensures Sorted(r.orphans.pool)
    ensures s.known.Keys <= r.known.Keys
    ensures Size(r.orphans.pool) <= Size(s.orphans.pool)
    decreases Size(s.orphans.pool), 1, 0
  {
    if h !in s.orphans.pool then s
    else
      SizeWithout(s.orphans.pool, h);
      PromoteAll(c, w, TakeBucket(s, h), s.orphans.pool[h])
  }

  function TakeBucket(s: Node, h: Hash): Node {
    s.(orphans := s.orphans.(pool := s.orphans.pool - {h}))
  }

  function DropReverse(s: Node, h: Hash): Node {
    s.(orphans := s.orphans.(byHash := s.orphans.byHash - {h}))
  }

  ghost function PromoteAll(c: Crypto, w: World, s: Node, waiting: seq<Orphan>): (r: Node)
    requires Sorted(s.orphans.pool)
    requires forall i | 0 <= i < |waiting| :: waiting[i].block.Parent() in s.known
    ensures Sorted(r.orphans.pool)
    ensures s.known.Keys <= r.known.Keys
    ensures Size(r.orphans.pool) <= Size(s.orphans.pool)
    decreases Size(s.orphans.pool) + |waiting|, 0, |waiting|
  {
    if |waiting| == 0 then s
    else
      var first := waiting[0];
      var next := Apply(c, w, DropReverse(s, first.block.Id()), first.block, first.peer).0;
      PromoteAll(c, w, next, waiting[1..])
  }

  lemma PromoteIs(c: Crypto, w: World, s: Node, h: Hash)
    requires Sorted(s.orphans.pool) && h in s.known
    ensures h !in s.orphans.pool ==> Promote(c, w, s, h) == s
    ensures h in s.orphans.pool ==>
              Sorted(TakeBucket(s, h).orphans.pool)
              && Promote(c, w, s, h) == PromoteAll(c, w, TakeBucket(s, h), s.orphans.pool[h])
  {
    hide PromoteAll;
  }
}
