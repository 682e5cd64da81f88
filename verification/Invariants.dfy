/** What every placement keeps: the shape of the tree, the validity of every
    known block, the table of recorded work, and the agreement of the disk with
    the canonical chain.
 */
module Invariants {
  import opened Base
  import opened Ledgers
  import opened StateRoots
  import opened BlockTree
  import opened Validity
  import opened ChainDisk
  import opened Works
  import opened Consensus
  import opened Tables

  /** A known block is proper and valid on its own ancestry. */
  ghost predicate JudgedAt(c: Crypto, known: map<Hash, Block>, h: Hash) {
    && h in known
    && Proper(c, known[h])
    && (known[h].Height() > 0 ==> ValidOn(c, Path(known, known[h].Parent()), known[h]))
  }

  ghost predicate Judged(c: Crypto, known: map<Hash, Block>) {
    forall h {:trigger JudgedAt(c, known, h)} | h in known :: JudgedAt(c, known, h)
  }

  ghost predicate TreeInv(c: Crypto, known: map<Hash, Block>, tip: Hash) {
    && Rooted(known)
    && Judged(c, known)
    && (if known == map[] then tip == NullHash() else tip in known)
  }

  /** Blocks count as seen once known; only a bootstrapped genesis is known
      without having been seen. */
  ghost predicate SeenOk(s: Node) {
    s.seen <= s.known.Keys && s.known.Keys - {GENESIS_HASH} <= s.seen
  }

  /** The invariant of every run. */
  ghost predicate Inv(c: Crypto, s: Node) {
    TreeInv(c, s.known, s.tip) && SeenOk(s) && TableOk(s)
  }

  /** The disk describes the canonical chain and stores every known block. */
  ghost predicate DiskOk(s: Node) {
    if s.known == map[] then s.disk.heights == map[]
    else
      Describes(s.disk, Chain(s)) && Grows(s.known, s.disk.blocks)
  }

  /** No height entry on disk lies above the canonical chain. */
  ghost predicate Tidy(s: Node) {
    NoneAbove(s.disk, Chain(s))
  }

  lemma TipIsKnown(c: Crypto, s: Node)
    requires Inv(c, s) && s.known != map[]
    ensures s.tip in s.known
  {
    hide Rooted, Judged;
  }

  /** For every known block the chain below it executes, and the resulting
      ledger has the state root in its header. */
  lemma KnownExecutes(c: Crypto, s: Node, h: Hash)
    requires Inv(c, s) && h in s.known
    ensures Exec(c, Path(s.known, h)).Success?
    ensures s.known[h].Height() > 0 ==> Root(c, Exec(c, Path(s.known, h)).value) == Success(s.known[h].header.stateRoot)
  {
    hide Verdict, Root, Shape, Exec, ValidOn, Proper, TableOk;
    assert RootedAt(s.known, h) && JudgedAt(c, s.known, h);
    var b := s.known[h];
    if b.Height() > 0 {
      ValidExtends(c, Path(s.known, b.Parent()), b);
    } else {
      assert Path(s.known, h) == [GenesisBlock()];
      GenesisExecutes(c);
    }
  }

  lemma GenesisExecutes(c: Crypto)
    ensures Exec(c, [GenesisBlock()]) == Success(EMPTY_LEDGER)
  {
    var g := GenesisBlock();
    assert [g][..0] == [];
    assert Transfers(c, EMPTY_LEDGER, g.Body()) == Success(EMPTY_LEDGER);
  }

  // --- A block that fits the tree ---

  /** A validated child of a known block, not yet known itself. */
  ghost predicate Fit(c: Crypto, known: map<Hash, Block>, b: Block) {
    && Proper(c, b) && b.Height() > 0
    && b.Id() !in known && b.Parent() in known
    && ValidOn(c, Path(known, b.Parent()), b)
  }

  /** The path of a known block is a chain of valid blocks. */
  lemma PathGood(c: Crypto, known: map<Hash, Block>, h: Hash)
    requires Rooted(known) && Judged(c, known) && h in known
    ensures GoodChain(c, Path(known, h)) && Path(known, h)[|Path(known, h)| - 1].Id() == h
  {
    hide Path, ValidOn, Judged, Rooted, RootedAt;
    var path := Path(known, h);
    PathEnds(known, h);
    PathLinked(known, h);
    KeyIsId(known, h);
    forall i: nat | 0 < i < |path|
      ensures ValidAt(c, path, i)
    {
      GoodAt(c, known, h, i);
    }
  }

  lemma KeyIsId(known: map<Hash, Block>, h: Hash)
    requires Rooted(known) && h in known
    ensures known[h].Id() == h
  {
    assert RootedAt(known, h);
  }

  lemma GoodAt(c: Crypto, known: map<Hash, Block>, h: Hash, i: nat)
    requires Rooted(known) && Judged(c, known) && h in known && 0 < i < |Path(known, h)|
    ensures ValidAt(c, Path(known, h), i)
  {
    hide Path, ValidOn, Proper, Rooted, RootedAt;
    var path := Path(known, h);
    PathLinked(known, h);
    PathKnown(known, h, i);
    PathPrefix(known, h, i - 1);
    assert JudgedAt(c, known, path[i].Id());
  }

  /** A proper block that is valid on a known parent is numbered one above it,
      and is not genesis. */
  lemma ChildHeight(c: Crypto, known: map<Hash, Block>, b: Block)
    requires Rooted(known) && Judged(c, known) && Proper(c, b) && b.Parent() in known
    requires ValidOn(c, Path(known, b.Parent()), b)
    ensures known[b.Parent()].Id() == b.Parent() && known[b.Parent()].Height() + 1 == b.Height()
    ensures b.Id() != GENESIS_HASH
  {
    hide Path, ValidOn, Judged;
    PathGood(c, known, b.Parent());
    PathLinked(known, b.Parent());
    assert RootedAt(known, b.Parent());
  }

  /** Unseen and valid means fit to be placed, even where genesis is unseen. */
  lemma UnseenFits(c: Crypto, s: Node, b: Block)
    requires Inv(c, s) && Proper(c, b) && b.Height() > 0 && b.Id() !in s.seen && b.Parent() in s.known
    requires ValidOn(c, Path(s.known, b.Parent()), b)
    ensures Fit(c, s.known, b)
  {
    hide Path, ValidOn, Judged, Rooted, Proper, TableOk;
    ChildHeight(c, s.known, b);
  }

  // --- Adding one block to the tree ---

  /** A new child keeps the tree rooted, leaves all paths alone, and its own
      path is its parent's with itself on the end. */
  lemma AddBlock(c: Crypto, known: map<Hash, Block>, b: Block)
    requires Rooted(known) && Judged(c, known) && Fit(c, known, b)
    ensures var later := known[b.Id() := b];
            && Rooted(later) && Judged(c, later)
            && Grows(known, later)
            && Path(later, b.Id()) == Path(known, b.Parent()) + [b]
            && (forall h | h in known :: Path(later, h) == Path(known, h))
    ensures Grown(known, b)
  {
    hide ValidOn, Proper, Path, RootedAt, JudgedAt;
    var later := known[b.Id() := b];
    forall h | h in known
      ensures Path(later, h) == Path(known, h)
    {
      PathStable(known, later, h);
    }
    ChildHeight(c, known, b);
    AddedPath(known, b);
    forall h | h in later
      ensures RootedAt(later, h) && JudgedAt(c, later, h)
    {
      if h == b.Id() {
        AddedJudged(c, known, b);
      } else {
        StaysJudged(c, known, b, h);
      }
    }
  }

  lemma AddedPath(known: map<Hash, Block>, b: Block)
    requires b.Id() !in known && b.Parent() in known && known[b.Parent()].Height() + 1 == b.Height()
    requires Path(known[b.Id() := b], b.Parent()) == Path(known, b.Parent())
    ensures Path(known[b.Id() := b], b.Id()) == Path(known, b.Parent()) + [b]
  {
  }

  lemma AddedJudged(c: Crypto, known: map<Hash, Block>, b: Block)
    requires Fit(c, known, b) && known[b.Parent()].Height() + 1 == b.Height()
    requires Path(known[b.Id() := b], b.Parent()) == Path(known, b.Parent())
    ensures RootedAt(known[b.Id() := b], b.Id()) && JudgedAt(c, known[b.Id() := b], b.Id())
  {
    hide ValidOn, Proper, Path;
  }

  lemma StaysJudged(c: Crypto, known: map<Hash, Block>, b: Block, h: Hash)
    requires Rooted(known) && Judged(c, known) && h in known && b.Id() !in known
    requires forall k | k in known :: Path(known[b.Id() := b], k) == Path(known, k)
    ensures RootedAt(known[b.Id() := b], h) && JudgedAt(c, known[b.Id() := b], h)
  {
    hide ValidOn, Path, Proper;
    assert RootedAt(known, h) && JudgedAt(c, known, h);
  }

  lemma ValidDifficulty(c: Crypto, path: seq<Block>, b: Block)
    requires ValidOn(c, path, b)
    ensures b.header.difficulty >= 1
  {
    ValidExtends(c, path, b);
  }

  // --- The canonical chain of a node ---

  lemma ChainEnds(c: Crypto, s: Node)
    requires Inv(c, s)
    ensures |Chain(s)| == 0 <==> s.known == map[]
    ensures |Chain(s)| == 0 ==> s.tip == NullHash()
    ensures |Chain(s)| > 0 ==> s.tip in s.known && Chain(s)[|Chain(s)| - 1].Id() == s.tip
  {
    hide Judged, TableOk;
    if s.known != map[] {
      assert RootedAt(s.known, s.tip);
    }
  }

  lemma ChainLinked(c: Crypto, s: Node)
    requires Inv(c, s)
    ensures Linked(Chain(s))
  {
    hide Path, Judged, TableOk;
    ChainEnds(c, s);
    if s.known != map[] {
      PathLinked(s.known, s.tip);
    }
  }

  lemma ChainKnown(c: Crypto, s: Node, i: nat)
    requires Inv(c, s) && i < |Chain(s)|
    ensures Chain(s)[i].Id() in s.known && s.known[Chain(s)[i].Id()] == Chain(s)[i]
    ensures Path(s.known, Chain(s)[i].Id()) == Chain(s)[..i + 1]
  {
    hide Path, Judged, TableOk;
    ChainEnds(c, s);
    PathKnown(s.known, s.tip, i);
    PathPrefix(s.known, s.tip, i);
  }

  lemma ChainIn(c: Crypto, s: Node)
    requires Inv(c, s)
    ensures PathIn(s.known, Chain(s))
    ensures |Chain(s)| == 1 ==> s.tip == GENESIS_HASH
  {
    hide Path, Inv;
    forall i | 0 <= i < |Chain(s)|
      ensures Chain(s)[i].Id() in s.known
    {
      ChainKnown(c, s, i);
    }
    ChainLinked(c, s);
    ChainEnds(c, s);
  }

  // --- Extending the tip ---

  lemma ExtendInv(c: Crypto, s: Node, b: Block)
    requires Inv(c, s) && Fit(c, s.known, b) && b.Parent() == s.tip
    ensures Inv(c, ExtendBy(s, b)) && Chain(ExtendBy(s, b)) == Chain(s) + [b]
    ensures Grows(s.known, ExtendBy(s, b).known)
  {
    hide Path, Rooted, Judged, ValidOn, Proper, TableOk, PersistExtension;
    TreeOfInv(c, s);
    AddBlock(c, s.known, b);
    ChildHeight(c, s.known, b);
    ExtendTable(c, s, b);
  }

  lemma TreeOfInv(c: Crypto, s: Node)
    requires Inv(c, s)
    ensures Rooted(s.known) && Judged(c, s.known) && TableOk(s)
  {
    hide Rooted, Judged, TableOk;
  }

  /** The three kinds of table look at the tree, the tip and the records only. */
  lemma SameTable(s: Node, t: Node)
    requires t.known == s.known && t.work == s.work && t.tip == s.tip
    ensures (Exact(s) <==> Exact(t)) && (Offset(s) <==> Offset(t)) && (Mixed(s) <==> Mixed(t))
  {
    hide AllOff, AllNear, CanonExact, Path;
  }

  lemma ExtendTable(c: Crypto, s: Node, b: Block)
    requires Inv(c, s) && Fit(c, s.known, b) && b.Parent() == s.tip
    ensures TableOk(ExtendBy(s, b))
    ensures Exact(s) ==> Exact(ExtendBy(s, b))
    ensures Offset(s) ==> Offset(ExtendBy(s, b))
    ensures Mixed(s) ==> Mixed(ExtendBy(s, b))
  {
    hide Path, Rooted, Judged, ValidOn, Proper, PersistExtension, Exact, Offset, Mixed, PathIn, Grown;
    TreeOfInv(c, s);
    AddBlock(c, s.known, b);
    ChildHeight(c, s.known, b);
    ChainIn(c, s);
    ChainEnds(c, s);
    ExtendKeepsTable(s, b);
    SameTable(Record(s, b).(tip := b.Id()), ExtendBy(s, b));
  }

  // --- Storing on the side ---

  lemma StoreInv(c: Crypto, s: Node, b: Block)
    requires Inv(c, s) && Fit(c, s.known, b)
    ensures Inv(c, StoreAside(s, b)) && Chain(StoreAside(s, b)) == Chain(s)
    ensures Grows(s.known, StoreAside(s, b).known)
    ensures Path(StoreAside(s, b).known, b.Id()) == Path(s.known, b.Parent()) + [b]
  {
    hide Path, Rooted, Judged, ValidOn, Proper, TableOk, StoreBlock;
    TreeOfInv(c, s);
    AddBlock(c, s.known, b);
    StoreTable(c, s, b);
  }

  lemma StoreTable(c: Crypto, s: Node, b: Block)
    requires Inv(c, s) && Fit(c, s.known, b)
    ensures TableOk(StoreAside(s, b))
    ensures Exact(s) ==> Exact(StoreAside(s, b))
    ensures Offset(s) ==> Offset(StoreAside(s, b))
    ensures Mixed(s) ==> Mixed(StoreAside(s, b))
  {
    hide Path, Rooted, Judged, ValidOn, Proper, StoreBlock, Exact, Offset, Mixed, PathIn, Grown;
    TreeOfInv(c, s);
    AddBlock(c, s.known, b);
    ChainIn(c, s);
    TipKnownOf(c, s, b.Parent());
    RecordKeepsTable(s, b);
    SameTable(Record(s, b), StoreAside(s, b));
  }

  lemma TipKnownOf(c: Crypto, s: Node, h: Hash)
    requires Inv(c, s) && h in s.known
    ensures s.tip in s.known
  {
    hide Rooted, Judged, TableOk;
  }

  // --- Switching ---

  /** The end of the path is off the canonical chain. */
  ghost predicate Leaves(s: Node, h: Hash) {
    h in s.known && !OnPath(Chain(s), h)
  }

  lemma LeavesFork(c: Crypto, s: Node, h: Hash)
    requires Inv(c, s) && Leaves(s, h)
    ensures ForkAt(s, h) < |Path(s.known, h)| && s.tip in s.known
  {
    hide Path, Fork, Rooted, Judged, TableOk;
    TreeOfInv(c, s);
    TipKnownOf(c, s, h);
    PathEnds(s.known, h);
    KeyIsId(s.known, h);
    var path := Path(s.known, h);
    ForkSeparates(s.known, s.tip, h, |path| - 1);
  }

  lemma MoveInv(c: Crypto, s: Node, h: Hash)
    requires Inv(c, s) && Leaves(s, h)
    ensures Inv(c, MoveTo(c, s, h)) && Chain(MoveTo(c, s, h)) == Path(s.known, h)
  {
    hide Path, Rooted, Judged, TableOk, PersistReorg, RecoveryFor, SwitchedWork, OnPath;
    MoveTable(c, s, h);
  }

  lemma MoveTable(c: Crypto, s: Node, h: Hash)
    requires Inv(c, s) && Leaves(s, h)
    ensures var t := MoveTo(c, s, h);
            && TableOk(t)
            && (Exact(s) ==> Exact(t))
            && (Offset(s) ==> (Offset(t) <==> ForkAt(s, h) > 1))
            && (!Exact(s) && ForkAt(s, h) == 1 ==> Mixed(t))
            && (Mixed(s) ==> Mixed(t))
  {
    hide Path, Rooted, Judged, PersistReorg, RecoveryFor, Exact, Offset, Mixed, SwitchedWork, OnPath, ForkAt;
    TreeOfInv(c, s);
    LeavesFork(c, s, h);
    SwitchKeepsTable(s, h);
    SameTable(Switched(s, h), MoveTo(c, s, h));
  }

  lemma NewLeaves(c: Crypto, s: Node, b: Block)
    requires Inv(c, s) && Fit(c, s.known, b)
    ensures Leaves(StoreAside(s, b), b.Id())
  {
    hide Path, Rooted, Judged, TableOk, StoreBlock, ValidOn, Proper;
    StoreInv(c, s, b);
    TreeOfInv(c, s);
    TipKnownOf(c, s, b.Parent());
    NotOnPath(s.known, s.tip, b.Id());
  }

  lemma NotOnPath(known: map<Hash, Block>, h: Hash, other: Hash)
    requires Rooted(known) && h in known && other !in known
    ensures !OnPath(Path(known, h), other)
    ensures |Path(known, h)| == known[h].Height() + 1 && known[h].Id() == h
  {
    PathShape(known, h);
    assert RootedAt(known, h);
  }

  // --- Placing a block ---

  /** Placing a valid block: the tree grows by it exactly when the write
      succeeds; the tip moves exactly when the result says so, and then to this
      block, with strictly more work. */
  lemma IntegrateSafe(c: Crypto, w: World, s: Node, b: Block)
    requires Inv(c, s) && Fit(c, s.known, b)
    ensures Inv(c, Integrate(c, w, s, b).0)
    ensures match Integrate(c, w, s, b)
            case (t, Refused) => t == Tick(s) && !w.dbOk(s.ticks)
            case (t, SideOnly) =>
              t.known == s.known[b.Id() := b] && t.tip == s.tip && Chain(t) == Chain(s) && t.pending == s.pending
            case (t, Extended) =>
              t.known == s.known[b.Id() := b] && t.tip == b.Id()
              && Chain(t) == Path(s.known, b.Parent()) + [b] && Work(Chain(t)) > Work(Chain(s))
  {
    hide Path, ValidOn, Proper, Work, ExtendBy, StoreAside, MoveTo, Inv, Outweighs, Leaves;
    ValidDifficulty(c, Path(s.known, b.Parent()), b);
    AppendedWork(Path(s.known, b.Parent()), b);
    PlacedFields(c, s, b);
    if !w.dbOk(s.ticks) {
      TickInv(c, s);
    } else if b.Parent() == s.tip {
      ExtendInv(c, s, b);
    } else {
      StoreInv(c, s, b);
      NewLeaves(c, s, b);
      var stored := StoreAside(s, b);
      TickInv(c, stored);
      MoveInv(c, stored, b.Id());
      OutweighsInFact(c, s, b);
    }
  }

  lemma TickInv(c: Crypto, s: Node)
    requires Inv(c, s)
    ensures Inv(c, Tick(s)) && Chain(Tick(s)) == Chain(s)
  {
    hide Path, Rooted, Judged, Exact, Offset, Mixed;
    SameTable(s, Tick(s));
  }

  /** The tree and tip of the three ways a block can be placed. */
  lemma PlacedFields(c: Crypto, s: Node, b: Block)
    ensures ExtendBy(s, b).known == StoreAside(s, b).known == s.known[b.Id() := b]
    ensures ExtendBy(s, b).tip == b.Id() && StoreAside(s, b).tip == s.tip && StoreAside(s, b).pending == s.pending
    ensures var t := MoveTo(c, StoreAside(s, b), b.Id()); t.known == s.known[b.Id() := b] && t.tip == b.Id()
  {
    hide RecoveryFor, PersistReorg, PersistExtension, StoreBlock, Path, SwitchedWork;
  }

  lemma OutweighsInFact(c: Crypto, s: Node, b: Block)
    requires Inv(c, s) && b.Parent() in s.known
    ensures Heavier(s, b) <==> Outweighs(s, b) || ShortTie(s, b)
    ensures !(Outweighs(s, b) && ShortTie(s, b))
  {
    hide Path, Rooted, Judged, Exact, Offset, Mixed, Outweighs, Heavier, ShortTie;
    TreeOfInv(c, s);
    TipKnownOf(c, s, b.Parent());
    OutweighsMeans(s, b);
  }

  // --- The heaviest tip ---

  /** Placing a block loses the heaviest tip exactly when it is stored beside the
      tip and either beats it on record but the switching write fails, or only
      ties with it on record while its parent is on record short. */
  lemma HeaviestExactly(c: Crypto, w: World, s: Node, b: Block)
    requires Inv(c, s) && Fit(c, s.known, b) && Heaviest(s)
    ensures Heaviest(Integrate(c, w, s, b).0) <==>
            !(w.dbOk(s.ticks) && b.Parent() != s.tip
              && if Outweighs(s, b) then !w.dbOk(s.ticks + 1) else ShortTie(s, b))
  {
    hide Path, Rooted, Judged, ValidOn, Proper, Work, ExtendBy, StoreAside, MoveTo, Outweighs, Inv, ShortTie;
    IntegrateSafe(c, w, s, b);
    TreeOfInv(c, s);
    AddBlock(c, s.known, b);
    AppendedWork(Path(s.known, b.Parent()), b);
    ValidDifficulty(c, Path(s.known, b.Parent()), b);
    OutweighsInFact(c, s, b);
    var t := Integrate(c, w, s, b).0;
    if t.known == s.known {
      HeaviestOfSame(s, t);
    } else {
      HeaviestOfNew(s, t, b);
    }
    IntegrateWays(c, w, s, b);
  }

  lemma HeaviestOfSame(s: Node, t: Node)
    requires t.known == s.known && t.tip == s.tip && Heaviest(s)
    ensures Heaviest(t)
  {
    hide Path, Work;
  }

  lemma HeaviestOfNew(s: Node, t: Node, b: Block)
    requires Heaviest(s) && t.known == s.known[b.Id() := b] && b.Id() !in s.known
    requires forall h | h in s.known :: Path(t.known, h) == Path(s.known, h)
    requires Work(Chain(t)) >= Work(Chain(s))
    ensures Heaviest(t) <==> Work(Path(t.known, b.Id())) <= Work(Chain(t))
  {
    hide Path, Work;
    forall h | h in s.known
      ensures Work(Path(t.known, h)) <= Work(Chain(s))
    {
    }
  }

  /** Which way a placement goes. */
  lemma IntegrateWays(c: Crypto, w: World, s: Node, b: Block)
    ensures Integrate(c, w, s, b).1 == Refused <==> !w.dbOk(s.ticks)
    ensures Integrate(c, w, s, b).1 == Extended <==>
            w.dbOk(s.ticks) && (b.Parent() == s.tip || (Outweighs(s, b) && w.dbOk(s.ticks + 1)))
  {
    hide ExtendBy, MoveTo, Outweighs, StoreBlock;
  }

  /** The rule the code follows is one about records: without failing writes the
      tip stays on top of them, and the placement moves it exactly when the new
      block's record beats the tip's. */
  lemma IntegrateTops(c: Crypto, w: World, s: Node, b: Block)
    requires Inv(c, s) && Fit(c, s.known, b) && TopOfRecord(s)
    requires w.dbOk(s.ticks) && w.dbOk(s.ticks + 1)
    ensures TopOfRecord(Integrate(c, w, s, b).0)
    ensures Integrate(c, w, s, b).1 == Extended <==> Outweighs(s, b)
  {
    hide Path, Rooted, Judged, ValidOn, Proper, Work, MoveTo, Inv, PersistExtension, StoreBlock, Outweighs, Leaves;
    ValidDifficulty(c, Path(s.known, b.Parent()), b);
    TipKnownOf(c, s, b.Parent());
    StoredTops(s, b);
    if b.Parent() != s.tip && Outweighs(s, b) {
      StoreInv(c, s, b);
      NewLeaves(c, s, b);
      MoveTops(c, StoreAside(s, b), b.Id());
    }
    IntegrateWays(c, w, s, b);
  }

  lemma StoredTops(s: Node, b: Block)
    requires TopOfRecord(s) && b.Id() !in s.known && b.header.difficulty >= 1
    requires s.tip in s.known
    ensures b.Parent() == s.tip ==> Outweighs(s, b) && TopOfRecord(ExtendBy(s, b))
    ensures !Outweighs(s, b) ==> TopOfRecord(StoreAside(s, b))
    ensures Outweighs(s, b) ==>
              var t := StoreAside(s, b);
              forall x | x in t.known :: Recorded(t.work, x) <= Recorded(t.work, b.Id())
  {
    hide PersistExtension, StoreBlock;
  }

  lemma MoveTops(c: Crypto, s: Node, h: Hash)
    requires Inv(c, s) && Leaves(s, h)
    requires forall x | x in s.known :: Recorded(s.work, x) <= Recorded(s.work, h)
    ensures TopOfRecord(MoveTo(c, s, h))
  {
    hide Path, Rooted, Judged, PersistReorg, RecoveryFor, TableOk, SwitchedWork, OnPath, ForkAt, Recorded;
    TreeOfInv(c, s);
    LeavesFork(c, s, h);
    SwitchTops(s, h);
  }

  // --- The disk ---

  lemma PathStored(known: map<Hash, Block>, h: Hash, stored: map<Hash, Block>)
    requires Rooted(known) && h in known && Grows(known, stored)
    ensures var path := Path(known, h);
            && |path| > 0
            && (forall i | 0 <= i < |path| :: path[i].Height() == i)
            && (forall i | 0 <= i < |path| :: path[i].Id() in stored && stored[path[i].Id()] == path[i])
  {
    PathShape(known, h);
  }

  /** The disk after the tip was extended. */
  lemma ExtendDisk(c: Crypto, s: Node, b: Block)
    requires Inv(c, s) && Fit(c, s.known, b) && b.Parent() == s.tip && DiskOk(s)
    ensures DiskOk(ExtendBy(s, b)) && (Tidy(s) ==> Tidy(ExtendBy(s, b)))
  {
    hide Path, Rooted, Judged, ValidOn, Proper, PersistExtension, Describes, NoneAbove, OnPath, TableOk;
    ExtendInv(c, s, b);
    TreeOfInv(c, s);
    NotOnPath(s.known, s.tip, b.Id());
    ChildHeight(c, s.known, b);
    ExtensionAppends(s.disk, Chain(s), b);
  }

  /** The disk after a block was stored on the side. */
  lemma StoreDisk(c: Crypto, s: Node, b: Block)
    requires Inv(c, s) && Fit(c, s.known, b) && DiskOk(s)
    ensures DiskOk(StoreAside(s, b)) && (Tidy(s) ==> Tidy(StoreAside(s, b)))
  {
    hide Path, Rooted, Judged, ValidOn, Proper, Describes, OnPath, TableOk;
    StoreInv(c, s, b);
    TreeOfInv(c, s);
    TipKnownOf(c, s, b.Parent());
    NotOnPath(s.known, s.tip, b.Id());
    StoreKeepsChain(s.disk, Chain(s), b);
  }

  /** The disk after a switch. */
  lemma MoveDisk(c: Crypto, s: Node, h: Hash)
    requires Inv(c, s) && Leaves(s, h) && DiskOk(s)
    ensures DiskOk(MoveTo(c, s, h)) && (Tidy(s) ==> Tidy(MoveTo(c, s, h)))
  {
    hide Path, Rooted, Judged, Describes, NoneAbove, OnPath, TableOk, PersistReorg, RecoveryFor, SwitchedWork;
    TreeOfInv(c, s);
    MoveInv(c, s, h);
    ChainEnds(c, s);
    PathStored(s.known, h, s.disk.blocks);
    ReorgReplaces(s.disk, Chain(s), Path(s.known, h));
  }
}
