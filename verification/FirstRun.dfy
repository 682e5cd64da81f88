/** An ordinary first run that ends on a lighter chain: a concrete sequence of
    five blocks on a bootstrapped node, every write succeeding.
 */
module FirstRuns {
  import opened Base
  import opened BlockTree
  import opened Validity
  import opened OrphanPool
  import opened ChainDisk
  import opened Works
  import opened Consensus
  import opened Tables
  import opened Invariants
  import opened WriteLog
  import opened Acceptance
  import opened Runs
  import opened PlainBlocks
  import opened Numbering
  import opened Bootstraps

  // --- The blocks ---

  function A1(): Block {
    PlainBlock(GENESIS_HASH, 0, 1, 30)
  }

  function A2(): Block {
    PlainBlock(A1().Id(), 0, 2, 60)
  }

  function A3(): Block {
    PlainBlock(A2().Id(), 0, 3, 90)
  }

  function B1(): Block {
    PlainBlock(GENESIS_HASH, 1, 1, 30)
  }

  function B2(): Block {
    PlainBlock(B1().Id(), 1, 2, 60)
  }

  /** One block on branch a, two on branch b, and two more on branch a. */
  function Inputs(): seq<Input> {
    [Input(A1(), ""), Input(B1(), ""), Input(B2(), ""), Input(A2(), ""), Input(A3(), "")]
  }

  lemma PlainDigestsBind()
    ensures DigestsBind(PlainCrypto())
  {
    hide Name;
    var c := PlainCrypto();
    forall x, y | c.digest(x).Some? && c.digest(y).Some? && c.digest(x).value.hex == c.digest(y).value.hex
      ensures x.number == y.number
    {
      NamesDiffer(x.nonce, x.number, y.nonce, y.number);
    }
  }

  /** A plain block on the end of a chain, ready to be submitted. */
  ghost predicate Follows(path: seq<Block>, b: Block) {
    && GoodChain(PlainCrypto(), path) && path[|path| - 1].Id() == b.Parent()
    && ValidOn(PlainCrypto(), path, b) && Proper(PlainCrypto(), b)
    && b.header.difficulty == 1 && b.header.timestamp <= MAX_FUTURE_TIMESTAMP_SECS
  }

  lemma Next(path: seq<Block>, branch: u64, b: Block)
    requires 0 < |path| <= RETARGET_WINDOW && GoodChain(PlainCrypto(), path) && Steady(path)
    requires b == PlainBlock(path[|path| - 1].Id(), branch, |path|, TARGET_BLOCK_TIME * |path|)
    requires !AllZeros(path[|path| - 1].Id())
    ensures Follows(path, b)
    ensures GoodChain(PlainCrypto(), path + [b]) && Steady(path + [b]) && !AllZeros(b.Id())
    ensures (path + [b])[|path|].Id() == b.Id()
  {
    hide ValidOn, Name, PlainCrypto, GoodChain, AllZeros, DigestsBind;
    PlainChain(path, branch);
    PlainDigestsBind();
    NumberedIsProper(PlainCrypto(), path, b);
  }

  lemma GenesisNotZeros()
    ensures !AllZeros(GENESIS_HASH)
  {
    assert |GENESIS_HASH| == 64 && GENESIS_HASH[63] == '3';
  }

  /** All five continue the chains they name. */
  lemma AllFollow()
    ensures var g := GenesisBlock();
            && Follows([g], A1()) && Follows([g, A1()], A2()) && Follows([g, A1(), A2()], A3())
            && Follows([g], B1()) && Follows([g, B1()], B2())
  {
    hide Follows, Name, GoodChain, Steady, AllZeros, PlainCrypto;
    var g := GenesisBlock();
    GenesisGood(PlainCrypto());
    GenesisNotZeros();
    Next([g], 0, A1());
    assert [g] + [A1()] == [g, A1()];
    Next([g, A1()], 0, A2());
    assert [g, A1()] + [A2()] == [g, A1(), A2()];
    Next([g, A1(), A2()], 0, A3());
    Next([g], 1, B1());
    assert [g] + [B1()] == [g, B1()];
    Next([g, B1()], 1, B2());
  }

  lemma HashesDiffer()
    ensures A1().Id() != B1().Id() && A1().Id() != B2().Id() && A2().Id() != B2().Id() && A2().Id() != B1().Id()
    ensures A3().Id() != B1().Id() && A3().Id() != B2().Id() && A1().Id() != A2().Id() && A1().Id() != A3().Id()
    ensures A2().Id() != A3().Id() && B1().Id() != B2().Id()
    ensures GENESIS_HASH !in {A1().Id(), A2().Id(), A3().Id(), B1().Id(), B2().Id()}
  {
    assert A1().Id()[0] == 'a' && B1().Id()[0] == 'b';
    assert A2().Id()[0] == 'a' && A3().Id()[0] == 'a' && B2().Id()[0] == 'b';
  }

  // --- One step ---

  /** A bootstrapped node between two blocks, with nothing pooled. */
  ghost predicate Waiting(w: World, s: Node) {
    Live(PlainCrypto(), w, s) && Tracked(s) && s.orphans == NO_ORPHANS
  }

  lemma WaitingSorted(w: World, s: Node)
    requires Waiting(w, s)
    ensures Sorted(s.orphans.pool)
  {
  }

  lemma StepIs(w: World, s: Node, b: Block, path: seq<Block>)
    requires Waiting(w, s) && NoFailure(w) && Follows(path, b)
    requires b.Parent() in s.known && Path(s.known, b.Parent()) == path && b.Id() !in s.known
    ensures Fit(PlainCrypto(), s.known, b)
    ensures Apply(PlainCrypto(), w, s, b, "").0 == Integrate(PlainCrypto(), w, Tick(s), b).0
    ensures Waiting(w, Apply(PlainCrypto(), w, s, b, "").0)
  {
    hide PlainCrypto, Integrate, Path, GoodChain, TreeInv, TableOk, DiskOk, LogOk, Exact, Tracked, AllOnTime, Verdict,
      Shape;
    var c := PlainCrypto();
    PathEnds(s.known, b.Parent());
    IntegrateBasics(c, w, Tick(s), b);
    AdmitBasics(c, w, s, b, "");
    var a := Admit(c, w, s, b, "");
    StepAdmits(w, s, b, path);
    PromoteIs(c, w, a.node, b.Id());
    StepLive(w, s, b);
  }

  lemma StepAdmits(w: World, s: Node, b: Block, path: seq<Block>)
    requires Waiting(w, s) && NoFailure(w) && Follows(path, b)
    requires b.Parent() in s.known && Path(s.known, b.Parent()) == path && b.Id() !in s.known
    ensures Admit(PlainCrypto(), w, s, b, "").Integrated?
    ensures Admit(PlainCrypto(), w, s, b, "").node == Integrate(PlainCrypto(), w, Tick(s), b).0
    ensures Fit(PlainCrypto(), s.known, b)
  {
    hide PlainCrypto, ExtendBy, StoreAside, MoveTo, Path, GoodChain, TreeInv, TableOk, DiskOk, LogOk, Exact, Tracked,
      AllOnTime, Verdict, Shape, Outweighs;
    PathEnds(s.known, b.Parent());
  }

  lemma StepLive(w: World, s: Node, b: Block)
    requires Waiting(w, s) && NoFailure(w) && Proper(PlainCrypto(), b)
    requires Apply(PlainCrypto(), w, s, b, "").0.orphans == NO_ORPHANS
    ensures Waiting(w, Apply(PlainCrypto(), w, s, b, "").0)
  {
    hide PlainCrypto, Apply, Inv, DiskOk, LogOk, Exact, Tracked, AllOnTime, Proper, Keeps, Sorted, PoolProper;
    var c := PlainCrypto();
    assert Trusted(s, b);
    ApplySafe(c, w, s, b, "");
    var t := Apply(c, w, s, b, "").0;
    SafeInv(c, w, s, t);
    StillKnown(s.known, t.known);
    KeptLive(c, w, s, t);
  }

  lemma KeptLive(c: Crypto, w: World, s: Node, t: Node)
    requires Live(c, w, s) && Tracked(s) && Safe(c, w, s, t) && t.known != map[]
    requires Sorted(t.orphans.pool) && PoolProper(c, t.orphans.pool)
    ensures Live(c, w, t) && Tracked(t)
  {
    hide Inv, DiskOk, LogOk, Exact, Tracked, AllOnTime, Sorted, PoolProper, TopOfRecord, Rises;
  }

  /** What a placement makes of paths and records. */
  ghost predicate Grew(s: Node, t: Node, b: Block, path: seq<Block>) {
    && t.known == s.known[b.Id() := b] && Path(t.known, b.Id()) == path + [b]
    && (forall h | h in s.known :: Path(t.known, h) == Path(s.known, h))
  }

  ghost predicate SameRecord(s: Node, t: Node, h: Hash) {
    Recorded(t.work, h) == Recorded(s.work, h)
  }

  /** A block on the tip, or one whose branch is not heavier on record. */
  lemma PlainStep(w: World, s: Node, b: Block, path: seq<Block>)
    requires Waiting(w, s) && NoFailure(w) && Follows(path, b)
    requires b.Parent() in s.known && Path(s.known, b.Parent()) == path && b.Id() !in s.known
    requires b.Parent() == s.tip || !Outweighs(s, b)
    ensures var t := Apply(PlainCrypto(), w, s, b, "").0;
            && Waiting(w, t) && Grew(s, t, b, path)
            && t.tip == (if b.Parent() == s.tip then b.Id() else s.tip)
            && Recorded(t.work, b.Id()) == Recorded(s.work, b.Parent()) + 1
            && (forall h {:trigger SameRecord(s, t, h)} | h in s.known :: SameRecord(s, t, h))
  {
    hide PlainCrypto, Apply, Path, Waiting, Follows, Fit, PersistExtension;
    StepIs(w, s, b, path);
    GrownPaths(w, s, b);
    assert b.header.difficulty == 1 by { FollowsOne(path, b); }
  }

  lemma FollowsOne(path: seq<Block>, b: Block)
    requires Follows(path, b)
    ensures b.header.difficulty == 1
  {
  }

  lemma GrownPaths(w: World, s: Node, b: Block)
    requires Waiting(w, s) && Fit(PlainCrypto(), s.known, b)
    ensures Path(s.known[b.Id() := b], b.Id()) == Path(s.known, b.Parent()) + [b]
    ensures forall h | h in s.known :: Path(s.known[b.Id() := b], h) == Path(s.known, h)
  {
    hide PlainCrypto, Path, Fit, TableOk, DiskOk, LogOk, Exact, Tracked, AllOnTime, Rooted, Judged;
    TreeOfInv(PlainCrypto(), s);
    AddBlock(PlainCrypto(), s.known, b);
  }

  /** A branch from genesis that is heavier on record: the tip moves to it, and
      its work is counted with the genesis difficulty. */
  lemma SwitchStep(w: World, s: Node, b: Block, path: seq<Block>)
    requires Waiting(w, s) && NoFailure(w) && Follows(path, b)
    requires b.Parent() in s.known && Path(s.known, b.Parent()) == path && b.Id() !in s.known
    requires b.Parent() != s.tip && Outweighs(s, b) && Fork(Chain(s), path + [b]) == 1
    ensures var t := Apply(PlainCrypto(), w, s, b, "").0;
            && Waiting(w, t) && Grew(s, t, b, path) && t.tip == b.Id()
            && Recorded(t.work, b.Id()) == Work(path + [b])
            && (forall h {:trigger SameRecord(s, t, h)} | h in s.known && !OnPath(path, h) :: SameRecord(s, t, h))
  {
    hide PlainCrypto, Apply, Path, Waiting, Follows, Fit, StoreAside, MoveTo, Fork, Outweighs;
    var c := PlainCrypto();
    StepIs(w, s, b, path);
    GrownPaths(w, s, b);
    var stored := StoreAside(Tick(s), b);
    StoredFacts(w, s, b);
    SwitchFacts(w, stored, b.Id());
    PlacedFields(c, Tick(s), b);
    var t := MoveTo(c, stored, b.Id());
    assert Outweighs(Tick(s), b) by { TickOutweighs(s, b); }
    forall h | h in s.known && !OnPath(path, h)
      ensures SameRecord(s, t, h)
    {
      MovedElse(w, stored, b.Id(), h, path, b);
    }
  }

  lemma TickOutweighs(s: Node, b: Block)
    ensures Outweighs(s, b) <==> Outweighs(Tick(s), b)
  {
  }

  lemma StoredFacts(w: World, s: Node, b: Block)
    requires Waiting(w, s) && Fit(PlainCrypto(), s.known, b) && b.Parent() != s.tip
    ensures var t := StoreAside(Tick(s), b);
            && Inv(PlainCrypto(), t) && Leaves(t, b.Id()) && Tracked(t) && t.known == s.known[b.Id() := b]
            && Chain(t) == Chain(s) && Path(t.known, b.Id()) == Path(s.known, b.Parent()) + [b]
            && forall h | h in s.known :: Recorded(t.work, h) == Recorded(s.work, h)
  {
    hide PlainCrypto, Path, ValidOn, Proper, TreeInv, TableOk, DiskOk, LogOk, Exact, AllOnTime, Offset, Mixed, Crossed,
      NoGenesisRecord, Leaves;
    var c := PlainCrypto();
    TickInv(c, s);
    TickTracked(s);
    StoreInv(c, Tick(s), b);
    NewLeaves(c, Tick(s), b);
    StoreTracked(c, Tick(s), b);
  }

  lemma TickTracked(s: Node)
    requires Tracked(s)
    ensures Tracked(Tick(s))
  {
    hide Offset, Crossed, NoGenesisRecord;
    SameTable(s, Tick(s));
  }

  lemma SwitchFacts(w: World, s: Node, h: Hash)
    requires Inv(PlainCrypto(), s) && Leaves(s, h) && Tracked(s) && ForkAt(s, h) == 1
    ensures Recorded(MoveTo(PlainCrypto(), s, h).work, h) == Work(Path(s.known, h))
  {
    hide PlainCrypto, Path, TreeInv, TableOk, Offset, Mixed, Crossed, SwitchedWork, PersistReorg, RecoveryFor, ForkAt,
      OnPath;
    TreeOfInv(PlainCrypto(), s);
    LeavesFork(PlainCrypto(), s, h);
    ForkAboveGenesis(s, h);
    SwitchTarget(s, h);
    FallbackStart(s, h);
    SwitchOn(s, h, |Path(s.known, h)| - 1, 0);
  }

  lemma MovedElse(w: World, s: Node, h: Hash, x: Hash, path: seq<Block>, b: Block)
    requires h in s.known && Path(s.known, h) == path + [b] && b.Id() == h != x && !OnPath(path, x)
    ensures Recorded(MoveTo(PlainCrypto(), s, h).work, x) == Recorded(s.work, x)
  {
    hide PlainCrypto, Path, SwitchedWork, PersistReorg, RecoveryFor, ForkAt;
    forall i | ForkAt(s, h) <= i < |Path(s.known, h)|
      ensures Path(s.known, h)[i].Id() != x
    {
      if i < |path| {
        assert path[i].Id() == x ==> OnPath(path, x);
      }
    }
    ElseRecorded(s, h, x);
  }

  // --- The run ---

  /** A block that is known on this path with this much work on record. */
  ghost predicate On(s: Node, b: Block, path: seq<Block>, work: nat) {
    b.Id() in s.known && Path(s.known, b.Id()) == path && Recorded(s.work, b.Id()) == work
  }

  ghost predicate Branches(s: Node, b: nat) {
    var g := GenesisBlock();
    && On(s, g, [g], 0) && On(s, A1(), [g, A1()], 1)
    && (b >= 1 ==> On(s, B1(), [g, B1()], Recorded(s.work, B1().Id())))
    && (b == 1 ==> Recorded(s.work, B1().Id()) == 1 && s.tip == A1().Id())
    && (b == 2 ==> On(s, B2(), [g, B1(), B2()], 3) && s.tip == B2().Id())
  }

  /** The first block of branch a on the bootstrapped node. */
  lemma FirstBlockStays(w: World) returns (t: Node)
    requires NoFailure(w)
    ensures t == Apply(PlainCrypto(), w, BootedNode(0), A1(), "").0
    ensures Waiting(w, t) && t.tip == A1().Id() && t.known.Keys == {GENESIS_HASH, A1().Id()}
    ensures On(t, GenesisBlock(), [GenesisBlock()], 0) && On(t, A1(), [GenesisBlock(), A1()], 1)
  {
    hide PlainCrypto, Apply, Name, Path, Waiting, Follows, Live, Work, NoFailure;
    var g, s := GenesisBlock(), BootedNode(0);
    BootedWaits(w);
    AllFollow();
    HashesDiffer();
    PlainStep(w, s, A1(), [g]);
    t := Apply(PlainCrypto(), w, s, A1(), "").0;
    assert [g] + [A1()] == [g, A1()];
    assert SameRecord(s, t, GENESIS_HASH);
  }

  lemma FirstBranch(w: World) returns (t: Node)
    requires NoFailure(w)
    ensures t == Apply(PlainCrypto(), w, Apply(PlainCrypto(), w, BootedNode(0), A1(), "").0, B1(), "").0
    ensures Waiting(w, t) && Branches(t, 1)
    ensures t.known.Keys == {GENESIS_HASH, A1().Id(), B1().Id()}
  {
    hide PlainCrypto, Apply, Name, Path, Waiting, Follows, Live, Work, NoFailure, BootedNode;
    var g := GenesisBlock();
    var u := FirstBlockStays(w);
    AllFollow();
    HashesDiffer();
    assert [g] + [B1()] == [g, B1()];
    PlainStep(w, u, B1(), [g]);
    t := Apply(PlainCrypto(), w, u, B1(), "").0;
    assert SameRecord(u, t, GENESIS_HASH) && SameRecord(u, t, A1().Id());
  }

  lemma BootedWaits(w: World)
    ensures Waiting(w, BootedNode(0))
    ensures Path(BootedNode(0).known, GENESIS_HASH) == [GenesisBlock()]
            && Recorded(BootedNode(0).work, GENESIS_HASH) == 0
  {
    hide TreeInv, DiskOk, LogOk, Offset, Mixed, Crossed, Exact;
    BootedLive(PlainCrypto(), w, 0);
    BootedTable(PlainCrypto(), 0);
    BootedTree(PlainCrypto(), 0);
  }

  lemma SecondBranch(w: World, s: Node) returns (t: Node)
    requires NoFailure(w) && Waiting(w, s) && Branches(s, 1)
    requires s.known.Keys == {GENESIS_HASH, A1().Id(), B1().Id()}
    ensures t == Apply(PlainCrypto(), w, s, B2(), "").0
    ensures Waiting(w, t) && Branches(t, 2)
    ensures t.known.Keys == {GENESIS_HASH, A1().Id(), B1().Id(), B2().Id()}
  {
    hide PlainCrypto, Apply, Name, Path, Waiting, Follows, Live, NoFailure, Work, Fork;
    var c, g := PlainCrypto(), GenesisBlock();
    WaitingSorted(w, s);
    AllFollow();
    HashesDiffer();
    assert [g, B1()] + [B2()] == [g, B1(), B2()];
    ForkAtGenesis();
    WorkOfThree(g, B1(), B2());
    SwitchStep(w, s, B2(), [g, B1()]);
    t := Apply(c, w, s, B2(), "").0;
    assert !OnPath([g, B1()], A1().Id());
    assert SameRecord(s, t, A1().Id());
    GenesisUnrecorded(w, t);
  }

  lemma GenesisUnrecorded(w: World, s: Node)
    requires Waiting(w, s)
    ensures Recorded(s.work, GENESIS_HASH) == 0
  {
    hide Live, Offset, Crossed;
  }

  lemma ForkAtGenesis()
    ensures Fork([GenesisBlock(), A1()], [GenesisBlock(), B1(), B2()]) == 1
  {
    hide Name;
    HashesDiffer();
    var a, b := [GenesisBlock(), A1()], [GenesisBlock(), B1(), B2()];
    assert a[..1] == b[..1];
    ForkExactly(a, b, 1);
  }

  lemma WorkOfThree(x: Block, y: Block, z: Block)
    ensures Work([x, y, z]) == x.header.difficulty + y.header.difficulty + z.header.difficulty
    ensures Work([x]) == x.header.difficulty
  {
    assert [x, y, z][..2] == [x, y] && [x, y][..1] == [x] && [x][..0] == [];
    assert Work([x]) == x.header.difficulty && Work([x, y]) == Work([x]) + y.header.difficulty;
  }

  /** Exactly the five blocks are known, on their branches. */
  ghost predicate BothBranches(s: Node) {
    var g := GenesisBlock();
    && s.known.Keys == {GENESIS_HASH, A1().Id(), A2().Id(), A3().Id(), B1().Id(), B2().Id()}
    && Path(s.known, GENESIS_HASH) == [g] && Path(s.known, A1().Id()) == [g, A1()]
    && Path(s.known, A2().Id()) == [g, A1(), A2()] && Path(s.known, A3().Id()) == [g, A1(), A2(), A3()]
    && Path(s.known, B1().Id()) == [g, B1()] && Path(s.known, B2().Id()) == [g, B1(), B2()]
  }

  lemma LastBlocksStay(w: World, s: Node) returns (t: Node)
    requires NoFailure(w) && Waiting(w, s) && Branches(s, 2)
    requires s.known.Keys == {GENESIS_HASH, A1().Id(), B1().Id(), B2().Id()}
    ensures t == Apply(PlainCrypto(), w, Apply(PlainCrypto(), w, s, A2(), "").0, A3(), "").0
    ensures Waiting(w, t) && t.tip == B2().Id() && Chain(t) == [GenesisBlock(), B1(), B2()]
    ensures BothBranches(t)
  {
    hide PlainCrypto, Apply, Name, Path, Waiting, Follows, Live, NoFailure, Work, Fork;
    var c, g := PlainCrypto(), GenesisBlock();
    WaitingSorted(w, s);
    AllFollow();
    HashesDiffer();
    assert [g, A1()] + [A2()] == [g, A1(), A2()] && [g, A1(), A2()] + [A3()] == [g, A1(), A2(), A3()];
    PlainStep(w, s, A2(), [g, A1()]);
    var u := Apply(c, w, s, A2(), "").0;
    assert SameRecord(s, u, B2().Id());
    PlainStep(w, u, A3(), [g, A1(), A2()]);
    t := Apply(c, w, u, A3(), "").0;
  }

  /** On a bootstrapped node, with every write succeeding and nothing but plain
      valid blocks, the tip can end up on a chain that another known block
      outweighs: three blocks of branch a against two of branch b. */
  lemma FirstRunLosesHeaviest(w: World)
    requires NoFailure(w)
    ensures Live(PlainCrypto(), w, BootedNode(0)) && TopOfRecord(BootedNode(0)) && AllProper(PlainCrypto(), Inputs())
    ensures var t := Reached(PlainCrypto(), w, BootedNode(0), Inputs());
            && t.tip == B2().Id() && BothBranches(t) && A3().Id() in t.known
            && Work(Path(t.known, A3().Id())) == 4 && Work(Chain(t)) == 3 && !Heaviest(t)
            && Crossed(t.known, t.log) && TopOfRecord(t) && TiedShort(t)
  {
    hide PlainCrypto, Apply, Name, Path, Waiting, Follows, Live, NoFailure, Work, Fork, Branches, Crossed,
      TiedShort;
    var c, s := PlainCrypto(), BootedNode(0);
    BootedLive(c, w, 0);
    FiveProper();
    var t := FirstBranch(w);
    t := SecondBranch(w, t);
    t := LastBlocksStay(w, t);
    RunOfFive(w, s);
    FourBlocks();
    WorkOfThree(GenesisBlock(), B1(), B2());
    assert !Heaviest(t);
    assert Live(c, w, s);
    LostMeansCrossed(w, t);
  }

  lemma FiveProper()
    ensures AllProper(PlainCrypto(), Inputs())
  {
    hide PlainCrypto, Name, Proper, GoodChain, ValidOn;
    AllFollow();
  }

  lemma FourBlocks()
    ensures Work([GenesisBlock(), A1(), A2(), A3()]) == 4
  {
    hide Name;
    var path := [GenesisBlock(), A1(), A2(), A3()];
    assert path[..3] == [GenesisBlock(), A1(), A2()];
    WorkOfThree(GenesisBlock(), A1(), A2());
  }

  lemma LostMeansCrossed(w: World, t: Node)
    requires NoFailure(w) && Live(PlainCrypto(), w, BootedNode(0)) && TopOfRecord(BootedNode(0))
    requires AllProper(PlainCrypto(), Inputs()) && t == Reached(PlainCrypto(), w, BootedNode(0), Inputs())
             && !Heaviest(t)
    ensures Crossed(t.known, t.log) && TopOfRecord(t) && TiedShort(t)
  {
    hide PlainCrypto, Reached, Live, AllProper, NoFailure, Heaviest, Crossed, TopOfRecord, Exact, BootedNode,
      TiedShort;
    Reachable(PlainCrypto(), w, BootedNode(0), Inputs());
    HeaviestTip(PlainCrypto(), w, BootedNode(0), Inputs());
  }

  lemma RunOfFive(w: World, s: Node)
    requires Sorted(s.orphans.pool)
    ensures var c := PlainCrypto();
            var a1 := Apply(c, w, s, A1(), "").0;
            var b1 := Apply(c, w, a1, B1(), "").0;
            var b2 := Apply(c, w, b1, B2(), "").0;
            var a2 := Apply(c, w, b2, A2(), "").0;
            Run(c, w, s, Inputs()) == Apply(c, w, a2, A3(), "").0
  {
    hide PlainCrypto, Apply, A1, A2, A3, B1, B2, Sorted;
    var c, inputs := PlainCrypto(), Inputs();
    RunStep(c, w, s, inputs, 0);
    RunStep(c, w, s, inputs, 1);
    RunStep(c, w, s, inputs, 2);
    RunStep(c, w, s, inputs, 3);
    RunStep(c, w, s, inputs, 4);
    assert inputs[..0] == [] && inputs[..5] == inputs;
  }
}
