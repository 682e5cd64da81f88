/** The same five blocks in another order: two first runs, every write
    succeeding, that know the same blocks and end on different chains.
 */
module DivergingRuns {
  import opened Base
  import opened BlockTree
  import opened OrphanPool
  import opened Validity
  import opened Works
  import opened Consensus
  import opened Tables
  import opened WriteLog
  import opened Acceptance
  import opened Runs
  import opened PlainBlocks
  import opened Bootstraps
  import opened FirstRuns

  /** The whole of branch a before branch b. */
  function OtherOrder(): seq<Input> {
    [Input(A1(), ""), Input(A2(), ""), Input(A3(), ""), Input(B1(), ""), Input(B2(), "")]
  }

  lemma OtherProper()
    ensures AllProper(PlainCrypto(), OtherOrder())
  {
    hide PlainCrypto, Name, Proper, GoodChain, ValidOn;
    AllFollow();
  }

  /** The first block of branch a is there, on the tip, its work on record but for
      genesis. */
  ghost predicate HasA1(s: Node) {
    var g := GenesisBlock();
    && s.known.Keys == {GENESIS_HASH, A1().Id()} && s.tip == A1().Id()
    && Path(s.known, GENESIS_HASH) == [g] && Path(s.known, A1().Id()) == [g, A1()]
    && Recorded(s.work, GENESIS_HASH) == 0 && Recorded(s.work, A1().Id()) == 1
  }

  /** And the second. */
  ghost predicate HasA2(s: Node) {
    var g := GenesisBlock();
    && s.known.Keys == {GENESIS_HASH, A1().Id(), A2().Id()} && s.tip == A2().Id()
    && Path(s.known, GENESIS_HASH) == [g] && Path(s.known, A1().Id()) == [g, A1()]
    && Path(s.known, A2().Id()) == [g, A1(), A2()]
    && Recorded(s.work, GENESIS_HASH) == 0 && Recorded(s.work, A2().Id()) == 2
  }

  /** And the third. */
  ghost predicate BranchA(s: Node) {
    var g := GenesisBlock();
    && s.known.Keys == {GENESIS_HASH, A1().Id(), A2().Id(), A3().Id()} && s.tip == A3().Id()
    && Path(s.known, GENESIS_HASH) == [g] && Path(s.known, A1().Id()) == [g, A1()]
    && Path(s.known, A2().Id()) == [g, A1(), A2()] && Path(s.known, A3().Id()) == [g, A1(), A2(), A3()]
    && Recorded(s.work, GENESIS_HASH) == 0 && Recorded(s.work, A3().Id()) == 3
  }

  /** Which block each of the five names as its parent. */
  lemma Links()
    ensures A1().Parent() == B1().Parent() == GENESIS_HASH == GenesisBlock().Id()
    ensures A2().Parent() == A1().Id() && A3().Parent() == A2().Id() && B2().Parent() == B1().Id()
  {
    hide Name;
  }

  /** One more block on top of the tip, with its work on record. */
  lemma TipStep(w: World, s: Node, b: Block, path: seq<Block>)
    requires NoFailure(w) && Waiting(w, s) && Follows(path, b) && b.Parent() == s.tip && s.tip in s.known
    requires Path(s.known, s.tip) == path && b.Id() !in s.known && GENESIS_HASH in s.known
    ensures var t := Apply(PlainCrypto(), w, s, b, "").0;
            && Waiting(w, t) && t.known.Keys == s.known.Keys + {b.Id()} && t.tip == b.Id()
            && Path(t.known, b.Id()) == path + [b] && (forall h | h in s.known :: Path(t.known, h) == Path(s.known, h))
            && Recorded(t.work, b.Id()) == Recorded(s.work, s.tip) + 1
            && Recorded(t.work, GENESIS_HASH) == Recorded(s.work, GENESIS_HASH)
  {
    hide PlainCrypto, Apply, Path, Waiting, Follows, NoFailure;
    WaitingSorted(w, s);
    PlainStep(w, s, b, path);
    assert SameRecord(s, Apply(PlainCrypto(), w, s, b, "").0, GENESIS_HASH);
  }

  lemma FirstOfA(w: World) returns (t: Node)
    requires NoFailure(w)
    ensures Sorted(BootedNode(0).orphans.pool) && t == Apply(PlainCrypto(), w, BootedNode(0), A1(), "").0
    ensures Waiting(w, t) && HasA1(t)
  {
    hide PlainCrypto, Apply, Path, Waiting, Follows, NoFailure, A1, A2, A3, B1, B2, GenesisBlock, BootedNode, Sorted;
    var g, s := GenesisBlock(), BootedNode(0);
    BootedWaits(w);
    BootedTip();
    WaitingSorted(w, s);
    AllFollow();
    HashesDiffer();
    Links();
    TipStep(w, s, A1(), [g]);
    assert [g] + [A1()] == [g, A1()];
    t := Apply(PlainCrypto(), w, s, A1(), "").0;
  }

  lemma SecondOfA(w: World, s: Node) returns (t: Node)
    requires NoFailure(w) && Waiting(w, s) && HasA1(s)
    ensures Sorted(s.orphans.pool) && t == Apply(PlainCrypto(), w, s, A2(), "").0 && Waiting(w, t) && HasA2(t)
  {
    hide PlainCrypto, Apply, Path, Waiting, Follows, NoFailure, A1, A2, A3, B1, B2, GenesisBlock, BootedNode, Sorted;
    var g := GenesisBlock();
    WaitingSorted(w, s);
    AllFollow();
    HashesDiffer();
    Links();
    TipStep(w, s, A2(), [g, A1()]);
    assert [g, A1()] + [A2()] == [g, A1(), A2()];
    t := Apply(PlainCrypto(), w, s, A2(), "").0;
  }

  lemma ThirdOfA(w: World, s: Node) returns (t: Node)
    requires NoFailure(w) && Waiting(w, s) && HasA2(s)
    ensures Sorted(s.orphans.pool) && t == Apply(PlainCrypto(), w, s, A3(), "").0 && Waiting(w, t) && BranchA(t)
  {
    hide PlainCrypto, Apply, Path, Waiting, Follows, NoFailure, A1, A2, A3, B1, B2, GenesisBlock, BootedNode, Sorted;
    var g := GenesisBlock();
    WaitingSorted(w, s);
    AllFollow();
    HashesDiffer();
    Links();
    TipStep(w, s, A3(), [g, A1(), A2()]);
    assert [g, A1(), A2()] + [A3()] == [g, A1(), A2(), A3()];
    t := Apply(PlainCrypto(), w, s, A3(), "").0;
  }

  lemma BootedTip()
    ensures BootedNode(0).tip == GENESIS_HASH && BootedNode(0).known.Keys == {GENESIS_HASH}
  {
  }

  lemma BranchBStays(w: World, s: Node) returns (t: Node)
    requires NoFailure(w) && Waiting(w, s) && BranchA(s)
    ensures t == Apply(PlainCrypto(), w, Apply(PlainCrypto(), w, s, B1(), "").0, B2(), "").0
    ensures BothBranches(t) && t.tip == A3().Id()
  {
    hide PlainCrypto, Apply, Name, Path, Waiting, Follows, Live, Work, NoFailure;
    var c, g := PlainCrypto(), GenesisBlock();
    WaitingSorted(w, s);
    AllFollow();
    HashesDiffer();
    assert [g] + [B1()] == [g, B1()] && [g, B1()] + [B2()] == [g, B1(), B2()];
    PlainStep(w, s, B1(), [g]);
    var u := Apply(c, w, s, B1(), "").0;
    assert SameRecord(s, u, A3().Id());
    PlainStep(w, u, B2(), [g, B1()]);
    t := Apply(c, w, u, B2(), "").0;
  }

  /** What is known fixes the blocks behind the hashes. */
  lemma SameBlocks(x: Node, y: Node)
    requires BothBranches(x) && BothBranches(y)
    ensures x.known == y.known
  {
    hide Path, Name;
    forall h | h in x.known
      ensures x.known[h] == y.known[h]
    {
      PathEnds(x.known, h);
      PathEnds(y.known, h);
    }
  }

  /** The end of branch a tops the heaviest chain. */
  lemma BranchAHeaviest(s: Node)
    requires BothBranches(s)
    ensures UniquelyHeaviest(s.known, A3().Id()) && Work(Path(s.known, A3().Id())) == 4
  {
    hide Path, Name;
    var g := GenesisBlock();
    FourBlocks();
    WorkOfThree(g, A1(), A2());
    WorkOfThree(g, B1(), B2());
    WorkOfTwo(g, A1());
    WorkOfTwo(g, B1());
  }

  lemma WorkOfTwo(x: Block, y: Block)
    ensures Work([x, y]) == x.header.difficulty + y.header.difficulty
  {
    assert [x, y][..1] == [x] && [x][..0] == [];
    assert Work([x]) == x.header.difficulty;
  }

  lemma RunOfOtherFive(w: World, s: Node)
    requires Sorted(s.orphans.pool)
    ensures var c := PlainCrypto();
            var a1 := Apply(c, w, s, A1(), "").0;
            var a2 := Apply(c, w, a1, A2(), "").0;
            var a3 := Apply(c, w, a2, A3(), "").0;
            var b1 := Apply(c, w, a3, B1(), "").0;
            Run(c, w, s, OtherOrder()) == Apply(c, w, b1, B2(), "").0
  {
    hide PlainCrypto, Apply, A1, A2, A3, B1, B2, Sorted;
    var c, inputs := PlainCrypto(), OtherOrder();
    RunStep(c, w, s, inputs, 0);
    RunStep(c, w, s, inputs, 1);
    RunStep(c, w, s, inputs, 2);
    RunStep(c, w, s, inputs, 3);
    RunStep(c, w, s, inputs, 4);
    assert inputs[..0] == [] && inputs[..5] == inputs;
  }

  /** Two bootstrapped nodes that take the same five plain valid blocks, in
      different orders and with every write succeeding, know the same blocks,
      one of them heaviest, and stay on different chains. */
  lemma OrderDecides(w: World, v: World)
    requires NoFailure(w) && NoFailure(v)
    ensures Live(PlainCrypto(), w, BootedNode(0)) && Live(PlainCrypto(), v, BootedNode(0))
    ensures AllProper(PlainCrypto(), Inputs()) && AllProper(PlainCrypto(), OtherOrder())
    ensures multiset(Inputs()) == multiset(OtherOrder())
    ensures var x, y := Reached(PlainCrypto(), w, BootedNode(0), Inputs()),
                        Reached(PlainCrypto(), v, BootedNode(0), OtherOrder());
            && x.known == y.known && UniquelyHeaviest(x.known, A3().Id())
            && x.tip == B2().Id() && y.tip == A3().Id()
            && Work(Chain(x)) == 3 && Work(Chain(y)) == 4 && TiedShort(x) && !TiedShort(y)
  {
    hide PlainCrypto, Apply, Name, Path, Waiting, Live, NoFailure, Work, TiedShort, UniquelyHeaviest, TopOfRecord,
      BothBranches, Crossed, HasA1, HasA2, BranchA;
    var c := PlainCrypto();
    FirstRunLosesHeaviest(w);
    var x := Reached(c, w, BootedNode(0), Inputs());
    var y := FirstOfA(v);
    y := SecondOfA(v, y);
    y := ThirdOfA(v, y);
    y := BranchBStays(v, y);
    RunOfOtherFive(v, BootedNode(0));
    BootedLive(c, v, 0);
    OtherProper();
    SameBlocks(x, y);
    BranchAHeaviest(y);
    OnHeaviest(c, v, BootedNode(0), OtherOrder(), A3().Id());
    SameInputs();
  }

  lemma SameInputs()
    ensures multiset(Inputs()) == multiset(OtherOrder())
  {
    hide A1, A2, A3, B1, B2;
    Reordered(Input(A1(), ""), Input(A2(), ""), Input(A3(), ""), Input(B1(), ""), Input(B2(), ""));
  }

  lemma Reordered(a: Input, b: Input, d: Input, e: Input, f: Input)
    ensures multiset([a, e, f, b, d]) == multiset([a, b, d, e, f])
  {
    assert [a, e, f, b, d] == [a] + ([e, f] + [b, d]);
    assert [a, b, d, e, f] == [a] + ([b, d] + [e, f]);
    Swapped([a], [e, f], [b, d]);
  }

  lemma Swapped(a: seq<Input>, b: seq<Input>, d: seq<Input>)
    ensures multiset(a + (b + d)) == multiset(a + (d + b))
  {
  }
}
