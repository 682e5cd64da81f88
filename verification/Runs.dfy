/** Whole runs: any sequence of blocks, in any order, with any orphan detours
    and reorganisations, submitted to a node that was bootstrapped, that has
    accepted genesis, or that was restarted.
 */
module Runs {
  import opened Base
  import opened Ledgers
  import opened BlockTree
  import opened Validity
  import opened OrphanPool
  import opened ChainDisk
  import opened Consensus
  import opened Tables
  import opened Invariants
  import opened WriteLog
  import opened Acceptance
  import opened Economy
  import opened Accounts

  datatype Input = Input(block: Block, peer: string)

  ghost predicate AllProper(c: Crypto, inputs: seq<Input>) {
    forall i | 0 <= i < |inputs| :: Proper(c, inputs[i].block)
  }

  /** A node between two submissions. */
  ghost predicate Live(c: Crypto, w: World, s: Node) {
    && Inv(c, s) && s.known != map[]
    && Sorted(s.orphans.pool) && PoolProper(c, s.orphans.pool)
    && DiskOk(s) && LogOk(s)
    && AllOnTime(w, s.known)
    && (Exact(s) || Tracked(s))
  }

  ghost function Run(c: Crypto, w: World, s: Node, inputs: seq<Input>): (t: Node)
    requires Sorted(s.orphans.pool)
    ensures Sorted(t.orphans.pool)
  {
    if |inputs| == 0 then s
    else
      var last := inputs[|inputs| - 1];
      Apply(c, w, Run(c, w, s, inputs[..|inputs| - 1]), last.block, last.peer).0
  }

  /** The node a run leads to. */
  ghost function Reached(c: Crypto, w: World, s: Node, inputs: seq<Input>): Node
    requires Live(c, w, s)
  {
    Run(c, w, s, inputs)
  }

  // --- Safety of runs ---

  lemma RunStep(c: Crypto, w: World, s: Node, inputs: seq<Input>, i: nat)
    requires Sorted(s.orphans.pool) && i < |inputs|
    ensures Run(c, w, s, inputs[..i + 1]) == Apply(c, w, Run(c, w, s, inputs[..i]), inputs[i].block, inputs[i].peer).0
    ensures Run(c, w, s, inputs[..i]).known.Keys <= Run(c, w, s, inputs[..i + 1]).known.Keys
  {
    hide Apply;
    assert inputs[..i + 1][..i] == inputs[..i];
  }

  lemma {:induction false} RunSafe(c: Crypto, w: World, s: Node, inputs: seq<Input>)
    requires Inv(c, s) && s.known != map[] && Sorted(s.orphans.pool) && PoolProper(c, s.orphans.pool)
    requires AllProper(c, inputs)
    ensures Safe(c, w, s, Run(c, w, s, inputs)) && Run(c, w, s, inputs).known != map[]
    ensures PoolProper(c, Run(c, w, s, inputs).orphans.pool)
  {
    hide Inv, Safe, Sorted, PoolProper, Proper, Apply;
    if |inputs| == 0 {
      SameChainSafe(c, w, s, s);
    } else {
      var init, last := inputs[..|inputs| - 1], inputs[|inputs| - 1];
      RunSafe(c, w, s, init);
      var t := Run(c, w, s, init);
      SafeInv(c, w, s, t);
      assert Trusted(t, last.block);
      ApplySafe(c, w, t, last.block, last.peer);
      var u := Apply(c, w, t, last.block, last.peer).0;
      SafeInv(c, w, t, u);
      StillKnown(t.known, u.known);
      SafeTransitive(c, w, s, t, u);
    }
  }

  /** Every run leads from a live node to a live node: the tree is sound, every
      block in it was on time, the disk and all its earlier images agree with
      it, and the table of recorded work is of one of its three kinds. */
  lemma Reachable(c: Crypto, w: World, s: Node, inputs: seq<Input>)
    requires Live(c, w, s) && AllProper(c, inputs)
    ensures var t := Reached(c, w, s, inputs);
            && Live(c, w, t) && Grows(s.known, t.known) && t.disk.genesisHash == s.disk.genesisHash
            && Work(Chain(t)) >= Work(Chain(s))
            && (Exact(s) ==> Exact(t)) && (Tracked(s) ==> Tracked(t)) && (Tidy(s) ==> Tidy(t))
            && (NoFailure(w) && TopOfRecord(s) ==> TopOfRecord(t))
  {
    hide Inv, AllOnTime, DiskOk, LogOk, TopOfRecord, Exact, Tracked, Sorted, PoolProper, Run, NoFailure, AllProper,
      Work;
    RunSafe(c, w, s, inputs);
  }

  // --- The heaviest tip ---

  /** Whether the records of a run can be compared: they started exact, or no
      switch crossed genesis. */
  ghost predicate Even(s: Node, t: Node) {
    Exact(s) || !Crossed(t.known, t.log)
  }

  /** What every record of a run falls short by. From an exact table, nothing.
      Without a genesis record, all fall short by the genesis difficulty exactly
      as long as no switch crossed genesis. */
  lemma RecordedExactly(c: Crypto, w: World, s: Node, inputs: seq<Input>)
    requires Live(c, w, s) && AllProper(c, inputs)
    ensures var t := Reached(c, w, s, inputs);
            && (Exact(s) ==> AllOff(t.known, t.work, 0))
            && (!Exact(s) ==> (AllOff(t.known, t.work, 1) <==> !Crossed(t.known, t.log)))
  {
    hide Inv, Reached, DiskOk, LogOk, AllOnTime, AllOff, Crossed, TopOfRecord, Work, Chain, AllProper;
    Reachable(c, w, s, inputs);
  }

  /** Heaviest tip: with no failing write, the tip after a run is the heaviest
      known block exactly when no block on record short ties with it on a mixed
      table; so it is as long as the records of the run can be compared, and no
      known block ever outweighs it by more than the genesis difficulty. */
  lemma HeaviestTip(c: Crypto, w: World, s: Node, inputs: seq<Input>)
    requires Live(c, w, s) && TopOfRecord(s) && AllProper(c, inputs) && NoFailure(w)
    ensures var t := Reached(c, w, s, inputs);
            (Heaviest(t) <==> !TiedShort(t)) && NearlyHeaviest(t) && (Even(s, t) ==> Heaviest(t))
  {
    hide Inv, Reached, Path, Work, DiskOk, LogOk, AllOnTime, Exact, Offset, Mixed, Crossed, AllProper, Heaviest,
      NearlyHeaviest, TiedAt;
    Reachable(c, w, s, inputs);
    var t := Reached(c, w, s, inputs);
    TipIsKnown(c, t);
    TreeOfInv(c, t);
    TopMeans(t);
    KindsApart(t);
  }

  // --- The disk ---

  /** A restart after any run, whichever writes failed, reads back exactly the
      canonical chain; and height entries above the chain are only ever those
      that were there before the run. */
  lemma RestartReadsChain(c: Crypto, w: World, s: Node, inputs: seq<Input>)
    requires Live(c, w, s) && AllProper(c, inputs)
    ensures var t := Reached(c, w, s, inputs);
            && Load(t.disk) == Success(Chain(t))
            && (Tidy(s) ==> forall n | n in t.disk.heights :: n < |Chain(t)|)
            && t.disk.tipHash == Some(t.tip)
  {
    hide Inv, Reached, Path, Load, AllProper, LogOk, AllOnTime, Exact, Tracked, TopOfRecord;
    Reachable(c, w, s, inputs);
    var t := Reached(c, w, s, inputs);
    LoadReadsBack(t.disk, Chain(t));
    ChainEnds(c, t);
  }

  /** A crash between any two writes of a run, promotions included, leaves a disk
      that reads back as the whole chain to the tip of that moment, never a mix. */
  lemma CrashReloads(c: Crypto, w: World, s: Node, inputs: seq<Input>, i: nat)
    requires Live(c, w, s) && AllProper(c, inputs)
    requires i < |Reached(c, w, s, inputs).log|
    ensures var t := Reached(c, w, s, inputs);
            && t.log[i].tip in t.known
            && Load(t.log[i].disk) == Success(Path(t.known, t.log[i].tip))
            && (i == |t.log| - 1 ==> t.log[i] == Write(t.disk, t.tip))
  {
    hide Inv, Reached, Path, Load, AllProper, DiskOk, AllOnTime, Exact, Tracked, TopOfRecord, Describes;
    Reachable(c, w, s, inputs);
    var t := Reached(c, w, s, inputs);
    assert LoggedAt(t.known, t.log, t.disk.genesisHash, i);
    LoadReadsBack(t.log[i].disk, Path(t.known, t.log[i].tip));
  }

  // --- Accounts over runs ---

  /** After any run the canonical chain executes from genesis; what its balances
      hold is what was minted less what was charged; and each account's nonce
      is the number of its transfers on the chain. */
  lemma ChainAccounts(c: Crypto, w: World, s: Node, inputs: seq<Input>)
    requires Live(c, w, s) && AllProper(c, inputs)
    ensures var chain := Chain(Reached(c, w, s, inputs));
            && Exec(c, chain).Success?
            && KeysOk(Exec(c, chain).value)
            && Sum(Exec(c, chain).value.balances) + ChainFees(chain) == Minted(|chain|)
            && (forall a :: Exec(c, chain).value.NonceOf(a) == SentBy(a, Bodies(chain)))
            && Sequenced(Bodies(chain))
  {
    hide Inv, Reached, Path, Exec, AllProper, Sequenced, Bodies, ChainFees, Minted, Sum, SentBy, KeysOk;
    Reachable(c, w, s, inputs);
    var t := Reached(c, w, s, inputs);
    ChainExecutes(c, t);
    SupplyConserved(c, Chain(t));
    NoncesCount(c, Chain(t));
    ExecKeepsKeys(c, Chain(t));
  }

  lemma ChainExecutes(c: Crypto, s: Node)
    requires Inv(c, s)
    ensures Exec(c, Chain(s)).Success? && Linked(Chain(s))
  {
    hide Exec, Judged, TableOk, Path;
    ChainLinked(c, s);
    ChainEnds(c, s);
    if s.known != map[] {
      KnownExecutes(c, s, s.tip);
    } else {
      EmptyExec(c);
      assert Chain(s) == [];
    }
  }

  /** Below 128 halvings less than two periods' full subsidy is ever in
      circulation, so no credit on the canonical chain can overflow. */
  lemma SupplyCapped(c: Crypto, w: World, s: Node, inputs: seq<Input>)
    requires Live(c, w, s) && AllProper(c, inputs)
    requires 1 <= |Chain(Reached(c, w, s, inputs))| <= 128 * HALVING_INTERVAL
    ensures var executed := Exec(c, Chain(Reached(c, w, s, inputs)));
            executed.Success? && Sum(executed.value.balances) < 2 * HALVING_INTERVAL * EMISSION_PER_BLOCK < U128_LIMIT
  {
    hide Inv, Reached, Path, Exec, AllProper, ChainFees, Minted, Sum;
    ChainAccounts(c, w, s, inputs);
    EmissionCap(|Chain(Reached(c, w, s, inputs))|);
  }

  /** Whatever a run comes to know was signed for: on every known block's chain,
      the canonical one among them, every transaction beside the coinbases is
      authorised by its sender and charged within its limit. */
  lemma KnownRightful(c: Crypto, w: World, s: Node, inputs: seq<Input>, h: Hash, tx: Tx)
    requires Live(c, w, s) && AllProper(c, inputs)
    requires h in Reached(c, w, s, inputs).known && tx in Bodies(Path(Reached(c, w, s, inputs).known, h))
    ensures Rightful(c, tx)
  {
    hide Live, Reached, Path, Exec, AllProper, Bodies, Rightful, Inv;
    ReachedInv(c, w, s, inputs);
    KnownExecutes(c, Reached(c, w, s, inputs), h);
    ChainRightful(c, Path(Reached(c, w, s, inputs).known, h), tx);
  }

  /** On the canonical chain of any run, every balance is the rewards its account
      mined and the payments it received, less what it paid and was charged. */
  lemma ChainBalances(c: Crypto, w: World, s: Node, inputs: seq<Input>, a: Address)
    requires Live(c, w, s) && AllProper(c, inputs)
    ensures var chain := Chain(Reached(c, w, s, inputs));
            && Exec(c, chain).Success?
            && Exec(c, chain).value.BalanceOf(a) + Spent(c, a, Bodies(chain))
               == Mined(a, chain) + Received(c, a, Bodies(chain))
  {
    hide Live, Reached, Path, Exec, AllProper, Bodies, Inv, Spent, Mined, Received;
    ReachedInv(c, w, s, inputs);
    ChainExecutes(c, Reached(c, w, s, inputs));
    AccountHistory(c, Chain(Reached(c, w, s, inputs)), a);
  }

  /** Every block a run knows above genesis obeys the rules on its own ancestry, so
      the work on record is backed by proof of work: the digest that names the
      block, times its difficulty, stays below the limit. */
  lemma KnownObeys(c: Crypto, w: World, s: Node, inputs: seq<Input>, h: Hash)
    requires Live(c, w, s) && AllProper(c, inputs)
    requires h in Reached(c, w, s, inputs).known && Reached(c, w, s, inputs).known[h].Height() > 0
    ensures var known := Reached(c, w, s, inputs).known;
            var b := known[h];
            var below := Path(known, b.Parent());
            && b.Parent() in known && b.Id() == h
            && b.header.timestamp > known[b.Parent()].header.timestamp
            && 1 <= b.header.difficulty == RequiredDifficulty(below, b.header.timestamp)
            && Backed(c, b) && Carries(c, b) && Settles(c, below, b)
  {
    hide Live, Reached, Path, AllProper, Backed, Carries, Settles, RequiredDifficulty, ValidOn, TableOk, SeenOk, Proper;
    ReachedInv(c, w, s, inputs);
    var known := Reached(c, w, s, inputs).known;
    assert RootedAt(known, h) && JudgedAt(c, known, h);
    PathEnds(known, known[h].Parent());
    ValidExactly(c, Path(known, known[h].Parent()), known[h]);
  }

  // --- Convergence ---

  /** One known block heavier than every other. */
  ghost predicate UniquelyHeaviest(known: map<Hash, Block>, h: Hash) {
    h in known && forall k | k in known && k != h :: Work(Path(known, k)) < Work(Path(known, h))
  }

  lemma HeaviestIsTip(c: Crypto, s: Node, h: Hash)
    requires Inv(c, s) && Heaviest(s) && UniquelyHeaviest(s.known, h)
    ensures s.tip == h
  {
    hide Inv, Path, Work;
    TipKnownOf(c, s, h);
    assert Work(Path(s.known, h)) <= Work(Chain(s));
  }

  lemma {:induction false} UniqueIsHeaviest(s: Node)
    requires UniquelyHeaviest(s.known, s.tip)
    ensures Heaviest(s)
  {
    hide Path, Work;
    forall h | h in s.known
      ensures Work(Path(s.known, h)) <= Work(Chain(s))
    {
    }
  }

  /** Two nodes that have come to know the same blocks, one of them heaviest,
      whatever their clocks, the order of arrival, the orphan detours and the
      reorganisations on the way: each is on the heaviest chain exactly when no
      block on record short ties with its tip on a mixed table. So both are, and
      agree, when neither has such a tie, as when the records of both runs can be
      compared; and when only one has, they disagree. */
  lemma Convergence(c: Crypto, w: World, v: World, s: Node, u: Node, xs: seq<Input>, ys: seq<Input>, h: Hash)
    requires Live(c, w, s) && TopOfRecord(s) && AllProper(c, xs) && NoFailure(w)
    requires Live(c, v, u) && TopOfRecord(u) && AllProper(c, ys) && NoFailure(v)
    requires Reached(c, w, s, xs).known == Reached(c, v, u, ys).known
    requires UniquelyHeaviest(Reached(c, w, s, xs).known, h)
    ensures var x, y := Reached(c, w, s, xs), Reached(c, v, u, ys);
            && (x.tip == h <==> !TiedShort(x)) && (y.tip == h <==> !TiedShort(y))
            && (!TiedShort(x) || !TiedShort(y) ==> (Chain(x) == Chain(y) <==> !TiedShort(x) && !TiedShort(y)))
            && (Even(s, x) && Even(u, y) ==> x.tip == h && y.tip == h && Chain(x) == Chain(y))
  {
    hide Live, Reached, Path, Even, Heaviest, UniquelyHeaviest, TopOfRecord, AllProper, NoFailure, Inv, TiedShort,
      NearlyHeaviest;
    OnHeaviest(c, w, s, xs, h);
    OnHeaviest(c, v, u, ys, h);
    TipEnds(c, w, s, xs);
    TipEnds(c, v, u, ys);
  }

  lemma OnHeaviest(c: Crypto, w: World, s: Node, inputs: seq<Input>, h: Hash)
    requires Live(c, w, s) && TopOfRecord(s) && AllProper(c, inputs) && NoFailure(w)
    requires UniquelyHeaviest(Reached(c, w, s, inputs).known, h)
    ensures var t := Reached(c, w, s, inputs);
            (t.tip == h <==> !TiedShort(t)) && (Even(s, t) ==> !TiedShort(t))
  {
    hide Live, Reached, Path, Even, Heaviest, UniquelyHeaviest, TopOfRecord, AllProper, NoFailure, Inv, TiedShort,
      NearlyHeaviest;
    var t := Reached(c, w, s, inputs);
    HeaviestTip(c, w, s, inputs);
    ReachedInv(c, w, s, inputs);
    if Heaviest(t) {
      HeaviestIsTip(c, t, h);
    }
    if t.tip == h {
      UniqueIsHeaviest(t);
    }
  }

  /** The canonical chain ends with the tip. */
  lemma TipEnds(c: Crypto, w: World, s: Node, inputs: seq<Input>)
    requires Live(c, w, s) && AllProper(c, inputs)
    ensures var t := Reached(c, w, s, inputs); |Chain(t)| > 0 && Chain(t)[|Chain(t)| - 1].Id() == t.tip
  {
    hide Live, Reached, Path, AllProper, Inv;
    ReachedInv(c, w, s, inputs);
    ChainEnds(c, Reached(c, w, s, inputs));
  }

  lemma ReachedInv(c: Crypto, w: World, s: Node, inputs: seq<Input>)
    requires Live(c, w, s) && AllProper(c, inputs)
    ensures Inv(c, Reached(c, w, s, inputs)) && Reached(c, w, s, inputs).known != map[]
  {
    hide Inv, Reached, AllProper, DiskOk, LogOk, AllOnTime, Exact, Tracked, TopOfRecord;
    Reachable(c, w, s, inputs);
  }

  /** How much work the heaviest known block has beyond the tip. */
  ghost function Shortfall(s: Node): nat {
    if TiedShort(s) then 1 else 0
  }

  /** Some known block tops exactly that much more work, and none tops more. */
  lemma BestWork(c: Crypto, w: World, s: Node, inputs: seq<Input>) returns (best: Hash)
    requires Live(c, w, s) && TopOfRecord(s) && AllProper(c, inputs) && NoFailure(w)
    ensures var t := Reached(c, w, s, inputs);
            && best in t.known && Work(Path(t.known, best)) == Work(Chain(t)) + Shortfall(t)
            && forall h | h in t.known :: Work(Path(t.known, h)) <= Work(Chain(t)) + Shortfall(t)
  {
    hide Live, Reached, Path, Work, TopOfRecord, AllProper, NoFailure, Inv, Mixed, OffAt, Even;
    var t := Reached(c, w, s, inputs);
    HeaviestTip(c, w, s, inputs);
    ReachedInv(c, w, s, inputs);
    TipIsKnown(c, t);
    if TiedShort(t) {
      best :| TiedAt(t, best);
      TiedOutweighs(c, t, best);
    } else {
      best := t.tip;
    }
  }

  /** A short tie tops one genesis difficulty more than the tip. */
  lemma TiedOutweighs(c: Crypto, s: Node, h: Hash)
    requires Inv(c, s) && Mixed(s) && TiedAt(s, h)
    ensures h in s.known && Work(Path(s.known, h)) == Work(Chain(s)) + 1
  {
    hide Path, Work, Mixed, Rooted, Judged;
    TreeOfInv(c, s);
    assert s.tip in s.known by { MixedKnown(s); }
    MixedTip(s);
  }

  lemma MixedKnown(s: Node)
    requires Mixed(s)
    ensures s.tip in s.known
  {
  }

  /** Without a unique heaviest block the tips may differ. They have equal work
      exactly when both or neither tie short; otherwise the one that does is one
      genesis difficulty behind. */
  lemma SameWork(c: Crypto, w: World, v: World, s: Node, u: Node, xs: seq<Input>, ys: seq<Input>)
    requires Live(c, w, s) && TopOfRecord(s) && AllProper(c, xs) && NoFailure(w)
    requires Live(c, v, u) && TopOfRecord(u) && AllProper(c, ys) && NoFailure(v)
    requires Reached(c, w, s, xs).known == Reached(c, v, u, ys).known
    ensures var x, y := Reached(c, w, s, xs), Reached(c, v, u, ys);
            && Work(Chain(x)) + Shortfall(x) == Work(Chain(y)) + Shortfall(y)
            && (Work(Chain(x)) == Work(Chain(y)) <==> (TiedShort(x) <==> TiedShort(y)))
  {
    hide Live, Reached, Path, Even, Work, TopOfRecord, AllProper, NoFailure, Inv, TiedShort;
    var a := BestWork(c, w, s, xs);
    var b := BestWork(c, v, u, ys);
  }

  // --- The orphan pool over runs ---

  /** Once genesis is in, the pool is in order after every further block: at
      most the maximum, no empty bucket, no stale reverse entry, and nothing
      left that could be promoted. */
  lemma {:induction false} RunPool(c: Crypto, w: World, s: Node, inputs: seq<Input>)
    requires PoolInv(s, {}) && s.known != map[]
    ensures Sorted(s.orphans.pool)
    ensures PoolInv(Run(c, w, s, inputs), {}) && Run(c, w, s, inputs).known != map[]
  {
    hide PoolInv, Apply;
    PoolInvSorted(s, {});
    if |inputs| > 0 {
      var init, last := inputs[..|inputs| - 1], inputs[|inputs| - 1];
      RunPool(c, w, s, init);
      var t := Run(c, w, s, init);
      ApplyPool(c, w, t, last.block, last.peer, {});
      StillKnown(t.known, Apply(c, w, t, last.block, last.peer).0.known);
    }
  }
}
