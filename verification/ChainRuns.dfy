/** Runs of the in-memory state: what its fields are after any sequence of
    submitted blocks.
 */
module ChainRuns {
  import opened Base
  import opened Ledgers
  import opened BlockTree
  import opened OrphanPool
  import opened Works
  import opened Consensus
  import opened Tables
  import opened Invariants
  import opened Acceptance
  import opened ChainStates
  import opened Replay
  import opened Accept
  import opened ApplyBlocks
  import opened Runs

  /** Submit blocks one after the other. */
  method SubmitAll(g: ChainState, inputs: seq<Input>)
    requires g.Valid() && g.abs.known != map[] && AllProper(g.c, inputs)
    modifies g
    ensures g.Valid() && g.abs.known != map[] && KeepsSnapshots(g.abs.known, old(g.snapshots), g.snapshots)
    ensures Sorted(old(g.abs.orphans.pool)) && g.abs == Run(g.c, g.w, old(g.abs), inputs)
  {
    hide Inv, PoolProper, FieldsOk, Path, Apply, Proper, KeepsSnapshots, Grows;
    ghost var s, before := g.abs, g.snapshots;
    assert inputs[..0] == [];
    NothingSaved(s.known, before);
    for i := 0 to |inputs|
      invariant g.Valid() && g.abs == Run(g.c, g.w, s, inputs[..i]) && g.abs.known != map[]
      invariant KeepsSnapshots(g.abs.known, before, g.snapshots)
    {
      RunStep(g.c, g.w, s, inputs, i);
      ghost var between, known := g.snapshots, g.abs.known;
      var _ := ApplyBlock(g, inputs[i].block, inputs[i].peer);
      KeepsSnapshotsOn(known, g.abs.known, before, between, g.snapshots);
      StillKnown(known, g.abs.known);
    }
    assert inputs[..|inputs|] == inputs;
  }

  /** The structure of every reachable state, field by field. Only genesis may
      be missing from the seen set and from the recorded work. */
  lemma Structure(g: ChainState)
    requires g.Valid()
    ensures forall i | 0 <= i < |g.blocks| :: g.blocks[i].Height() == i
    ensures forall i | 0 < i < |g.blocks| :: g.blocks[i].Parent() == g.blocks[i - 1].Id()
    ensures forall i | 0 <= i < |g.blocks| :: g.blocks[i].Id() in g.canonIndex && g.canonIndex[g.blocks[i].Id()] == i
    ensures forall h | h in g.canonIndex :: g.canonIndex[h] < |g.blocks| && g.blocks[g.canonIndex[h]].Id() == h
    ensures g.canonIndex.Keys !! g.sideBlocks.Keys
    ensures var all := g.canonIndex.Keys + g.sideBlocks.Keys;
            && all - {GENESIS_HASH} <= g.seenBlocks <= all
            && all - {GENESIS_HASH} <= g.cumulativeWork.Keys <= all
    ensures forall h | h in g.sideBlocks ::
              && g.sideBlocks[h].Id() == h && g.sideBlocks[h].Height() > 0
              && g.sideBlocks[h].Parent() in g.canonIndex.Keys + g.sideBlocks.Keys
  {
    hide PoolOk, Path, LedgerOk, Proper, IndexOk, SideOk, Inv;
    ChainLinked(g.c, g.abs);
    FieldShape(g);
    RecordShape(g);
    forall h | h in g.sideBlocks
      ensures g.sideBlocks[h].Id() == h && g.sideBlocks[h].Height() > 0
      ensures g.sideBlocks[h].Parent() in g.abs.known
    {
      SideHasParent(g, h);
      TreeOfInv(g.c, g.abs);
      ParentKnown(g.abs.known, h);
    }
  }

  lemma ParentKnown(known: map<Hash, Block>, h: Hash)
    requires Rooted(known) && h in known && known[h].Height() > 0
    ensures known[h].Parent() in known
  {
    assert RootedAt(known, h);
  }

  lemma FieldShape(g: ChainState)
    requires g.Valid()
    ensures forall i | 0 <= i < |g.blocks| :: g.blocks[i].Id() in g.canonIndex && g.canonIndex[g.blocks[i].Id()] == i
    ensures forall h | h in g.canonIndex :: g.canonIndex[h] < |g.blocks| && g.blocks[g.canonIndex[h]].Id() == h
    ensures g.canonIndex.Keys !! g.sideBlocks.Keys
    ensures g.canonIndex.Keys + g.sideBlocks.Keys == g.abs.known.Keys
    ensures forall h | h in g.sideBlocks :: h in g.abs.known && g.sideBlocks[h] == g.abs.known[h] && h !in g.canonIndex
  {
    hide PoolOk, Path, LedgerOk, Inv;
    forall h | h in g.canonIndex
      ensures h in g.abs.known
    {
      ChainKnown(g.c, g.abs, g.canonIndex[h]);
    }
  }

  lemma RecordShape(g: ChainState)
    requires g.Valid()
    ensures g.abs.known.Keys - {GENESIS_HASH} <= g.seenBlocks <= g.abs.known.Keys
    ensures g.abs.known.Keys - {GENESIS_HASH} <= g.cumulativeWork.Keys <= g.abs.known.Keys
  {
    hide PoolOk, Path, FieldsOk, TreeInv, AllOff, AllNear, CanonExact;
  }

  /** Recorded work is the difficulty summed along the block's own path; without
      a genesis record it may fall short by the genesis difficulty. The account
      state reads like the execution of the canonical blocks from genesis. */
  lemma WorkAndAccounts(g: ChainState)
    requires g.Valid()
    ensures forall h | h in g.abs.known ::
              var work := Work(Path(g.abs.known, h));
              && Recorded(g.cumulativeWork, h) <= work <= Recorded(g.cumulativeWork, h) + 1
              && (GENESIS_HASH in g.cumulativeWork ==> Recorded(g.cumulativeWork, h) == work)
    ensures forall i | 0 <= i < |g.blocks| ::
              g.blocks[i].Id() in g.abs.known && Path(g.abs.known, g.blocks[i].Id()) == g.blocks[..i + 1]
    ensures Exec(g.c, g.blocks).Success?
    ensures forall a :: Ledger(g.balances, g.nonces).BalanceOf(a) == Exec(g.c, g.blocks).value.BalanceOf(a)
    ensures forall a :: Ledger(g.balances, g.nonces).NonceOf(a) == Exec(g.c, g.blocks).value.NonceOf(a)
  {
    hide PoolOk, Path, Work, TreeInv, TableOk, IndexOk, SideOk, Exec, Same, Recorded;
    SameReads(Ledger(g.balances, g.nonces), Exec(g.c, g.blocks).value);
    forall h | h in g.abs.known
      ensures var work := Work(Path(g.abs.known, h));
              && Recorded(g.cumulativeWork, h) <= work <= Recorded(g.cumulativeWork, h) + 1
              && (GENESIS_HASH in g.cumulativeWork ==> Recorded(g.cumulativeWork, h) == work)
    {
      WorkOne(g, h);
    }
    forall i | 0 <= i < |g.blocks|
      ensures g.blocks[i].Id() in g.abs.known && Path(g.abs.known, g.blocks[i].Id()) == g.blocks[..i + 1]
    {
      ChainKnown(g.c, g.abs, i);
    }
  }

  lemma WorkOne(g: ChainState, h: Hash)
    requires g.Valid() && h in g.abs.known
    ensures var work := Work(Path(g.abs.known, h));
            && Recorded(g.cumulativeWork, h) <= work <= Recorded(g.cumulativeWork, h) + 1
            && (GENESIS_HASH in g.cumulativeWork ==> Recorded(g.cumulativeWork, h) == work)
  {
    hide PoolOk, Path, Work, FieldsOk, TreeInv, AllOff, AllNear, CanonExact, Recorded;
    TableNear(g.abs, h);
  }

  /** Recorded work never outgrows its 128-bit type. */
  lemma RecordedWorkFits(g: ChainState, h: Hash)
    requires g.Valid() && h in g.cumulativeWork
    ensures g.cumulativeWork[h] < U128_LIMIT
  {
    hide PoolOk, Path, Work, FieldsOk, Inv;
    RecordShape(g);
    TreeOfInv(g.c, g.abs);
    WorkOne(g, h);
    PathLinked(g.abs.known, h);
    WorkFits(Path(g.abs.known, h));
  }

  /** Two nodes that know the same blocks, one of them heaviest, and that each
      have the heaviest tip, agree on the whole canonical chain and on every
      balance and nonce. */
  lemma ConvergedNodes(g: ChainState, h: ChainState, best: Hash)
    requires g.Valid() && h.Valid() && g.c == h.c && g.abs.known == h.abs.known
    requires Heaviest(g.abs) && Heaviest(h.abs) && UniquelyHeaviest(g.abs.known, best)
    ensures g.blocks == h.blocks && g.canonIndex == h.canonIndex && g.sideBlocks == h.sideBlocks
    ensures forall a ::
              && Ledger(g.balances, g.nonces).BalanceOf(a) == Ledger(h.balances, h.nonces).BalanceOf(a)
              && Ledger(g.balances, g.nonces).NonceOf(a) == Ledger(h.balances, h.nonces).NonceOf(a)
  {
    hide PoolOk, Path, Work, Inv, FieldsOk, Heaviest, UniquelyHeaviest, Exec, Recorded;
    HeaviestIsTip(g.c, g.abs, best);
    HeaviestIsTip(h.c, h.abs, best);
    WorkAndAccounts(g);
    WorkAndAccounts(h);
    SameIndex(g, h);
  }

  lemma SameIndex(g: ChainState, h: ChainState)
    requires g.Valid() && h.Valid() && g.abs.known == h.abs.known && g.blocks == h.blocks
    ensures g.canonIndex == h.canonIndex && g.sideBlocks == h.sideBlocks
  {
    hide PoolOk, Path, LedgerOk, Inv;
    forall k
      ensures k in g.canonIndex <==> k in h.canonIndex
      ensures k in g.canonIndex ==> g.canonIndex[k] == h.canonIndex[k]
    {
      if k in g.canonIndex {
        assert g.blocks[g.canonIndex[k]].Id() == k;
      }
      if k in h.canonIndex {
        assert h.blocks[h.canonIndex[k]].Id() == k;
      }
    }
  }

  /** Two in-memory nodes after runs of their own, with no failing writes, that
      know the same blocks with one heaviest: as long as one of them is without a
      short tie, they hold the same chain exactly when the other is without one
      too, and then with the same balances and nonces. Runs whose records can be
      compared have none. */
  lemma ConvergedRuns(g: ChainState, h: ChainState, s: Node, u: Node, xs: seq<Input>, ys: seq<Input>, best: Hash)
    requires g.Valid() && h.Valid() && g.c == h.c && NoFailure(g.w) && NoFailure(h.w)
    requires Live(g.c, g.w, s) && TopOfRecord(s) && AllProper(g.c, xs) && g.abs == Reached(g.c, g.w, s, xs)
    requires Live(h.c, h.w, u) && TopOfRecord(u) && AllProper(h.c, ys) && h.abs == Reached(h.c, h.w, u, ys)
    requires g.abs.known == h.abs.known && UniquelyHeaviest(g.abs.known, best)
    ensures !TiedShort(g.abs) ==> (g.blocks == h.blocks <==> !TiedShort(h.abs))
    ensures !TiedShort(g.abs) && !TiedShort(h.abs) ==>
              forall a ::
                && Ledger(g.balances, g.nonces).BalanceOf(a) == Ledger(h.balances, h.nonces).BalanceOf(a)
                && Ledger(g.balances, g.nonces).NonceOf(a) == Ledger(h.balances, h.nonces).NonceOf(a)
    ensures Even(s, g.abs) && Even(u, h.abs) ==> !TiedShort(g.abs) && !TiedShort(h.abs)
  {
    hide Inv, PoolOk, FieldsOk, Path, Live, Reached, Even, Heaviest, UniquelyHeaviest, TopOfRecord, AllProper,
      NoFailure, TiedShort, NearlyHeaviest;
    HeaviestTip(g.c, g.w, s, xs);
    HeaviestTip(h.c, h.w, u, ys);
    Convergence(g.c, g.w, h.w, s, u, xs, ys, best);
    if Heaviest(g.abs) && Heaviest(h.abs) {
      ConvergedNodes(g, h, best);
    }
  }
}
