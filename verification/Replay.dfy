/** Reading ancestry back out of the in-memory fields: the retarget window, and
    the ledger at any known block rebuilt by execution from genesis.
 */
module Replay {
  import opened Base
  import opened Ledgers
  import opened BlockTree
  import opened Validity
  import opened Consensus
  import opened Invariants
  import opened ChainStates

  function Reverse(s: seq<Block>): seq<Block> {
    if |s| == 0 then [] else [s[|s| - 1]] + Reverse(s[..|s| - 1])
  }

  // --- The retarget window ---

  /** What the walk over both stores finds: blocks from a hash backwards, oldest
      first, as far as hashes resolve and parents are not all zeros. */
  function WalkBack(blocks: seq<Block>, index: map<Hash, nat>, side: map<Hash, Block>, h: Hash, n: nat): seq<Block>
    decreases n
  {
    if n == 0 then []
    else
      match ResolveBlock(blocks, index, side, h)
      case None => []
      case Some(b) =>
        (if AllZeros(b.Parent()) then [] else WalkBack(blocks, index, side, b.Parent(), n - 1)) + [b]
  }

  /** On a valid state the walk finds the last ancestors. */
  lemma {:induction false} WalkIsAncestors(g: ChainState, h: Hash, n: nat)
    requires g.Valid() && h in g.abs.known
    ensures WalkBack(g.blocks, g.canonIndex, g.sideBlocks, h, n) == Ancestors(Path(g.abs.known, h), n)
    decreases n
  {
    hide Inv, PoolOk, FieldsOk, Path, AllZeros, Ancestors, ResolveBlock;
    if n > 0 {
      TreeOfInv(g.c, g.abs);
      ParentPath(g.abs.known, h);
      AncestorsStep(Path(g.abs.known, h), n);
      ResolvesKnown(g, h);
      if !AllZeros(g.abs.known[h].Parent()) {
        WalkIsAncestors(g, g.abs.known[h].Parent(), n - 1);
      }
    } else {
      NoAncestors(Path(g.abs.known, h));
    }
  }

  lemma ResolvesKnown(g: ChainState, h: Hash)
    requires g.Valid() && h in g.abs.known
    ensures ResolveBlock(g.blocks, g.canonIndex, g.sideBlocks, h) == Some(g.abs.known[h])
  {
    hide PoolOk, Path, Inv, LedgerOk;
    if h in g.canonIndex {
      ChainKnown(g.c, g.abs, g.canonIndex[h]);
    }
  }

  lemma ParentPath(known: map<Hash, Block>, h: Hash)
    requires Rooted(known) && h in known
    ensures |Path(known, h)| > 0 && Path(known, h)[|Path(known, h)| - 1] == known[h]
    ensures !AllZeros(known[h].Parent()) ==>
              known[h].Parent() in known && Path(known, h)[..|Path(known, h)| - 1] == Path(known, known[h].Parent())
  {
    assert RootedAt(known, h);
  }

  lemma AncestorsStep(path: seq<Block>, n: nat)
    requires |path| > 0 && n > 0
    ensures var last := path[|path| - 1];
            Ancestors(path, n) ==
            (if AllZeros(last.Parent()) then [] else Ancestors(path[..|path| - 1], n - 1)) + [last]
  {
  }

  lemma ReverseStep(chain: seq<Block>, b: Block)
    ensures Reverse(chain + [b]) == [b] + Reverse(chain)
  {
    assert (chain + [b])[..|chain|] == chain;
  }

  /** One step of the walk, the blocks met so far in reverse. */
  lemma WalkStep(g: ChainState, h: Hash, n: nat, chain: seq<Block>)
    requires n > 0
    ensures var walk := WalkBack(g.blocks, g.canonIndex, g.sideBlocks, h, n);
            match ResolveBlock(g.blocks, g.canonIndex, g.sideBlocks, h)
            case None => walk + Reverse(chain) == Reverse(chain)
            case Some(b) =>
              walk + Reverse(chain)
              == (if AllZeros(b.Parent()) then []
                  else WalkBack(g.blocks, g.canonIndex, g.sideBlocks, b.Parent(), n - 1)) + Reverse(chain + [b])
  {
    hide AllZeros, ResolveBlock, Reverse;
    match ResolveBlock(g.blocks, g.canonIndex, g.sideBlocks, h) {
      case None =>
      case Some(b) => ReverseStep(chain, b);
    }
  }

  lemma NoWalk(g: ChainState, h: Hash)
    ensures WalkBack(g.blocks, g.canonIndex, g.sideBlocks, h, 0) == []
  {
  }

  lemma NothingBefore(s: seq<Block>)
    ensures [] + s == s
  {
  }

  /** Up to twenty-one ancestors, oldest first, from either store. */
  method CollectAncestorWindow(g: ChainState, tipHash: Hash) returns (window: seq<Block>)
    ensures window == WalkBack(g.blocks, g.canonIndex, g.sideBlocks, tipHash, RETARGET_WINDOW + 1)
    ensures g.Valid() && tipHash in g.abs.known ==>
              window == Ancestors(Path(g.abs.known, tipHash), RETARGET_WINDOW + 1)
  {
    hide Inv, PoolOk, FieldsOk, Path, Ancestors, Reverse, AllZeros, ResolveBlock, WalkBack;
    if g.Valid() && tipHash in g.abs.known {
      WalkIsAncestors(g, tipHash, RETARGET_WINDOW + 1);
    }
    var limit := RETARGET_WINDOW + 1;
    var chain := [];
    var current := tipHash;
    ghost var target := WalkBack(g.blocks, g.canonIndex, g.sideBlocks, tipHash, limit);
    EmptyReverse(target);
    var i := 0;
    while i < limit
      invariant 0 <= i <= limit
      invariant WalkBack(g.blocks, g.canonIndex, g.sideBlocks, current, limit - i) + Reverse(chain) == target
    {
      WalkStep(g, current, limit - i, chain);
      var found := g.BlockByHash(current);
      if found.None? {
        return Reverse(chain);
      }
      var blk := found.value;
      chain := chain + [blk];
      if AllZeros(blk.Parent()) {
        NothingBefore(Reverse(chain));
        return Reverse(chain);
      }
      current := blk.Parent();
      i := i + 1;
    }
    NoWalk(g, current);
    NothingBefore(Reverse(chain));
    return Reverse(chain);
  }

  lemma EmptyReverse(s: seq<Block>)
    ensures s + Reverse([]) == s
  {
  }

  lemma NoAncestors(path: seq<Block>)
    ensures Ancestors(path, 0) == []
  {
  }

  // --- Ledgers by replay ---

  lemma ExecStep(c: Crypto, path: seq<Block>, i: nat)
    requires i < |path| && Exec(c, path).Success?
    ensures Exec(c, path[..i]).Success? && Exec(c, path[..i + 1]).Success?
    ensures ExecBlock(c, Exec(c, path[..i]).value, path[i]) == Exec(c, path[..i + 1])
  {
    ExecPrefixSucceeds(c, path, i);
    ExecPrefixSucceeds(c, path, i + 1);
    assert path[..i + 1][..i] == path[..i];
  }

  /** Execute a run of consecutive blocks of an executable chain, starting from
      the ledger just below it. It cannot fail. */
  method ReplayBlocks(c: Crypto, ghost path: seq<Block>, start: nat, segment: seq<Block>, state: TxExecutionState)
    returns (r: Result<(), ExecError>)
    requires Exec(c, path).Success?
    requires start + |segment| <= |path| && segment == path[start..start + |segment|]
    requires Exec(c, path[..start]) == Success(state.View())
    modifies state
    ensures r == Success(())
    ensures Exec(c, path[..start + |segment|]) == Success(state.View())
  {
    hide Exec, ExecBlock;
    for i := 0 to |segment|
      invariant Exec(c, path[..start + i]) == Success(state.View())
    {
      ExecStep(c, path, start + i);
      assert segment[i] == path[start + i];
      r := state.ExecuteBlock(c, segment[i]);
      if r.Failure? {
        return;
      }
    }
    return Success(());
  }

  /** The ledger after the canonical block at a height. */
  method ReconstructCanonicalStateAtHeight(g: ChainState, height: nat) returns (r: Result<TxExecutionState, ExecError>)
    requires g.Valid() && height < |g.blocks|
    ensures r.Success? && fresh(r.value)
    ensures Exec(g.c, g.blocks[..height + 1]) == Success(r.value.View())
  {
    hide TreeInv, PoolOk, Path, Exec, Same, IndexOk, SideOk;
    var state := new TxExecutionState(map[], map[]);
    assert g.blocks[..0] == [];
    EmptyExec(g.c);
    var _ := ReplayBlocks(g.c, g.blocks, 0, g.blocks[..height + 1], state);
    return Success(state);
  }

  datatype AncestryError = BrokenAncestry(parent: Hash) | Replay(error: ExecError)

  /** The known blocks above the canonical chain on the way to h, oldest first,
      and the canonical height they stand on. */
  method TraceToCanonical(g: ChainState, h: Hash) returns (r: Result<(seq<Block>, nat), AncestryError>)
    requires g.Valid() && h in g.abs.known
    ensures r.Success?
    ensures var (branch, height) := r.value;
            && height < |g.blocks|
            && Path(g.abs.known, h) == g.blocks[..height + 1] + branch
            && (forall i | 0 <= i < |branch| :: branch[i].Id() !in g.canonIndex)
  {
    hide TreeInv, PoolOk, Path, Same, LedgerOk, Reverse;
    var branch := [];
    var current := h;
    ghost var target := Path(g.abs.known, h);
    EmptyReverse(target);
    while current !in g.canonIndex
      invariant current in g.abs.known
      invariant Path(g.abs.known, current) + Reverse(branch) == target
      invariant forall i | 0 <= i < |branch| :: branch[i].Id() !in g.canonIndex
      decreases |Path(g.abs.known, current)|
    {
      if current !in g.sideBlocks {
        return Failure(BrokenAncestry(h));
      }
      var blk := g.sideBlocks[current];
      TreeOfInv(g.c, g.abs);
      SideHasParent(g, current);
      PathStep(g.abs.known, current, branch);
      branch := branch + [blk];
      current := blk.Parent();
    }
    var height := g.canonIndex[current];
    ChainKnown(g.c, g.abs, height);
    ReverseIds(branch, g.canonIndex);
    return Success((Reverse(branch), height));
  }

  lemma {:induction false} ReverseIds(branch: seq<Block>, index: map<Hash, nat>)
    requires forall i | 0 <= i < |branch| :: branch[i].Id() !in index
    ensures forall i | 0 <= i < |Reverse(branch)| :: Reverse(branch)[i].Id() !in index
  {
    if |branch| > 0 {
      ReverseIds(branch[..|branch| - 1], index);
    }
  }

  /** A side block is never genesis, because genesis is canonical. */
  lemma SideHasParent(g: ChainState, h: Hash)
    requires g.Valid() && h in g.abs.known && h !in g.canonIndex
    ensures g.abs.known[h].Height() > 0 && g.abs.known[h].Id() == h
  {
    hide PoolOk, Path, LedgerOk, Proper;
    var s := g.abs;
    TreeOfInv(g.c, s);
    assert RootedAt(s.known, h);
    ChainLinked(g.c, s);
    ChainEnds(g.c, s);
    assert g.blocks[0] == GenesisBlock() && g.blocks[0].Id() in g.canonIndex;
  }

  lemma PathStep(known: map<Hash, Block>, h: Hash, branch: seq<Block>)
    requires Rooted(known) && h in known && known[h].Height() > 0
    ensures known[h].Parent() in known
    ensures Path(known, h) + Reverse(branch) == Path(known, known[h].Parent()) + Reverse(branch + [known[h]])
    ensures |Path(known, known[h].Parent())| < |Path(known, h)|
  {
    assert RootedAt(known, h);
    assert (branch + [known[h]])[..|branch|] == branch;
  }

  /** The ledger after any known block, canonical or not. Neither the ancestry
      walk nor the execution can fail. */
  method ReconstructParentState(g: ChainState, parent: Hash) returns (r: Result<TxExecutionState, AncestryError>)
    requires g.Valid() && parent in g.abs.known
    ensures r.Success? && fresh(r.value)
    ensures Exec(g.c, Path(g.abs.known, parent)) == Success(r.value.View())
  {
    hide TreeInv, PoolOk, FieldsOk, Path, Exec;
    var traced := TraceToCanonical(g, parent);
    var (branch, height) := traced.value;
    var base := ReconstructCanonicalStateAtHeight(g, height);
    var state := base.value;
    ghost var path := Path(g.abs.known, parent);
    KnownExecutes(g.c, g.abs, parent);
    assert path[..height + 1] == g.blocks[..height + 1];
    assert branch == path[height + 1..height + 1 + |branch|];
    var _ := ReplayBlocks(g.c, path, height + 1, branch, state);
    assert path[..height + 1 + |branch|] == path;
    return Success(state);
  }
}
