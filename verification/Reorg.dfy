/** Chain reorganisation: switch the canonical chain to a heavier known branch.
 */
module Reorg {
  import opened Base
  import opened Ledgers
  import opened StateRoots
  import opened BlockTree
  import opened ChainDisk
  import opened Works
  import opened Consensus
  import opened Tables
  import opened Invariants
  import opened ChainStates
  import opened Replay

  // --- Replay with state roots ---

  datatype ReplayError =
    | Parent(expected: Hash, got: Hash)
    | Execution(error: ExecError)
    | RootConstruction
    | RootMismatch(hash: Hash)

  ghost predicate RootAt(c: Crypto, path: seq<Block>, i: nat)
    requires i < |path|
  {
    Exec(c, path[..i + 1]).Success?
    && (i > 0 ==> Root(c, Exec(c, path[..i + 1]).value) == Success(path[i].header.stateRoot))
  }

  /** Every block above genesis claims the root of the ledger it produces. */
  ghost predicate RootsOk(c: Crypto, path: seq<Block>) {
    forall i: nat {:trigger RootAt(c, path, i)} | i < |path| :: RootAt(c, path, i)
  }

  lemma PathRootsOk(c: Crypto, s: Node, h: Hash)
    requires Inv(c, s) && h in s.known
    ensures Exec(c, Path(s.known, h)).Success? && RootsOk(c, Path(s.known, h)) && Linked(Path(s.known, h))
  {
    hide Root, ExecBlock, Path;
    var path := Path(s.known, h);
    TreeOfInv(c, s);
    KnownExecutes(c, s, h);
    PathLinked(s.known, h);
    forall i: nat | i < |path|
      ensures RootAt(c, path, i)
    {
      PathKnown(s.known, h, i);
      PathPrefix(s.known, h, i);
      KnownExecutes(c, s, path[i].Id());
    }
  }

  /** Execute consecutive blocks of a valid chain, checking parent links and
      state roots on the way. It cannot fail. */
  method ReplayChecked(c: Crypto, ghost path: seq<Block>, start: nat, segment: seq<Block>, below: Hash,
                       state: TxExecutionState)
    returns (r: Result<(), ReplayError>)
    requires Exec(c, path).Success? && RootsOk(c, path) && Linked(path)
    requires start + |segment| <= |path| && segment == path[start..start + |segment|]
    requires start > 0 ==> below == path[start - 1].Id()
    requires Exec(c, path[..start]) == Success(state.View())
    modifies state
    ensures r == Success(())
    ensures Exec(c, path[..start + |segment|]) == Success(state.View())
  {
    hide Exec, ExecBlock, Root;
    var expectedParent := below;
    for i := 0 to |segment|
      invariant Exec(c, path[..start + i]) == Success(state.View())
      invariant start + i > 0 ==> expectedParent == path[start + i - 1].Id()
    {
      var blk := segment[i];
      assert blk == path[start + i];
      if start + i > 0 && blk.Parent() != expectedParent {
        return Failure(Parent(expectedParent, blk.Parent()));
      }
      ExecStep(c, path, start + i);
      var executed := state.ExecuteBlock(c, blk);
      match executed {
        case Failure(e) => return Failure(Execution(e));
        case Success(_) =>
      }
      assert RootAt(c, path, start + i);
      if blk.Height() != 0 {
        var root := ComputeStateRoot(c, Ledger(state.balances, state.nonces));
        if root.Failure? {
          return Failure(RootConstruction);
        }
        if root.value != blk.header.stateRoot {
          return Failure(RootMismatch(blk.Id()));
        }
      }
      expectedParent := blk.Id();
    }
    return Success(());
  }

  // --- Moving blocks between the stores ---

  /** An index without the positions from n up to j. */
  ghost predicate IndexGap(index: map<Hash, nat>, n: nat, j: nat, left: map<Hash, nat>) {
    && (forall h :: h in left <==> h in index && !(n <= index[h] < j))
    && (forall h | h in left :: left[h] == index[h])
  }

  /** A side store with the blocks at positions n up to j added. */
  ghost predicate SideGain(blocks: seq<Block>, index: map<Hash, nat>, n: nat, j: nat,
                           side: map<Hash, Block>, more: map<Hash, Block>)
    requires forall h | h in index :: index[h] < |blocks|
  {
    && (forall h :: h in more <==> h in side || (h in index && n <= index[h] < j))
    && (forall h | h in more :: more[h] == if h in index && n <= index[h] < j then blocks[index[h]] else side[h])
  }

  /** Take the canonical blocks from position n on out of the index and onto
      the side. */
  method DemoteAbove(blocks: seq<Block>, n: nat, index: map<Hash, nat>, side: map<Hash, Block>)
    returns (newIndex: map<Hash, nat>, newSide: map<Hash, Block>)
    requires IndexOk(blocks, index) && n <= |blocks|
    ensures IndexGap(index, n, |blocks|, newIndex)
    ensures SideGain(blocks, index, n, |blocks|, side, newSide)
  {
    newIndex, newSide := index, side;
    for j := n to |blocks|
      invariant IndexGap(index, n, j, newIndex)
      invariant SideGain(blocks, index, n, j, side, newSide)
    {
      IndexGapGrows(blocks, index, n, j, newIndex);
      SideGainGrows(blocks, index, n, j, side, newSide);
      newIndex := newIndex - {blocks[j].Id()};
      newSide := newSide[blocks[j].Id() := blocks[j]];
    }
  }

  lemma IndexGapGrows(blocks: seq<Block>, index: map<Hash, nat>, n: nat, j: nat, left: map<Hash, nat>)
    requires IndexOk(blocks, index) && n <= j < |blocks| && IndexGap(index, n, j, left)
    ensures IndexGap(index, n, j + 1, left - {blocks[j].Id()})
  {
  }

  lemma SideGainGrows(blocks: seq<Block>, index: map<Hash, nat>, n: nat, j: nat,
                      side: map<Hash, Block>, more: map<Hash, Block>)
    requires IndexOk(blocks, index) && n <= j < |blocks| && SideGain(blocks, index, n, j, side, more)
    ensures SideGain(blocks, index, n, j + 1, side, more[blocks[j].Id() := blocks[j]])
  {
  }

  /** The tree facts the promotion loop relies on. */
  ghost predicate OnTreeAt(known: map<Hash, Block>, path: seq<Block>, i: nat)
    requires i < |path|
  {
    && path[i].Height() == i
    && path[i].Id() in known && known[path[i].Id()] == path[i]
    && Path(known, path[i].Id()) == path[..i + 1]
  }

  ghost predicate OnTree(known: map<Hash, Block>, path: seq<Block>) {
    forall i: nat {:trigger OnTreeAt(known, path, i)} | i < |path| :: OnTreeAt(known, path, i)
  }

  lemma PathOnTree(c: Crypto, s: Node, h: Hash)
    requires Inv(c, s) && h in s.known
    ensures OnTree(s.known, Path(s.known, h))
  {
    hide Path;
    TreeOfInv(c, s);
    PathShape(s.known, h);
  }

  /** Put a branch onto the canonical chain, block by block, recording its work
      from a given start. */
  method PromoteSegment(ghost known: map<Hash, Block>, ghost path: seq<Block>, n: nat, segment: seq<Block>,
                        blocks: seq<Block>, index: map<Hash, nat>, side: map<Hash, Block>,
                        work: map<Hash, nat>, seen: set<Hash>, baseWork: nat)
    returns (newBlocks: seq<Block>, newIndex: map<Hash, nat>, newSide: map<Hash, Block>,
             newWork: map<Hash, nat>, newSeen: set<Hash>)
    requires OnTree(known, path)
    requires n <= |path| && blocks == path[..n] && segment == path[n..]
    requires IndexOk(blocks, index) && SideOk(known, index, side)
    requires forall i | n <= i < |path| :: path[i].Id() in seen
    ensures newBlocks == path
    ensures IndexOk(path, newIndex) && SideOk(known, newIndex, newSide)
    ensures newWork == Rewritten(work, path, n, baseWork) && newSeen == seen
  {
    hide IndexOk, SideOk, OnTree, OnTreeAt, Rewritten, Above;
    newBlocks, newIndex, newSide, newWork, newSeen := blocks, index, side, work, seen;
    var cw := baseWork;
    NothingRewritten(work, path, n, baseWork);
    for i := 0 to |segment|
      invariant newBlocks == path[..n + i]
      invariant cw == baseWork + Above(path[..n + i], n)
      invariant newWork == Rewritten(work, path[..n + i], n, baseWork)
      invariant IndexOk(newBlocks, newIndex) && SideOk(known, newIndex, newSide)
      invariant newSeen == seen
    {
      var blk := segment[i];
      assert blk == path[n + i];
      RewriteStep(work, path, n, baseWork, n + i);
      AtHeight(known, path, n + i);
      IndexAppends(known, path, n + i, newIndex);
      SideShrinks(known, path, n + i, newIndex, newSide);
      var h := blk.Id();
      cw := cw + blk.header.difficulty;
      newIndex := newIndex[h := blk.Height()];
      newSide := newSide - {h};
      newWork := newWork[h := cw];
      newSeen := newSeen + {h};
      newBlocks := newBlocks + [blk];
      assert newBlocks == path[..n + (i + 1)];
    }
    assert path[..n + |segment|] == path;
  }

  lemma NothingRewritten(work: map<Hash, nat>, path: seq<Block>, n: nat, start: nat)
    requires n <= |path|
    ensures Rewritten(work, path[..n], n, start) == work && Above(path[..n], n) == 0
  {
  }

  lemma RewriteStep(work: map<Hash, nat>, path: seq<Block>, n: nat, start: nat, j: nat)
    requires n <= j < |path|
    ensures Above(path[..j + 1], n) == Above(path[..j], n) + path[j].header.difficulty
    ensures Rewritten(work, path[..j + 1], n, start)
            == Rewritten(work, path[..j], n, start)[path[j].Id() := start + Above(path[..j + 1], n)]
  {
    assert path[..j + 1][..j] == path[..j];
  }

  lemma AtHeight(known: map<Hash, Block>, path: seq<Block>, i: nat)
    requires OnTree(known, path) && i < |path|
    ensures path[i].Height() == i
  {
    hide Path;
    assert OnTreeAt(known, path, i);
  }

  lemma IndexAppends(known: map<Hash, Block>, path: seq<Block>, i: nat, index: map<Hash, nat>)
    requires OnTree(known, path) && i < |path| && IndexOk(path[..i], index)
    ensures IndexOk(path[..i + 1], index[path[i].Id() := i])
  {
    hide Path;
    forall j | 0 <= j < i
      ensures path[j].Id() != path[i].Id()
    {
      assert OnTreeAt(known, path, i) && OnTreeAt(known, path, j);
    }
  }

  lemma SideShrinks(known: map<Hash, Block>, path: seq<Block>, i: nat, index: map<Hash, nat>, side: map<Hash, Block>)
    requires i < |path| && SideOk(known, index, side)
    ensures SideOk(known, index[path[i].Id() := i], side - {path[i].Id()})
  {
  }

  /** After demotion the index describes the common prefix. */
  lemma DemotedIndex(blocks: seq<Block>, n: nat, index: map<Hash, nat>, left: map<Hash, nat>)
    requires n <= |blocks| && IndexOk(blocks, index) && IndexGap(index, n, |blocks|, left)
    ensures IndexOk(blocks[..n], left)
  {
  }

  /** After demotion the side store holds everything off the common prefix. */
  lemma DemotedSide(known: map<Hash, Block>, blocks: seq<Block>, n: nat, index: map<Hash, nat>, left: map<Hash, nat>,
                    side: map<Hash, Block>, more: map<Hash, Block>)
    requires n <= |blocks| && OnTree(known, blocks) && IndexOk(blocks, index) && SideOk(known, index, side)
    requires IndexGap(index, n, |blocks|, left) && SideGain(blocks, index, n, |blocks|, side, more)
    ensures SideOk(known, left, more)
  {
    hide Path;
    forall h | h in index
      ensures h in known && known[h] == blocks[index[h]]
    {
      assert OnTreeAt(known, blocks, index[h]);
    }
  }

  // --- The switch ---

  /** Replay a branch on top of its canonical ancestor, checking every root.
      For a known branch this cannot fail. */
  method ReplayBranch(g: ChainState, tip: Hash, segment: seq<Block>, common: nat)
    returns (r: Result<TxExecutionState, ReplayError>)
    requires g.Valid() && tip in g.abs.known && common < |g.blocks|
    requires Path(g.abs.known, tip) == g.blocks[..common + 1] + segment
    ensures r.Success? && fresh(r.value)
    ensures Exec(g.c, Path(g.abs.known, tip)) == Success(r.value.View())
  {
    hide TreeInv, PoolOk, FieldsOk, Path, ExecBlock, Linked, RootAt;
    ghost var path := Path(g.abs.known, tip);
    PathRootsOk(g.c, g.abs, tip);
    var prefix := g.blocks[..common + 1];
    assert path[..common + 1] == prefix && path[0..common + 1] == prefix;
    assert segment == path[common + 1..common + 1 + |segment|];
    assert path[common + 1 - 1] == prefix[common];
    var state := new TxExecutionState(map[], map[]);
    assert path[..0] == [];
    EmptyExec(g.c);
    r := ReplayCheckedOn(g.c, path, prefix, segment, state);
  }

  method ReplayCheckedOn(c: Crypto, ghost path: seq<Block>, prefix: seq<Block>, segment: seq<Block>,
                         state: TxExecutionState)
    returns (r: Result<TxExecutionState, ReplayError>)
    requires Exec(c, path).Success? && RootsOk(c, path) && Linked(path)
    requires |prefix| > 0 && path == prefix + segment
    requires Exec(c, []) == Success(state.View())
    modifies state
    ensures r == Success(state)
    ensures Exec(c, path) == Success(state.View())
  {
    hide Exec, Linked, RootsOk;
    assert path[..0] == [] && path[..|prefix|] == prefix;
    assert prefix == path[0..0 + |prefix|] && segment == path[|prefix|..|prefix| + |segment|];
    var ancestor := ReplayChecked(c, path, 0, prefix, NullHash(), state);
    var branch := ReplayChecked(c, path, |prefix|, segment, prefix[|prefix| - 1].Id(), state);
    assert path[..|prefix| + |segment|] == path;
    return Success(state);
  }

  lemma TracedFork(g: ChainState, tip: Hash, segment: seq<Block>, common: nat)
    requires g.Valid() && tip in g.abs.known && tip !in g.canonIndex && common < |g.blocks|
    requires Path(g.abs.known, tip) == g.blocks[..common + 1] + segment
    requires forall i | 0 <= i < |segment| :: segment[i].Id() !in g.canonIndex
    ensures |segment| > 0 && Fork(g.blocks, Path(g.abs.known, tip)) == common + 1
  {
    hide TreeInv, PoolOk, Path, SideOk, LedgerOk, Fork;
    var path := Path(g.abs.known, tip);
    PathEnd(g.c, g.abs, tip);
    assert g.blocks[common].Id() in g.canonIndex;
    assert path[common] == g.blocks[common];
    assert path[..common + 1] == g.blocks[..common + 1];
    ForkExactly(g.blocks, path, common + 1);
  }

  lemma PathEnd(c: Crypto, s: Node, h: Hash)
    requires Inv(c, s) && h in s.known
    ensures |Path(s.known, h)| > 0 && Path(s.known, h)[|Path(s.known, h)| - 1] == s.known[h] && s.known[h].Id() == h
  {
    TreeOfInv(c, s);
    assert RootedAt(s.known, h);
  }

  /** The canonical fields after a switch to a known branch. The work of the
      branch is counted from what is on record for the common ancestor, or else
      from the difficulties summed up to it. */
  method SwitchFields(g: ChainState, ghost tip: Hash, segment: seq<Block>, common: nat)
    returns (blocks: seq<Block>, index: map<Hash, nat>, side: map<Hash, Block>, work: map<Hash, nat>, seen: set<Hash>)
    requires g.Valid() && tip in g.abs.known && common < |g.blocks|
    requires Path(g.abs.known, tip) == g.blocks[..common + 1] + segment
    requires forall i | 0 <= i < |segment| :: segment[i].Id() in g.seenBlocks
    ensures blocks == Path(g.abs.known, tip)
    ensures IndexOk(blocks, index) && SideOk(g.abs.known, index, side)
    ensures work == Rewritten(g.cumulativeWork, blocks, common + 1, StartingWork(g.cumulativeWork, blocks, common + 1))
    ensures seen == g.seenBlocks
  {
    hide TreeInv, PoolOk, Path, LedgerOk, IndexOk, SideOk, OnTree, IndexGap, SideGain, Work, Rewritten;
    ghost var known, path := g.abs.known, Path(g.abs.known, tip);
    PathOnTree(g.c, g.abs, tip);
    CanonicalOnTree(g.c, g.abs);
    var kept := g.blocks[..common + 1];
    var left, more := DemoteAbove(g.blocks, common + 1, g.canonIndex, g.sideBlocks);
    DemotedIndex(g.blocks, common + 1, g.canonIndex, left);
    DemotedSide(known, g.blocks, common + 1, g.canonIndex, left, g.sideBlocks, more);
    var commonHash := kept[common].Id();
    var base := if commonHash in g.cumulativeWork then g.cumulativeWork[commonHash] else Work(kept);
    assert path[..common + 1] == kept && path[common + 1..] == segment;
    assert path[common] == kept[common];
    blocks, index, side, work, seen :=
      PromoteSegment(known, path, common + 1, segment, kept, left, more, g.cumulativeWork, g.seenBlocks, base);
  }

  lemma CanonicalOnTree(c: Crypto, s: Node)
    requires Inv(c, s) && |Chain(s)| > 0
    ensures OnTree(s.known, Chain(s))
  {
    hide Path, OnTree;
    ChainEnds(c, s);
    PathOnTree(c, s, s.tip);
  }

  /** Put a prepared chain in place. */
  method Commit(g: ChainState, tip: Hash, blocks: seq<Block>, index: map<Hash, nat>, side: map<Hash, Block>,
                work: map<Hash, nat>, seen: set<Hash>, state: TxExecutionState, disk: Disk, ghost after: Node)
    requires g.Valid() && Inv(g.c, after) && blocks == Chain(after)
    requires after == g.abs.(tip := tip, disk := disk, work := work, seen := seen,
                             log := g.abs.log + [Write(disk, tip)])
    requires IndexOk(blocks, index) && SideOk(after.known, index, side)
    requires Exec(g.c, blocks) == Success(state.View())
    modifies g
    ensures g.Valid() && g.snapshots == old(g.snapshots) && g.abs == after
  {
    hide Inv, PoolOk, FieldsOk, Path, Exec, IndexOk, SideOk;
    SwitchedFields(g, blocks, index, side, state.View());
    g.Put(disk, tip);
    g.blocks, g.canonIndex, g.sideBlocks, g.cumulativeWork, g.seenBlocks := blocks, index, side, work, seen;
    g.balances, g.nonces := state.balances, state.nonces;
    g.abs := after;
    assert g.abs == g.Reading(after.known, tip);
    assert FieldsOk(g.c, g.abs.known, g.blocks, g.canonIndex, g.sideBlocks, Ledger(g.balances, g.nonces));
  }

  lemma SwitchedFields(g: ChainState, blocks: seq<Block>, index: map<Hash, nat>, side: map<Hash, Block>, l: Ledger)
    requires g.Valid() && IndexOk(blocks, index) && SideOk(g.abs.known, index, side)
    requires Exec(g.c, blocks) == Success(l)
    ensures FieldsOk(g.c, g.abs.known, blocks, index, side, l)
  {
    hide TreeInv, PoolOk, Path, Exec, IndexOk, SideOk;
  }

  /** What the abstract switch comes to, case by case. */
  lemma ReorganiseIs(c: Crypto, w: World, s: Node, h: Hash, n: nat)
    requires h in s.known && |Chain(s)| > 0 && Fork(Chain(s), Path(s.known, h)) == n
    ensures !w.dbOk(s.ticks) ==> Reorganise(c, w, s, h) == (Tick(s), SideOnly)
    ensures w.dbOk(s.ticks) ==> Reorganise(c, w, s, h) == (MoveTo(c, s, h), Extended)
    ensures var path := Path(s.known, h);
            var winning := IdSet(c, Bodies(path[n..]));
            var disk := PersistReorg(s.disk, path, |Chain(s)| - 1);
            MoveTo(c, s, h) ==
            Tick(s).(tip := h,
                     pending := Some(Recovery(Without(c, Bodies(Chain(s)[n..]), winning), winning)),
                     disk := disk,
                     work := Rewritten(s.work, path, n, StartingWork(s.work, path, n)),
                     log := s.log + [Write(disk, h)])
  {
    hide Path, Fork, PersistReorg, Bodies, IdSet, Without, Rewritten, StartingWork;
  }

  lemma OffIndexLeaves(g: ChainState, h: Hash)
    requires g.Valid() && h in g.abs.known && h !in g.canonIndex
    ensures Leaves(g.abs, h)
  {
    hide TreeInv, PoolOk, Path, SideOk, LedgerOk, TableOk;
  }

  lemma BranchSeen(g: ChainState, tip: Hash, segment: seq<Block>, common: nat)
    requires g.Valid() && tip in g.abs.known && common < |g.blocks|
    requires Path(g.abs.known, tip) == g.blocks[..common + 1] + segment
    requires forall i | 0 <= i < |segment| :: segment[i].Id() !in g.canonIndex
    ensures forall i | 0 <= i < |segment| :: segment[i].Id() in g.seenBlocks
  {
    hide PoolOk, Path, SideOk, LedgerOk, TableOk, Judged, Rooted;
    TreeOfInv(g.c, g.abs);
    ChainLinked(g.c, g.abs);
    assert g.blocks[0].Id() in g.canonIndex;
    forall i | 0 <= i < |segment|
      ensures segment[i].Id() in g.seenBlocks
    {
      var j: nat := common + 1 + i;
      assert Path(g.abs.known, tip)[j] == segment[i];
      PathKnown(g.abs.known, tip, j);
    }
  }

  /** Everything a switch will install, worked out before anything changes. */
  method Prepare(g: ChainState, tip: Hash)
    returns (segment: seq<Block>, common: nat, state: TxExecutionState,
             blocks: seq<Block>, index: map<Hash, nat>, side: map<Hash, Block>, work: map<Hash, nat>, seen: set<Hash>)
    requires g.Valid() && tip in g.abs.known && tip !in g.canonIndex
    ensures common < |g.blocks| && Fork(g.blocks, Path(g.abs.known, tip)) == common + 1
    ensures Path(g.abs.known, tip) == g.blocks[..common + 1] + segment
    ensures fresh(state) && Exec(g.c, Path(g.abs.known, tip)) == Success(state.View())
    ensures blocks == Path(g.abs.known, tip)
    ensures IndexOk(blocks, index) && SideOk(g.abs.known, index, side)
    ensures work == Rewritten(g.cumulativeWork, blocks, common + 1, StartingWork(g.cumulativeWork, blocks, common + 1))
    ensures seen == g.seenBlocks
  {
    hide *;
    var traced := TraceToCanonical(g, tip);
    segment, common := traced.value.0, traced.value.1;
    TracedFork(g, tip, segment, common);
    BranchSeen(g, tip, segment, common);
    var replayed := ReplayBranch(g, tip, segment, common);
    state := replayed.value;
    blocks, index, side, work, seen := SwitchFields(g, tip, segment, common);
  }

  /** Switch to the branch ending in a known side block. Tracing its ancestry
      and replaying it never abort, so the switch is refused only by a failing
      write, and then nothing has changed. The note of displaced transactions
      is returned rather than stored. */
  method TryReorg(g: ChainState, newTip: Block) returns (r: Option<Recovery>)
    requires g.Valid() && newTip.Id() in g.abs.known && newTip.Id() !in g.canonIndex
    modifies g
    ensures g.Valid() && g.snapshots == old(g.snapshots)
    ensures var (n, how) := Reorganise(g.c, g.w, old(g.abs), newTip.Id());
            g.abs == n.(pending := old(g.abs.pending)) && r == if how == Extended then n.pending else None
    ensures g.seenBlocks == old(g.seenBlocks)
    ensures r.None? ==>
              && g.blocks == old(g.blocks) && g.canonIndex == old(g.canonIndex) && g.sideBlocks == old(g.sideBlocks)
              && g.balances == old(g.balances) && g.nonces == old(g.nonces) && g.disk == old(g.disk)
              && g.cumulativeWork == old(g.cumulativeWork)
  {
    hide TreeInv, PoolOk, FieldsOk, Path, Exec, Fork, PersistReorg, Bodies, IdSet, Without, Reorganise,
      Linked, IndexOk, SideOk, Inv, MoveTo, Rewritten, StartingWork, Leaves;
    var tip := newTip.Id();
    ghost var s := g.abs;
    var segment, common, state, blocks, index, side, work, seen := Prepare(g, tip);
    var winning := IdSet(g.c, Bodies(segment));
    var displaced := Without(g.c, Bodies(g.blocks[common + 1..]), winning);
    assert blocks[common + 1..] == segment;
    ReorganiseIs(g.c, g.w, s, tip, common + 1);
    OffIndexLeaves(g, tip);
    SwitchedNode(g.c, s, tip);
    var previousTip := g.CurrentHeight();
    var written := g.ChainWrite();
    if !written {
      return None;
    }
    Commit(g, tip, blocks, index, side, work, seen, state, PersistReorg(g.disk, blocks, previousTip),
           MoveTo(g.c, s, tip).(pending := s.pending));
    return Some(Recovery(displaced, winning));
  }

  lemma SwitchedNode(c: Crypto, s: Node, tip: Hash)
    requires Inv(c, s) && Leaves(s, tip)
    ensures var t := MoveTo(c, s, tip).(pending := s.pending);
            Inv(c, t) && Chain(t) == Path(s.known, tip)
  {
    hide TreeInv, Path, MoveTo, OnPath, Exact, Offset, Mixed;
    MoveInv(c, s, tip);
    SameTable(MoveTo(c, s, tip), MoveTo(c, s, tip).(pending := s.pending));
  }
}
