/** Block acceptance on the in-memory state: the eight stages, the orphan pool,
    snapshots of the new tip, and the promotion of waiting blocks. Each step is
    proved to do what the abstract machine of Consensus.dfy does.
 */
module Accept {
  import opened Base
  import opened Ledgers
  import opened StateRoots
  import opened Difficulty
  import opened BlockTree
  import opened Validity
  import opened ChainDisk
  import opened Works
  import opened Consensus
  import opened Tables
  import opened Invariants
  import opened Economy
  import opened ChainStates
  import opened Replay
  import opened Reorg

  // --- Stages 4 to 6 ---

  method HasDistinctIds(c: Crypto, txs: seq<Tx>) returns (ok: bool)
    ensures ok <==> DistinctIds(c, txs)
  {
    var seen: set<string> := {};
    for i := 0 to |txs|
      invariant DistinctIds(c, txs[..i])
      invariant forall j | 0 <= j < i :: c.txId(txs[j]) in seen
      invariant forall id | id in seen :: exists j :: 0 <= j < i && c.txId(txs[j]) == id
    {
      var id := c.txId(txs[i]);
      if id in seen {
        return false;
      }
      seen := seen + {id};
    }
    return true;
  }

  /** Everything about a block but its execution, against its own ancestry. */
  method CheckHeader(g: ChainState, b: Block) returns (e: Option<Reason>)
    requires b.Height() > 0 && |b.txs| > 0
    ensures e == HeaderErrorOn(g.c, WalkBack(g.blocks, g.canonIndex, g.sideBlocks, b.Parent(), RETARGET_WINDOW + 1), b)
    ensures g.Valid() && b.Parent() in g.abs.known ==> e == HeaderError(g.c, Path(g.abs.known, b.Parent()), b)
  {
    hide Inv, PoolOk, FieldsOk, Path, Ancestors, WalkBack, NextDifficulty, PowError, DistinctIds, BigEndian;
    var window := CollectAncestorWindow(g, b.Parent());
    var expected := CalculateNextDifficulty(window, b.header.timestamp);
    if b.header.difficulty < DIFFICULTY_FLOOR {
      return Some(DifficultyBelowFloor);
    }
    if b.header.difficulty != expected {
      return Some(DifficultyMismatch);
    }
    var pow := PowError(g.c, b);
    if pow.Some? {
      return pow;
    }
    if |b.txs[0].args| != 8 {
      return Some(CoinbaseArgsLength);
    }
    if BigEndian(b.txs[0].args) != b.Height() {
      return Some(CoinbaseHeightMismatch);
    }
    var distinct := HasDistinctIds(g.c, b.txs);
    if !distinct {
      return Some(DuplicateTx);
    }
    return None;
  }

  method SettleInPlace(c: Crypto, b: Block, state: TxExecutionState) returns (r: Result<TxExecutionState, Reason>)
    modifies state
    ensures match Settle(c, old(state.View()), b)
            case Success(after) => r == Success(state) && state.View() == after
            case Failure(e) => r == Failure(e)
  {
    hide ExecBlock, Root;
    var executed := state.ExecuteBlock(c, b);
    match executed {
      case Failure(e) => return Failure(ExecutionFailed(e));
      case Success(_) =>
    }
    var root := ComputeStateRoot(c, Ledger(state.balances, state.nonces));
    if root.Failure? {
      return Failure(StateRootFailed);
    }
    if b.header.stateRoot != root.value {
      return Failure(StateRootMismatch);
    }
    return Success(state);
  }

  /** Execute a block on its parent's ledger: the node's own balances at the
      tip, a replay from genesis elsewhere. Both read like the execution of the
      parent's path. */
  method ExecuteOnParent(g: ChainState, b: Block) returns (r: Result<TxExecutionState, Reason>)
    requires g.Valid() && b.Parent() in g.abs.known
    ensures r.Success? ==> fresh(r.value)
    ensures Exec(g.c, Path(g.abs.known, b.Parent())).Success?
    ensures match Settle(g.c, Exec(g.c, Path(g.abs.known, b.Parent())).value, b)
            case Success(after) => r.Success? && Same(r.value.View(), after)
            case Failure(e) => r == Failure(e)
  {
    hide TreeInv, PoolOk, Path, Exec, Settle, Same, IndexOk, SideOk;
    KnownExecutes(g.c, g.abs, b.Parent());
    ghost var base := Exec(g.c, Path(g.abs.known, b.Parent())).value;
    var tip := g.TipHash();
    var state: TxExecutionState;
    if b.Parent() == tip {
      state := new TxExecutionState(g.balances, g.nonces);
    } else {
      var rebuilt := ReconstructParentState(g, b.Parent());
      state := rebuilt.value;
      SameSelf(base);
    }
    SettleCongruent(g.c, state.View(), base, b);
    r := SettleInPlace(g.c, b, state);
  }

  lemma SameSelf(l: Ledger)
    ensures Same(l, l)
  {
  }

  // --- Snapshots ---

  /** The first n of the four writes of a snapshot. */
  function SnapshotWrites(s: Snapshots, height: nat, tip: Hash, l: Ledger, root: string, n: nat): Snapshots {
    var first := if n < 1 then s else s.(balances := s.balances[height := l.balances]);
    var second := if n < 2 then first else first.(nonces := s.nonces[height := l.nonces]);
    var third := if n < 3 then second else second.(metadata := s.metadata[height := (height, tip)]);
    if n < 4 then third else third.(roots := s.roots[height := root])
  }

  /** How many of the writes succeed before the first failure. */
  function WritesTaken(w: World, at: nat): (n: nat)
    ensures n <= 4
  {
    if !w.snapshotOk(at, 0) then 0
    else if !w.snapshotOk(at, 1) then 1
    else if !w.snapshotOk(at, 2) then 2
    else if !w.snapshotOk(at, 3) then 3
    else 4
  }

  ghost predicate SmallMaps(m: map<nat, map<Address, nat>>) {
    forall h | h in m :: |NonZero(m[h])| < U64_LIMIT
  }

  /** Snapshot records that fit in memory, none of them at height 0. */
  ghost predicate SmallSnapshots(sn: Snapshots) {
    0 !in sn.metadata && SmallMaps(sn.balances) && SmallMaps(sn.nonces)
  }

  /** No known block is past the last halving. */
  ghost predicate Young(known: map<Hash, Block>) {
    forall h | h in known :: known[h].Height() < 128 * HALVING_INTERVAL
  }

  /** What acceptance does to the snapshot records, up to a moment at which these
      blocks are known. */
  ghost predicate KeepsSnapshots(known: map<Hash, Block>, before: Snapshots, after: Snapshots) {
    Young(known) && SmallSnapshots(before) ==> SmallSnapshots(after)
  }

  lemma KeepsSnapshotsOn(known: map<Hash, Block>, later: map<Hash, Block>, a: Snapshots, b: Snapshots, d: Snapshots)
    requires KeepsSnapshots(known, a, b) && KeepsSnapshots(later, b, d) && Grows(known, later)
    ensures KeepsSnapshots(later, a, d)
  {
    hide SmallSnapshots;
  }

  lemma SavedSmall(sn: Snapshots, height: nat, tip: Hash, l: Ledger, root: string, n: nat)
    requires SmallSnapshots(sn) && height > 0 && Fits(l)
    ensures SmallSnapshots(SnapshotWrites(sn, height, tip, l, root, n))
  {
    hide NonZero, SmallMaps;
    SmallWith(sn.balances, height, l.balances);
    SmallWith(sn.nonces, height, l.nonces);
  }

  lemma SmallWith(m: map<nat, map<Address, nat>>, height: nat, x: map<Address, nat>)
    requires SmallMaps(m) && |NonZero(x)| < U64_LIMIT
    ensures SmallMaps(m[height := x])
  {
    hide NonZero;
  }

  /** Before the last halving, the canonical chain's own account state fits. */
  lemma OwnLedgerFits(g: ChainState)
    requires g.Valid() && Young(g.abs.known) && |g.blocks| > 0
    ensures Fits(Ledger(g.balances, g.nonces))
  {
    hide Path, PoolOk, IndexOk, SideOk, Judged, Rooted, TableOk, NonZero, Exec;
    ChainEnds(g.c, g.abs);
    ChainLinked(g.c, g.abs);
    ChainKnown(g.c, g.abs, |g.blocks| - 1);
    ChainFits(g.c, g.blocks);
  }

  /** Snapshot the tip at every thirty-second height. A failed write leaves the
      earlier ones in place; nothing in memory changes. */
  method MaybeSaveSnapshot(g: ChainState)
    modifies g`snapshots
    ensures var height := if |g.blocks| == 0 then 0 else g.blocks[|g.blocks| - 1].Height();
            var tip := if |g.blocks| == 0 then NullHash() else g.blocks[|g.blocks| - 1].Id();
            var l := Ledger(g.balances, g.nonces);
            g.snapshots ==
            if height == 0 || height % SNAPSHOT_EVERY != 0 || Root(g.c, l).Failure? then old(g.snapshots)
            else
              SnapshotWrites(old(g.snapshots), height, tip, l, Root(g.c, l).value, WritesTaken(g.w, g.ticks))
    ensures g.Valid() ==> KeepsSnapshots(g.abs.known, old(g.snapshots), g.snapshots)
  {
    hide TreeInv, TableOk, PoolOk, FieldsOk, Path, Root, SmallSnapshots, Young, Fits, SnapshotWrites;
    var height := g.CurrentHeight();
    if height == 0 || height % SNAPSHOT_EVERY != 0 {
      return;
    }
    var tip := g.TipHash();
    var root := ComputeStateRoot(g.c, Ledger(g.balances, g.nonces));
    if root.Failure? {
      return;
    }
    if g.Valid() && Young(g.abs.known) && SmallSnapshots(g.snapshots) {
      OwnLedgerFits(g);
      SavedSmall(g.snapshots, height, tip, Ledger(g.balances, g.nonces), root.value, WritesTaken(g.w, g.ticks));
    }
    SaveSnapshot(g, height, tip, root.value);
  }

  /** The four writes of a snapshot, up to the first that fails. */
  method SaveSnapshot(g: ChainState, height: nat, tip: Hash, root: string)
    modifies g`snapshots
    ensures g.snapshots ==
            SnapshotWrites(old(g.snapshots), height, tip, Ledger(g.balances, g.nonces), root, WritesTaken(g.w, g.ticks))
  {
    if !g.w.snapshotOk(g.ticks, 0) {
      return;
    }
    g.snapshots := g.snapshots.(balances := g.snapshots.balances[height := g.balances]);
    if !g.w.snapshotOk(g.ticks, 1) {
      return;
    }
    g.snapshots := g.snapshots.(nonces := g.snapshots.nonces[height := g.nonces]);
    if !g.w.snapshotOk(g.ticks, 2) {
      return;
    }
    g.snapshots := g.snapshots.(metadata := g.snapshots.metadata[height := (height, tip)]);
    if !g.w.snapshotOk(g.ticks, 3) {
      return;
    }
    g.snapshots := g.snapshots.(roots := g.snapshots.roots[height := root]);
  }

  // --- Stages 7 and 8 ---

  /** Block i is numbered i. */
  ghost predicate Positioned(blocks: seq<Block>) {
    forall i | 0 <= i < |blocks| :: blocks[i].Height() == i
  }

  /** Every hash the index knows resolves to the block that has it. */
  ghost predicate AllResolve(blocks: seq<Block>, index: map<Hash, nat>, side: map<Hash, Block>) {
    forall h | h in index ::
      ResolveBlock(blocks, index, side, h).Some? && ResolveBlock(blocks, index, side, h).value.Id() == h
  }

  /** Positions, and with them what the index resolves to, stay right exactly
      when the block is numbered by the position it takes. Numbered higher, its
      own hash is in the index and yet resolves to nothing. */
  lemma PushedExactly(blocks: seq<Block>, index: map<Hash, nat>, side: map<Hash, Block>, b: Block)
    requires IndexOk(blocks, index) && Positioned(blocks) && Unplaced(index, b)
    ensures var more, later := blocks + [b], index[b.Id() := b.Height()];
            && (Positioned(more) <==> b.Height() == |blocks|)
            && (AllResolve(more, later, side) <==> b.Height() == |blocks|)
            && (IndexOk(more, later) <==> b.Height() == |blocks| && b.Id() !in index)
            && (ResolveBlock(more, later, side, b.Id()) == Some(b) <==> b.Height() == |blocks|)
            && (ResolveBlock(more, later, side, b.Id()) == None <==> b.Height() > |blocks|)
  {
    hide IndexOk, AllResolve;
    var more, later := blocks + [b], index[b.Id() := b.Height()];
    assert more[|blocks|] == b;
    PushedIndex(blocks, index, side, b);
    if b.Height() < |blocks| {
      assert more[b.Height()] == blocks[b.Height()];
      LowerNumbered(blocks, index, b);
    }
  }

  /** The block's hash is not in the index, or not at the height it claims. */
  ghost predicate Unplaced(index: map<Hash, nat>, b: Block) {
    b.Id() in index ==> index[b.Id()] != b.Height()
  }

  lemma LowerNumbered(blocks: seq<Block>, index: map<Hash, nat>, b: Block)
    requires IndexOk(blocks, index) && b.Height() < |blocks| && Unplaced(index, b)
    ensures blocks[b.Height()].Id() != b.Id()
  {
  }

  lemma PushedIndex(blocks: seq<Block>, index: map<Hash, nat>, side: map<Hash, Block>, b: Block)
    requires IndexOk(blocks, index) && Unplaced(index, b)
    ensures var more, later := blocks + [b], index[b.Id() := b.Height()];
            && (AllResolve(more, later, side) <==> b.Height() == |blocks|)
            && (IndexOk(more, later) <==> b.Height() == |blocks| && b.Id() !in index)
  {
    var more, later := blocks + [b], index[b.Id() := b.Height()];
    assert more[|blocks|] == b && b.Id() in later;
    if b.Id() in index {
      assert more[index[b.Id()]] == blocks[index[b.Id()]];
    }
    if b.Height() < |blocks| {
      assert more[b.Height()] == blocks[b.Height()];
    } else if b.Height() == |blocks| {
      forall h | h in later
        ensures ResolveBlock(more, later, side, h).Some? && ResolveBlock(more, later, side, h).value.Id() == h
      {
        if h != b.Id() {
          assert more[index[h]] == blocks[index[h]];
        }
      }
    }
  }

  /** Record a block as the next canonical one. Nothing here compares its height
      with the position it takes; the fields stay right exactly when they agree. */
  method PushCanonical(g: ChainState, b: Block, cw: nat)
    modifies g`pendingReorgRecovery, g`cumulativeWork, g`seenBlocks, g`canonIndex, g`blocks
    ensures g.blocks == old(g.blocks) + [b] && g.canonIndex == old(g.canonIndex)[b.Id() := b.Height()]
    ensures g.cumulativeWork == old(g.cumulativeWork)[b.Id() := cw] && g.seenBlocks == old(g.seenBlocks) + {b.Id()}
    ensures g.pendingReorgRecovery == None
    ensures IndexOk(old(g.blocks), old(g.canonIndex)) && Positioned(old(g.blocks)) && Unplaced(old(g.canonIndex), b) ==>
              && (Positioned(g.blocks) <==> b.Height() == |old(g.blocks)|)
              && (AllResolve(g.blocks, g.canonIndex, g.sideBlocks) <==> b.Height() == |old(g.blocks)|)
  {
    hide IndexOk, Positioned, AllResolve, Unplaced;
    if IndexOk(g.blocks, g.canonIndex) && Positioned(g.blocks) && Unplaced(g.canonIndex, b) {
      PushedExactly(g.blocks, g.canonIndex, g.sideBlocks, b);
    }
    var h := b.Id();
    g.pendingReorgRecovery := None;
    g.cumulativeWork := g.cumulativeWork[h := cw];
    g.seenBlocks := g.seenBlocks + {h};
    g.canonIndex := g.canonIndex[h := b.Height()];
    g.blocks := g.blocks + [b];
  }

  /** The fields after appending a child of the tip still agree with the tree. */
  lemma AppendedFields(g: ChainState, b: Block, l: Ledger)
    requires g.Valid() && Fit(g.c, g.abs.known, b) && b.Parent() == g.abs.tip
    requires LedgerOk(g.c, g.blocks + [b], l)
    ensures FieldsOk(g.c, g.abs.known[b.Id() := b], g.blocks + [b], g.canonIndex[b.Id() := b.Height()], g.sideBlocks, l)
  {
    hide TreeInv, TableOk, PoolOk, Path, LedgerOk, ValidOn, Proper, IndexOk, SideOk;
    TreeOfInv(g.c, g.abs);
    ChildHeight(g.c, g.abs.known, b);
    TipHeight(g);
    IndexKnown(g);
    AppendedIndex(g.abs.known, g.blocks, g.canonIndex, g.sideBlocks, b);
  }

  lemma TipHeight(g: ChainState)
    requires g.Valid() && g.abs.tip in g.abs.known
    ensures |g.blocks| == g.abs.known[g.abs.tip].Height() + 1
  {
    hide PoolOk, FieldsOk, Path, TreeInv, TableOk;
    TreeOfInv(g.c, g.abs);
    PathLinked(g.abs.known, g.abs.tip);
  }

  lemma AppendedIndex(known: map<Hash, Block>, blocks: seq<Block>, index: map<Hash, nat>, side: map<Hash, Block>,
                      b: Block)
    requires IndexOk(blocks, index) && SideOk(known, index, side) && b.Id() !in known && b.Height() == |blocks|
    requires forall h | h in index :: h in known
    ensures IndexOk(blocks + [b], index[b.Id() := b.Height()])
    ensures SideOk(known[b.Id() := b], index[b.Id() := b.Height()], side)
  {
  }

  /** Canonical hashes are known. */
  lemma IndexKnown(g: ChainState)
    requires g.Valid()
    ensures forall h | h in g.canonIndex :: h in g.abs.known
  {
    hide TreeInv, TableOk, PoolOk, Path, LedgerOk, SideOk;
    forall h | h in g.canonIndex
      ensures h in g.abs.known
    {
      ChainKnown(g.c, g.abs, g.canonIndex[h]);
    }
  }

  /** Lane A: the block extends the tip. If the database refuses it nothing has
      changed. Otherwise it is pushed, whatever its number; a block fit for its
      place leaves the fields in agreement with the extended node. */
  method ExtendTip(g: ChainState, b: Block, cw: nat, state: TxExecutionState) returns (written: bool)
    requires g.Valid() && b.Parent() == g.abs.tip
    requires cw == Recorded(g.abs.work, b.Parent()) + b.header.difficulty
    requires Fit(g.c, g.abs.known, b) ==> LedgerOk(g.c, g.blocks + [b], state.View())
    modifies g
    ensures written == g.w.dbOk(old(g.ticks))
    ensures !written ==> g.Valid() && g.abs == Tick(old(g.abs)) && g.snapshots == old(g.snapshots)
    ensures written ==>
              && g.blocks == old(g.blocks) + [b] && g.canonIndex == old(g.canonIndex)[b.Id() := b.Height()]
              && g.sideBlocks == old(g.sideBlocks) && g.seenBlocks == old(g.seenBlocks) + {b.Id()}
    ensures g.disk == (if written then PersistExtension(old(g.disk), b) else old(g.disk))
    ensures g.orphanPool == old(g.orphanPool) && g.orphanByHash == old(g.orphanByHash) && g.ticks == old(g.ticks) + 1
    ensures written ==> Ledger(g.balances, g.nonces) == old(state.View())
    ensures written && Fit(g.c, old(g.abs.known), b) ==>
              g.Valid() && g.abs == ExtendBy(old(g.abs), b)
              && KeepsSnapshots(g.abs.known, old(g.snapshots), g.snapshots)
  {
    hide Inv, PoolOk, FieldsOk, Path, LedgerOk, Fit, ExtendBy, Recorded, KeepsSnapshots, Root, SnapshotWrites,
      PersistExtension;
    ghost var s := g.abs;
    if Fit(g.c, s.known, b) {
      ExtendInv(g.c, s, b);
      AppendedFields(g, b, state.View());
    }
    written := g.ChainWrite();
    if !written {
      return;
    }
    PutOnTip(g, b, cw, state, s);
    assert Fit(g.c, s.known, b) ==> g.Valid();
    MaybeSaveSnapshot(g);
  }

  /** The writes of lane A, once the database has granted them. */
  method PutOnTip(g: ChainState, b: Block, cw: nat, state: TxExecutionState, ghost s: Node)
    requires g.Valid() && g.abs == Tick(s) && cw == Recorded(s.work, b.Parent()) + b.header.difficulty
    requires Fit(g.c, s.known, b) ==>
               && Inv(g.c, ExtendBy(s, b)) && Chain(ExtendBy(s, b)) == g.blocks + [b]
               && FieldsOk(g.c, s.known[b.Id() := b], g.blocks + [b], g.canonIndex[b.Id() := b.Height()], g.sideBlocks,
                           state.View())
    modifies g
    ensures g.blocks == old(g.blocks) + [b] && g.canonIndex == old(g.canonIndex)[b.Id() := b.Height()]
    ensures g.sideBlocks == old(g.sideBlocks) && g.snapshots == old(g.snapshots)
    ensures g.disk == PersistExtension(old(g.disk), b) && g.seenBlocks == old(g.seenBlocks) + {b.Id()}
    ensures g.orphanPool == old(g.orphanPool) && g.orphanByHash == old(g.orphanByHash) && g.ticks == old(g.ticks)
    ensures Ledger(g.balances, g.nonces) == old(state.View())
    ensures Fit(g.c, s.known, b) ==> g.Valid() && g.abs == ExtendBy(s, b)
  {
    hide Inv, PoolOk, FieldsOk, Path, Fit, PersistExtension, Recorded;
    PushOnTip(g, b, cw, state);
    g.abs := ExtendBy(s, b);
    assert g.abs == g.Reading(s.known[b.Id() := b], b.Id());
  }

  /** The field updates of lane A. */
  method PushOnTip(g: ChainState, b: Block, cw: nat, state: TxExecutionState)
    modifies g`disk, g`writes, g`balances, g`nonces
    modifies g`pendingReorgRecovery, g`cumulativeWork, g`seenBlocks, g`canonIndex, g`blocks
    ensures g.disk == PersistExtension(old(g.disk), b) && g.writes == old(g.writes) + [Write(g.disk, b.Id())]
    ensures Ledger(g.balances, g.nonces) == old(state.View())
    ensures g.blocks == old(g.blocks) + [b] && g.canonIndex == old(g.canonIndex)[b.Id() := b.Height()]
    ensures g.cumulativeWork == old(g.cumulativeWork)[b.Id() := cw] && g.seenBlocks == old(g.seenBlocks) + {b.Id()}
    ensures g.pendingReorgRecovery == None
  {
    hide PersistExtension, IndexOk, Positioned, AllResolve;
    g.Put(PersistExtension(g.disk, b), b.Id());
    g.balances, g.nonces := state.balances, state.nonces;
    PushCanonical(g, b, cw);
  }

  /** Lane B: store the block on the side, then switch to it if its branch has
      strictly more work on record than the tip. */
  method PlaceOnSide(g: ChainState, b: Block, cw: nat, tipWork: nat) returns (how: Placement)
    requires g.Valid() && Fit(g.c, g.abs.known, b) && b.Parent() != g.abs.tip
    requires cw == Recorded(g.abs.work, b.Parent()) + b.header.difficulty && tipWork == Recorded(g.abs.work, g.abs.tip)
    modifies g
    ensures g.Valid() && g.snapshots == old(g.snapshots)
    ensures (g.abs, how) == Integrate(g.c, g.w, old(g.abs), b)
  {
    hide TreeInv, TableOk, PoolOk, FieldsOk, Path, Fit, Reorganise, Recorded, StoreAside;
    ghost var s := g.abs;
    var written := g.ChainWrite();
    if !written {
      return Refused;
    }
    StoreOnSide(g, b, cw, s);
    if cw > tipWork {
      ReorganiseKinds(g.c, g.w, g.abs, b.Id());
      var recovery := TryReorg(g, b);
      if recovery.Some? {
        NoteRecovery(g, recovery);
        return Extended;
      }
    }
    return SideOnly;
  }

  lemma ReorganiseKinds(c: Crypto, w: World, s: Node, h: Hash)
    requires h in s.known
    ensures var (n, how) := Reorganise(c, w, s, h);
            if how == Extended then n.pending.Some? else how == SideOnly && n.pending == s.pending
  {
    hide Path, Fork, PersistReorg, RecoveryFor;
  }

  method NoteRecovery(g: ChainState, recovery: Option<Recovery>)
    requires g.Valid()
    modifies g`pendingReorgRecovery, g`abs
    ensures g.Valid() && g.abs == old(g.abs).(pending := recovery)
  {
    hide TreeInv, Exact, Offset, Mixed, PoolOk, FieldsOk, Path;
    SameTable(g.abs, g.abs.(pending := recovery));
    g.pendingReorgRecovery := recovery;
    g.abs := g.abs.(pending := recovery);
  }

  /** Put a block into the side store, with its work on record; the write was
      granted already. */
  method StoreOnSide(g: ChainState, b: Block, cw: nat, ghost s: Node)
    requires g.Valid() && g.abs == Tick(s) && Inv(g.c, s) && b.Parent() != g.abs.tip
    requires Fit(g.c, s.known, b) && cw == Recorded(s.work, b.Parent()) + b.header.difficulty
    modifies g
    ensures g.Valid() && g.snapshots == old(g.snapshots) && g.canonIndex == old(g.canonIndex)
    ensures b.Id() !in g.canonIndex && b.Id() in g.abs.known
    ensures g.abs == StoreAside(s, b)
  {
    hide Inv, PoolOk, FieldsOk, Path, Fit, Recorded, StoreBlock;
    var h := b.Id();
    SideAdded(g, b);
    StoreInv(g.c, s, b);
    g.Put(StoreBlock(g.disk, b), g.abs.tip);
    g.cumulativeWork := g.cumulativeWork[h := cw];
    g.seenBlocks := g.seenBlocks + {h};
    g.sideBlocks := g.sideBlocks[h := b];
    g.abs := StoreAside(s, b);
    assert g.abs == g.Reading(s.known[h := b], s.tip);
  }

  lemma SideAdded(g: ChainState, b: Block)
    requires g.Valid() && Fit(g.c, g.abs.known, b) && b.Parent() != g.abs.tip
    ensures FieldsOk(g.c, g.abs.known[b.Id() := b], g.blocks, g.canonIndex, g.sideBlocks[b.Id() := b],
                     Ledger(g.balances, g.nonces))
    ensures b.Id() !in g.canonIndex
  {
    hide PoolOk, Path, ValidOn, Proper, TreeInv, TableOk, LedgerOk, IndexOk;
    IndexKnown(g);
  }
}
