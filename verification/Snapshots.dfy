/** Account snapshots on disk: which of them a restart accepts, and why an
    accepted one can be trusted.
 */
module SnapshotChecks {
  import opened Base
  import opened Ledgers
  import opened StateRoots
  import opened BlockTree
  import opened ChainDisk
  import opened Consensus
  import opened Invariants
  import opened Economy
  import opened ChainStates
  import opened Reorg
  import opened Accept

  datatype SnapshotError =
    | MissingMetadata
    | MetadataHeightMismatch
    | MissingHeightIndex
    | HashMismatch
    | MissingBlock
    | InvalidState
    | StoredRootMismatch
    | BlockRootMismatch

  /** The stored account state at a height, zero entries dropped. */
  function Stored(sn: Snapshots, height: nat): Ledger {
    Norm(Ledger(if height in sn.balances then sn.balances[height] else map[],
                if height in sn.nonces then sn.nonces[height] else map[]))
  }

  /** The account state a snapshot restores, or why it is rejected. */
  function SnapshotAt(c: Crypto, d: Disk, sn: Snapshots, height: nat): Result<Ledger, SnapshotError> {
    if height !in sn.metadata then Failure(MissingMetadata)
    else
      var (metadataHeight, hash) := sn.metadata[height];
      if metadataHeight != height then Failure(MetadataHeightMismatch)
      else if height !in d.heights then Failure(MissingHeightIndex)
      else if hash != d.heights[height] then Failure(HashMismatch)
      else if d.heights[height] !in d.blocks then Failure(MissingBlock)
      else
        var claimed := d.blocks[d.heights[height]].header.stateRoot;
        var l := Stored(sn, height);
        match Root(c, l)
        case Failure(_) => Failure(InvalidState)
        case Success(root) =>
          if height in sn.roots && sn.roots[height] != root then Failure(StoredRootMismatch)
          else if claimed != root && !(height == 0 && claimed == NullHash()) then Failure(BlockRootMismatch)
          else Success(l)
  }

  /** What a snapshot has to be to restore an account state: recorded for its own
      height and for the block stored there, of well-formed accounts, with the root
      on record, if there is one, and with the root that the block claims, unless it
      is at height 0 and claims none. What it restores reads as what is recorded. */
  lemma SnapshotExactly(c: Crypto, d: Disk, sn: Snapshots, height: nat, l: Ledger)
    ensures SnapshotAt(c, d, sn, height) == Success(l) <==>
            && height in sn.metadata && height in d.heights && sn.metadata[height] == (height, d.heights[height])
            && d.heights[height] in d.blocks
            && l == Stored(sn, height) && Root(c, l).Success?
            && (height in sn.roots ==> sn.roots[height] == Root(c, l).value)
            && var claimed := d.blocks[d.heights[height]].header.stateRoot;
               claimed == Root(c, l).value || (height == 0 && |claimed| == 64 && AllZeros(claimed))
    ensures forall a :: Stored(sn, height).BalanceOf(a)
                        == if height in sn.balances && a in sn.balances[height] then sn.balances[height][a] else 0
    ensures forall a :: Stored(sn, height).NonceOf(a)
                        == if height in sn.nonces && a in sn.nonces[height] then sn.nonces[height][a] else 0
  {
    hide Root;
    if height in d.heights && d.heights[height] in d.blocks {
      var claimed := d.blocks[d.heights[height]].header.stateRoot;
      assert |claimed| == 64 && AllZeros(claimed) ==> claimed == NullHash();
    }
  }

  // --- Soundness ---

  /** The state hash has no collisions. */
  ghost predicate NoCollisions(c: Crypto) {
    forall u, v :: c.stateHash(u) == c.stateHash(v) ==> u == v
  }

  /** Two account states with the same root are the same up to zero entries. */
  lemma RootInjective(c: Crypto, l: Ledger, k: Ledger)
    requires NoCollisions(c) && KeysOk(l) && Fits(l) && Fits(k)
    requires Root(c, l).Success? && Root(c, l) == Root(c, Norm(k))
    ensures Same(l, k)
  {
    hide Vector, Fits, Norm;
    RootTotal(c, Norm(k));
    NormTwice(k);
    VectorInjective(l, Norm(k));
  }

  lemma NormTwice(l: Ledger)
    ensures Norm(Norm(l)) == Norm(l)
    ensures Fits(l) ==> Fits(Norm(l))
  {
    assert NonZero(NonZero(l.balances)) == NonZero(l.balances);
    assert NonZero(NonZero(l.nonces)) == NonZero(l.nonces);
  }

  /** An accepted snapshot above genesis is on the canonical chain and restores
      exactly what executing that chain from genesis yields, whatever else the
      snapshot records hold. */
  lemma SnapshotSound(c: Crypto, s: Node, sn: Snapshots, height: nat)
    requires Inv(c, s) && s.known != map[] && DiskOk(s)
    requires NoCollisions(c) && height > 0 && SnapshotAt(c, s.disk, sn, height).Success?
    requires height < 128 * HALVING_INTERVAL && Fits(Stored(sn, height)) && (Tidy(s) || height < |Chain(s)|)
    ensures height < |Chain(s)| && sn.metadata[height] == (height, Chain(s)[height].Id())
    ensures Exec(c, Chain(s)[..height + 1]).Success?
    ensures Same(SnapshotAt(c, s.disk, sn, height).value, Exec(c, Chain(s)[..height + 1]).value)
  {
    hide Path, Exec, Root, Fits, Same, Norm, KeysOk, Linked;
    TipIsKnown(c, s);
    PathRootsOk(c, s, s.tip);
    assert RootAt(c, Chain(s), height);
    ChainLinked(c, s);
    PrefixFits(c, Chain(s), height + 1);
    ExecKeepsKeys(c, Chain(s)[..height + 1]);
    StoredNorm(sn, height);
    RootInjective(c, Exec(c, Chain(s)[..height + 1]).value, Stored(sn, height));
    SameSymmetric(Exec(c, Chain(s)[..height + 1]).value, Stored(sn, height));
  }

  lemma PrefixFits(c: Crypto, path: seq<Block>, n: nat)
    requires Linked(path) && n <= |path| && n <= 128 * HALVING_INTERVAL && Exec(c, path[..n]).Success?
    ensures Fits(Exec(c, path[..n]).value)
  {
    hide Exec, Fits;
    ChainFits(c, path[..n]);
  }

  lemma StoredNorm(sn: Snapshots, height: nat)
    ensures Norm(Stored(sn, height)) == Stored(sn, height)
  {
    NormTwice(Ledger(if height in sn.balances then sn.balances[height] else map[],
                     if height in sn.nonces then sn.nonces[height] else map[]));
  }

  lemma SameSymmetric(l: Ledger, k: Ledger)
    requires Same(l, k)
    ensures Same(k, l)
  {
  }

  /** A snapshot off the canonical chain is never used. */
  lemma StaleSnapshotRejected(c: Crypto, s: Node, sn: Snapshots, height: nat)
    requires Inv(c, s) && s.known != map[] && DiskOk(s) && height in sn.metadata
    requires if height < |Chain(s)| then sn.metadata[height].1 != Chain(s)[height].Id() else Tidy(s)
    ensures SnapshotAt(c, s.disk, sn, height).Failure?
  {
    hide Path, Root;
  }

  /** What was fully saved at the tip is accepted again, and gives the same
      account state back. */
  lemma SavedIsAccepted(c: Crypto, s: Node, sn: Snapshots, l: Ledger)
    requires Inv(c, s) && s.known != map[] && DiskOk(s) && |Chain(s)| > 1
    requires LedgerOk(c, Chain(s), l)
    ensures Root(c, l).Success?
    ensures var height := |Chain(s)| - 1;
            var saved := SnapshotWrites(sn, height, s.tip, l, Root(c, l).value, 4);
            SnapshotAt(c, s.disk, saved, height) == Success(Norm(l))
  {
    hide Path, Exec, Root, Norm, Same, Stored, SnapshotWrites, LedgerOk, Inv;
    var height := |Chain(s)| - 1;
    TipIsKnown(c, s);
    TipRoot(c, s, l);
    SavedRecords(sn, height, s.tip, l, Root(c, l).value);
  }

  /** The tip claims the root of any account state that reads like its own. */
  lemma TipRoot(c: Crypto, s: Node, l: Ledger)
    requires Inv(c, s) && s.tip in s.known && |Chain(s)| > 1 && LedgerOk(c, Chain(s), l)
    ensures Root(c, l) == Root(c, Norm(l)) == Success(Chain(s)[|Chain(s)| - 1].header.stateRoot)
    ensures Chain(s)[|Chain(s)| - 1].Id() == s.tip
  {
    hide Path, Exec, Root, Norm, Linked, Same;
    PathRootsOk(c, s, s.tip);
    PathEnd(c, s, s.tip);
    var height := |Chain(s)| - 1;
    assert Chain(s)[..height + 1] == Chain(s);
    assert RootAt(c, Chain(s), height);
    RootCongruent(c, l, Exec(c, Chain(s)).value);
    NormSame(l);
    RootCongruent(c, Norm(l), l);
  }

  lemma SavedRecords(sn: Snapshots, height: nat, tip: Hash, l: Ledger, root: string)
    ensures var saved := SnapshotWrites(sn, height, tip, l, root, 4);
            && height in saved.metadata && saved.metadata[height] == (height, tip)
            && height in saved.roots && saved.roots[height] == root
            && Stored(saved, height) == Norm(l)
  {
    hide Norm;
  }

  lemma NormSame(l: Ledger)
    ensures Same(Norm(l), l)
  {
    NormTwice(l);
  }

  /** At height 0 the rule gives way. Genesis claims no root, so whatever account
      state with well-formed keys one likes, a record there restores it. */
  lemma GenesisTakesAnything(c: Crypto, d: Disk, sn: Snapshots, l: Ledger)
    requires Describes(d, [GenesisBlock()]) && KeysOk(Norm(l)) && 0 !in sn.roots
    ensures var planted := sn.(metadata := sn.metadata[0 := (0, GENESIS_HASH)],
                               balances := sn.balances[0 := l.balances], nonces := sn.nonces[0 := l.nonces]);
            SnapshotAt(c, d, planted, 0) == Success(Norm(l))
  {
    hide Root, Norm, KeysOk;
    assert [GenesisBlock()][0].Id() == GENESIS_HASH;
    RootTotal(c, Norm(l));
    NormTwice(l);
  }
}
