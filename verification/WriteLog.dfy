/** The disk images a run leaves behind, write by write, and what the tips they
    came with say about the table of recorded work.
 */
module WriteLog {
  import opened Base
  import opened BlockTree
  import opened Validity
  import opened ChainDisk
  import opened Consensus
  import opened Tables
  import opened Invariants

  // --- Every image describes the chain of its time ---

  ghost predicate LoggedAt(known: map<Hash, Block>, log: seq<Write>, mark: Option<Hash>, i: nat)
    requires i < |log|
  {
    && log[i].tip in known
    && Describes(log[i].disk, Path(known, log[i].tip))
    && log[i].disk.genesisHash == mark
  }

  /** Each image on record describes the chain to the tip of its time, and the
      last one is the disk as it is now. */
  ghost predicate LogOk(s: Node) {
    && (forall i: nat {:trigger LoggedAt(s.known, s.log, s.disk.genesisHash, i)} |
          i < |s.log| :: LoggedAt(s.known, s.log, s.disk.genesisHash, i))
    && (|s.log| > 0 ==> s.log[|s.log| - 1] == Write(s.disk, s.tip))
  }

  lemma LogAppends(c: Crypto, s: Node, t: Node)
    requires Inv(c, s) && Inv(c, t) && Grows(s.known, t.known) && LogOk(s) && DiskOk(t)
    requires t.tip in t.known && t.log == s.log + [Write(t.disk, t.tip)] && t.disk.genesisHash == s.disk.genesisHash
    ensures LogOk(t)
  {
    hide Path, Rooted, Judged, TableOk, Describes;
    TreeOfInv(c, s);
    forall i: nat | i < |t.log|
      ensures LoggedAt(t.known, t.log, t.disk.genesisHash, i)
    {
      if i < |s.log| {
        assert LoggedAt(s.known, s.log, s.disk.genesisHash, i);
        PathStable(s.known, t.known, s.log[i].tip);
      }
    }
  }

  // --- Switches across genesis ---

  /** The i-th write moved the tip to a branch that shares only genesis with the
      chain it left. */
  ghost predicate CrossedAt(known: map<Hash, Block>, log: seq<Write>, i: nat)
    requires 0 < i < |log|
  {
    Fork(Path(known, log[i - 1].tip), Path(known, log[i].tip)) == 1 < |Path(known, log[i - 1].tip)|
  }

  ghost predicate Crossed(known: map<Hash, Block>, log: seq<Write>) {
    exists i: nat {:trigger CrossedAt(known, log, i)} :: 0 < i < |log| && CrossedAt(known, log, i)
  }

  ghost predicate TipsIn(known: map<Hash, Block>, log: seq<Write>) {
    forall i | 0 <= i < |log| :: log[i].tip in known
  }

  lemma CrossedAppends(known: map<Hash, Block>, later: map<Hash, Block>, log: seq<Write>, e: Write)
    requires Rooted(known) && Grows(known, later) && TipsIn(known, log) && |log| > 0
    ensures Crossed(later, log + [e]) <==> Crossed(known, log) || CrossedAt(later, log + [e], |log|)
  {
    hide Path, Fork, Rooted, CrossedAt;
    var more := log + [e];
    forall i: nat | 0 < i < |log|
      ensures CrossedAt(later, more, i) <==> CrossedAt(known, log, i)
    {
      CrossedStays(known, later, log, e, i);
    }
    if Crossed(known, log) {
      var i: nat :| 0 < i < |log| && CrossedAt(known, log, i);
      assert CrossedAt(later, more, i);
    }
  }

  lemma CrossedStays(known: map<Hash, Block>, later: map<Hash, Block>, log: seq<Write>, e: Write, i: nat)
    requires Rooted(known) && Grows(known, later) && TipsIn(known, log) && 0 < i < |log|
    ensures CrossedAt(later, log + [e], i) <==> CrossedAt(known, log, i)
  {
    hide Path, Fork, Rooted;
    PathStable(known, later, log[i - 1].tip);
    PathStable(known, later, log[i].tip);
  }

  /** A node without a genesis record: all its records are short by the genesis
      difficulty exactly as long as no write crossed genesis. */
  ghost predicate Tracked(s: Node) {
    && NoGenesisRecord(s.known, s.work)
    && TipsIn(s.known, s.log) && |s.log| > 0 && s.log[|s.log| - 1].tip == s.tip
    && (s.tip == GENESIS_HASH ==> s.known.Keys == {GENESIS_HASH})
    && (Offset(s) <==> !Crossed(s.known, s.log))
  }

  lemma MixedNotOffset(c: Crypto, s: Node)
    requires Inv(c, s) && NoGenesisRecord(s.known, s.work)
    ensures Offset(s) <==> !Mixed(s)
  {
    hide Path, Rooted, Judged, AllOff, AllNear, CanonExact;
    TreeOfInv(c, s);
    KindsApart(s);
  }

  lemma ForkWithin(a: seq<Block>, b: seq<Block>)
    requires a <= b
    ensures Fork(a, b) == |a|
  {
    ForkIsLongest(a, b, |a|);
  }

  /** One more write that keeps the old chain below the new tip. */
  lemma TrackedSameSide(c: Crypto, s: Node, t: Node)
    requires Inv(c, s) && Inv(c, t) && Tracked(s) && Grows(s.known, t.known) && Chain(s) <= Chain(t)
    requires t.log == s.log + [Write(t.disk, t.tip)] && NoGenesisRecord(t.known, t.work)
    requires t.tip in t.known && (t.tip == GENESIS_HASH ==> t.known.Keys == {GENESIS_HASH})
    requires (Offset(s) ==> Offset(t)) && (Mixed(s) ==> Mixed(t))
    ensures Tracked(t)
  {
    hide Path, Fork, Rooted, Judged, Offset, Mixed, NoGenesisRecord, Crossed, Inv;
    TreeOfInv(c, s);
    MixedNotOffset(c, s);
    MixedNotOffset(c, t);
    CrossedAppends(s.known, t.known, s.log, Write(t.disk, t.tip));
    PathStable(s.known, t.known, s.tip);
    ForkWithin(Chain(s), Chain(t));
  }

  lemma ExtendTracked(c: Crypto, s: Node, b: Block)
    requires Inv(c, s) && Fit(c, s.known, b) && b.Parent() == s.tip && Tracked(s)
    ensures Tracked(ExtendBy(s, b))
  {
    hide Path, Rooted, Judged, ValidOn, Proper, PersistExtension, Offset, Mixed, Crossed, NoGenesisRecord, Inv;
    ExtendInv(c, s, b);
    ExtendTable(c, s, b);
    TreeOfInv(c, s);
    ChildHeight(c, s.known, b);
    RecordKeys(s, b);
    TrackedSameSide(c, s, ExtendBy(s, b));
  }

  lemma StoreTracked(c: Crypto, s: Node, b: Block)
    requires Inv(c, s) && Fit(c, s.known, b) && b.Parent() != s.tip && Tracked(s)
    ensures Tracked(StoreAside(s, b))
  {
    hide Path, Rooted, Judged, ValidOn, Proper, StoreBlock, Offset, Mixed, Crossed, NoGenesisRecord, Inv;
    StoreInv(c, s, b);
    StoreTable(c, s, b);
    TipKnownOf(c, s, b.Parent());
    RecordKeys(s, b);
    TrackedSameSide(c, s, StoreAside(s, b));
  }

  /** A switch that forks at genesis is just what crossing means. */
  lemma MoveTracked(c: Crypto, s: Node, h: Hash)
    requires Inv(c, s) && Leaves(s, h) && Tracked(s)
    ensures Tracked(MoveTo(c, s, h))
  {
    hide Path, Fork, Rooted, Judged, PersistReorg, RecoveryFor, SwitchedWork, Offset, Mixed, Crossed, Inv, OnPath;
    var t := MoveTo(c, s, h);
    MoveInv(c, s, h);
    MoveTable(c, s, h);
    LeavesFork(c, s, h);
    TreeOfInv(c, s);
    SwitchKeys(s, h);
    ForkAboveGenesis(s, h);
    SwitchTarget(s, h);
    MixedNotOffset(c, s);
    MixedNotOffset(c, t);
    CrossedAppends(s.known, t.known, s.log, Write(t.disk, t.tip));
    TipAboveGenesis(c, s, h);
  }

  lemma TipAboveGenesis(c: Crypto, s: Node, h: Hash)
    requires Inv(c, s) && Leaves(s, h) && Tracked(s)
    ensures |Chain(s)| > 1
  {
    hide Path, Rooted, Judged, TableOk, Offset, Crossed, NoGenesisRecord;
    ChainEnds(c, s);
    ChainIn(c, s);
    TipKnownOf(c, s, h);
    assert Chain(s)[|Chain(s)| - 1].Id() == s.tip;
    assert OnPath(Chain(s), s.tip);
  }
}
