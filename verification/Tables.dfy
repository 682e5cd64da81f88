/** How recorded work relates to the work of the paths. A node that accepted
    genesis, or reloaded its chain, has every work exactly on record. A node
    that was bootstrapped has none for genesis: all its records start one
    genesis difficulty short, until a switch forks at genesis and counts the
    missing difficulty in for the new branch alone.
 */
module Tables {
  import opened Base
  import opened BlockTree
  import opened Works
  import opened Consensus

  /** The record of a block falls short of its path's work by d. */
  ghost predicate OffAt(known: map<Hash, Block>, work: map<Hash, nat>, h: Hash, d: nat) {
    h in known && Recorded(work, h) + d == Work(Path(known, h))
  }

  ghost predicate AllOff(known: map<Hash, Block>, work: map<Hash, nat>, d: nat) {
    forall h {:trigger OffAt(known, work, h, d)} | h in known :: OffAt(known, work, h, d)
  }

  ghost predicate NearAt(known: map<Hash, Block>, work: map<Hash, nat>, h: Hash) {
    OffAt(known, work, h, 0) || OffAt(known, work, h, 1)
  }

  ghost predicate AllNear(known: map<Hash, Block>, work: map<Hash, nat>) {
    forall h {:trigger NearAt(known, work, h)} | h in known :: NearAt(known, work, h)
  }

  ghost predicate CanonAt(known: map<Hash, Block>, work: map<Hash, nat>, path: seq<Block>, i: nat)
    requires i < |path|
  {
    OffAt(known, work, path[i].Id(), 0)
  }

  /** Above genesis a chain's records are exact. */
  ghost predicate CanonExact(known: map<Hash, Block>, work: map<Hash, nat>, path: seq<Block>) {
    forall i: nat {:trigger CanonAt(known, work, path, i)} | 0 < i < |path| :: CanonAt(known, work, path, i)
  }

  /** Every known block has its exact work on record. */
  ghost predicate Exact(s: Node) {
    s.work.Keys == s.known.Keys && AllOff(s.known, s.work, 0)
  }

  ghost predicate NoGenesisRecord(known: map<Hash, Block>, work: map<Hash, nat>) {
    GENESIS_HASH in known && work.Keys == known.Keys - {GENESIS_HASH}
  }

  /** Every record falls short by the genesis difficulty. */
  ghost predicate Offset(s: Node) {
    NoGenesisRecord(s.known, s.work) && AllOff(s.known, s.work, 1)
  }

  /** The canonical chain is on record exactly, other blocks possibly short. */
  ghost predicate Mixed(s: Node) {
    && NoGenesisRecord(s.known, s.work) && s.tip in s.known && s.tip != GENESIS_HASH
    && AllNear(s.known, s.work)
    && CanonExact(s.known, s.work, Chain(s))
  }

  ghost predicate TableOk(s: Node) {
    Exact(s) || Offset(s) || Mixed(s)
  }

  // --- Adding a child ---

  /** A fresh child was added and every older path stayed. */
  ghost predicate Grown(known: map<Hash, Block>, b: Block) {
    var later := known[b.Id() := b];
    && b.Id() !in known && b.Parent() in known
    && Path(later, b.Id()) == Path(known, b.Parent()) + [b]
    && (forall h | h in known :: Path(later, h) == Path(known, h))
  }

  lemma AppendedWork(path: seq<Block>, b: Block)
    ensures Work(path + [b]) == Work(path) + b.header.difficulty
  {
    assert (path + [b])[..|path|] == path;
  }

  /** Older records keep their distance, and the child takes its parent's. */
  lemma RecordOff(s: Node, b: Block, h: Hash, d: nat)
    requires Grown(s.known, b)
    ensures h in s.known ==> (OffAt(Record(s, b).known, Record(s, b).work, h, d) <==> OffAt(s.known, s.work, h, d))
    ensures OffAt(Record(s, b).known, Record(s, b).work, b.Id(), d) <==> OffAt(s.known, s.work, b.Parent(), d)
  {
    hide Path, Work;
    AppendedWork(Path(s.known, b.Parent()), b);
  }

  lemma RecordAllOff(s: Node, b: Block, d: nat)
    requires Grown(s.known, b) && AllOff(s.known, s.work, d)
    ensures AllOff(Record(s, b).known, Record(s, b).work, d)
  {
    hide OffAt, Grown;
    forall h | h in Record(s, b).known
      ensures OffAt(Record(s, b).known, Record(s, b).work, h, d)
    {
      RecordOff(s, b, h, d);
      ParentOff(s, b, h, d);
    }
  }

  lemma ParentOff(s: Node, b: Block, h: Hash, d: nat)
    requires Grown(s.known, b) && AllOff(s.known, s.work, d)
    ensures OffAt(s.known, s.work, b.Parent(), d)
    ensures h in s.known ==> OffAt(s.known, s.work, h, d)
  {
    hide OffAt, Path;
  }

  lemma RecordNear(s: Node, b: Block)
    requires Grown(s.known, b) && AllNear(s.known, s.work)
    ensures AllNear(Record(s, b).known, Record(s, b).work)
  {
    hide OffAt, Path;
    forall h | h in Record(s, b).known
      ensures NearAt(Record(s, b).known, Record(s, b).work, h)
    {
      RecordOff(s, b, h, 0);
      RecordOff(s, b, h, 1);
      assert NearAt(s.known, s.work, b.Parent());
      if h in s.known {
        assert NearAt(s.known, s.work, h);
      }
    }
  }

  /** Blocks of a known path, found again in the tree. */
  ghost predicate PathIn(known: map<Hash, Block>, path: seq<Block>) {
    forall i | 0 <= i < |path| :: path[i].Id() in known
  }

  lemma RecordCanon(s: Node, b: Block, path: seq<Block>)
    requires Grown(s.known, b) && PathIn(s.known, path) && CanonExact(s.known, s.work, path)
    ensures CanonExact(Record(s, b).known, Record(s, b).work, path)
  {
    hide OffAt, Path, Grown;
    forall i: nat | 0 < i < |path|
      ensures CanonAt(Record(s, b).known, Record(s, b).work, path, i)
    {
      assert CanonAt(s.known, s.work, path, i);
      RecordOff(s, b, path[i].Id(), 0);
    }
  }

  lemma RecordKeys(s: Node, b: Block)
    requires b.Id() !in s.known
    ensures s.work.Keys == s.known.Keys ==> Record(s, b).work.Keys == Record(s, b).known.Keys
    ensures NoGenesisRecord(s.known, s.work) ==> NoGenesisRecord(Record(s, b).known, Record(s, b).work)
  {
  }

  /** Storing a child on the side keeps each kind of table. */
  lemma RecordKeepsTable(s: Node, b: Block)
    requires Grown(s.known, b) && PathIn(s.known, Chain(s)) && s.tip in s.known
    ensures Exact(s) ==> Exact(Record(s, b))
    ensures Offset(s) ==> Offset(Record(s, b))
    ensures Mixed(s) ==> Mixed(Record(s, b))
  {
    hide Path, AllOff, AllNear, CanonExact, NoGenesisRecord, PathIn;
    RecordKeys(s, b);
    ChainStays(s, b);
    if Exact(s) {
      RecordAllOff(s, b, 0);
    }
    if Offset(s) {
      RecordAllOff(s, b, 1);
    }
    if Mixed(s) {
      RecordNear(s, b);
      RecordCanon(s, b, Chain(s));
    }
  }

  lemma ChainStays(s: Node, b: Block)
    requires Grown(s.known, b) && s.tip in s.known
    ensures Chain(Record(s, b)) == Chain(s)
    ensures s.tip == b.Parent() ==> Chain(Record(s, b).(tip := b.Id())) == Chain(s) + [b]
  {
    hide Path;
  }

  /** Extending the tip keeps each kind of table. */
  lemma ExtendKeepsTable(s: Node, b: Block)
    requires Grown(s.known, b) && PathIn(s.known, Chain(s)) && s.tip == b.Parent() && b.Id() != GENESIS_HASH
    requires |Chain(s)| > 0 && Chain(s)[|Chain(s)| - 1].Id() == s.tip
    requires |Chain(s)| == 1 ==> s.tip == GENESIS_HASH
    ensures var t := Record(s, b).(tip := b.Id());
            (Exact(s) ==> Exact(t)) && (Offset(s) ==> Offset(t)) && (Mixed(s) ==> Mixed(t))
  {
    hide Path, AllOff, AllNear, CanonExact, NoGenesisRecord, PathIn;
    RecordKeepsTable(s, b);
    ChainStays(s, b);
    if Mixed(s) {
      CanonExtends(s, b);
    }
  }

  lemma CanonExtends(s: Node, b: Block)
    requires Grown(s.known, b) && PathIn(s.known, Chain(s)) && s.tip == b.Parent() && s.tip != GENESIS_HASH
    requires |Chain(s)| > 1 && Chain(s)[|Chain(s)| - 1].Id() == s.tip && CanonExact(s.known, s.work, Chain(s))
    ensures CanonExact(Record(s, b).known, Record(s, b).work, Chain(s) + [b])
  {
    hide OffAt, Path, Grown;
    var path := Chain(s);
    var more := path + [b];
    RecordCanon(s, b, path);
    forall i: nat | 0 < i < |more|
      ensures CanonAt(Record(s, b).known, Record(s, b).work, more, i)
    {
      if i < |path| {
        assert CanonAt(Record(s, b).known, Record(s, b).work, path, i);
      } else {
        assert CanonAt(s.known, s.work, path, |path| - 1);
        RecordOff(s, b, b.Id(), 0);
      }
    }
  }

  // --- Switching to a branch ---

  /** The node after a switch, as far as the table is concerned. */
  ghost function Switched(s: Node, h: Hash): Node {
    s.(tip := h, work := SwitchedWork(s.work, Chain(s), Path(s.known, h)))
  }

  ghost function ForkAt(s: Node, h: Hash): nat {
    Fork(Chain(s), Path(s.known, h))
  }

  /** All known chains share genesis. */
  lemma ForkAboveGenesis(s: Node, h: Hash)
    requires Rooted(s.known) && s.tip in s.known && h in s.known
    ensures 1 <= ForkAt(s, h) <= |Path(s.known, h)|
    ensures Path(s.known, h)[0].Id() == GENESIS_HASH
  {
    hide Path, Fork, Rooted;
    PathLinked(s.known, s.tip);
    PathLinked(s.known, h);
    var a, b := Chain(s), Path(s.known, h);
    assert a[..1] == [GenesisBlock()] && b[..1] == [GenesisBlock()];
    ForkIsLongest(a, b, 1);
  }

  /** What the switch counts from falls short by d. */
  ghost predicate StartsOff(s: Node, h: Hash, d: nat)
    requires Rooted(s.known) && s.tip in s.known && h in s.known
  {
    ForkAboveGenesis(s, h);
    var common := Path(s.known, h)[ForkAt(s, h) - 1].Id();
    if common in s.work then OffAt(s.known, s.work, common, d) else d == 0
  }

  /** The record a block of the switched segment gets. */
  lemma SwitchedRecord(s: Node, h: Hash, i: nat)
    requires Rooted(s.known) && s.tip in s.known && h in s.known
    requires ForkAt(s, h) <= i < |Path(s.known, h)|
    ensures var path, n := Path(s.known, h), ForkAt(s, h);
            Recorded(Switched(s, h).work, path[i].Id()) == StartingWork(s.work, path, n) + Above(path[..i + 1], n)
  {
    hide Path, Fork, Rooted, Work, Above, Rewritten, StartingWork, Recorded;
    var path, n := Path(s.known, h), ForkAt(s, h);
    BelowLater(s, h, i);
    RewrittenOn(s.work, path, n, StartingWork(s.work, path, n), i);
  }

  /** What a switch counts from, next to the work of the common prefix. */
  lemma StartFallsShort(s: Node, h: Hash, d: nat)
    requires Rooted(s.known) && s.tip in s.known && h in s.known && StartsOff(s, h, d)
    ensures ForkAt(s, h) <= |Path(s.known, h)|
    ensures StartingWork(s.work, Path(s.known, h), ForkAt(s, h)) + d == Work(Path(s.known, h)[..ForkAt(s, h)])
  {
    hide Path, Fork, Rooted, Work;
    ForkAboveGenesis(s, h);
    PathPrefix(s.known, h, ForkAt(s, h) - 1);
  }

  /** Every block of the switched segment comes to fall short by just that. */
  lemma SwitchOn(s: Node, h: Hash, i: nat, d: nat)
    requires Rooted(s.known) && s.tip in s.known && h in s.known
    requires ForkAt(s, h) <= i < |Path(s.known, h)| && StartsOff(s, h, d)
    ensures OffAt(s.known, Switched(s, h).work, Path(s.known, h)[i].Id(), d)
  {
    hide Path, ForkAt, Rooted, Work, Above, StartingWork, StartsOff, Recorded, Switched;
    var path, n := Path(s.known, h), ForkAt(s, h);
    SwitchedRecord(s, h, i);
    StartFallsShort(s, h, d);
    PathKnown(s.known, h, i);
    PathPrefix(s.known, h, i);
    WorkAbove(path[..i + 1], n);
    assert path[..i + 1][..n] == path[..n];
  }

  /** Every other block keeps its record. */
  lemma SwitchElse(s: Node, h: Hash, x: Hash, d: nat)
    requires forall i | ForkAt(s, h) <= i < |Path(s.known, h)| :: Path(s.known, h)[i].Id() != x
    ensures OffAt(s.known, Switched(s, h).work, x, d) <==> OffAt(s.known, s.work, x, d)
  {
    hide Path, Fork, Rooted, Work;
    var path, n := Path(s.known, h), ForkAt(s, h);
    RewrittenOff(s.work, path, n, StartingWork(s.work, path, n), x);
  }

  lemma SwitchKeys(s: Node, h: Hash)
    requires Rooted(s.known) && s.tip in s.known && h in s.known
    requires s.known.Keys - {GENESIS_HASH} <= s.work.Keys
    ensures Switched(s, h).work.Keys == s.work.Keys
  {
    hide Path, Fork, Rooted;
    ForkAboveGenesis(s, h);
    var path, n := Path(s.known, h), ForkAt(s, h);
    forall i: nat | n <= i < |path|
      ensures path[i].Id() in s.work
    {
      PathKnown(s.known, h, i);
      if path[i].Id() == GENESIS_HASH {
        PathDistinct(s.known, h, 0, i);
      }
    }
    RewrittenKeys(s.work, path, n, StartingWork(s.work, path, n));
  }

  /** Whether a hash lies on the switched segment, and where. */
  lemma SegmentSplit(s: Node, h: Hash, x: Hash) returns (i: nat)
    ensures i < |Path(s.known, h)| ==> ForkAt(s, h) <= i && Path(s.known, h)[i].Id() == x
    ensures i >= |Path(s.known, h)| ==>
              forall j | ForkAt(s, h) <= j < |Path(s.known, h)| :: Path(s.known, h)[j].Id() != x
  {
    hide Path, Fork;
    var path := Path(s.known, h);
    if j: nat :| ForkAt(s, h) <= j < |path| && path[j].Id() == x {
      i := j;
    } else {
      i := |path|;
    }
  }

  lemma SwitchAllOff(s: Node, h: Hash, d: nat)
    requires Rooted(s.known) && s.tip in s.known && h in s.known
    requires AllOff(s.known, s.work, d) && StartsOff(s, h, d)
    ensures AllOff(s.known, Switched(s, h).work, d)
  {
    hide Path, Fork, Rooted, OffAt, Switched, ForkAt, StartsOff;
    forall x | x in s.known
      ensures OffAt(s.known, Switched(s, h).work, x, d)
    {
      assert OffAt(s.known, s.work, x, d);
      var i := SegmentSplit(s, h, x);
      if i < |Path(s.known, h)| {
        SwitchOn(s, h, i, d);
      } else {
        SwitchElse(s, h, x, d);
      }
    }
  }

  lemma SwitchNear(s: Node, h: Hash)
    requires Rooted(s.known) && s.tip in s.known && h in s.known
    requires AllNear(s.known, s.work) && StartsOff(s, h, 0)
    ensures AllNear(s.known, Switched(s, h).work)
  {
    hide Path, Fork, Rooted, OffAt, Switched, ForkAt, StartsOff;
    forall x | x in s.known
      ensures NearAt(s.known, Switched(s, h).work, x)
    {
      assert NearAt(s.known, s.work, x);
      var i := SegmentSplit(s, h, x);
      if i < |Path(s.known, h)| {
        SwitchOn(s, h, i, 0);
      } else {
        SwitchElse(s, h, x, 0);
        SwitchElse(s, h, x, 1);
      }
    }
  }

  /** With an exact start, the chain switched to is on record exactly. */
  lemma SwitchCanon(s: Node, h: Hash)
    requires Rooted(s.known) && s.tip in s.known && h in s.known && StartsOff(s, h, 0)
    requires ForkAt(s, h) > 1 ==> CanonExact(s.known, s.work, Chain(s))
    ensures CanonExact(s.known, Switched(s, h).work, Path(s.known, h))
  {
    hide Path, Fork, Rooted, OffAt, Switched, StartsOff, SwitchedWork;
    var a, path, n := Chain(s), Path(s.known, h), ForkAt(s, h);
    forall i: nat | 0 < i < |path|
      ensures CanonAt(s.known, Switched(s, h).work, path, i)
    {
      if i < n {
        assert a[i] == a[..n][i] && path[i] == path[..n][i];
        assert CanonAt(s.known, s.work, a, i);
        BelowFork(s, h, i);
        SwitchElse(s, h, path[i].Id(), 0);
      } else {
        SwitchOn(s, h, i, 0);
      }
    }
  }

  lemma BelowFork(s: Node, h: Hash, i: nat)
    requires Rooted(s.known) && h in s.known && i < ForkAt(s, h) <= |Path(s.known, h)|
    ensures forall j | ForkAt(s, h) <= j < |Path(s.known, h)| :: Path(s.known, h)[j].Id() != Path(s.known, h)[i].Id()
  {
    hide Path, Fork, Rooted;
    var path := Path(s.known, h);
    forall j: nat | ForkAt(s, h) <= j < |path|
      ensures path[j].Id() != path[i].Id()
    {
      if path[j].Id() == path[i].Id() {
        PathDistinct(s.known, h, i, j);
      }
    }
  }

  /** A switch keeps exact tables exact. */
  lemma SwitchKeepsExact(s: Node, h: Hash)
    requires Rooted(s.known) && s.tip in s.known && h in s.known && Exact(s)
    ensures Exact(Switched(s, h))
  {
    hide Path, Fork, Rooted, AllOff, SwitchedWork;
    SwitchKeys(s, h);
    ExactStart(s, h, 0);
    SwitchAllOff(s, h, 0);
  }

  /** The common ancestor has a record unless it is genesis. */
  lemma ExactStart(s: Node, h: Hash, d: nat)
    requires Rooted(s.known) && s.tip in s.known && h in s.known && AllOff(s.known, s.work, d)
    requires ForkAt(s, h) > 1 ==> s.known.Keys - {GENESIS_HASH} <= s.work.Keys
    requires ForkAt(s, h) == 1 ==> GENESIS_HASH in s.work || d == 0
    ensures StartsOff(s, h, d)
  {
    hide Path, Fork, Rooted, OffAt;
    ForkAboveGenesis(s, h);
    var path, n := Path(s.known, h), ForkAt(s, h);
    PathKnown(s.known, h, n - 1);
    assert OffAt(s.known, s.work, path[n - 1].Id(), d);
    if n > 1 && path[n - 1].Id() == GENESIS_HASH {
      PathDistinct(s.known, h, 0, n - 1);
    }
  }

  /** Without a genesis record, a switch that forks at genesis counts from zero
      shortfall. */
  lemma FallbackStart(s: Node, h: Hash)
    requires Rooted(s.known) && s.tip in s.known && h in s.known
    requires ForkAt(s, h) == 1 && NoGenesisRecord(s.known, s.work)
    ensures StartsOff(s, h, 0)
  {
    hide Path, Fork, Rooted, OffAt;
    ForkAboveGenesis(s, h);
  }

  lemma MixedStart(s: Node, h: Hash)
    requires Rooted(s.known) && s.tip in s.known && h in s.known && Mixed(s) && ForkAt(s, h) > 1
    ensures StartsOff(s, h, 0)
  {
    hide Path, Fork, Rooted, AllNear, OffAt;
    ForkAboveGenesis(s, h);
    var a, path, n := Chain(s), Path(s.known, h), ForkAt(s, h);
    assert a[n - 1] == a[..n][n - 1] && path[n - 1] == path[..n][n - 1];
    assert CanonAt(s.known, s.work, a, n - 1);
  }

  lemma OffsetIsNear(known: map<Hash, Block>, work: map<Hash, nat>)
    requires AllOff(known, work, 1)
    ensures AllNear(known, work)
  {
    hide OffAt;
    forall h | h in known
      ensures NearAt(known, work, h)
    {
      assert OffAt(known, work, h, 1);
    }
  }

  /** The block a switch ends at lies above the fork, so it is not genesis. */
  lemma SwitchTarget(s: Node, h: Hash)
    requires Rooted(s.known) && s.tip in s.known && h in s.known && ForkAt(s, h) < |Path(s.known, h)|
    ensures h != GENESIS_HASH && Path(s.known, h)[|Path(s.known, h)| - 1].Id() == h
  {
    hide Path, Fork;
    ForkAboveGenesis(s, h);
    assert RootedAt(s.known, h);
    PathEnds(s.known, h);
    if h == GENESIS_HASH {
      PathDistinct(s.known, h, 0, |Path(s.known, h)| - 1);
    }
  }

  lemma PathEnds(known: map<Hash, Block>, h: Hash)
    requires h in known
    ensures |Path(known, h)| > 0 && Path(known, h)[|Path(known, h)| - 1] == known[h]
  {
  }

  /** A switch keeps every kind of table but one: forking at genesis turns a
      uniformly short table into a mixed one. */
  lemma SwitchKeepsTable(s: Node, h: Hash)
    requires Rooted(s.known) && s.tip in s.known && h in s.known && ForkAt(s, h) < |Path(s.known, h)| && TableOk(s)
    ensures TableOk(Switched(s, h))
    ensures Exact(s) ==> Exact(Switched(s, h))
    ensures Offset(s) ==> (Offset(Switched(s, h)) <==> ForkAt(s, h) > 1)
    ensures !Exact(s) && ForkAt(s, h) == 1 ==> Mixed(Switched(s, h))
    ensures Mixed(s) ==> Mixed(Switched(s, h))
  {
    hide Path, Rooted, SwitchedWork, StartsOff, ForkAt, Exact, Offset, Mixed;
    ForkAboveGenesis(s, h);
    if Exact(s) {
      SwitchKeepsExact(s, h);
    }
    if Offset(s) && ForkAt(s, h) > 1 {
      SwitchKeepsOffset(s, h);
    }
    if Mixed(s) || (!Exact(s) && ForkAt(s, h) == 1) {
      SwitchMixes(s, h);
    }
    KindsApart(s);
    KindsApart(Switched(s, h));
  }

  lemma SwitchKeepsOffset(s: Node, h: Hash)
    requires Rooted(s.known) && s.tip in s.known && h in s.known && Offset(s) && ForkAt(s, h) > 1
    ensures Offset(Switched(s, h))
  {
    hide Path, Rooted, AllOff, SwitchedWork, StartsOff, ForkAt;
    SwitchKeys(s, h);
    ExactStart(s, h, 1);
    SwitchAllOff(s, h, 1);
  }

  lemma SwitchMixes(s: Node, h: Hash)
    requires Rooted(s.known) && s.tip in s.known && h in s.known && ForkAt(s, h) < |Path(s.known, h)|
    requires (Offset(s) && ForkAt(s, h) == 1) || Mixed(s)
    ensures Mixed(Switched(s, h))
  {
    hide Path, Fork, Rooted, AllOff, AllNear, CanonExact, SwitchedWork, StartsOff, ForkAt;
    ForkAboveGenesis(s, h);
    SwitchTarget(s, h);
    SwitchKeys(s, h);
    if ForkAt(s, h) == 1 {
      FallbackStart(s, h);
    } else {
      MixedStart(s, h);
    }
    if Offset(s) {
      OffsetIsNear(s.known, s.work);
    }
    SwitchNear(s, h);
    SwitchCanon(s, h);
  }

  /** No table is of two kinds at once. */
  lemma KindsApart(s: Node)
    requires Rooted(s.known)
    ensures !(Exact(s) && Offset(s)) && !(Exact(s) && Mixed(s)) && !(Offset(s) && Mixed(s))
  {
    hide Path, Rooted, AllNear, CanonExact, Work;
    if Mixed(s) {
      MixedTip(s);
      assert !OffAt(s.known, s.work, s.tip, 1);
    }
  }

  // --- Comparing by record ---

  /** No block has more work on record than the tip. */
  ghost predicate TopOfRecord(s: Node) {
    forall h | h in s.known :: Recorded(s.work, h) <= Recorded(s.work, s.tip)
  }

  /** No known block tops a heavier chain than the tip does. */
  ghost predicate Heaviest(s: Node) {
    forall h | h in s.known :: Work(Path(s.known, h)) <= Work(Chain(s))
  }

  /** No known block outweighs the tip by more than the genesis difficulty. */
  ghost predicate NearlyHeaviest(s: Node) {
    forall h | h in s.known :: Work(Path(s.known, h)) <= Work(Chain(s)) + 1
  }

  lemma TableNear(s: Node, h: Hash)
    requires TableOk(s) && h in s.known
    ensures NearAt(s.known, s.work, h)
    ensures Exact(s) ==> OffAt(s.known, s.work, h, 0)
    ensures Offset(s) ==> OffAt(s.known, s.work, h, 1)
  {
    hide Path, OffAt, CanonExact, NoGenesisRecord;
    if Exact(s) {
      assert OffAt(s.known, s.work, h, 0);
    } else if Offset(s) {
      assert OffAt(s.known, s.work, h, 1);
    } else {
      assert NearAt(s.known, s.work, h);
    }
  }

  lemma MixedTip(s: Node)
    requires Rooted(s.known) && s.tip in s.known && Mixed(s)
    ensures OffAt(s.known, s.work, s.tip, 0)
  {
    hide Path, OffAt, AllNear;
    PathLinked(s.known, s.tip);
    PathEnds(s.known, s.tip);
    assert RootedAt(s.known, s.tip);
    assert CanonAt(s.known, s.work, Chain(s), |Chain(s)| - 1);
  }

  /** A branch on a block's parent that outweighs the canonical chain in fact. */
  ghost predicate Heavier(s: Node, b: Block) {
    Work(Path(s.known, b.Parent())) + b.header.difficulty > Work(Chain(s))
  }

  /** On a mixed table, a block that ties with the tip on record while its parent
      is on record short. */
  ghost predicate ShortTie(s: Node, b: Block) {
    && Mixed(s) && OffAt(s.known, s.work, b.Parent(), 1)
    && Recorded(s.work, b.Parent()) + b.header.difficulty == Recorded(s.work, s.tip)
  }

  /** A branch that outweighs the tip on record outweighs it in fact; what the
      record misses is exactly the short ties. */
  lemma OutweighsMeans(s: Node, b: Block)
    requires Rooted(s.known) && s.tip in s.known && b.Parent() in s.known && TableOk(s)
    ensures Heavier(s, b) <==> Outweighs(s, b) || ShortTie(s, b)
    ensures !(Outweighs(s, b) && ShortTie(s, b))
  {
    hide Path, Work, Exact, Offset, Mixed;
    TableNear(s, b.Parent());
    TableNear(s, s.tip);
    if Mixed(s) {
      MixedTip(s);
    }
  }

  /** On a mixed table, a known block on record short that ties with the tip. */
  ghost predicate TiedShort(s: Node) {
    Mixed(s) && exists h :: TiedAt(s, h)
  }

  ghost predicate TiedAt(s: Node, h: Hash) {
    OffAt(s.known, s.work, h, 1) && Recorded(s.work, h) == Recorded(s.work, s.tip)
  }

  /** What being on top of the record is worth: the heaviest tip, but for short
      ties, and never more than the genesis difficulty away from it. Unless the
      table is mixed, the heaviest tip in turn tops the record. */
  lemma TopMeans(s: Node)
    requires Rooted(s.known) && s.tip in s.known && TableOk(s)
    ensures TopOfRecord(s) ==> (Heaviest(s) <==> !TiedShort(s)) && NearlyHeaviest(s)
    ensures !Mixed(s) ==> (TopOfRecord(s) <==> Heaviest(s))
  {
    hide Path, Work, Exact, Offset, Mixed, TiedAt;
    forall h | h in s.known
      ensures Recorded(s.work, h) <= Recorded(s.work, s.tip) ==>
                && (Work(Path(s.known, h)) <= Work(Chain(s)) <==> !(Mixed(s) && TiedAt(s, h)))
                && Work(Path(s.known, h)) <= Work(Chain(s)) + 1
      ensures !Mixed(s) && Work(Path(s.known, h)) <= Work(Chain(s)) ==> Recorded(s.work, h) <= Recorded(s.work, s.tip)
    {
      TopOne(s, h);
    }
    TiedKnown(s);
  }

  lemma TiedKnown(s: Node)
    ensures forall h | TiedAt(s, h) :: h in s.known
  {
  }

  lemma TopOne(s: Node, h: Hash)
    requires Rooted(s.known) && s.tip in s.known && TableOk(s) && h in s.known
    ensures Recorded(s.work, h) <= Recorded(s.work, s.tip) ==>
              && (Work(Path(s.known, h)) <= Work(Chain(s)) <==> !(Mixed(s) && TiedAt(s, h)))
              && Work(Path(s.known, h)) <= Work(Chain(s)) + 1
    ensures !Mixed(s) && Work(Path(s.known, h)) <= Work(Chain(s)) ==> Recorded(s.work, h) <= Recorded(s.work, s.tip)
  {
    hide Path, Work, Exact, Offset, Mixed;
    TableNear(s, h);
    TableNear(s, s.tip);
    if Mixed(s) {
      MixedTip(s);
    }
  }

  /** A switch never lowers the record of the block it ends at. */
  lemma SwitchRaises(s: Node, h: Hash)
    requires Rooted(s.known) && s.tip in s.known && h in s.known && ForkAt(s, h) < |Path(s.known, h)| && TableOk(s)
    ensures Recorded(Switched(s, h).work, h) >= Recorded(s.work, h)
  {
    hide Path, Fork, Rooted, Work, SwitchedWork, StartsOff, AllOff, AllNear, CanonExact, ForkAt;
    ForkAboveGenesis(s, h);
    SwitchTarget(s, h);
    TableNear(s, h);
    var last := |Path(s.known, h)| - 1;
    if Exact(s) {
      ExactStart(s, h, 0);
      SwitchOn(s, h, last, 0);
    } else if ForkAt(s, h) == 1 {
      FallbackStart(s, h);
      SwitchOn(s, h, last, 0);
    } else if Offset(s) {
      ExactStart(s, h, 1);
      SwitchOn(s, h, last, 1);
    } else {
      MixedStart(s, h);
      SwitchOn(s, h, last, 0);
    }
  }

  /** On the switched segment the last block has the highest record. */
  lemma SegmentBelowTip(s: Node, h: Hash, i: nat)
    requires Rooted(s.known) && s.tip in s.known && h in s.known
    requires ForkAt(s, h) <= i < |Path(s.known, h)|
    ensures Recorded(Switched(s, h).work, Path(s.known, h)[i].Id()) <= Recorded(Switched(s, h).work, h)
  {
    hide Path, ForkAt, Rooted, Above, StartingWork, Recorded, Switched;
    SwitchTarget(s, h);
    var path := Path(s.known, h);
    SwitchedRecord(s, h, i);
    SwitchedRecord(s, h, |path| - 1);
    assert path[..|path|] == path;
    AbovePrefix(path, ForkAt(s, h), i + 1);
  }

  lemma BelowLater(s: Node, h: Hash, i: nat)
    requires Rooted(s.known) && h in s.known && i < |Path(s.known, h)|
    ensures forall j | i < j < |Path(s.known, h)| :: Path(s.known, h)[j].Id() != Path(s.known, h)[i].Id()
  {
    hide Path, Rooted;
    var path := Path(s.known, h);
    forall j: nat | i < j < |path|
      ensures path[j].Id() != path[i].Id()
    {
      if path[j].Id() == path[i].Id() {
        PathDistinct(s.known, h, i, j);
      }
    }
  }

  /** A switch to a block that tops the record leaves it on top. */
  lemma SwitchTops(s: Node, h: Hash)
    requires Rooted(s.known) && s.tip in s.known && h in s.known && ForkAt(s, h) < |Path(s.known, h)| && TableOk(s)
    requires forall x | x in s.known :: Recorded(s.work, x) <= Recorded(s.work, h)
    ensures TopOfRecord(Switched(s, h))
  {
    hide Path, Fork, Rooted, Work, SwitchedWork, TableOk, ForkAt;
    SwitchRaises(s, h);
    forall x | x in s.known
      ensures Recorded(Switched(s, h).work, x) <= Recorded(Switched(s, h).work, h)
    {
      var i := SegmentSplit(s, h, x);
      if i < |Path(s.known, h)| {
        SegmentBelowTip(s, h, i);
      } else {
        ElseRecorded(s, h, x);
      }
    }
  }

  lemma ElseRecorded(s: Node, h: Hash, x: Hash)
    requires forall i | ForkAt(s, h) <= i < |Path(s.known, h)| :: Path(s.known, h)[i].Id() != x
    ensures Recorded(Switched(s, h).work, x) == Recorded(s.work, x)
  {
    hide Path, Fork, Work;
    var path, n := Path(s.known, h), ForkAt(s, h);
    RewrittenOff(s.work, path, n, StartingWork(s.work, path, n), x);
  }
}
