/** The node that knows a single stored chain: its tree, its tables, and why it
    is a sound node with exact records.
 */
module Recovery {
  import opened Base
  import opened Ledgers
  import opened BlockTree
  import opened Validity
  import opened ChainDisk
  import opened OrphanPool
  import opened Works
  import opened Consensus
  import opened Tables
  import opened Invariants
  import opened WriteLog
  import opened ChainStates

  // --- The tree and tables of a single chain ---

  function TreeOf(path: seq<Block>): map<Hash, Block> {
    if |path| == 0 then map[] else TreeOf(path[..|path| - 1])[path[|path| - 1].Id() := path[|path| - 1]]
  }

  function IndexOf(path: seq<Block>): map<Hash, nat> {
    if |path| == 0 then map[] else IndexOf(path[..|path| - 1])[path[|path| - 1].Id() := path[|path| - 1].Height()]
  }

  function WorkTable(path: seq<Block>): map<Hash, nat> {
    if |path| == 0 then map[] else WorkTable(path[..|path| - 1])[path[|path| - 1].Id() := Work(path)]
  }

  function IdsOf(path: seq<Block>): set<Hash> {
    if |path| == 0 then {} else IdsOf(path[..|path| - 1]) + {path[|path| - 1].Id()}
  }

  ghost predicate Distinct(path: seq<Block>) {
    forall i, j | 0 <= i < j < |path| :: path[i].Id() != path[j].Id()
  }

  lemma {:induction false} TreeOfHolds(path: seq<Block>, i: nat)
    requires Distinct(path) && i < |path|
    ensures path[i].Id() in TreeOf(path) && TreeOf(path)[path[i].Id()] == path[i]
  {
    var n := |path| - 1;
    if i < n {
      TreeOfHolds(path[..n], i);
      assert path[..n][i] == path[i];
    }
  }

  lemma {:induction false} TreeOfOnly(path: seq<Block>, h: Hash)
    requires h in TreeOf(path)
    ensures OnPath(path, h)
  {
    var n := |path| - 1;
    if h != path[n].Id() {
      TreeOfOnly(path[..n], h);
      var i :| 0 <= i < n && path[..n][i].Id() == h;
      assert path[i].Id() == h;
    }
  }

  lemma TreeOfShape(path: seq<Block>)
    requires Distinct(path)
    ensures forall i | 0 <= i < |path| :: path[i].Id() in TreeOf(path) && TreeOf(path)[path[i].Id()] == path[i]
    ensures forall h | h in TreeOf(path) :: OnPath(path, h)
  {
    hide Distinct, TreeOf, OnPath;
    forall i | 0 <= i < |path|
      ensures path[i].Id() in TreeOf(path) && TreeOf(path)[path[i].Id()] == path[i]
    {
      TreeOfHolds(path, i);
    }
    forall h | h in TreeOf(path)
      ensures OnPath(path, h)
    {
      TreeOfOnly(path, h);
    }
  }

  lemma {:induction false} TableKeys(path: seq<Block>)
    ensures IdsOf(path) == TreeOf(path).Keys == WorkTable(path).Keys == IndexOf(path).Keys
  {
    if |path| > 0 {
      TableKeys(path[..|path| - 1]);
    }
  }

  lemma {:induction false} IndexShape(path: seq<Block>)
    requires Distinct(path) && forall i | 0 <= i < |path| :: path[i].Height() == i
    ensures IndexOk(path, IndexOf(path))
  {
    if |path| > 0 {
      var init := path[..|path| - 1];
      IndexShape(init);
      assert forall i | 0 <= i < |init| :: init[i] == path[i];
    }
  }

  /** The recorded work of the i-th block is that of the chain up to it. */
  ghost predicate WorkedAt(path: seq<Block>, work: map<Hash, nat>, i: nat)
    requires i < |path|
  {
    path[i].Id() in work && work[path[i].Id()] == Work(path[..i + 1])
  }

  lemma {:induction false} WorkShape(path: seq<Block>, i: nat)
    requires Distinct(path) && i < |path|
    ensures WorkedAt(path, WorkTable(path), i)
  {
    hide Work;
    var n := |path| - 1;
    var init := path[..n];
    if i < n {
      WorkShape(init, i);
      assert init[i] == path[i] && init[..i + 1] == path[..i + 1];
    } else {
      assert path[..i + 1] == path;
    }
  }

  // --- Prefixes of a sound node's chain ---

  lemma ChainDistinct(c: Crypto, s: Node, n: nat)
    requires Inv(c, s) && n <= |Chain(s)|
    ensures Distinct(Chain(s)[..n])
  {
    hide Path, Rooted, Judged, TableOk;
    ChainEnds(c, s);
    TreeOfInv(c, s);
    forall i, j | 0 <= i < j < n
      ensures Chain(s)[i].Id() != Chain(s)[j].Id()
    {
      if Chain(s)[i].Id() == Chain(s)[j].Id() {
        PathDistinct(s.known, s.tip, i, j);
      }
    }
  }

  /** The first n canonical blocks by themselves form a sound tree, in which
      every block keeps its path. */
  lemma PrefixTree(c: Crypto, s: Node, n: nat)
    requires Inv(c, s) && n <= |Chain(s)|
    ensures var t := TreeOf(Chain(s)[..n]);
            && Grows(t, s.known) && Rooted(t) && Judged(c, t)
            && (forall i | 0 <= i < n :: Chain(s)[i].Id() in t && Path(t, Chain(s)[i].Id()) == Chain(s)[..i + 1])
  {
    hide Path, Rooted, Judged, TableOk, TreeOf, ValidOn, Proper, Distinct;
    var path := Chain(s)[..n];
    var t := TreeOf(path);
    ChainDistinct(c, s, n);
    TreeOfShape(path);
    ChainLinked(c, s);
    TreeOfInv(c, s);
    forall h | h in t
      ensures h in s.known && s.known[h] == t[h] && RootedAt(t, h)
    {
      PrefixMember(c, s, n, t, h);
    }
    PrefixRooted(t);
    forall i | 0 <= i < n
      ensures Chain(s)[i].Id() in t && Path(t, Chain(s)[i].Id()) == Chain(s)[..i + 1]
    {
      assert path[i] == Chain(s)[i];
      ChainKnown(c, s, i);
      PathStable(t, s.known, Chain(s)[i].Id());
    }
    PrefixJudged(c, s, t);
  }

  lemma PrefixRooted(t: map<Hash, Block>)
    requires forall h | h in t :: RootedAt(t, h)
    ensures Rooted(t)
  {
  }

  lemma PrefixMember(c: Crypto, s: Node, n: nat, t: map<Hash, Block>, h: Hash)
    requires Inv(c, s) && n <= |Chain(s)| && Linked(Chain(s)) && Rooted(s.known)
    requires forall i | 0 <= i < n :: Chain(s)[..n][i].Id() in t && t[Chain(s)[..n][i].Id()] == Chain(s)[..n][i]
    requires h in t && OnPath(Chain(s)[..n], h)
    ensures h in s.known && s.known[h] == t[h] && RootedAt(t, h)
  {
    hide Path, Judged, ValidOn, Proper, TableOk;
    var path := Chain(s)[..n];
    var i :| 0 <= i < n && path[i].Id() == h;
    ChainKnown(c, s, i);
    assert RootedAt(s.known, h);
    if i > 0 {
      assert path[i - 1].Id() in t && path[i].Parent() == path[i - 1].Id();
    }
  }

  lemma PrefixJudged(c: Crypto, s: Node, t: map<Hash, Block>)
    requires Inv(c, s) && Grows(t, s.known) && Rooted(t)
    ensures Judged(c, t)
  {
    hide Path, ValidOn, Proper, TableOk;
    forall h | h in t
      ensures JudgedAt(c, t, h)
    {
      assert JudgedAt(c, s.known, h) && RootedAt(t, h);
      if t[h].Height() > 0 {
        PathStable(t, s.known, t[h].Parent());
      }
    }
  }

  /** The fields rebuilt from a prefix of the chain, with an account state that
      reads like its execution, fit its tree. */
  lemma PrefixFields(c: Crypto, s: Node, n: nat, l: Ledger)
    requires Inv(c, s) && 1 <= n <= |Chain(s)|
    requires LedgerOk(c, Chain(s)[..n], l)
    ensures var path := Chain(s)[..n];
            FieldsOk(c, TreeOf(path), path, IndexOf(path), map[], l)
  {
    hide Path, Inv, TreeOf, IndexOf, WorkTable, IdsOf, LedgerOk, IndexOk, Distinct, Linked;
    TableKeys(Chain(s)[..n]);
    PrefixIndex(c, s, n);
  }

  lemma PrefixIndex(c: Crypto, s: Node, n: nat)
    requires Inv(c, s) && n <= |Chain(s)|
    ensures IndexOk(Chain(s)[..n], IndexOf(Chain(s)[..n]))
  {
    hide Path, Inv, IndexOf, Distinct, IndexOk;
    ChainDistinct(c, s, n);
    ChainLinked(c, s);
    IndexShape(Chain(s)[..n]);
  }

  lemma PrefixInv(c: Crypto, s: Node, n: nat)
    requires Inv(c, s) && 1 <= n <= |Chain(s)|
    ensures var path := Chain(s)[..n];
            && TreeInv(c, TreeOf(path), path[n - 1].Id())
            && Path(TreeOf(path), path[n - 1].Id()) == path
  {
    hide Path, Rooted, Judged, TableOk, TreeOf;
    PrefixTree(c, s, n);
    assert Chain(s)[..n][n - 1] == Chain(s)[n - 1];
  }

  lemma PrefixWork(c: Crypto, s: Node, n: nat)
    requires Inv(c, s) && n <= |Chain(s)|
    ensures AllOff(TreeOf(Chain(s)[..n]), WorkTable(Chain(s)[..n]), 0)
  {
    hide Path, TreeOf, WorkTable, Work, Inv, Rooted, Judged, Distinct, Grows;
    var path := Chain(s)[..n];
    var t := TreeOf(path);
    PrefixTree(c, s, n);
    ChainDistinct(c, s, n);
    TreeOfShape(path);
    forall h | h in t
      ensures OffAt(t, WorkTable(path), h, 0)
    {
      assert OnPath(path, h);
      var i :| 0 <= i < |path| && path[i].Id() == h;
      WorkShape(path, i);
      Slices(Chain(s), n, i);
    }
  }

  lemma Slices(path: seq<Block>, n: nat, i: nat)
    requires i < n <= |path|
    ensures path[..n][i] == path[i] && path[..n][..i + 1] == path[..i + 1]
  {
  }

  // --- The node of a stored chain ---

  /** A node that knows exactly the first n blocks of s's chain, all on record,
      nothing pooled. */
  ghost predicate Holds(s: Node, t: Node, n: nat) {
    && n <= |Chain(s)|
    && t.known == TreeOf(Chain(s)[..n]) && t.work == WorkTable(Chain(s)[..n]) && t.seen == IdsOf(Chain(s)[..n])
    && t.tip == (if n == 0 then NullHash() else Chain(s)[n - 1].Id())
    && t.orphans == NO_ORPHANS
  }

  /** It is a sound node on that chain, every work exactly on record, and its tip
      on top of them. */
  lemma HolderSound(c: Crypto, s: Node, t: Node, n: nat)
    requires Inv(c, s) && 1 <= n && Holds(s, t, n)
    ensures Inv(c, t) && Exact(t) && Chain(t) == Chain(s)[..n] && t.known != map[]
    ensures Grows(t.known, s.known) && TopOfRecord(t) && Heaviest(t)
  {
    hide Path, Rooted, Judged, TreeOf, WorkTable, IdsOf, Work, AllOff, Recorded;
    PrefixInv(c, s, n);
    PrefixTree(c, s, n);
    PrefixWork(c, s, n);
    TableKeys(Chain(s)[..n]);
    assert Chain(s)[..n][n - 1] == Chain(s)[n - 1];
    forall h | h in t.known
      ensures Work(Path(t.known, h)) <= Work(Chain(t))
    {
      PrefixLight(c, s, t, n, h);
    }
    TopMeans(t);
    KindsApart(t);
  }

  lemma PrefixLight(c: Crypto, s: Node, t: Node, n: nat, h: Hash)
    requires Inv(c, s) && Holds(s, t, n) && h in t.known
    ensures Work(Path(t.known, h)) <= Work(Chain(s)[..n])
  {
    hide Path, TreeOf, WorkTable, IdsOf, Inv, Rooted, Judged, Distinct, Grows;
    PrefixTree(c, s, n);
    TreeOfOnly(Chain(s)[..n], h);
    var i :| 0 <= i < n && Chain(s)[..n][i].Id() == h;
    Slices(Chain(s), n, i);
    WorkGrows(Chain(s)[..n], i + 1);
  }

  // --- Earlier images of the disk ---

  /** The node a disk image describes: the chain to the tip of its time, and no
      more. */
  ghost function Imaged(s: Node, i: nat): Node
    requires i < |s.log|
  {
    var path := Path(s.known, s.log[i].tip);
    Node(TreeOf(path), s.log[i].tip, NO_ORPHANS, None, s.log[i].disk, 0, WorkTable(path), IdsOf(path), [])
  }

  /** Each image on record is the disk of a sound node on the chain of its time. */
  lemma ImagedSound(c: Crypto, s: Node, i: nat)
    requires Inv(c, s) && LogOk(s) && i < |s.log|
    ensures s.log[i].tip in s.known && Inv(c, Imaged(s, i)) && Imaged(s, i).known != map[]
    ensures Chain(Imaged(s, i)) == Path(s.known, s.log[i].tip) && DiskOk(Imaged(s, i))
    ensures Grows(Imaged(s, i).known, s.known) && Imaged(s, i).disk.genesisHash == s.disk.genesisHash
  {
    hide Path, Inv, TreeOf, WorkTable, IdsOf, Describes, Work;
    assert LoggedAt(s.known, s.log, s.disk.genesisHash, i);
    var at := AtTip(s, s.log[i].tip);
    AtTipSound(c, s, s.log[i].tip);
    var n := |Chain(at)|;
    ChainEnds(c, at);
    assert Chain(at)[..n] == Chain(at);
    assert Holds(at, Imaged(s, i), n);
    HolderSound(c, at, Imaged(s, i), n);
    ImagedDisk(c, at, s.log[i].disk, Imaged(s, i));
  }

  /** The same tree with another tip, everything on record. */
  ghost function AtTip(s: Node, h: Hash): Node {
    s.(tip := h, work := map k | k in s.known :: Work(Path(s.known, k)), seen := s.known.Keys)
  }

  lemma AtTipSound(c: Crypto, s: Node, h: Hash)
    requires Inv(c, s) && h in s.known
    ensures Inv(c, AtTip(s, h)) && Chain(AtTip(s, h)) == Path(s.known, h) && AtTip(s, h).known == s.known
  {
    hide Path, Rooted, Judged, Work, TableOk;
    var t := AtTip(s, h);
    TreeOfInv(c, s);
    forall k | k in t.known
      ensures OffAt(t.known, t.work, k, 0)
    {
    }
    assert t.work.Keys == t.known.Keys;
    ExactIsOk(t);
  }

  lemma ExactIsOk(s: Node)
    requires Exact(s)
    ensures TableOk(s)
  {
  }

  lemma ImagedDisk(c: Crypto, at: Node, d: Disk, t: Node)
    requires Inv(c, at) && Holds(at, t, |Chain(at)|) && Describes(d, Chain(at)) && t.disk == d
    requires Chain(t) == Chain(at) && t.known != map[]
    ensures DiskOk(t)
  {
    hide Path, Inv, TreeOf, WorkTable, IdsOf;
    var path := Chain(at);
    assert path[..|path|] == path;
    ChainDistinct(c, at, |path|);
    TreeOfShape(path);
    forall h | h in t.known
      ensures h in d.blocks && d.blocks[h] == t.known[h]
    {
      assert OnPath(path, h);
      var i :| 0 <= i < |path| && path[i].Id() == h;
    }
  }
}
