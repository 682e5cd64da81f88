/** The tree of known blocks: parent-linked paths from genesis and their work.
 */
module BlockTree {
  import opened Base

  predicate Extends(known: map<Hash, Block>, b: Block) {
    b.Parent() in known && known[b.Parent()].Height() + 1 == b.Height()
  }

  /** The blocks from the root to h, following parent links. */
  function Path(known: map<Hash, Block>, h: Hash): (path: seq<Block>)
    ensures h in known ==> |path| > 0 && path[|path| - 1] == known[h]
    decreases if h in known then known[h].Height() else 0
  {
    if h !in known then []
    else if !Extends(known, known[h]) then [known[h]]
    else Path(known, known[h].Parent()) + [known[h]]
  }

  /** A block sits under its own hash; it is genesis, or one above a known parent. */
  ghost predicate RootedAt(known: map<Hash, Block>, h: Hash) {
    && h in known
    && known[h].Id() == h
    && (known[h].Height() == 0 ==> known[h] == GenesisBlock())
    && (known[h].Height() > 0 ==> Extends(known, known[h]))
  }

  /** Keys are block hashes, genesis is the only root, and every other block
      sits one above a known parent. */
  ghost predicate Rooted(known: map<Hash, Block>) {
    forall h {:trigger RootedAt(known, h)} | h in known :: RootedAt(known, h)
  }

  ghost predicate Grows(known: map<Hash, Block>, later: map<Hash, Block>) {
    forall h | h in known :: h in later && later[h] == known[h]
  }

  /** A parent-linked chain from genesis: block i has height i. */
  ghost predicate Linked(path: seq<Block>) {
    && (forall i | 0 <= i < |path| :: path[i].Height() == i)
    && (forall i | 0 < i < |path| :: path[i].Parent() == path[i - 1].Id())
    && (|path| > 0 ==> path[0] == GenesisBlock())
  }

  lemma {:induction false} PathLinked(known: map<Hash, Block>, h: Hash)
    requires Rooted(known) && h in known
    ensures |Path(known, h)| == known[h].Height() + 1
    ensures Linked(Path(known, h))
    decreases known[h].Height()
  {
    assert RootedAt(known, h);
    if known[h].Height() > 0 {
      assert RootedAt(known, known[h].Parent());
      PathLinked(known, known[h].Parent());
    }
  }

  lemma {:induction false} PathKnown(known: map<Hash, Block>, h: Hash, i: nat)
    requires Rooted(known) && h in known && i < |Path(known, h)|
    ensures Path(known, h)[i].Id() in known && known[Path(known, h)[i].Id()] == Path(known, h)[i]
    decreases known[h].Height()
  {
    assert RootedAt(known, h);
    if known[h].Height() > 0 && i < |Path(known, h)| - 1 {
      PathKnown(known, known[h].Parent(), i);
    }
  }

  lemma {:induction false} PathPrefix(known: map<Hash, Block>, h: Hash, i: nat)
    requires Rooted(known) && h in known && i < |Path(known, h)|
    ensures Path(known, Path(known, h)[i].Id()) == Path(known, h)[..i + 1]
    decreases known[h].Height()
  {
    assert RootedAt(known, h);
    if known[h].Height() > 0 && i < |Path(known, h)| - 1 {
      PathPrefix(known, known[h].Parent(), i);
      assert Path(known, h)[..i + 1] == Path(known, known[h].Parent())[..i + 1];
    } else {
      assert Path(known, h)[..i + 1] == Path(known, h);
    }
  }

  /** Paths in a rooted tree are chains from genesis whose prefixes are the
      paths of their own blocks. */
  lemma PathShape(known: map<Hash, Block>, h: Hash)
    requires Rooted(known) && h in known
    ensures |Path(known, h)| == known[h].Height() + 1
    ensures Linked(Path(known, h))
    ensures forall i | 0 <= i < |Path(known, h)| ::
              Path(known, h)[i].Id() in known && known[Path(known, h)[i].Id()] == Path(known, h)[i]
    ensures forall i | 0 <= i < |Path(known, h)| :: Path(known, Path(known, h)[i].Id()) == Path(known, h)[..i + 1]
  {
    hide Path, Rooted;
    PathLinked(known, h);
    forall i | 0 <= i < |Path(known, h)|
      ensures Path(known, h)[i].Id() in known && known[Path(known, h)[i].Id()] == Path(known, h)[i]
      ensures Path(known, Path(known, h)[i].Id()) == Path(known, h)[..i + 1]
    {
      PathKnown(known, h, i);
      PathPrefix(known, h, i);
    }
  }

  /** Learning more blocks never changes the path of a known one. */
  lemma {:induction false} PathStable(known: map<Hash, Block>, later: map<Hash, Block>, h: Hash)
    requires Rooted(known) && Grows(known, later) && h in known
    ensures Path(later, h) == Path(known, h)
    decreases known[h].Height()
  {
    assert RootedAt(known, h);
    if known[h].Height() > 0 {
      PathStable(known, later, known[h].Parent());
    }
  }

  /** No hash occurs twice on a path. */
  lemma PathDistinct(known: map<Hash, Block>, h: Hash, i: nat, j: nat)
    requires Rooted(known) && h in known
    requires i < |Path(known, h)| && j < |Path(known, h)| && Path(known, h)[i].Id() == Path(known, h)[j].Id()
    ensures i == j
  {
    PathShape(known, h);
  }

  lemma StillKnown(known: map<Hash, Block>, later: map<Hash, Block>)
    requires known.Keys <= later.Keys && known != map[]
    ensures later != map[]
  {
    var h :| h in known;
    assert h in known.Keys;
  }

  /** The blocks of a path, found by hash. */
  ghost predicate OnPath(path: seq<Block>, h: Hash) {
    exists i :: 0 <= i < |path| && path[i].Id() == h
  }

  // --- Work ---

  /** Total difficulty of a chain. */
  function Work(path: seq<Block>): nat {
    if |path| == 0 then 0 else Work(path[..|path| - 1]) + path[|path| - 1].header.difficulty
  }

  lemma {:induction false} WorkGrows(path: seq<Block>, n: nat)
    requires n <= |path|
    ensures Work(path[..n]) <= Work(path)
  {
    if n < |path| {
      WorkGrows(path[..|path| - 1], n);
      assert path[..|path| - 1][..n] == path[..n];
    } else {
      assert path[..n] == path;
    }
  }

  /** Work always fits the 128-bit counter that stores it, because a chain
      cannot be longer than its 64-bit heights allow. */
  lemma {:induction false} WorkFits(path: seq<Block>)
    requires |path| <= U64_LIMIT
    ensures Work(path) <= |path| * (U64_LIMIT - 1) < U128_LIMIT
  {
    if |path| > 0 {
      WorkFits(path[..|path| - 1]);
      assert |path| * (U64_LIMIT - 1) == (|path| - 1) * (U64_LIMIT - 1) + (U64_LIMIT - 1);
    }
    LengthTimesLimit(|path|);
  }

  lemma LengthTimesLimit(n: nat)
    requires n <= U64_LIMIT
    ensures n * (U64_LIMIT - 1) < U128_LIMIT
  {
    assert n * (U64_LIMIT - 1) <= U64_LIMIT * (U64_LIMIT - 1);
  }

  // --- Forks ---

  /** Length of the longest common prefix. */
  function Fork(a: seq<Block>, b: seq<Block>): (n: nat)
    ensures n <= |a| && n <= |b| && a[..n] == b[..n]
    ensures n < |a| && n < |b| ==> a[n] != b[n]
  {
    if |a| == 0 || |b| == 0 || a[0] != b[0] then 0 else 1 + Fork(a[1..], b[1..])
  }

  lemma {:induction false} ForkIsLongest(a: seq<Block>, b: seq<Block>, n: nat)
    requires n <= |a| && n <= |b| && a[..n] == b[..n]
    ensures n <= Fork(a, b)
  {
    if n > 0 {
      assert a[0] == a[..n][0] && b[0] == b[..n][0];
      assert a[1..][..n - 1] == a[..n][1..] && b[1..][..n - 1] == b[..n][1..];
      ForkIsLongest(a[1..], b[1..], n - 1);
    }
  }

  lemma ForkExactly(a: seq<Block>, b: seq<Block>, n: nat)
    requires n <= |a| && n <= |b| && a[..n] == b[..n]
    requires n < |a| && n < |b| ==> a[n] != b[n]
    ensures Fork(a, b) == n
  {
    ForkIsLongest(a, b, n);
    if n < Fork(a, b) {
      SameAt(a, b, n);
    }
  }

  lemma SameAt(a: seq<Block>, b: seq<Block>, i: nat)
    requires i < Fork(a, b)
    ensures a[i] == b[i]
  {
    var m := Fork(a, b);
    assert a[i] == a[..m][i] && b[i] == b[..m][i];
  }

  /** In one tree, two paths share a block only inside their common prefix. */
  lemma ForkSeparates(known: map<Hash, Block>, g: Hash, h: Hash, i: nat)
    requires Rooted(known) && g in known && h in known
    requires i < |Path(known, h)|
    ensures OnPath(Path(known, g), Path(known, h)[i].Id()) <==> i < Fork(Path(known, g), Path(known, h))
  {
    hide Path, Fork, Rooted;
    var a, b := Path(known, g), Path(known, h);
    var n := Fork(a, b);
    if i < n {
      assert a[i] == a[..n][i] && b[i] == b[..n][i];
    }
    if OnPath(a, b[i].Id()) {
      var j :| 0 <= j < |a| && a[j].Id() == b[i].Id();
      SharedPrefix(known, g, h, j, i);
      ForkIsLongest(a, b, i + 1);
    }
  }

  lemma SharedPrefix(known: map<Hash, Block>, g: Hash, h: Hash, j: nat, i: nat)
    requires Rooted(known) && g in known && h in known
    requires j < |Path(known, g)| && i < |Path(known, h)| && Path(known, g)[j].Id() == Path(known, h)[i].Id()
    ensures j == i && Path(known, g)[..i + 1] == Path(known, h)[..i + 1]
  {
    hide Path, Rooted;
    PathLinked(known, g);
    PathLinked(known, h);
    PathKnown(known, g, j);
    PathKnown(known, h, i);
    PathPrefix(known, g, j);
    PathPrefix(known, h, i);
  }
}
