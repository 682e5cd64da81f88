/** The table of recorded work: one entry per block, written when the block is
    placed and rewritten along a branch when the node switches to it.
 */
module Works {
  import opened Base
  import opened BlockTree

  /** The work on record for a hash; without a record it counts as zero. */
  function Recorded(work: map<Hash, nat>, h: Hash): nat {
    if h in work then work[h] else 0
  }

  /** Total difficulty above position n. */
  function Above(path: seq<Block>, n: nat): nat {
    if |path| <= n then 0 else Above(path[..|path| - 1], n) + path[|path| - 1].header.difficulty
  }

  /** What a switch counts from: the work on record for the common ancestor, or
      without a record the difficulties summed up to it. */
  function StartingWork(work: map<Hash, nat>, path: seq<Block>, n: nat): nat
    requires n <= |path|
  {
    if n > 0 && path[n - 1].Id() in work then work[path[n - 1].Id()] else Work(path[..n])
  }

  /** The table after a switch to a path whose first n blocks stay. */
  function Rewritten(work: map<Hash, nat>, path: seq<Block>, n: nat, start: nat): map<Hash, nat> {
    if |path| <= n then work
    else Rewritten(work, path[..|path| - 1], n, start)[path[|path| - 1].Id() := start + Above(path, n)]
  }

  lemma {:induction false} WorkAbove(path: seq<Block>, n: nat)
    requires n <= |path|
    ensures Work(path) == Work(path[..n]) + Above(path, n)
  {
    if |path| > n {
      WorkAbove(path[..|path| - 1], n);
      assert path[..|path| - 1][..n] == path[..n];
    } else {
      assert path[..n] == path;
    }
  }

  lemma {:induction false} AbovePrefix(path: seq<Block>, n: nat, i: nat)
    requires n <= i <= |path|
    ensures Above(path[..i], n) <= Above(path, n)
  {
    if i < |path| {
      AbovePrefix(path[..|path| - 1], n, i);
      assert path[..|path| - 1][..i] == path[..i];
    } else {
      assert path[..i] == path;
    }
  }

  lemma {:induction false} RewrittenKeys(work: map<Hash, nat>, path: seq<Block>, n: nat, start: nat)
    requires forall i | n <= i < |path| :: path[i].Id() in work
    ensures Rewritten(work, path, n, start).Keys == work.Keys
  {
    if |path| > n {
      RewrittenKeys(work, path[..|path| - 1], n, start);
    }
  }

  /** Off the switched segment nothing changes. */
  lemma {:induction false} RewrittenOff(work: map<Hash, nat>, path: seq<Block>, n: nat, start: nat, h: Hash)
    requires forall i | n <= i < |path| :: path[i].Id() != h
    ensures Recorded(Rewritten(work, path, n, start), h) == Recorded(work, h)
  {
    if |path| > n {
      RewrittenOff(work, path[..|path| - 1], n, start, h);
    }
  }

  /** On it, each block gets the starting work plus what lies above the fork. */
  lemma {:induction false} RewrittenOn(work: map<Hash, nat>, path: seq<Block>, n: nat, start: nat, i: nat)
    requires n <= i < |path|
    requires forall j | i < j < |path| :: path[j].Id() != path[i].Id()
    ensures Recorded(Rewritten(work, path, n, start), path[i].Id()) == start + Above(path[..i + 1], n)
  {
    if i < |path| - 1 {
      RewrittenOn(work, path[..|path| - 1], n, start, i);
      assert path[..|path| - 1][..i + 1] == path[..i + 1];
    } else {
      assert path[..i + 1] == path;
    }
  }
}
