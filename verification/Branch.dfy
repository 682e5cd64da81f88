/** A valid branch on top of what a node knows: wherever the node has got to since,
    the next block of the branch is acceptable to it.
 */
module Branches {
  import opened Base
  import opened BlockTree
  import opened Validity
  import opened Consensus
  import opened Tables
  import opened Invariants
  import opened Acceptance
  import opened Outcomes
  import opened Deliveries

  ghost predicate Joined(branch: seq<Block>, i: nat)
    requires 0 < i < |branch|
  {
    branch[i].Parent() == branch[i - 1].Id()
  }

  /** Every block of the branch is valid on the ones below it. */
  ghost predicate ValidBranch(c: Crypto, below: seq<Block>, branch: seq<Block>) {
    forall i: nat {:trigger ValidAt(c, below + branch, i)} | |below| <= i < |below| + |branch| ::
      ValidAt(c, below + branch, i)
  }

  /** A branch that a node can take: linked upwards from a known block, valid, never
      ahead of the clock, and made of blocks that no others share a hash with. */
  ghost predicate Servable(c: Crypto, w: World, s: Node, given: iset<Block>, branch: seq<Block>) {
    && NoFailure(w) && Named(s.known, given)
    && (forall i | 0 <= i < |branch| :: branch[i] in given && Prompt(w, branch[i]))
    && (forall i: nat {:trigger Joined(branch, i)} | 0 < i < |branch| :: Joined(branch, i))
    && (|branch| > 0 ==>
          branch[0].Parent() in s.known && ValidBranch(c, Path(s.known, branch[0].Parent()), branch))
  }

  /** The node some time later, having been given nothing else. */
  ghost predicate Later(c: Crypto, s: Node, t: Node, given: iset<Block>) {
    Inv(c, s) && Inv(c, t) && Grows(s.known, t.known) && Sourced(s.known, given, t)
  }

  lemma BranchAt(c: Crypto, below: seq<Block>, branch: seq<Block>, j: nat)
    requires ValidBranch(c, below, branch) && j < |branch|
    ensures ValidOn(c, below + branch[..j], branch[j]) && branch[j].Height() > 0
  {
    hide Verdict, Shape;
    assert ValidAt(c, below + branch, |below| + j);
    assert (below + branch)[..|below| + j] == below + branch[..j];
  }

  lemma ServableAt(c: Crypto, w: World, s: Node, given: iset<Block>, branch: seq<Block>, j: nat)
    requires Servable(c, w, s, given, branch) && 0 < j < |branch|
    ensures branch[j].Height() > 0 && branch[j].Parent() == branch[j - 1].Id()
  {
    hide Path, NoFailure, Prompt, Named, ValidBranch;
    assert Joined(branch, j);
    BranchAt(c, Path(s.known, branch[0].Parent()), branch, j);
  }

  /** A block of the branch, once known, is itself and stands on the branch. */
  lemma {:induction false} BranchPath(c: Crypto, w: World, s: Node, t: Node, given: iset<Block>, branch: seq<Block>,
                                      j: nat)
    requires Servable(c, w, s, given, branch) && Later(c, s, t, given)
    requires j < |branch| && branch[j].Id() in t.known
    ensures t.known[branch[j].Id()] == branch[j]
    ensures Path(t.known, branch[j].Id()) == Path(s.known, branch[0].Parent()) + branch[..j + 1]
  {
    hide ValidOn, Path, Rooted, Judged, TableOk, SeenOk, Prompt, NoFailure, ValidBranch;
    var b := branch[j];
    BranchAt(c, Path(s.known, branch[0].Parent()), branch, j);
    KeyIsId(t.known, b.Id());
    assert t.known[b.Id()] == b;
    RootedHere(t.known, b.Id());
    PathOn(t.known, b.Id());
    if j == 0 {
      PathStable(s.known, t.known, b.Parent());
      assert branch[..1] == [b];
    } else {
      assert Joined(branch, j);
      BranchPath(c, w, s, t, given, branch, j - 1);
      assert branch[..j + 1] == branch[..j] + [b];
    }
  }

  lemma RootedHere(known: map<Hash, Block>, h: Hash)
    requires Rooted(known) && h in known && known[h].Height() > 0
    ensures Extends(known, known[h])
  {
    assert RootedAt(known, h);
  }

  /** The next block of the branch is acceptable, if it is not known yet. */
  lemma NextAcceptable(c: Crypto, w: World, s: Node, t: Node, given: iset<Block>, branch: seq<Block>, j: nat)
    requires Servable(c, w, s, given, branch) && Later(c, s, t, given)
    requires j < |branch| && branch[j].Id() !in t.known && (j > 0 ==> branch[j - 1].Id() in t.known)
    ensures Acceptable(c, w, t, branch[j]) && branch[j].Height() > 0
  {
    hide ValidOn, Path, Rooted, Judged, TableOk, ValidBranch;
    var below := Path(s.known, branch[0].Parent());
    BranchAt(c, below, branch, j);
    PromptAt(w, branch[j], t.ticks);
    if j == 0 {
      TreeOfInv(c, s);
      PathStable(s.known, t.known, branch[0].Parent());
      assert below + branch[..0] == below;
    } else {
      assert Joined(branch, j);
      BranchPath(c, w, s, t, given, branch, j - 1);
    }
  }

  /** What is left of a branch is such a branch for the node that it has reached. */
  lemma RestServable(c: Crypto, w: World, s: Node, t: Node, given: iset<Block>, branch: seq<Block>, m: nat)
    requires Servable(c, w, s, given, branch) && Later(c, s, t, given)
    requires m <= |branch| && (0 < m < |branch| ==> branch[m - 1].Id() in t.known)
    ensures Servable(c, w, t, given, branch[m..]) && Sourced(t.known, given, t)
  {
    hide ValidBranch, Later, NoFailure, Prompt, Path, Named, Sourced;
    var rest := branch[m..];
    NamedLater(c, s, t, given);
    OwnSource(c, s, t, given);
    assert forall i | 0 <= i < |rest| :: rest[i] == branch[m + i];
    forall i: nat | 0 < i < |rest|
      ensures Joined(rest, i)
    {
      assert Joined(branch, m + i);
    }
    if m < |branch| {
      RestStands(c, w, s, t, given, branch, m);
    }
  }

  lemma OwnSource(c: Crypto, s: Node, t: Node, given: iset<Block>)
    requires Later(c, s, t, given)
    ensures Sourced(t.known, given, t)
  {
    hide Inv, Pooled;
  }

  lemma RestStands(c: Crypto, w: World, s: Node, t: Node, given: iset<Block>, branch: seq<Block>, m: nat)
    requires Servable(c, w, s, given, branch) && Later(c, s, t, given)
    requires m < |branch| && (0 < m ==> branch[m - 1].Id() in t.known)
    ensures branch[m].Parent() in t.known && ValidBranch(c, Path(t.known, branch[m].Parent()), branch[m..])
  {
    hide Path, Rooted, Judged, TableOk, SeenOk, Prompt, NoFailure, ValidBranch, Named, Sourced;
    if m == 0 {
      TreeOfInv(c, s);
      PathStable(s.known, t.known, branch[0].Parent());
      assert branch[0..] == branch;
    } else {
      assert Joined(branch, m);
      BranchPath(c, w, s, t, given, branch, m - 1);
      SplitBranch(c, Path(s.known, branch[0].Parent()), branch, m);
    }
  }

  lemma NamedLater(c: Crypto, s: Node, t: Node, given: iset<Block>)
    requires Named(s.known, given) && Later(c, s, t, given)
    ensures Named(t.known, given)
  {
    hide Path, Judged, TableOk, SeenOk, Rooted;
    forall a | a in given && a.Id() in t.known
      ensures t.known[a.Id()] == a
    {
      KeyIsId(t.known, a.Id());
    }
  }

  lemma SplitBranch(c: Crypto, below: seq<Block>, branch: seq<Block>, m: nat)
    requires ValidBranch(c, below, branch) && m <= |branch|
    ensures ValidBranch(c, below + branch[..m], branch[m..])
  {
    hide ValidAt;
    assert below + branch[..m] + branch[m..] == below + branch;
  }
}
