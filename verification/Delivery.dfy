/** In which order blocks arrive: with room in the orphan pool, a prompt clock and
    no failing write, it does not decide what a node comes to know.
 */
module Deliveries {
  import opened Base
  import opened BlockTree
  import opened Validity
  import opened OrphanPool
  import opened ChainDisk
  import opened Consensus
  import opened Tables
  import opened Invariants
  import opened WriteLog
  import opened Acceptance
  import opened Runs
  import opened Outcomes

  // --- What a node has been given ---

  ghost predicate Pooled(pool: map<Hash, seq<Orphan>>, b: Block) {
    b.Parent() in pool && exists i :: 0 <= i < |pool[b.Parent()]| && pool[b.Parent()][i].block == b
  }

  ghost predicate Among(waiting: seq<Orphan>, b: Block) {
    exists i :: 0 <= i < |waiting| && waiting[i].block == b
  }

  /** Nothing more will come of the block: it can pass nowhere, is known, or is not
      valid on its known parent. */
  ghost predicate Resolved(c: Crypto, s: Node, b: Block) {
    || Shape(c, b).Some? || b.Height() == 0 || b.Id() in s.known
    || (b.Parent() in s.known && !ValidOn(c, Path(s.known, b.Parent()), b))
  }

  ghost predicate Heard(c: Crypto, s: Node, b: Block) {
    Resolved(c, s, b) || Pooled(s.orphans.pool, b)
  }

  /** Never further than two hours ahead of the clock. */
  ghost predicate Prompt(w: World, b: Block) {
    forall n :: b.header.timestamp <= w.clock(n) + 7_200
  }

  ghost predicate AllPrompt(w: World, given: iset<Block>) {
    forall b | b in given :: Prompt(w, b)
  }

  /** Whatever is pooled was given, and whatever is known was given or known from
      the start. */
  ghost predicate Sourced(base: map<Hash, Block>, given: iset<Block>, s: Node) {
    && (forall b | Pooled(s.orphans.pool, b) :: b in given)
    && (forall h | h in s.known :: h in base || s.known[h] in given)
  }

  /** A node in the middle of a call. */
  ghost predicate Hears(c: Crypto, w: World, s: Node) {
    && Inv(c, s) && s.known != map[] && NoFailure(w)
    && Sorted(s.orphans.pool) && PoolProper(c, s.orphans.pool)
  }

  lemma ResolvedStays(c: Crypto, s: Node, t: Node, x: Block)
    requires Rooted(s.known) && Grows(s.known, t.known) && Resolved(c, s, x)
    ensures Resolved(c, t, x)
  {
    hide Path, ValidOn, Rooted, Shape;
    if x.Parent() in s.known {
      PathStable(s.known, t.known, x.Parent());
    }
  }

  // --- One step ---

  lemma AdmitHears(c: Crypto, w: World, s: Node, b: Block, peer: string, x: Block)
    requires Hears(c, w, s) && Proper(c, b) && Prompt(w, b)
    requires b.Parent() in s.known || Size(s.orphans.pool) < ORPHAN_POOL_MAX
    requires Heard(c, s, x) || x == b
    ensures Heard(c, Admit(c, w, s, b, peer).node, x)
  {
    hide Admit, Inv, Proper, Prompt, Path, Shape, ValidOn, Size, Sorted, PoolProper, Safe, Resolved, Pooled;
    assert Trusted(s, b);
    AdmitSafe(c, w, s, b, peer);
    var t := Admit(c, w, s, b, peer).node;
    SafeInv(c, w, s, t);
    TreeOfInv(c, s);
    if Resolved(c, s, x) {
      ResolvedStays(c, s, t, x);
    } else if Pooled(s.orphans.pool, x) {
      AdmitLeaves(c, w, s, b, peer, x);
    } else {
      AdmitTakes(c, w, s, b, peer);
    }
  }

  /** With room, admission leaves everything pooled where it was. */
  lemma AdmitLeaves(c: Crypto, w: World, s: Node, b: Block, peer: string, x: Block)
    requires Sorted(s.orphans.pool) && s.known != map[] && Pooled(s.orphans.pool, x)
    requires b.Parent() in s.known || Size(s.orphans.pool) < ORPHAN_POOL_MAX
    ensures Pooled(Admit(c, w, s, b, peer).node.orphans.pool, x)
  {
    hide Shape, AdmitChild, Size, AddOrphan, Sorted, ApplyGenesis, GoesFirst;
    AdmitBasics(c, w, s, b, peer);
    GenesisKeepsPool(w, s, b);
    if b.Parent() !in s.known {
      var q := AddOrphan(s.orphans, b, w.clock(s.ticks), peer);
      PooledExactly(s.orphans, b, w.clock(s.ticks), peer);
      var k, i :| Takes(s.orphans, q, b, w.clock(s.ticks), peer, k, i);
      var old_, bucket := Bucket(s.orphans.pool, x.Parent()), Bucket(q.pool, x.Parent());
      var j :| 0 <= j < |old_| && old_[j].block == x;
      assert bucket[j] == old_[j];
    }
  }

  /** The block itself is resolved or pooled. */
  lemma AdmitTakes(c: Crypto, w: World, s: Node, b: Block, peer: string)
    requires Hears(c, w, s) && Prompt(w, b)
    ensures Heard(c, Admit(c, w, s, b, peer).node, b)
  {
    hide Inv, Path, Shape, Verdict, ValidOn, AddOrphan, Integrate, Sorted, PoolProper, ApplyGenesis, Size;
    SeenKnown(c, s, b);
    if Shape(c, b) == None && b.Height() > 0 && b.Id() !in s.seen {
      if b.Parent() in s.known {
        ChildTakes(c, w, s, b);
      } else {
        PooledExactly(s.orphans, b, w.clock(s.ticks), peer);
        var q := AddOrphan(s.orphans, b, w.clock(s.ticks), peer);
        var k, i :| Takes(s.orphans, q, b, w.clock(s.ticks), peer, k, i);
        TakesLast(s.orphans, q, b, w.clock(s.ticks), peer, k, i);
      }
    }
  }

  lemma SeenKnown(c: Crypto, s: Node, b: Block)
    requires Inv(c, s)
    ensures b.Id() in s.seen ==> b.Id() in s.known
  {
    hide TreeInv, TableOk;
  }

  lemma ChildTakes(c: Crypto, w: World, s: Node, b: Block)
    requires NoFailure(w) && Prompt(w, b) && b.Parent() in s.known && Shape(c, b) == None && b.Height() > 0
    ensures Resolved(c, AdmitChild(c, w, s, b).node, b)
  {
    hide Path, Shape, Integrate, Verdict;
    PathEnds(s.known, b.Parent());
    IntegratedExactly(c, w, Tick(s), b);
    IntegrateBasics(c, w, Tick(s), b);
    assert b.header.timestamp <= w.clock(s.ticks) + 7_200;
  }

  // --- Where things come from ---

  lemma AdmitSourced(c: Crypto, w: World, s: Node, b: Block, peer: string, base: map<Hash, Block>, given: iset<Block>)
    requires Sorted(s.orphans.pool) && s.known != map[] && Sourced(base, given, s) && b in given
    ensures Sourced(base, given, Admit(c, w, s, b, peer).node)
  {
    hide Admit, Sorted, Pooled;
    var t := Admit(c, w, s, b, peer).node;
    forall x | Pooled(t.orphans.pool, x)
      ensures x in given
    {
      AdmitPools(c, w, s, b, peer, x);
    }
    forall h | h in t.known
      ensures h in base || t.known[h] in given
    {
      AdmitKnows(c, w, s, b, peer, h);
    }
  }

  lemma AdmitPools(c: Crypto, w: World, s: Node, b: Block, peer: string, x: Block)
    requires Sorted(s.orphans.pool) && s.known != map[] && Pooled(Admit(c, w, s, b, peer).node.orphans.pool, x)
    ensures Pooled(s.orphans.pool, x) || x == b
  {
    hide Shape, AdmitChild, Size, AddOrphan, Sorted, ApplyGenesis, GoesFirst;
    AdmitBasics(c, w, s, b, peer);
    GenesisKeepsPool(w, s, b);
    if b.Parent() !in s.known && !Pooled(s.orphans.pool, x) {
      var q := AddOrphan(s.orphans, b, w.clock(s.ticks), peer);
      PooledExactly(s.orphans, b, w.clock(s.ticks), peer);
      var k, i :| Takes(s.orphans, q, b, w.clock(s.ticks), peer, k, i);
      TakenFrom(s.orphans, q, b, w.clock(s.ticks), peer, k, i, x);
    }
  }

  lemma TakenFrom(o: Orphans, q: Orphans, b: Block, arrival: nat, peer: string, k: Hash, i: nat, x: Block)
    requires Takes(o, q, b, arrival, peer, k, i) && Pooled(q.pool, x)
    ensures Pooled(o.pool, x) || x == b
  {
    hide Size;
    var before, after := Bucket(o.pool, x.Parent()), Bucket(q.pool, x.Parent());
    var j :| 0 <= j < |after| && after[j].block == x;
    if x != b {
      if Size(o.pool) >= 2_000 && x.Parent() == k && j >= i {
        assert before[j + 1] == after[j];
      } else {
        assert before[j] == after[j];
      }
    }
  }

  lemma AdmitKnows(c: Crypto, w: World, s: Node, b: Block, peer: string, h: Hash)
    requires s.known != map[] && h in Admit(c, w, s, b, peer).node.known
    ensures var t := Admit(c, w, s, b, peer).node; (h in s.known && t.known[h] == s.known[h]) || t.known[h] == b
  {
    hide Integrate, Verdict, Shape, AddOrphan, Path;
    IntegrateBasics(c, w, Tick(s), b);
    if Integrate(c, w, Tick(s), b).1 == Refused {
      IntegrateRefused(c, w, Tick(s), b);
    }
  }

  /** Whatever happens in a call, nothing comes to be known or pooled that was not
      before, but for what was given. */
  lemma {:induction false} ApplySourced(c: Crypto, w: World, s: Node, b: Block, peer: string, base: map<Hash, Block>,
                                        given: iset<Block>)
    requires Sorted(s.orphans.pool) && s.known != map[] && Sourced(base, given, s) && b in given
    ensures Sourced(base, given, Apply(c, w, s, b, peer).0)
    decreases Size(s.orphans.pool), 2, 0
  {
    hide Admit, Sorted, Promote, Sourced;
    AdmitBasics(c, w, s, b, peer);
    AdmitKeepsSize(c, w, s, b, peer);
    AdmitSourced(c, w, s, b, peer, base, given);
    var a := Admit(c, w, s, b, peer);
    StillKnown(s.known, a.node.known);
    if a.Integrated? {
      PromoteSourced(c, w, a.node, b.Id(), base, given);
    }
  }

  lemma {:induction false} PromoteSourced(c: Crypto, w: World, s: Node, h: Hash, base: map<Hash, Block>,
                                          given: iset<Block>)
    requires Sorted(s.orphans.pool) && h in s.known && Sourced(base, given, s)
    ensures Sourced(base, given, Promote(c, w, s, h))
    decreases Size(s.orphans.pool), 1, 0
  {
    hide PromoteAll, Pooled;
    if h in s.orphans.pool {
      SizeWithout(s.orphans.pool, h);
      var waiting := s.orphans.pool[h];
      forall i | 0 <= i < |waiting|
        ensures waiting[i].block in given && waiting[i].block.Parent() == h
      {
        EntryPooled(s.orphans.pool, h, i);
      }
      forall y | Pooled(s.orphans.pool - {h}, y)
        ensures y in given
      {
        PooledWithout(s.orphans.pool, h, y);
      }
      PromoteAllSourced(c, w, TakeBucket(s, h), waiting, base, given);
    }
  }

  lemma {:induction false} PromoteAllSourced(c: Crypto, w: World, s: Node, waiting: seq<Orphan>,
                                             base: map<Hash, Block>, given: iset<Block>)
    requires Sorted(s.orphans.pool) && s.known != map[] && Sourced(base, given, s)
    requires forall i | 0 <= i < |waiting| :: waiting[i].block in given && waiting[i].block.Parent() in s.known
    ensures Sourced(base, given, PromoteAll(c, w, s, waiting))
    decreases Size(s.orphans.pool) + |waiting|, 0, |waiting|
  {
    hide Apply, Pooled, Sorted;
    if |waiting| > 0 {
      var first := waiting[0];
      var t := DropReverse(s, first.block.Id());
      ApplySourced(c, w, t, first.block, first.peer, base, given);
      PromoteAllSourced(c, w, Apply(c, w, t, first.block, first.peer).0, waiting[1..], base, given);
    }
  }

  lemma {:induction false} RunSourced(c: Crypto, w: World, s: Node, inputs: seq<Input>, base: map<Hash, Block>,
                                      given: iset<Block>)
    requires Sorted(s.orphans.pool) && s.known != map[] && Sourced(base, given, s)
    requires forall i | 0 <= i < |inputs| :: inputs[i].block in given
    ensures Sourced(base, given, Run(c, w, s, inputs)) && Run(c, w, s, inputs).known != map[]
  {
    hide Apply, Sourced, Sorted;
    if |inputs| > 0 {
      var init, last := inputs[..|inputs| - 1], inputs[|inputs| - 1];
      RunSourced(c, w, s, init, base, given);
      var t := Run(c, w, s, init);
      ApplySourced(c, w, t, last.block, last.peer, base, given);
      StillKnown(t.known, Apply(c, w, t, last.block, last.peer).0.known);
    }
  }

  // --- The recursion ---

  /** What a call may count on: everything given is prompt and was given. */
  ghost predicate Fed(w: World, base: map<Hash, Block>, given: iset<Block>, s: Node) {
    Sourced(base, given, s) && AllPrompt(w, given)
  }

  lemma {:induction false} ApplyHears(c: Crypto, w: World, s: Node, b: Block, peer: string, x: Block,
                                      base: map<Hash, Block>, given: iset<Block>)
    requires Hears(c, w, s) && Fed(w, base, given, s) && Proper(c, b) && b in given
    requires b.Parent() in s.known || Size(s.orphans.pool) < ORPHAN_POOL_MAX
    requires Heard(c, s, x) || x == b
    ensures var t := Apply(c, w, s, b, peer).0; Hears(c, w, t) && Fed(w, base, given, t) && Heard(c, t, x)
    decreases Size(s.orphans.pool), 2, 0
  {
    hide Admit, Inv, Proper, Prompt, Safe, Sorted, PoolProper, Promote, Heard, Sourced;
    assert Trusted(s, b);
    AdmitSafe(c, w, s, b, peer);
    AdmitBasics(c, w, s, b, peer);
    AdmitKeepsSize(c, w, s, b, peer);
    var a := Admit(c, w, s, b, peer);
    SafeInv(c, w, s, a.node);
    StillKnown(s.known, a.node.known);
    AdmitHears(c, w, s, b, peer, x);
    AdmitSourced(c, w, s, b, peer, base, given);
    if a.Integrated? {
      PromoteHears(c, w, a.node, b.Id(), x, base, given);
    }
  }

  lemma {:induction false} PromoteHears(c: Crypto, w: World, s: Node, h: Hash, x: Block, base: map<Hash, Block>,
                                        given: iset<Block>)
    requires Hears(c, w, s) && Fed(w, base, given, s) && h in s.known && Heard(c, s, x)
    ensures var t := Promote(c, w, s, h); Hears(c, w, t) && Fed(w, base, given, t) && Heard(c, t, x)
    decreases Size(s.orphans.pool), 1, 0
  {
    hide Inv, PromoteAll, Heard, Fed, Hears;
    if h in s.orphans.pool {
      SizeWithout(s.orphans.pool, h);
      BucketTaken(c, w, s, h, x, base, given);
      PromoteAllHears(c, w, TakeBucket(s, h), s.orphans.pool[h], x, base, given);
    }
  }

  lemma BucketTaken(c: Crypto, w: World, s: Node, h: Hash, x: Block, base: map<Hash, Block>, given: iset<Block>)
    requires Hears(c, w, s) && Fed(w, base, given, s) && h in s.known && Heard(c, s, x) && h in s.orphans.pool
    ensures var t, waiting := TakeBucket(s, h), s.orphans.pool[h];
            && Hears(c, w, t) && Fed(w, base, given, t) && (Heard(c, t, x) || Among(waiting, x))
            && AllWait(c, waiting) && (forall i | 0 <= i < |waiting| :: waiting[i].block in given)
            && forall i | 0 <= i < |waiting| :: waiting[i].block.Parent() == h
  {
    hide Inv, Waits, Path, Shape, ValidOn, AllPrompt, Safe, Pooled;
    var t, waiting := TakeBucket(s, h), s.orphans.pool[h];
    SameChainSafe(c, w, s, t);
    SafeInv(c, w, s, t);
    forall i | 0 <= i < |waiting|
      ensures waiting[i].block in given && waiting[i].block.Parent() == h
    {
      EntryPooled(s.orphans.pool, h, i);
    }
    forall y
      ensures Pooled(t.orphans.pool, y) ==> Pooled(s.orphans.pool, y)
      ensures Pooled(s.orphans.pool, y) ==> Pooled(t.orphans.pool, y) || Among(waiting, y)
    {
      PooledWithout(s.orphans.pool, h, y);
    }
  }

  lemma EntryPooled(pool: map<Hash, seq<Orphan>>, h: Hash, i: nat)
    requires Sorted(pool) && h in pool && i < |pool[h]|
    ensures Pooled(pool, pool[h][i].block) && pool[h][i].block.Parent() == h
  {
  }

  lemma PooledWithout(pool: map<Hash, seq<Orphan>>, h: Hash, y: Block)
    requires h in pool
    ensures Pooled(pool - {h}, y) ==> Pooled(pool, y)
    ensures Pooled(pool, y) ==> Pooled(pool - {h}, y) || Among(pool[h], y)
  {
    if Pooled(pool, y) {
      var i :| 0 <= i < |pool[y.Parent()]| && pool[y.Parent()][i].block == y;
      assert y.Parent() != h ==> (pool - {h})[y.Parent()][i].block == y;
    }
  }

  lemma {:induction false} PromoteAllHears(c: Crypto, w: World, s: Node, waiting: seq<Orphan>, x: Block,
                                           base: map<Hash, Block>, given: iset<Block>)
    requires Hears(c, w, s) && Fed(w, base, given, s) && (Heard(c, s, x) || Among(waiting, x))
    requires AllWait(c, waiting) && forall i | 0 <= i < |waiting| :: waiting[i].block in given
    requires forall i | 0 <= i < |waiting| :: waiting[i].block.Parent() in s.known
    ensures var t := PromoteAll(c, w, s, waiting); Hears(c, w, t) && Fed(w, base, given, t) && Heard(c, t, x)
    decreases Size(s.orphans.pool) + |waiting|, 0, |waiting|
  {
    hide Inv, Apply, Proper, Heard, Sourced, Fed;
    if |waiting| == 0 {
      assert !Among(waiting, x);
    } else {
      var first := waiting[0];
      var t := DropReverse(s, first.block.Id());
      Dropped(c, w, s, first.block.Id(), x, base, given);
      assert Waits(c, first.block);
      if Among(waiting, x) {
        AmongRest(waiting, x);
      }
      var y := if Heard(c, t, x) then x else first.block;
      ApplyHears(c, w, t, first.block, first.peer, y, base, given);
      var u := Apply(c, w, t, first.block, first.peer).0;
      PromoteAllHears(c, w, u, waiting[1..], x, base, given);
    }
  }

  lemma AmongRest(waiting: seq<Orphan>, x: Block)
    requires |waiting| > 0 && Among(waiting, x)
    ensures x == waiting[0].block || Among(waiting[1..], x)
  {
    var i :| 0 <= i < |waiting| && waiting[i].block == x;
    assert i > 0 ==> waiting[1..][i - 1] == waiting[i];
  }

  lemma Dropped(c: Crypto, w: World, s: Node, h: Hash, x: Block, base: map<Hash, Block>, given: iset<Block>)
    requires Hears(c, w, s) && Fed(w, base, given, s)
    ensures var t := DropReverse(s, h);
            && Hears(c, w, t) && Fed(w, base, given, t) && (Heard(c, s, x) ==> Heard(c, t, x))
  {
    hide Inv, Path, Shape, ValidOn, AllPrompt, Pooled, Safe;
    SameChainSafe(c, w, s, DropReverse(s, h));
    SafeInv(c, w, s, DropReverse(s, h));
  }

  // --- In which order orphans are promoted ---

  /** Waiting children are submitted again in the order in which they came: those in
      front first, and the rest to what these have led to. */
  lemma {:induction false} PromotedInOrder(c: Crypto, w: World, s: Node, front: seq<Orphan>, back: seq<Orphan>)
    requires Sorted(s.orphans.pool)
    requires forall i | 0 <= i < |front| :: front[i].block.Parent() in s.known
    requires forall i | 0 <= i < |back| :: back[i].block.Parent() in s.known
    ensures forall i | 0 <= i < |front + back| :: (front + back)[i].block.Parent() in s.known
    ensures var t := PromoteAll(c, w, s, front);
            && s.known.Keys <= t.known.Keys && Sorted(t.orphans.pool)
            && PromoteAll(c, w, s, front + back) == PromoteAll(c, w, t, back)
    decreases |front|
  {
    hide Apply, Sorted;
    if |front| == 0 {
      assert front + back == back;
    } else {
      var first := front[0];
      var t := Apply(c, w, DropReverse(s, first.block.Id()), first.block, first.peer).0;
      PromotedInOrder(c, w, t, front[1..], back);
      assert (front + back)[1..] == front[1..] + back;
    }
  }

  // --- Runs ---

  /** Everything a run has to work with: what waits in the pool at the start and
      what is submitted. */
  ghost function Given(s: Node, inputs: seq<Input>): iset<Block> {
    (iset k, i | k in s.orphans.pool && 0 <= i < |s.orphans.pool[k]| :: s.orphans.pool[k][i].block)
    + (iset i | 0 <= i < |inputs| :: inputs[i].block)
  }

  lemma StartSourced(s: Node, inputs: seq<Input>)
    ensures Sourced(s.known, Given(s, inputs), s)
    ensures forall i | 0 <= i < |inputs| :: inputs[i].block in Given(s, inputs)
  {
  }

  lemma GivenWhere(c: Crypto, s: Node, inputs: seq<Input>, b: Block)
    requires Sorted(s.orphans.pool) && b in Given(s, inputs)
    ensures Heard(c, s, b) || Submitted(inputs, b)
  {
    hide Resolved;
  }

  /** One call pools at most one block more. */
  lemma ApplySize(c: Crypto, w: World, s: Node, b: Block, peer: string)
    requires Sorted(s.orphans.pool) && s.known != map[]
    ensures Size(Apply(c, w, s, b, peer).0.orphans.pool) <= Size(s.orphans.pool) + 1
  {
    hide Formed, Verdict, Path, Promote, AddOrphan, Integrate, Sorted, Takes, Last, Shape;
    AdmitBasics(c, w, s, b, peer);
    PooledExactly(s.orphans, b, w.clock(s.ticks), peer);
    GenesisKeepsPool(w, s, b);
  }

  ghost predicate Submitted(inputs: seq<Input>, x: Block) {
    exists i :: 0 <= i < |inputs| && inputs[i].block == x
  }

  lemma SubmittedSnoc(inputs: seq<Input>, x: Block)
    requires |inputs| > 0 && Submitted(inputs, x)
    ensures Submitted(inputs[..|inputs| - 1], x) || x == inputs[|inputs| - 1].block
  {
    var i :| 0 <= i < |inputs| && inputs[i].block == x;
    assert i < |inputs| - 1 ==> inputs[..|inputs| - 1][i].block == x;
  }

  /** A run in which everything is prompt, properly numbered, written, and finds
      room in the pool. */
  ghost predicate Roomy(c: Crypto, w: World, s: Node, inputs: seq<Input>, base: map<Hash, Block>, given: iset<Block>) {
    && Hears(c, w, s) && Fed(w, base, given, s) && AllProper(c, inputs)
    && (forall i | 0 <= i < |inputs| :: inputs[i].block in given)
    && Size(s.orphans.pool) + |inputs| <= ORPHAN_POOL_MAX
  }

  lemma {:induction false} RunFed(c: Crypto, w: World, s: Node, inputs: seq<Input>, base: map<Hash, Block>,
                                  given: iset<Block>)
    requires Roomy(c, w, s, inputs, base, given)
    ensures Hears(c, w, Run(c, w, s, inputs)) && Fed(w, base, given, Run(c, w, s, inputs))
    ensures Size(Run(c, w, s, inputs).orphans.pool) <= Size(s.orphans.pool) + |inputs|
  {
    hide Inv, Apply, Proper, Fed, Size, Heard;
    if |inputs| > 0 {
      var init, last := inputs[..|inputs| - 1], inputs[|inputs| - 1];
      RunFed(c, w, s, init, base, given);
      var t := Run(c, w, s, init);
      ApplyHears(c, w, t, last.block, last.peer, last.block, base, given);
      ApplySize(c, w, t, last.block, last.peer);
    }
  }

  /** Whatever a roomy run is given ends up known, waiting for a parent, or turned
      down for good. */
  lemma {:induction false} RunHears(c: Crypto, w: World, s: Node, inputs: seq<Input>, x: Block,
                                    base: map<Hash, Block>, given: iset<Block>)
    requires Roomy(c, w, s, inputs, base, given) && (Heard(c, s, x) || Submitted(inputs, x))
    ensures Heard(c, Run(c, w, s, inputs), x)
  {
    hide Inv, Apply, Proper, Fed, Size, Heard, Submitted;
    if |inputs| == 0 {
      NothingSubmitted(x);
    } else {
      var init, last := inputs[..|inputs| - 1], inputs[|inputs| - 1];
      RunFed(c, w, s, init, base, given);
      if Submitted(inputs, x) {
        SubmittedSnoc(inputs, x);
      }
      if Heard(c, s, x) || Submitted(init, x) {
        RunHears(c, w, s, init, x, base, given);
      }
      ApplyHears(c, w, Run(c, w, s, init), last.block, last.peer, x, base, given);
    }
  }

  lemma NothingSubmitted(x: Block)
    ensures !Submitted([], x)
  {
  }

  // --- What a node has come to know ---

  /** No two blocks in play carry the same hash. */
  ghost predicate Named(base: map<Hash, Block>, given: iset<Block>) {
    && (forall a, b | a in given && b in given && a.Id() == b.Id() :: a == b)
    && (forall a | a in given && a.Id() in base :: base[a.Id()] == a)
  }

  /** Whatever was given and is valid on a known parent is known. */
  ghost predicate Complete(c: Crypto, s: Node, given: iset<Block>) {
    forall b | b in given && b.Parent() in s.known && ValidOn(c, Path(s.known, b.Parent()), b) :: b.Id() in s.known
  }

  /** A tree grown over the start by nothing but what was given, and by all of it
      that it could take. */
  ghost predicate GrownFrom(c: Crypto, base: map<Hash, Block>, given: iset<Block>, s: Node) {
    && Inv(c, s) && Grows(base, s.known) && Sourced(base, given, s) && Complete(c, s, given)
  }

  lemma GenesisIn(known: map<Hash, Block>)
    requires Rooted(known) && known != map[]
    ensures GENESIS_HASH in known && known[GENESIS_HASH] == GenesisBlock()
  {
    hide Path;
    var h :| h in known;
    PathLinked(known, h);
    PathKnown(known, h, 0);
  }

  /** Two such trees hold the same blocks: each block's ancestry is in the other. */
  lemma {:induction false} KnownThere(c: Crypto, base: map<Hash, Block>, given: iset<Block>, s: Node, t: Node, h: Hash)
    requires Rooted(base) && base != map[] && Named(base, given)
    requires GrownFrom(c, base, given, s) && GrownFrom(c, base, given, t) && h in s.known
    ensures h in t.known && t.known[h] == s.known[h] && Path(t.known, h) == Path(s.known, h)
    decreases s.known[h].Height()
  {
    hide ValidOn, Proper, TableOk, SeenOk, Rooted, Judged, Path;
    GenesisIn(base);
    if h in base {
      PathStable(base, s.known, h);
      PathStable(base, t.known, h);
    } else {
      NewBlock(c, s, h);
      var b := s.known[h];
      KnownThere(c, base, given, s, t, b.Parent());
      assert b.Id() in t.known;
      KeyIsId(t.known, h);
      assert t.known[h] == b;
      PathOn(s.known, h);
      PathOn(t.known, h);
    }
  }

  lemma NewBlock(c: Crypto, s: Node, h: Hash)
    requires Inv(c, s) && h in s.known && h != GENESIS_HASH
    ensures var b := s.known[h];
            && b.Id() == h && b.Height() > 0 && Extends(s.known, b) && ValidOn(c, Path(s.known, b.Parent()), b)
  {
    hide Path, ValidOn, Proper, TableOk;
    assert RootedAt(s.known, h) && JudgedAt(c, s.known, h);
  }

  lemma PathOn(known: map<Hash, Block>, h: Hash)
    requires h in known && Extends(known, known[h])
    ensures Path(known, h) == Path(known, known[h].Parent()) + [known[h]]
  {
  }

  /** A run that had room is complete: nothing valid is left waiting. */
  lemma RunComplete(c: Crypto, w: World, s: Node, inputs: seq<Input>)
    requires Live(c, w, s) && PoolInv(s, {}) && AllProper(c, inputs) && NoFailure(w) && AllPrompt(w, Given(s, inputs))
    requires Size(s.orphans.pool) + |inputs| <= 2_000
    ensures GrownFrom(c, s.known, Given(s, inputs), Reached(c, w, s, inputs))
  {
    hide Inv, PoolInv, DiskOk, LogOk, AllOnTime, Exact, Tracked, Size, AllPrompt, Prompt, Proper, Sorted, PoolProper,
      NoFailure, ValidOn, Path, Run, Heard, Sourced;
    var given, t := Given(s, inputs), Reached(c, w, s, inputs);
    StartSourced(s, inputs);
    RunFed(c, w, s, inputs, s.known, given);
    Reachable(c, w, s, inputs);
    RunPool(c, w, s, inputs);
    forall b | b in given && b.Parent() in t.known && ValidOn(c, Path(t.known, b.Parent()), b)
      ensures b.Id() in t.known
    {
      GivenWhere(c, s, inputs, b);
      RunHears(c, w, s, inputs, b, s.known, given);
      HeardKnown(c, t, b);
    }
  }

  lemma HeardKnown(c: Crypto, t: Node, b: Block)
    requires Heard(c, t, b) && PoolInv(t, {}) && b.Parent() in t.known && ValidOn(c, Path(t.known, b.Parent()), b)
    ensures b.Id() in t.known
  {
    hide Path, Shape, Verdict, Size, Indexed, Sorted;
  }

  /** The order of arrival does not decide what a node comes to know. Two nodes that
      know the same blocks are given the same blocks, in any order, as often as one
      likes, some of them perhaps already waiting in a pool: if the pools have room,
      the clocks are prompt and no write fails, they come to know the same blocks. */
  lemma ArrivalOrder(c: Crypto, w: World, v: World, s: Node, u: Node, xs: seq<Input>, ys: seq<Input>)
    requires Live(c, w, s) && PoolInv(s, {}) && AllProper(c, xs) && NoFailure(w) && AllPrompt(w, Given(s, xs))
    requires Live(c, v, u) && PoolInv(u, {}) && AllProper(c, ys) && NoFailure(v) && AllPrompt(v, Given(u, ys))
    requires Size(s.orphans.pool) + |xs| <= 2_000 && Size(u.orphans.pool) + |ys| <= 2_000
    requires s.known == u.known && Given(s, xs) == Given(u, ys) && Named(s.known, Given(s, xs))
    ensures Reached(c, w, s, xs).known == Reached(c, v, u, ys).known
  {
    hide Inv, PoolInv, DiskOk, LogOk, AllOnTime, Exact, Tracked, Size, AllPrompt, Sorted, PoolProper, NoFailure,
      Path, Reached, GrownFrom, Given, Named, AllProper;
    RunComplete(c, w, s, xs);
    RunComplete(c, v, u, ys);
    TreeOfInv(c, s);
    var x, y := Reached(c, w, s, xs), Reached(c, v, u, ys);
    forall h
      ensures h in x.known <==> h in y.known
      ensures h in x.known ==> x.known[h] == y.known[h]
    {
      if h in x.known {
        KnownThere(c, s.known, Given(s, xs), x, y, h);
      }
      if h in y.known {
        KnownThere(c, s.known, Given(s, xs), y, x, h);
      }
    }
  }

  /** So whatever the order, the tips end with the same work unless just one of them
      ties short; and where one of the blocks is the heaviest and the records can be
      compared, both are on it, on the same chain. */
  lemma ArrivalConverges(c: Crypto, w: World, v: World, s: Node, u: Node, xs: seq<Input>, ys: seq<Input>, h: Hash)
    requires Live(c, w, s) && PoolInv(s, {}) && AllProper(c, xs) && NoFailure(w) && AllPrompt(w, Given(s, xs))
    requires Live(c, v, u) && PoolInv(u, {}) && AllProper(c, ys) && NoFailure(v) && AllPrompt(v, Given(u, ys))
    requires Size(s.orphans.pool) + |xs| <= 2_000 && Size(u.orphans.pool) + |ys| <= 2_000
    requires s.known == u.known && Given(s, xs) == Given(u, ys) && Named(s.known, Given(s, xs))
    requires TopOfRecord(s) && TopOfRecord(u)
    ensures var x, y := Reached(c, w, s, xs), Reached(c, v, u, ys);
            && (Work(Chain(x)) == Work(Chain(y)) <==> (TiedShort(x) <==> TiedShort(y)))
            && (UniquelyHeaviest(x.known, h) && Even(s, x) && Even(u, y) ==>
                  x.tip == h && y.tip == h && Chain(x) == Chain(y))
  {
    hide Live, PoolInv, Size, AllPrompt, NoFailure, Path, Reached, Given, Named, AllProper, Work, TiedShort, Even,
      TopOfRecord, UniquelyHeaviest;
    ArrivalOrder(c, w, v, s, u, xs, ys);
    SameWork(c, w, v, s, u, xs, ys);
    if UniquelyHeaviest(Reached(c, w, s, xs).known, h) {
      Convergence(c, w, v, s, u, xs, ys, h);
    }
  }

  // --- A child before its parent ---

  /** Two blocks, one on top of the other, that a node does not know and nothing
      waits for. */
  ghost predicate TwoMore(c: Crypto, s: Node, parent: Block, child: Block) {
    && Proper(c, parent) && Proper(c, child) && parent.Id() != child.Id() && child.Parent() == parent.Id()
    && parent.Id() !in s.seen && child.Id() !in s.seen && parent.Parent() in s.known
    && ValidOn(c, Path(s.known, parent.Parent()), parent)
    && ValidOn(c, Path(s.known, parent.Parent()) + [parent], child)
    && parent.Id() !in s.orphans.pool && child.Id() !in s.orphans.pool
  }

  /** Submitted before its parent, a child waits, and follows as soon as its parent
      is in: on top of the tip the node ends on the child, as it does in the other
      order. */
  lemma ChildFirst(c: Crypto, w: World, s: Node, parent: Block, child: Block, peer: string, other: string)
    requires Inv(c, s) && s.known != map[] && Sorted(s.orphans.pool) && PoolProper(c, s.orphans.pool) && NoFailure(w)
    requires TwoMore(c, s, parent, child) && parent.Parent() == s.tip && Prompt(w, parent) && Prompt(w, child)
    requires Size(s.orphans.pool) < 2_000
    ensures var early := Apply(c, w, s, child, other);
            && early.1 == StoredOrphan(child.Id())
            && Apply(c, w, early.0, parent, peer).1 == CanonExtension(parent.Height())
            && Apply(c, w, early.0, parent, peer).0.tip == child.Id()
    ensures Apply(c, w, Apply(c, w, s, parent, peer).0, child, other).0.tip == child.Id()
  {
    hide Inv, Proper, Prompt, Path, ValidOn, Sorted, PoolProper, Size, NoFailure, Apply, Formed, ExtendBy, Follows,
      Promote;
    ParentUnknown(c, s, parent, child);
    ChildWaits(c, w, s, parent, child, other);
    var t := Apply(c, w, s, child, other).0;
    SameChainInv(c, w, s, t);
    ParentTaken(c, w, s, t, parent, child, peer);
    PromoteOne(c, w, ExtendBy(Tick(t), parent), parent.Id(), Orphan(child, w.clock(s.ticks), other));
    SameChainInv(c, w, s, s);
    ParentTaken(c, w, s, s, parent, child, peer);
    var placed := ExtendBy(Tick(s), parent);
    PromoteIs(c, w, placed, parent.Id());
    ApplyChild(c, w, placed, child, other);
  }

  lemma SameChainInv(c: Crypto, w: World, s: Node, t: Node)
    requires Inv(c, s) && SameChain(s, t)
    ensures Inv(c, t) && Chain(t) == Chain(s)
  {
    hide Inv, Path, Safe;
    SameChainSafe(c, w, s, t);
    SafeInv(c, w, s, t);
  }

  lemma ParentUnknown(c: Crypto, s: Node, parent: Block, child: Block)
    requires Inv(c, s) && TwoMore(c, s, parent, child)
    ensures Fit(c, s.known, parent) && child.Id() !in s.known && child.Height() > 0
  {
    hide Rooted, Judged, TableOk, Proper, Path, Shape, Verdict;
    ChildHeight(c, s.known, parent);
    GrandchildNumber(c, s, parent, child);
  }

  /** The child is proper on the chain through its parent, so it is not genesis. */
  lemma GrandchildNumber(c: Crypto, s: Node, parent: Block, child: Block)
    requires Rooted(s.known) && Judged(c, s.known) && Fit(c, s.known, parent) && Proper(c, child)
    requires child.Parent() == parent.Id() && ValidOn(c, Path(s.known, parent.Parent()) + [parent], child)
    ensures child.Id() != GENESIS_HASH
  {
    hide Rooted, Judged, Proper, Path, ValidOn;
    AddBlock(c, s.known, parent);
    ChildHeight(c, s.known[parent.Id() := parent], child);
  }

  /** With its parent unknown the child is the only one waiting for it. */
  lemma ChildWaits(c: Crypto, w: World, s: Node, parent: Block, child: Block, other: string)
    requires Sorted(s.orphans.pool) && s.known != map[] && TwoMore(c, s, parent, child)
    requires parent.Id() !in s.known && Size(s.orphans.pool) < ORPHAN_POOL_MAX
    ensures var (t, r) := Apply(c, w, s, child, other);
            && r == StoredOrphan(child.Id()) && SameChain(s, t) && Sorted(t.orphans.pool)
            && parent.Id() in t.orphans.pool
            && t.orphans.pool[parent.Id()] == [Orphan(child, w.clock(s.ticks), other)]
            && child.Id() !in t.orphans.pool
  {
    hide Proper, Path, Apply, Formed, Verdict, Size, Last, Shape;
    ShapeExactly(c, child);
    PooledMeans(c, w, s, child, other);
    var t := Apply(c, w, s, child, other).0;
    var k, i :| Takes(s.orphans, t.orphans, child, w.clock(s.ticks), other, k, i);
    assert Bucket(t.orphans.pool, parent.Id()) == [] + [Orphan(child, w.clock(s.ticks), other)];
    assert Bucket(t.orphans.pool, child.Id()) == [];
  }

  /** The parent goes onto the tip, and the child is then one that follows. */
  lemma ParentTaken(c: Crypto, w: World, s: Node, t: Node, parent: Block, child: Block, peer: string)
    requires Inv(c, t) && SameChain(s, t) && Sorted(t.orphans.pool) && Chain(t) == Chain(s)
    requires TwoMore(c, s, parent, child) && Fit(c, s.known, parent) && parent.Parent() == s.tip
    requires NoFailure(w) && Prompt(w, parent) && Prompt(w, child)
    ensures var placed := ExtendBy(Tick(t), parent);
            && placed.tip == parent.Id() && parent.Id() in placed.known && placed.orphans == t.orphans
            && Follows(c, w, placed, child)
            && Apply(c, w, t, parent, peer) == (Promote(c, w, placed, parent.Id()), CanonExtension(parent.Height()))
  {
    hide Inv, Proper, Path, Apply, Fit, Promote, Sorted, Prompt, PersistExtension, Verdict, Shape;
    TickInv(c, t);
    ExtendInv(c, Tick(t), parent);
    TipAdmitted(c, w, t, parent, peer);
    ApplyWhole(c, w, t, parent, peer);
    assert child.header.timestamp <= w.clock(ExtendBy(Tick(t), parent).ticks) + 7_200 by {
      PromptAt(w, child, ExtendBy(Tick(t), parent).ticks);
    }
  }

  lemma PromptAt(w: World, b: Block, n: nat)
    requires Prompt(w, b)
    ensures b.header.timestamp <= w.clock(n) + 7_200
  {
  }

  lemma TipAdmitted(c: Crypto, w: World, t: Node, b: Block, peer: string)
    requires b.Id() !in t.seen && b.Parent() in t.known && b.Parent() == t.tip
    requires ValidOn(c, Path(t.known, b.Parent()), b) && Prompt(w, b) && NoFailure(w)
    ensures Admit(c, w, t, b, peer) == Integrated(ExtendBy(Tick(t), b), CanonExtension(b.Height()))
  {
    hide Path, Shape, Verdict, ExtendBy, StoreAside, MoveTo, AddOrphan, Outweighs;
    PathEnds(t.known, b.Parent());
    PromptAt(w, b, t.ticks);
  }

  lemma ApplyWhole(c: Crypto, w: World, s: Node, b: Block, peer: string)
    requires Sorted(s.orphans.pool) && Admit(c, w, s, b, peer).Integrated?
    ensures var a := Admit(c, w, s, b, peer);
            && Sorted(a.node.orphans.pool) && b.Id() in a.node.known
            && Apply(c, w, s, b, peer) == (Promote(c, w, a.node, b.Id()), a.result)
  {
    hide Admit, Promote, Sorted;
    AdmitBasics(c, w, s, b, peer);
  }
}
