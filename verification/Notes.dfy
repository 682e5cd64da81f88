/** The recovery note: what a switch of chains leaves for its caller to put back
    into the pool, and what becomes of it while orphans are promoted.
 */
module RecoveryNotes {
  import opened Base
  import opened BlockTree
  import opened Validity
  import opened OrphanPool
  import opened ChainDisk
  import opened Works
  import opened Consensus
  import opened Tables
  import opened Invariants
  import opened WriteLog
  import opened Acceptance

  /** What a canonical placement notes down: nothing for an extension, and for a
      switch what it displaces and what it confirms. */
  function NoteOf(c: Crypto, onTip: bool, before: seq<Block>, after: seq<Block>): Option<Recovery> {
    if onTip then None else Some(RecoveryFor(c, before, after))
  }

  // --- The note and the writes ---

  /** The writes since an earlier moment. */
  function Since(s: Node, t: Node): seq<Write>
    requires |s.log| <= |t.log|
  {
    t.log[|s.log|..]
  }

  function TipAfter(tip: Hash, writes: seq<Write>): Hash {
    if |writes| == 0 then tip else writes[|writes| - 1].tip
  }

  /** The note of the last placement that moved the tip, or the one from before
      if none did. */
  ghost function NoteAfter(c: Crypto, known: map<Hash, Block>, tip: Hash, note: Option<Recovery>, writes: seq<Write>)
    : Option<Recovery>
  {
    if |writes| == 0 then note
    else
      var init, last := writes[..|writes| - 1], writes[|writes| - 1].tip;
      var from := TipAfter(tip, init);
      if last == from then NoteAfter(c, known, tip, note, init)
      else NoteOf(c, last in known && known[last].Parent() == from, Path(known, from), Path(known, last))
  }

  /** The tip and the note follow from the writes in between. */
  ghost predicate Trail(c: Crypto, s: Node, t: Node) {
    && s.log <= t.log && TipsIn(t.known, Since(s, t)) && t.tip == TipAfter(s.tip, Since(s, t))
    && t.pending == NoteAfter(c, t.known, s.tip, s.pending, Since(s, t))
  }

  /** The tip has stayed on chains through a block. */
  ghost predicate Through(s: Node, t: Node, h: Hash) {
    && s.log <= t.log && OnPath(Chain(t), h)
    && forall i | 0 <= i < |Since(s, t)| :: OnPath(Path(t.known, Since(s, t)[i].tip), h)
  }

  lemma {:induction false} NoteGrows(c: Crypto, known: map<Hash, Block>, later: map<Hash, Block>, tip: Hash,
                                     note: Option<Recovery>, writes: seq<Write>)
    requires Rooted(known) && Grows(known, later) && tip in known && TipsIn(known, writes)
    ensures NoteAfter(c, later, tip, note, writes) == NoteAfter(c, known, tip, note, writes)
    ensures TipAfter(tip, writes) in known
  {
    hide Path, Rooted, NoteOf;
    if |writes| > 0 {
      var init := writes[..|writes| - 1];
      assert TipsIn(known, init);
      NoteGrows(c, known, later, tip, note, init);
      PathStable(known, later, TipAfter(tip, init));
      PathStable(known, later, writes[|writes| - 1].tip);
    }
  }

  lemma {:induction false} NoteSplits(c: Crypto, known: map<Hash, Block>, tip: Hash, note: Option<Recovery>,
                                      xs: seq<Write>, ys: seq<Write>)
    ensures TipAfter(tip, xs + ys) == TipAfter(TipAfter(tip, xs), ys)
    ensures NoteAfter(c, known, tip, note, xs + ys)
            == NoteAfter(c, known, TipAfter(tip, xs), NoteAfter(c, known, tip, note, xs), ys)
  {
    hide Path, NoteOf;
    if |ys| == 0 {
      assert xs + ys == xs;
    } else {
      var init := ys[..|ys| - 1];
      NoteSplits(c, known, tip, note, xs, init);
      assert (xs + ys)[..|xs + ys| - 1] == xs + init;
    }
  }

  lemma TrailTransitive(c: Crypto, s: Node, t: Node, u: Node)
    requires Rooted(t.known) && s.tip in t.known && Grows(t.known, u.known) && Trail(c, s, t) && Trail(c, t, u)
    ensures Trail(c, s, u)
  {
    hide Path, Rooted, NoteAfter;
    assert Since(s, u) == Since(s, t) + Since(t, u);
    NoteGrows(c, t.known, u.known, s.tip, s.pending, Since(s, t));
    NoteSplits(c, u.known, s.tip, s.pending, Since(s, t), Since(t, u));
  }

  lemma ThroughTransitive(c: Crypto, s: Node, t: Node, u: Node, h: Hash)
    requires Rooted(t.known) && Grows(t.known, u.known) && Trail(c, s, t)
    requires Through(s, t, h) && Through(t, u, h)
    ensures Through(s, u, h)
  {
    hide Path, Rooted, OnPath, NoteAfter;
    assert Since(s, u) == Since(s, t) + Since(t, u);
    forall i | 0 <= i < |Since(s, u)|
      ensures OnPath(Path(u.known, Since(s, u)[i].tip), h)
    {
      if i < |Since(s, t)| {
        PathStable(t.known, u.known, Since(s, t)[i].tip);
      }
    }
  }

  // --- One placement ---

  lemma SameTrail(c: Crypto, s: Node, t: Node, h: Hash)
    requires SameChain(s, t)
    ensures Trail(c, s, t) && (OnPath(Chain(s), h) ==> Through(s, t, h))
  {
    hide Path, OnPath;
    assert Since(s, t) == [];
  }

  /** One more write. */
  lemma OneWrite(c: Crypto, s: Node, t: Node, h: Hash)
    requires |t.log| == |s.log| + 1 && s.log <= t.log && t.tip in t.known && t.log[|s.log|].tip == t.tip
    requires t.pending == if t.tip == s.tip then s.pending
                          else NoteOf(c, t.known[t.tip].Parent() == s.tip, Path(t.known, s.tip), Chain(t))
    ensures Trail(c, s, t) && (OnPath(Chain(t), h) ==> Through(s, t, h))
  {
    hide Path, OnPath, NoteOf;
    assert Since(s, t) == [t.log[|s.log|]] && Since(s, t)[..0] == [];
    assert NoteAfter(c, t.known, s.tip, s.pending, Since(s, t)[..0]) == s.pending;
  }

  lemma StaysOn(path: seq<Block>, b: Block, h: Hash)
    ensures OnPath(path, h) ==> OnPath(path + [b], h)
  {
    if i :| 0 <= i < |path| && path[i].Id() == h {
      assert (path + [b])[i].Id() == h;
    }
  }

  lemma ExtendTrail(c: Crypto, s: Node, b: Block, h: Hash)
    requires Inv(c, s) && Fit(c, s.known, b) && b.Parent() == s.tip
    ensures Trail(c, s, ExtendBy(s, b)) && (OnPath(Chain(s), h) ==> Through(s, ExtendBy(s, b), h))
  {
    hide Path, OnPath, Inv, ValidOn, Proper, PersistExtension, Recorded, Trail, Through, RecoveryFor;
    ExtendInv(c, s, b);
    StaysOn(Chain(s), b, h);
    OneWrite(c, s, ExtendBy(s, b), h);
  }

  lemma StoreTrail(c: Crypto, s: Node, b: Block, h: Hash)
    requires Inv(c, s) && Fit(c, s.known, b)
    ensures Trail(c, s, StoreAside(s, b)) && (OnPath(Chain(s), h) ==> Through(s, StoreAside(s, b), h))
  {
    hide Path, OnPath, Inv, ValidOn, Proper, StoreBlock, Recorded, Trail, Through, RecoveryFor;
    StoreInv(c, s, b);
    TipKnownOf(c, s, b.Parent());
    OneWrite(c, s, StoreAside(s, b), h);
  }

  lemma MoveTrail(c: Crypto, s: Node, k: Hash, h: Hash)
    requires Inv(c, s) && Leaves(s, k) && s.known[k].Parent() != s.tip
    ensures Trail(c, s, MoveTo(c, s, k)) && (OnPath(Path(s.known, k), h) ==> Through(s, MoveTo(c, s, k), h))
  {
    hide Path, OnPath, Inv, PersistReorg, SwitchedWork, Trail, Through, RecoveryFor;
    MoveInv(c, s, k);
    LeavesTip(c, s, k);
    OneWrite(c, s, MoveTo(c, s, k), h);
  }

  lemma LeavesTip(c: Crypto, s: Node, k: Hash)
    requires Inv(c, s) && Leaves(s, k)
    ensures k != s.tip
  {
    hide Path, Rooted, Judged, TableOk;
    TipKnownOf(c, s, k);
    ChainEnds(c, s);
    assert OnPath(Chain(s), s.tip);
  }

  lemma IntegrateTrail(c: Crypto, w: World, s: Node, b: Block, h: Hash)
    requires Inv(c, s) && Fit(c, s.known, b)
    ensures var t := Integrate(c, w, s, b).0;
            && Trail(c, s, t)
            && (OnPath(Chain(s), h) && OnPath(Path(s.known, b.Parent()), h) ==> Through(s, t, h))
  {
    hide Inv, Fit, Path, OnPath, ExtendBy, StoreAside, MoveTo, Outweighs, Leaves, Trail, Through;
    if !w.dbOk(s.ticks) {
      SameTrail(c, s, Tick(s), h);
    } else if b.Parent() == s.tip {
      ExtendTrail(c, s, b, h);
    } else {
      SideTrail(c, w, s, b, h);
    }
  }

  lemma SideTrail(c: Crypto, w: World, s: Node, b: Block, h: Hash)
    requires Inv(c, s) && Fit(c, s.known, b) && b.Parent() != s.tip && w.dbOk(s.ticks)
    ensures var t := Integrate(c, w, s, b).0;
            && Trail(c, s, t)
            && (OnPath(Chain(s), h) && OnPath(Path(s.known, b.Parent()), h) ==> Through(s, t, h))
  {
    hide Inv, Fit, Path, OnPath, StoreAside, MoveTo, Outweighs, Leaves, Trail, Through;
    var stored, t := StoreAside(s, b), Integrate(c, w, s, b).0;
    StoreTrail(c, s, b, h);
    StoreInv(c, s, b);
    NewLeaves(c, s, b);
    PlacedFields(c, s, b);
    TipKnown(c, s, b);
    StaysOn(Path(s.known, b.Parent()), b, h);
    if Outweighs(s, b) && w.dbOk(stored.ticks) {
      MoveTrail(c, stored, b.Id(), h);
    } else {
      SameTrail(c, stored, Tick(stored), h);
    }
    TreeOfInv(c, stored);
    if t != stored {
      TrailTransitive(c, s, stored, t);
      if OnPath(Chain(s), h) && OnPath(Path(s.known, b.Parent()), h) {
        ThroughTransitive(c, s, stored, t, h);
      }
    }
  }

  lemma TipKnown(c: Crypto, s: Node, b: Block)
    requires Inv(c, s) && Fit(c, s.known, b)
    ensures s.tip in s.known && s.tip in StoreAside(s, b).known
  {
    hide Inv, ValidOn, Proper, Path, StoreBlock;
    TipKnownOf(c, s, b.Parent());
  }

  /** Before promotion. */
  lemma AdmitTrail(c: Crypto, w: World, s: Node, b: Block, peer: string, h: Hash)
    requires Inv(c, s) && s.known != map[] && Proper(c, b)
    ensures var t := Admit(c, w, s, b, peer).node;
            && Trail(c, s, t)
            && (OnPath(Chain(s), h) && b.Parent() in s.known && OnPath(Path(s.known, b.Parent()), h) ==>
                  Through(s, t, h))
  {
    hide Inv, Fit, Path, OnPath, Integrate, Verdict, Shape, ValidOn, AddOrphan, Proper, Trail, Through;
    var t := Admit(c, w, s, b, peer).node;
    if Shape(c, b) == None && b.Id() !in s.seen && b.Height() > 0 && b.Parent() in s.known {
      ChildTrail(c, w, s, b, h);
    } else {
      assert SameChain(s, t);
      SameTrail(c, s, t, h);
    }
  }

  lemma ChildTrail(c: Crypto, w: World, s: Node, b: Block, h: Hash)
    requires Inv(c, s) && Proper(c, b) && Shape(c, b) == None && b.Id() !in s.seen && b.Height() > 0
    requires b.Parent() in s.known
    ensures var t := AdmitChild(c, w, s, b).node;
            && Trail(c, s, t)
            && (OnPath(Chain(s), h) && OnPath(Path(s.known, b.Parent()), h) ==> Through(s, t, h))
  {
    hide Inv, Fit, Path, OnPath, Integrate, Verdict, Shape, ValidOn, Proper, Trail, Through;
    var t := AdmitChild(c, w, s, b).node;
    SameTrail(c, s, Tick(s), h);
    SameTrail(c, s, s, h);
    if t != s && t != Tick(s) {
      ShapeHasCoinbase(c, b);
      TickInv(c, s);
      ChildIsValid(c, s, b);
      UnseenFits(c, s, b);
      IntegrateTrail(c, w, Tick(s), b, h);
      TickedTrail(c, s, t, h);
    }
  }

  lemma TickedTrail(c: Crypto, s: Node, t: Node, h: Hash)
    requires Trail(c, Tick(s), t)
    ensures Trail(c, s, t) && (Through(Tick(s), t, h) ==> Through(s, t, h))
  {
    hide Path, OnPath, NoteAfter;
    assert |Tick(s).log| <= |t.log| ==> Since(Tick(s), t) == t.log[|s.log|..];
  }

  // --- The recursion ---

  /** A block that sits on one through h. */
  ghost predicate RestsOn(known: map<Hash, Block>, b: Block, h: Hash) {
    b.Parent() in known && OnPath(Path(known, b.Parent()), h)
  }

  lemma RestsLater(known: map<Hash, Block>, later: map<Hash, Block>, b: Block, h: Hash)
    requires Rooted(known) && Grows(known, later) && RestsOn(known, b, h)
    ensures RestsOn(later, b, h)
  {
    hide Path, Rooted, OnPath;
    PathStable(known, later, b.Parent());
  }

  ghost predicate AllRest(known: map<Hash, Block>, waiting: seq<Orphan>, h: Hash) {
    forall i | 0 <= i < |waiting| :: RestsOn(known, waiting[i].block, h)
  }

  lemma AllRestLater(known: map<Hash, Block>, later: map<Hash, Block>, waiting: seq<Orphan>, h: Hash)
    requires Rooted(known) && Grows(known, later) && AllRest(known, waiting, h)
    ensures AllRest(later, waiting, h)
  {
    hide RestsOn, Rooted, Grows;
    forall i | 0 <= i < |waiting|
      ensures RestsOn(later, waiting[i].block, h)
    {
      RestsLater(known, later, waiting[i].block, h);
    }
  }

  lemma Composed(c: Crypto, s: Node, t: Node, u: Node, h: Hash)
    requires Inv(c, s) && s.known != map[] && Inv(c, t) && Grows(s.known, t.known) && Grows(t.known, u.known)
    requires Trail(c, s, t) && Trail(c, t, u)
    ensures Trail(c, s, u) && (Through(s, t, h) && Through(t, u, h) ==> Through(s, u, h))
  {
    hide Inv, Trail, Through, Path;
    TreeOfInv(c, t);
    TipIsKnown(c, s);
    TrailTransitive(c, s, t, u);
    if Through(s, t, h) && Through(t, u, h) {
      ThroughTransitive(c, s, t, u, h);
    }
  }

  /** One outer call, promotions included: the note is that of the last placement
      that moved the tip. While everything placed rests on blocks through h, the
      tip only moves between chains through h. */
  lemma {:induction false} ApplyTrail(c: Crypto, w: World, s: Node, b: Block, peer: string, h: Hash)
    requires Inv(c, s) && s.known != map[] && Proper(c, b)
    requires Sorted(s.orphans.pool) && PoolProper(c, s.orphans.pool)
    ensures var t := Apply(c, w, s, b, peer).0;
            Trail(c, s, t) && (OnPath(Chain(s), h) && RestsOn(s.known, b, h) ==> Through(s, t, h))
    decreases Size(s.orphans.pool), 2, 0
  {
    hide Inv, Admit, Safe, Sorted, PoolProper, Proper, Promote, Trail, Through, OnPath, Path;
    assert Trusted(s, b);
    AdmitSafe(c, w, s, b, peer);
    AdmitBasics(c, w, s, b, peer);
    AdmitKeepsSize(c, w, s, b, peer);
    AdmitTrail(c, w, s, b, peer, h);
    var a := Admit(c, w, s, b, peer);
    SafeInv(c, w, s, a.node);
    if a.Integrated? {
      PromoteTrail(c, w, a.node, b.Id(), h);
      PromoteSafe(c, w, a.node, b.Id());
      SafeInv(c, w, a.node, Promote(c, w, a.node, b.Id()));
      Composed(c, s, a.node, Promote(c, w, a.node, b.Id()), h);
      if OnPath(Chain(s), h) && RestsOn(s.known, b, h) {
        PlacedThrough(c, w, s, b, peer, h);
        ThroughTip(s, a.node, h);
      }
    }
  }

  lemma ThroughTip(s: Node, t: Node, h: Hash)
    requires Through(s, t, h)
    ensures OnPath(Chain(t), h)
  {
  }

  /** A placed block whose parent is on a chain through h is on one itself. */
  lemma PlacedThrough(c: Crypto, w: World, s: Node, b: Block, peer: string, h: Hash)
    requires Inv(c, s) && Proper(c, b) && RestsOn(s.known, b, h) && Admit(c, w, s, b, peer).Integrated?
    ensures var t := Admit(c, w, s, b, peer).node; b.Id() in t.known && OnPath(Path(t.known, b.Id()), h)
  {
    hide Inv, Proper, Path, OnPath, Integrate, Verdict, Shape, ValidOn, AddOrphan, ApplyGenesis, Fit;
    ShapeHasCoinbase(c, b);
    TickInv(c, s);
    ChildIsValid(c, s, b);
    UnseenFits(c, s, b);
    IntegrateBasics(c, w, Tick(s), b);
    GrownPath(c, s, b);
    StaysOn(Path(s.known, b.Parent()), b, h);
  }

  lemma GrownPath(c: Crypto, s: Node, b: Block)
    requires Inv(c, s) && Fit(c, s.known, b)
    ensures Path(s.known[b.Id() := b], b.Id()) == Path(s.known, b.Parent()) + [b]
  {
    hide Path, ValidOn, Proper, TableOk, Rooted, Judged;
    TreeOfInv(c, s);
    AddBlock(c, s.known, b);
  }

  lemma {:induction false} PromoteTrail(c: Crypto, w: World, s: Node, k: Hash, h: Hash)
    requires Inv(c, s) && Sorted(s.orphans.pool) && PoolProper(c, s.orphans.pool) && k in s.known
    ensures var t := Promote(c, w, s, k);
            Trail(c, s, t) && (OnPath(Chain(s), h) && OnPath(Path(s.known, k), h) ==> Through(s, t, h))
    decreases Size(s.orphans.pool), 1, 0
  {
    hide Inv, Safe, PromoteAll, Trail, Through, OnPath, Path;
    if k in s.orphans.pool {
      SizeWithout(s.orphans.pool, k);
      var t, u := TakeBucket(s, k), Promote(c, w, s, k);
      SameTrail(c, s, t, h);
      SameChainSafe(c, w, s, t);
      SafeInv(c, w, s, t);
      PromoteAllTrail(c, w, t, s.orphans.pool[k], h);
      PromoteAllSafe(c, w, t, s.orphans.pool[k]);
      SafeInv(c, w, t, u);
      Composed(c, s, t, u, h);
    } else {
      SameTrail(c, s, s, h);
    }
  }

  lemma {:induction false} PromoteAllTrail(c: Crypto, w: World, s: Node, waiting: seq<Orphan>, h: Hash)
    requires Inv(c, s) && Sorted(s.orphans.pool) && PoolProper(c, s.orphans.pool) && s.known != map[]
    requires forall i | 0 <= i < |waiting| :: waiting[i].block.Parent() in s.known
    requires AllWait(c, waiting)
    ensures var t := PromoteAll(c, w, s, waiting);
            Trail(c, s, t) && (OnPath(Chain(s), h) && AllRest(s.known, waiting, h) ==> Through(s, t, h))
    decreases Size(s.orphans.pool) + |waiting|, 0, |waiting|
  {
    hide Safe, Inv, Apply, Proper, Trail, Through, OnPath, Path, RestsOn;
    if |waiting| == 0 {
      SameTrail(c, s, s, h);
    } else {
      var first := waiting[0];
      var t := DropReverse(s, first.block.Id());
      SameTrail(c, s, t, h);
      SameChainSafe(c, w, s, t);
      SafeInv(c, w, s, t);
      assert Waits(c, first.block);
      ApplyTrail(c, w, t, first.block, first.peer, h);
      assert Trusted(t, first.block);
      ApplySafe(c, w, t, first.block, first.peer);
      var u := Apply(c, w, t, first.block, first.peer).0;
      SafeInv(c, w, t, u);
      StillKnown(t.known, u.known);
      Composed(c, s, t, u, h);
      RestOfTrail(c, w, s, u, waiting, h);
    }
  }

  lemma {:induction false} RestOfTrail(c: Crypto, w: World, s: Node, u: Node, waiting: seq<Orphan>, h: Hash)
    requires Inv(c, s) && s.known != map[] && |waiting| > 0 && AllWait(c, waiting)
    requires Inv(c, u) && Sorted(u.orphans.pool) && PoolProper(c, u.orphans.pool) && u.known != map[]
    requires forall i | 0 <= i < |waiting| :: waiting[i].block.Parent() in u.known
    requires Grows(s.known, u.known) && Trail(c, s, u)
    requires OnPath(Chain(s), h) && AllRest(s.known, waiting, h) ==> Through(s, u, h)
    ensures var v := PromoteAll(c, w, u, waiting[1..]);
            Trail(c, s, v) && (OnPath(Chain(s), h) && AllRest(s.known, waiting, h) ==> Through(s, v, h))
    decreases Size(u.orphans.pool) + |waiting| - 1, 1, |waiting|
  {
    hide Safe, Inv, Apply, Proper, Trail, OnPath, Path, RestsOn;
    PromoteAllTrail(c, w, u, waiting[1..], h);
    PromoteAllSafe(c, w, u, waiting[1..]);
    var v := PromoteAll(c, w, u, waiting[1..]);
    SafeInv(c, w, u, v);
    Composed(c, s, u, v, h);
    if OnPath(Chain(s), h) && AllRest(s.known, waiting, h) {
      TreeOfInv(c, s);
      AllRestLater(s.known, u.known, waiting, h);
    }
  }
}
