/** What the results of acceptance mean, and how long the note of a switch lasts.
 */
module Outcomes {
  import opened Base
  import opened BlockTree
  import opened Validity
  import opened OrphanPool
  import opened ChainDisk
  import opened Consensus
  import opened Tables
  import opened Invariants
  import opened WriteLog
  import opened Acceptance
  import opened RecoveryNotes

  // --- Results ---

  /** Before promotion: rejection and pooling leave the chain alone; a canonical
      result puts the block on the tip of a heavier chain; a side result leaves
      the tip. */
  ghost predicate AdmissionMeans(s: Node, b: Block, a: Admission) {
    match a
    case Settled(t, Rejected(_)) => SameChain(s, t)
    case Settled(t, StoredOrphan(h)) => SameChain(s, t) && h == b.Id() && b.Parent() !in s.known
    case Settled(t, CanonExtension(n)) =>
      n == b.Height() == 0 && t.tip == b.Id() == GENESIS_HASH && t.known == map[b.Id() := b] && s.known == map[]
    case Settled(_, SideChain(_)) => false
    case Integrated(t, CanonExtension(n)) =>
      n == b.Height() && t.known == s.known[b.Id() := b] && t.tip == b.Id() && Work(Chain(t)) > Work(Chain(s))
    case Integrated(t, SideChain(n)) =>
      n == b.Height() && t.known == s.known[b.Id() := b] && t.tip == s.tip && Chain(t) == Chain(s)
    case Integrated(_, _) => false
  }

  lemma AdmitChildMeans(c: Crypto, w: World, s: Node, b: Block)
    requires Inv(c, s) && Proper(c, b) && b.Id() !in s.seen && b.Parent() in s.known && b.Height() > 0
    requires Shape(c, b) == None
    ensures AdmissionMeans(s, b, AdmitChild(c, w, s, b))
  {
    hide Integrate, Verdict, Path, Shape, ValidOn, Proper, Work, Inv, Fit;
    ShapeHasCoinbase(c, b);
    if b.header.timestamp > s.known[b.Parent()].header.timestamp && Verdict(c, Path(s.known, b.Parent()), b).Success? {
      TickInv(c, s);
      ChildIsValid(c, s, b);
      UnseenFits(c, s, b);
      IntegrateSafe(c, w, Tick(s), b);
    }
    if Integrate(c, w, Tick(s), b).1 == Refused {
      RefusedOnly(c, w, Tick(s), b);
    }
  }

  lemma RefusedOnly(c: Crypto, w: World, s: Node, b: Block)
    requires Integrate(c, w, s, b).1 == Refused
    ensures Integrate(c, w, s, b).0 == Tick(s)
  {
    hide ExtendBy, StoreAside, MoveTo, Outweighs;
  }

  lemma AdmitMeans(c: Crypto, w: World, s: Node, b: Block, peer: string)
    requires Inv(c, s) && Proper(c, b)
    ensures AdmissionMeans(s, b, Admit(c, w, s, b, peer))
  {
    hide AdmitChild, Path, Shape, Proper, Work, Inv, AddOrphan, PersistExtension;
    if Shape(c, b) == None && b.Id() !in s.seen && b.Height() > 0 && b.Parent() in s.known {
      AdmitChildMeans(c, w, s, b);
    }
  }

  /** Of the whole call, promotions included. A side result leaves the tip where
      it was unless orphans were waiting for the block. */
  lemma ResultMeans(c: Crypto, w: World, s: Node, b: Block, peer: string)
    requires Inv(c, s) && Proper(c, b) && Trusted(s, b) && Sorted(s.orphans.pool) && PoolProper(c, s.orphans.pool)
    ensures var (t, r) := Apply(c, w, s, b, peer);
            match r
            case Rejected(_) => SameChain(s, t)
            case StoredOrphan(h) => SameChain(s, t) && h == b.Id() && b.Parent() !in s.known
            case CanonExtension(n) =>
              n == b.Height() && b.Id() in t.known
              && Work(Chain(t)) >= Work(Path(t.known, b.Id())) > Work(Chain(s))
            case SideChain(n) =>
              n == b.Height() && b.Id() in t.known
              && (b.Id() !in s.orphans.pool ==> t.tip == s.tip && Chain(t) == Chain(s))
  {
    hide Admit, Path, Proper, Work, Inv, Promote, Sorted, PoolProper, Safe;
    AdmitMeans(c, w, s, b, peer);
    AdmitBasics(c, w, s, b, peer);
    AdmitKeepsSize(c, w, s, b, peer);
    AdmitSafe(c, w, s, b, peer);
    var a := Admit(c, w, s, b, peer);
    SafeInv(c, w, s, a.node);
    if a.Integrated? {
      var t := Promote(c, w, a.node, b.Id());
      PromoteSafe(c, w, a.node, b.Id());
      SafeRises(c, w, a.node, t, b.Id());
      PromoteIs(c, w, a.node, b.Id());
    } else if a.result.CanonExtension? {
      GenesisWork(w, s, a.node, b);
    }
  }

  lemma SafeRises(c: Crypto, w: World, s: Node, t: Node, h: Hash)
    requires Inv(c, s) && Safe(c, w, s, t) && h in s.known
    ensures Inv(c, t) && h in t.known && Path(t.known, h) == Path(s.known, h)
    ensures Work(Chain(t)) >= Work(Chain(s))
  {
    hide Path, Work, Rooted, Judged, TableOk, DiskOk, Exact, Tracked, TopOfRecord, NoFailure;
    TreeOfInv(c, s);
    PathStable(s.known, t.known, h);
  }

  lemma GenesisWork(w: World, s: Node, t: Node, b: Block)
    requires s.known == map[] && t.known == map[b.Id() := b] && t.tip == b.Id() && b == GenesisBlock()
    ensures Work(Chain(t)) > Work(Chain(s))
  {
    assert Chain(t) == [b] && Chain(s) == [];
    assert [b][..0] == [];
  }

  /** A block whose parent is known is never pooled, so a promoted orphan never
      goes back and a connected branch imports without a gap. */
  lemma NeverReorphaned(c: Crypto, w: World, s: Node, b: Block, peer: string)
    requires Sorted(s.orphans.pool) && b.Parent() in s.known
    ensures !Apply(c, w, s, b, peer).1.StoredOrphan?
  {
    hide Promote, Integrate, Verdict, Path, Shape, AddOrphan;
    AdmitBasics(c, w, s, b, peer);
  }

  // --- Exactly when ---

  /** Everything acceptance asks of a block on a node with a chain. */
  ghost predicate Acceptable(c: Crypto, w: World, s: Node, b: Block) {
    && b.Id() !in s.seen && b.Parent() in s.known && ValidOn(c, Path(s.known, b.Parent()), b)
    && b.header.timestamp <= w.clock(s.ticks) + 7_200 && w.dbOk(s.ticks + 1)
  }

  /** A block is accepted exactly when it is unseen, valid on a known parent, not
      more than two hours ahead of the clock, and written. It becomes canonical
      exactly when it then extends the tip, or has more work on record than the tip
      and the write of the switch succeeds too. */
  lemma AcceptedExactly(c: Crypto, w: World, s: Node, b: Block, peer: string)
    requires Sorted(s.orphans.pool) && s.known != map[]
    ensures var r := Apply(c, w, s, b, peer).1;
            && (r.CanonExtension? || r.SideChain? <==> Acceptable(c, w, s, b))
            && (r.CanonExtension? <==>
                  && Acceptable(c, w, s, b)
                  && (b.Parent() == s.tip || (Outweighs(s, b) && w.dbOk(s.ticks + 2))))
  {
    hide Shape, Verdict, Path, Promote, AddOrphan, Integrate, Sorted;
    ApplyIs(c, w, s, b, peer);
    if b.Parent() in s.known {
      PathEnds(s.known, b.Parent());
    }
    IntegratedExactly(c, w, Tick(s), b);
    if Shape(c, b) == None && b.Height() > 0 {
      ShapeHasCoinbase(c, b);
    }
  }

  lemma IntegratedExactly(c: Crypto, w: World, s: Node, b: Block)
    ensures Integrate(c, w, s, b).1 != Refused <==> w.dbOk(s.ticks)
    ensures Integrate(c, w, s, b).1 == Extended <==>
            w.dbOk(s.ticks) && (b.Parent() == s.tip || (Outweighs(s, b) && w.dbOk(s.ticks + 1)))
  {
    hide ExtendBy, MoveTo, StoreBlock, Path, RecoveryFor;
    assert Outweighs(s, b) ==> StoreAside(s, b).ticks == s.ticks + 1;
  }

  /** A block is pooled exactly when it is well-formed, unseen and above genesis,
      and its parent is unknown. Then nothing changes but the pool, where it stands
      last in the bucket of its parent, with the reading of the clock and the peer,
      and where at most one entry, the first of the oldest, made room for it. */
  lemma PooledMeans(c: Crypto, w: World, s: Node, b: Block, peer: string)
    requires Sorted(s.orphans.pool) && s.known != map[]
    ensures var (t, r) := Apply(c, w, s, b, peer);
            && (r.StoredOrphan? <==>
                  Formed(c, b) && b.Id() !in s.seen && b.Height() > 0 && b.Parent() !in s.known)
            && (r.StoredOrphan? ==>
                  && r.hash == b.Id() && t == s.(ticks := s.ticks + 1, orphans := t.orphans)
                  && Size(t.orphans.pool) <= Size(s.orphans.pool) + 1
                  && Last(t.orphans, b, w.clock(s.ticks), peer)
                  && exists k, i :: Takes(s.orphans, t.orphans, b, w.clock(s.ticks), peer, k, i))
  {
    hide Shape, Formed, Verdict, Path, Promote, AddOrphan, Integrate, Sorted, Takes, Last;
    ShapeExactly(c, b);
    ApplyIs(c, w, s, b, peer);
    PooledExactly(s.orphans, b, w.clock(s.ticks), peer);
    var q := AddOrphan(s.orphans, b, w.clock(s.ticks), peer);
    var k, i :| Takes(s.orphans, q, b, w.clock(s.ticks), peer, k, i);
    TakesLast(s.orphans, q, b, w.clock(s.ticks), peer, k, i);
  }

  /** The block ends the bucket of its parent and is indexed there. */
  ghost predicate Last(q: Orphans, b: Block, arrival: nat, peer: string) {
    && b.Parent() in q.pool && |q.pool[b.Parent()]| > 0
    && q.pool[b.Parent()][|q.pool[b.Parent()]| - 1] == Orphan(b, arrival, peer)
    && b.Id() in q.byHash && q.byHash[b.Id()] == b.Parent()
  }

  lemma TakesLast(o: Orphans, q: Orphans, b: Block, arrival: nat, peer: string, k: Hash, i: nat)
    requires Takes(o, q, b, arrival, peer, k, i)
    ensures Last(q, b, arrival, peer)
  {
    hide GoesFirst, Size;
    assert |Bucket(q.pool, b.Parent())| > 0;
  }

  // --- The recovery note ---

  lemma IntegrateNotes(c: Crypto, w: World, s: Node, b: Block)
    requires Inv(c, s) && Fit(c, s.known, b) && Integrate(c, w, s, b).1 == Extended
    ensures var t := Integrate(c, w, s, b).0;
            t.tip == b.Id() && t.pending == NoteOf(c, b.Parent() == s.tip, Chain(s), Chain(t))
  {
    hide Inv, Fit, Path, RecoveryFor, PersistExtension, PersistReorg, StoreBlock, SwitchedWork, Outweighs;
    StoreInv(c, s, b);
    PlacedFields(c, s, b);
  }

  lemma AdmitNotes(c: Crypto, w: World, s: Node, b: Block, peer: string)
    requires Inv(c, s) && Proper(c, b) && Admit(c, w, s, b, peer).Integrated?
    requires Admit(c, w, s, b, peer).result.CanonExtension?
    ensures var t := Admit(c, w, s, b, peer).node;
            t.tip == b.Id() && t.pending == NoteOf(c, b.Parent() == s.tip, Chain(s), Chain(t))
  {
    hide Inv, Proper, Fit, Path, RecoveryFor, Integrate, Verdict, Shape, ValidOn, AddOrphan, ApplyGenesis, NoteOf;
    ShapeHasCoinbase(c, b);
    TickInv(c, s);
    ChildIsValid(c, s, b);
    UnseenFits(c, s, b);
    IntegrateNotes(c, w, Tick(s), b);
  }

  /** The note is of a switch away from a chain through h, if there is one. */
  ghost predicate NoteAbove(c: Crypto, t: Node, h: Hash) {
    t.pending == None || exists k :: SwitchedFrom(c, t, k, h)
  }

  ghost predicate SwitchedFrom(c: Crypto, t: Node, k: Hash, h: Hash) {
    && k in t.known && OnPath(Path(t.known, k), h)
    && t.pending == Some(RecoveryFor(c, Path(t.known, k), Chain(t)))
  }

  /** After a whole call, whatever its result, the note is that of the last
      placement that moved the tip. When the call put a block on the canonical
      chain, that is the block's own as long as no promoted orphan has moved the
      tip on, in particular when none was waiting for the block; and once one
      has, no note of the block's own switch is left, only at most one of a
      switch between chains through the block. */
  lemma NoteSurvives(c: Crypto, w: World, s: Node, b: Block, peer: string)
    requires Inv(c, s) && s.known != map[] && Proper(c, b)
    requires Sorted(s.orphans.pool) && PoolProper(c, s.orphans.pool)
    ensures var (t, r) := Apply(c, w, s, b, peer);
            && Trail(c, s, t)
            && (r.CanonExtension? ==>
                  && b.Id() in t.known && OnPath(Chain(t), b.Id())
                  && (b.Id() !in s.orphans.pool ==> t.tip == b.Id())
                  && if t.tip == b.Id() then t.pending == NoteOf(c, b.Parent() == s.tip, Chain(s), Chain(t))
                     else NoteAbove(c, t, b.Id()))
  {
    hide Inv, Proper, Admit, Path, PoolProper, Sorted, Promote, NoteOf, Work, Safe, Trail, Through, OnPath, NoteAbove;
    ApplyTrail(c, w, s, b, peer, b.Id());
    if Apply(c, w, s, b, peer).1.CanonExtension? {
      CanonNote(c, w, s, b, peer);
    }
  }

  lemma CanonNote(c: Crypto, w: World, s: Node, b: Block, peer: string)
    requires Inv(c, s) && s.known != map[] && Proper(c, b)
    requires Sorted(s.orphans.pool) && PoolProper(c, s.orphans.pool) && Apply(c, w, s, b, peer).1.CanonExtension?
    ensures var t := Apply(c, w, s, b, peer).0;
            && b.Id() in t.known && OnPath(Chain(t), b.Id())
            && (b.Id() !in s.orphans.pool ==> t.tip == b.Id())
            && if t.tip == b.Id() then t.pending == NoteOf(c, b.Parent() == s.tip, Chain(s), Chain(t))
               else NoteAbove(c, t, b.Id())
  {
    hide Inv, Proper, Admit, Path, PoolProper, Sorted, Promote, Apply, NoteOf, Work, Safe, Trail, Through, OnPath,
      NoteAbove;
    assert Trusted(s, b);
    ApplyIs(c, w, s, b, peer);
    AdmitBasics(c, w, s, b, peer);
    AdmitSafe(c, w, s, b, peer);
    AdmitKeepsSize(c, w, s, b, peer);
    KnownIntegrates(c, w, s, b, peer);
    AdmitNotes(c, w, s, b, peer);
    var placed := Admit(c, w, s, b, peer).node;
    var t := Promote(c, w, placed, b.Id());
    SafeInv(c, w, s, placed);
    PromoteSafe(c, w, placed, b.Id());
    SafeInv(c, w, placed, t);
    PromoteTrail(c, w, placed, b.Id(), b.Id());
    OnOwnPath(c, placed, b.Id());
    PromoteIs(c, w, placed, b.Id());
    if t.tip == placed.tip {
      StaysPut(c, w, placed, t);
      ThroughTip(placed, t, b.Id());
    } else {
      MovedOn(c, placed, t, b.Id());
    }
  }

  lemma OnOwnPath(c: Crypto, s: Node, h: Hash)
    requires Inv(c, s) && h in s.known
    ensures OnPath(Path(s.known, h), h)
  {
    hide Path, Judged, TableOk;
    TreeOfInv(c, s);
    PathEnds(s.known, h);
    assert RootedAt(s.known, h);
  }

  /** Once the tip has moved on among chains through h, so has the note. */
  lemma MovedOn(c: Crypto, s: Node, t: Node, h: Hash)
    requires Inv(c, s) && s.tip == h && h in s.known && Grows(s.known, t.known) && t.tip != s.tip
    requires Trail(c, s, t) && Through(s, t, h)
    ensures NoteAbove(c, t, h) && OnPath(Chain(t), h)
  {
    hide Path, Inv, OnPath, NoteAfter, RecoveryFor;
    OnOwnPath(c, s, h);
    TreeOfInv(c, s);
    PathStable(s.known, t.known, h);
    NoteThrough(c, t, s.tip, s.pending, Since(s, t), h);
    if t.pending.Some? {
      var k :| MoveAbove(c, t.known, k, h, t.tip, t.pending);
      assert SwitchedFrom(c, t, k, h);
    }
  }

  ghost predicate MoveAbove(c: Crypto, known: map<Hash, Block>, k: Hash, h: Hash, to: Hash, note: Option<Recovery>) {
    k in known && OnPath(Path(known, k), h) && note == Some(RecoveryFor(c, Path(known, k), Path(known, to)))
  }

  lemma {:induction false} NoteThrough(c: Crypto, t: Node, tip: Hash, note: Option<Recovery>, writes: seq<Write>,
                                       h: Hash)
    requires tip in t.known && OnPath(Path(t.known, tip), h) && TipsIn(t.known, writes)
    requires forall i | 0 <= i < |writes| :: OnPath(Path(t.known, writes[i].tip), h)
    requires TipAfter(tip, writes) != tip
    ensures var after := NoteAfter(c, t.known, tip, note, writes);
            after == None || exists k :: MoveAbove(c, t.known, k, h, TipAfter(tip, writes), after)
  {
    hide Path, OnPath, RecoveryFor;
    var init, last := writes[..|writes| - 1], writes[|writes| - 1].tip;
    var from := TipAfter(tip, init);
    if last == from {
      NoteThrough(c, t, tip, note, init, h);
    } else {
      assert from in t.known && OnPath(Path(t.known, from), h);
      var after := NoteAfter(c, t.known, tip, note, writes);
      assert after == None || MoveAbove(c, t.known, from, h, last, after);
    }
  }

  /** On a node with a chain, only an integrated block becomes canonical. */
  lemma KnownIntegrates(c: Crypto, w: World, s: Node, b: Block, peer: string)
    requires s.known != map[] && Admit(c, w, s, b, peer).result.CanonExtension?
    ensures Admit(c, w, s, b, peer).Integrated?
  {
    hide Verdict, Shape, Path, Integrate, AddOrphan;
  }

  /** A node that comes back to its own tip has its chain and its note. */
  lemma StaysPut(c: Crypto, w: World, s: Node, t: Node)
    requires Inv(c, s) && s.tip in s.known && Safe(c, w, s, t) && t.tip == s.tip
    ensures Chain(t) == Chain(s) && t.pending == s.pending
  {
    hide Rooted, Judged, TableOk, Path, Work, DiskOk, LogOk, Exact, Tracked, AllOnTime, TopOfRecord, NoFailure;
    PathStable(s.known, t.known, s.tip);
  }

  /** A waiting child is taken onto its parent, which has just become the tip. */
  ghost predicate Follows(c: Crypto, w: World, s: Node, b: Block) {
    && b.Id() !in s.seen && ValidOn(c, Chain(s), b)
    && b.header.timestamp <= w.clock(s.ticks) + MAX_FUTURE_TIMESTAMP_SECS && w.dbOk(s.ticks + 1)
  }

  /** With one orphan waiting for the block, and none for that, the note of a
      switch is wiped before any caller can take it exactly when the orphan is
      accepted. */
  lemma NoteWipedExactly(c: Crypto, w: World, s: Node, b: Block, peer: string, o: Orphan)
    requires Inv(c, s) && s.known != map[] && Proper(c, b) && b.Parent() != s.tip
    requires Sorted(s.orphans.pool) && PoolProper(c, s.orphans.pool) && Apply(c, w, s, b, peer).1.CanonExtension?
    requires b.Id() in s.orphans.pool && s.orphans.pool[b.Id()] == [o] && o.block.Id() !in s.orphans.pool
    ensures var placed, t := Admit(c, w, s, b, peer).node, Apply(c, w, s, b, peer).0;
            && placed.pending == Some(RecoveryFor(c, Chain(s), Chain(placed)))
            && t.pending == (if Follows(c, w, placed, o.block) then None else placed.pending)
            && t.tip == (if Follows(c, w, placed, o.block) then o.block else b).Id()
  {
    hide Inv, Proper, Admit, Path, PoolProper, Sorted, Promote, Apply, Work, Safe, Follows, RecoveryFor;
    ApplyIs(c, w, s, b, peer);
    assert Trusted(s, b);
    AdmitBasics(c, w, s, b, peer);
    AdmitKeepsSize(c, w, s, b, peer);
    KnownIntegrates(c, w, s, b, peer);
    AdmitNotes(c, w, s, b, peer);
    var placed := Admit(c, w, s, b, peer).node;
    PromoteIs(c, w, placed, b.Id());
    OnlyChild(c, s, b.Id(), o);
    PromoteOne(c, w, placed, b.Id(), o);
  }

  lemma ApplyIs(c: Crypto, w: World, s: Node, b: Block, peer: string)
    requires Sorted(s.orphans.pool)
    ensures Apply(c, w, s, b, peer).1 == Admit(c, w, s, b, peer).result
    ensures Admit(c, w, s, b, peer).Integrated? ==>
              var placed := Admit(c, w, s, b, peer).node;
              && Sorted(placed.orphans.pool) && b.Id() in placed.known
              && Apply(c, w, s, b, peer).0 == Promote(c, w, placed, b.Id())
  {
    hide Admit, Promote, Sorted;
    AdmitBasics(c, w, s, b, peer);
  }

  lemma OnlyChild(c: Crypto, s: Node, h: Hash, o: Orphan)
    requires Sorted(s.orphans.pool) && PoolProper(c, s.orphans.pool) && h in s.orphans.pool && s.orphans.pool[h] == [o]
    ensures o.block.Parent() == h && o.block.Height() > 0
  {
    assert s.orphans.pool[h][0] == o;
  }

  /** Promoting a single orphan that waits for the tip. */
  lemma PromoteOne(c: Crypto, w: World, s: Node, h: Hash, o: Orphan)
    requires Sorted(s.orphans.pool) && h in s.known && s.tip == h && o.block.Parent() == h && o.block.Height() > 0
    requires h in s.orphans.pool && s.orphans.pool[h] == [o] && o.block.Id() !in s.orphans.pool
    ensures var t := Promote(c, w, s, h);
            && t.pending == (if Follows(c, w, s, o.block) then None else s.pending)
            && t.tip == if Follows(c, w, s, o.block) then o.block.Id() else s.tip
  {
    hide Sorted, Path, Apply, ValidOn, Promote;
    PromoteIs(c, w, s, h);
    var u := DropReverse(TakeBucket(s, h), o.block.Id());
    assert [o][1..] == [] && [o][0] == o;
    ApplyChild(c, w, u, o.block, o.peer);
    assert PromoteAll(c, w, TakeBucket(s, h), [o]) == Apply(c, w, u, o.block, o.peer).0;
  }

  /** A child of the tip that nothing waits for. */
  lemma ApplyChild(c: Crypto, w: World, s: Node, b: Block, peer: string)
    requires Sorted(s.orphans.pool) && b.Parent() in s.known && b.Parent() == s.tip && b.Height() > 0
    requires b.Id() !in s.orphans.pool
    ensures var t := Apply(c, w, s, b, peer).0;
            && t.pending == (if Follows(c, w, s, b) then None else s.pending)
            && t.tip == if Follows(c, w, s, b) then b.Id() else s.tip
  {
    hide Sorted, Path, Shape, Verdict, PersistExtension, Promote, AddOrphan, ApplyGenesis;
    AdmitBasics(c, w, s, b, peer);
    AdmitKeepsSize(c, w, s, b, peer);
    PathEnds(s.known, b.Parent());
    var placed := Admit(c, w, s, b, peer);
    if placed.Integrated? {
      PromoteIs(c, w, placed.node, b.Id());
    }
  }
}
