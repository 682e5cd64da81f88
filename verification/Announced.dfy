/** Blocks announced by peers: acceptance, and the way back into the pool for the
    transactions that a reorganisation takes off the chain.
 */
module Announcements {
  import opened Base
  import opened Ledgers
  import opened BlockTree
  import opened Validity
  import opened Consensus
  import opened Invariants
  import opened Acceptance
  import opened RecoveryNotes
  import opened ChainStates
  import opened Accept
  import opened ApplyBlocks
  import opened Runs
  import opened Outcomes
  import TxPool
  import opened Mempools

  /** A report names every one of these transactions exactly once. */
  ghost predicate Accounts(c: Crypto, report: TxPool.Report, txs: seq<Tx>) {
    multiset(report.accepted) + multiset(TxPool.RejectedIds(report.rejected)) == multiset(TxIds(c, txs))
  }

  /** What requeueing after a switch reports is just what the switch displaced. */
  lemma SwitchReported(c: Crypto, before: seq<Block>, after: seq<Block>, l: Ledger, p: seq<Tx>)
    requires Exec(c, before).Success? && |p| <= MEMPOOL_MAX && TxPool.DistinctPool(c, p)
    ensures var note := RecoveryFor(c, before, after);
            Accounts(c, TxPool.Requeued(c, l, p, note).1, note.displaced)
  {
    hide Exec, TxPool.DistinctPool, TxPool.Requeued, TxPool.Candidates, TxIds, TxPool.RejectedIds, RecoveryFor;
    TxPool.DisplacedAllOffered(c, before, after);
    TxPool.RequeuedMeans(c, l, p, RecoveryFor(c, before, after));
  }

  /** A switch between two chains through a block displaces only what the blocks
      on top of that block carry. */
  lemma DisplacedAbove(c: Crypto, known: map<Hash, Block>, k: Hash, to: Hash, h: Hash, tx: Tx)
    requires Rooted(known) && k in known && to in known
    requires OnPath(Path(known, k), h) && OnPath(Path(known, to), h)
    requires tx in RecoveryFor(c, Path(known, k), Path(known, to)).displaced
    ensures |Path(known, h)| <= |Path(known, k)| && tx in Bodies(Path(known, k)[|Path(known, h)|..])
  {
    hide Path, Rooted, OnPath;
    PathThrough(known, k, h);
    PathThrough(known, to, h);
    DisplacedBeyond(c, Path(known, k), Path(known, to), |Path(known, h)|, tx);
  }

  /** A switch between chains with the same first n blocks displaces nothing of them. */
  lemma DisplacedBeyond(c: Crypto, before: seq<Block>, after: seq<Block>, n: nat, tx: Tx)
    requires n <= |before| && n <= |after| && before[..n] == after[..n]
    requires tx in RecoveryFor(c, before, after).displaced
    ensures tx in Bodies(before[n..])
  {
    hide Fork, Bodies, Without, IdSet;
    ForkIsLongest(before, after, n);
    TxPool.SwitchAccounting(c, before, after, tx);
    BodiesBeyond(before, n, Fork(before, after), tx);
  }

  lemma BodiesBeyond(path: seq<Block>, n: nat, m: nat, tx: Tx)
    requires n <= m <= |path| && tx in Bodies(path[m..])
    ensures tx in Bodies(path[n..])
  {
    hide Bodies;
    assert path[n..][m - n..] == path[m..];
    TxPool.SuffixBodies(path[n..], m - n, tx);
  }

  lemma PathThrough(known: map<Hash, Block>, k: Hash, h: Hash)
    requires Rooted(known) && k in known && OnPath(Path(known, k), h)
    ensures |Path(known, h)| <= |Path(known, k)| && Path(known, k)[..|Path(known, h)|] == Path(known, h)
  {
    hide Path, Rooted;
    PathShape(known, k);
    var i :| 0 <= i < |Path(known, k)| && Path(known, k)[i].Id() == h;
  }

  /** A report that speaks only of what blocks on top of h carry. */
  ghost predicate ReportsAbove(c: Crypto, known: map<Hash, Block>, chain: seq<Block>, h: Hash, k: Hash,
                               report: TxPool.Report)
  {
    var gone := RecoveryFor(c, Path(known, k), chain).displaced;
    && k in known && OnPath(Path(known, k), h) && |Path(known, h)| <= |Path(known, k)|
    && Accounts(c, report, gone)
    && forall tx | tx in gone :: tx in Bodies(Path(known, k)[|Path(known, h)|..])
  }

  lemma AboveReported(c: Crypto, t: Node, h: Hash, l: Ledger, p: seq<Tx>)
    requires Inv(c, t) && t.tip in t.known && OnPath(Chain(t), h) && NoteAbove(c, t, h) && t.pending.Some?
    requires |p| <= MEMPOOL_MAX && TxPool.DistinctPool(c, p)
    ensures exists k :: ReportsAbove(c, t.known, Chain(t), h, k, TxPool.Requeued(c, l, p, t.pending.value).1)
  {
    hide Inv, Path, Exec, OnPath, RecoveryFor, TxPool.DistinctPool, TxPool.Requeued, Accounts, Bodies;
    var k :| SwitchedFrom(c, t, k, h);
    var before := Path(t.known, k);
    KnownExecutes(c, t, k);
    SwitchReported(c, before, Chain(t), l, p);
    TreeOfInv(c, t);
    PathThrough(t.known, k, h);
    forall tx | tx in RecoveryFor(c, before, Chain(t)).displaced
      ensures tx in Bodies(before[|Path(t.known, h)|..])
    {
      DisplacedAbove(c, t.known, k, t.tip, h, tx);
    }
    assert ReportsAbove(c, t.known, Chain(t), h, k, TxPool.Requeued(c, l, p, t.pending.value).1);
  }

  lemma TipOfBlock(c: Crypto, t: Node, h: Hash)
    requires Inv(c, t) && h in t.known
    ensures t.tip in t.known
  {
    hide Inv;
    TipIsKnown(c, t);
  }

  /** The note is taken: whoever asks next finds none. */
  method TakeNote(g: ChainState) returns (note: Option<Recovery>)
    requires g.Valid()
    modifies g`pendingReorgRecovery, g`abs
    ensures note == old(g.abs.pending) && g.Valid() && g.abs == old(g.abs).(pending := None)
  {
    hide Inv, PoolOk, FieldsOk, Path;
    note := g.pendingReorgRecovery;
    NoteRecovery(g, None);
  }

  /** Take in a block from a peer. If it became canonical its transactions leave
      the pool, and what a reorganisation has displaced is offered to the pool
      again. After a switch that no promoted orphan has built on, every
      transaction that only the abandoned branch held is reported exactly once,
      as pooled again or as rejected. Once a promoted orphan has moved the tip
      on, nothing of that branch is reported: at most what a later switch has
      taken off the blocks on top of this one. */
  method ImportAnnounced(g: ChainState, pool: Mempool, b: Block, peer: string)
    returns (r: AcceptResult, report: Option<TxPool.Report>)
    requires g.Valid() && g.abs.known != map[] && Proper(g.c, b) && pool.Valid() && pool.c == g.c
    modifies g, pool
    ensures g.Valid() && pool.Valid()
    ensures var (t, result) := Apply(g.c, g.w, old(g.abs), b, peer);
            && r == result && g.abs == (if r.CanonExtension? then t.(pending := None) else t)
            && if !r.CanonExtension? then report == None && pool.Txs() == old(pool.Txs())
               else
                 var left := TxPool.Dropped(g.c, old(pool.Txs()), set id | id in TxIds(g.c, b.txs));
                 match t.pending
                 case None => report == None && pool.Txs() == left
                 case Some(note) =>
                   report.Some?
                   && (pool.Txs(), report.value) == TxPool.Requeued(g.c, Ledger(g.balances, g.nonces), left, note)
    ensures r.CanonExtension? && b.Parent() != old(g.abs.tip) && g.abs.tip == b.Id() ==>
              report.Some? && Accounts(g.c, report.value, RecoveryFor(g.c, old(g.blocks), g.blocks).displaced)
    ensures r.CanonExtension? && g.abs.tip != b.Id() && report.Some? ==>
              exists k :: ReportsAbove(g.c, g.abs.known, g.blocks, b.Id(), k, report.value)
  {
    hide Inv, FieldsOk, Path, Proper, Apply, PoolProper, RecoveryFor, TxPool.Requeued, TxPool.Dropped, TxIds,
      Accounts, Exec, Trail, NoteAbove, OnPath, ReportsAbove;
    ghost var s := g.abs;
    assert Trusted(s, b);
    ChainExecutes(g.c, s);
    r := ApplyBlock(g, b, peer);
    report := None;
    if r.CanonExtension? {
      NoteSurvives(g.c, g.w, s, b, peer);
      ghost var t := g.abs;
      pool.RemoveConfirmed(TxIds(g.c, b.txs));
      var note := TakeNote(g);
      if note.Some? {
        if t.tip == b.Id() {
          SwitchReported(g.c, Chain(s), g.blocks, Ledger(g.balances, g.nonces), pool.Txs());
        } else {
          TipOfBlock(g.c, t, b.Id());
          AboveReported(g.c, t, b.Id(), Ledger(g.balances, g.nonces), pool.Txs());
        }
        var requeued := pool.RequeueAfterReorg(g, note.value);
        report := Some(requeued);
      }
    }
  }
}
