/** The mempool object: a map of transactions and a queue of their ids.
 */
module Mempools {
  import opened Base
  import opened KeyOrder
  import opened Ledgers
  import opened Consensus
  import opened TxPool
  import opened ChainStates

  /** The queue without some ids. */
  function Kept(order: seq<string>, ids: set<string>): seq<string> {
    if |order| == 0 then []
    else Kept(order[..|order| - 1], ids) + if order[|order| - 1] in ids then [] else [order[|order| - 1]]
  }

  lemma {:induction false} KeptHolds(order: seq<string>, ids: set<string>, id: string)
    ensures id in Kept(order, ids) <==> id in order && id !in ids
  {
    if |order| > 0 {
      KeptHolds(order[..|order| - 1], ids, id);
      assert order == order[..|order| - 1] + [order[|order| - 1]];
    }
  }

  lemma {:induction false} KeptDistinct(order: seq<string>, ids: set<string>)
    requires forall i, j | 0 <= i < j < |order| :: order[i] != order[j]
    ensures var r := Kept(order, ids); forall i, j | 0 <= i < j < |r| :: r[i] != r[j]
    ensures |Kept(order, ids)| <= |order|
  {
    if |order| > 0 {
      var init, last := order[..|order| - 1], order[|order| - 1];
      KeptDistinct(init, ids);
      KeptHolds(init, ids, last);
      assert last !in init;
    }
  }

  lemma {:induction false} KeptTxs(c: Crypto, byId: map<string, Tx>, order: seq<string>, ids: set<string>)
    requires forall i | 0 <= i < |order| :: order[i] in byId && c.txId(byId[order[i]]) == order[i]
    ensures forall i | 0 <= i < |Kept(order, ids)| :: Kept(order, ids)[i] in byId
    ensures TxsOf(byId, Kept(order, ids)) == Dropped(c, TxsOf(byId, order), ids)
  {
    if |order| > 0 {
      var init, last := order[..|order| - 1], order[|order| - 1];
      KeptTxs(c, byId, init, ids);
      assert TxsOf(byId, order)[..|order| - 1] == TxsOf(byId, init);
    }
  }

  /** Removing ids from the map and the queue drops exactly their transactions. */
  lemma RemovedPool(c: Crypto, byId: map<string, Tx>, order: seq<string>, ids: set<string>)
    requires PoolValid(c, byId, order)
    ensures PoolValid(c, byId - ids, Kept(order, ids)) && |Kept(order, ids)| <= |order|
    ensures TxsOf(byId - ids, Kept(order, ids)) == Dropped(c, TxsOf(byId, order), ids)
  {
    hide Kept, Dropped;
    KeptDistinct(order, ids);
    KeptTxs(c, byId, order, ids);
    forall id
      ensures id in Kept(order, ids) <==> id in order && id !in ids
    {
      KeptHolds(order, ids, id);
    }
    var kept := Kept(order, ids);
    forall i | 0 <= i < |kept|
      ensures kept[i] in byId - ids
    {
      assert kept[i] in kept;
    }
  }

  lemma EvictedPool(c: Crypto, byId: map<string, Tx>, order: seq<string>)
    requires PoolValid(c, byId, order) && |order| > 0
    ensures PoolValid(c, byId - {order[0]}, order[1..])
    ensures TxsOf(byId - {order[0]}, order[1..]) == TxsOf(byId, order)[1..]
  {
    assert forall i | 0 <= i < |order| - 1 :: order[1..][i] == order[i + 1];
    forall id | id in byId && id != order[0]
      ensures id in order[1..]
    {
      var i :| 0 <= i < |order| && order[i] == id;
      assert order[1..][i - 1] == id;
    }
  }

  lemma PushedPool(c: Crypto, byId: map<string, Tx>, order: seq<string>, tx: Tx)
    requires PoolValid(c, byId, order) && c.txId(tx) !in byId
    ensures PoolValid(c, byId[c.txId(tx) := tx], order + [c.txId(tx)])
    ensures TxsOf(byId[c.txId(tx) := tx], order + [c.txId(tx)]) == TxsOf(byId, order) + [tx]
  {
  }

  class Mempool {
    const c: Crypto
    var byId: map<string, Tx>
    var order: seq<string>

    ghost predicate Valid()
      reads this
    {
      PoolValid(c, byId, order) && |order| <= MEMPOOL_MAX
    }

    /** The pooled transactions, oldest first. */
    ghost function Txs(): seq<Tx>
      requires Valid()
      reads this
    {
      TxsOf(byId, order)
    }

    constructor (c: Crypto)
      ensures Valid() && this.c == c && Txs() == []
    {
      this.c, byId, order := c, map[], [];
    }

    method InsertLocked(id: string, tx: Tx)
      requires Valid() && id == c.txId(tx) && id !in byId
      modifies this`byId, this`order
      ensures Valid() && Txs() == Inserted(old(Txs()), tx)
    {
      hide PoolValid;
      PoolSizes(c, byId, order);
      if |byId| >= MEMPOOL_MAX {
        if |order| > 0 {
          EvictedPool(c, byId, order);
          var evicted := order[0];
          order := order[1..];
          byId := byId - {evicted};
        }
      }
      PushedPool(c, byId, order, tx);
      order := order + [id];
      byId := byId[id := tx];
    }

    /** Insert without the admission policy; false if the id is already pooled. */
    method Insert(tx: Tx) returns (inserted: bool)
      requires Valid()
      modifies this`byId, this`order
      ensures Valid() && inserted == !HasId(c, old(Txs()), c.txId(tx))
      ensures Txs() == if inserted then Inserted(old(Txs()), tx) else old(Txs())
    {
      PoolDistinct(c, byId, order);
      var id := c.txId(tx);
      if id in byId {
        return false;
      }
      InsertLocked(id, tx);
      return true;
    }

    method Retain(removed: set<string>) returns (kept: seq<string>)
      ensures kept == Kept(order, removed)
    {
      kept := [];
      assert order[..0] == [];
      for i := 0 to |order|
        invariant kept == Kept(order[..i], removed)
      {
        assert order[..i + 1][..i] == order[..i];
        if order[i] !in removed {
          kept := kept + [order[i]];
        }
      }
      assert order[..|order|] == order;
    }

    /** Admit a transaction under the policy, replacing a cheaper one with the
        same sender and nonce. */
    method Admit(tx: Tx, current: u64) returns (r: Result<Decision, AdmissionError>)
      requires Valid()
      modifies this`byId, this`order
      ensures Valid()
      ensures r == Evaluate(c, current, old(Txs()), tx) && Txs() == Admitted(c, current, old(Txs()), tx)
    {
      hide PoolValid, Evaluate, TxsOf, Kept, Dropped, Inserted;
      PoolReadable(c, byId, order);
      var pending := TxsOf(byId, order);
      PoolDistinct(c, byId, order);
      EvaluateFresh(c, current, pending, tx);
      r := Evaluate(c, current, pending, tx);
      match r {
        case Failure(_) =>
        case Success(Accept) =>
          InsertLocked(c.txId(tx), tx);
        case Success(Replace(evicted)) =>
          RemovedPool(c, byId, order, {evicted});
          var kept := Retain({evicted});
          byId := byId - {evicted};
          order := kept;
          InsertLocked(c.txId(tx), tx);
      }
    }

    /** Remove ids confirmed by a block. */
    method RemoveConfirmed(ids: seq<string>)
      requires Valid()
      modifies this`byId, this`order
      ensures Valid() && Txs() == Dropped(c, old(Txs()), set id | id in ids)
    {
      hide PoolValid, TxsOf, Kept, Dropped;
      ghost var all := set id | id in ids;
      RemovedPool(c, byId, order, all);
      ghost var before := byId;
      var gone: set<string> := {};
      for i := 0 to |ids|
        invariant gone == set id | id in ids[..i]
        invariant byId == before - gone && order == old(order)
      {
        gone := gone + {ids[i]};
        byId := byId - {ids[i]};
      }
      assert ids[..|ids|] == ids;
      order := Retain(gone);
    }

    /** The oldest transactions, up to a limit. */
    method SelectForBlock(limit: nat) returns (txs: seq<Tx>)
      requires Valid()
      ensures txs == if |Txs()| > limit then Txs()[..limit] else Txs()
    {
      txs := [];
      var n := if |order| > limit then limit else |order|;
      for i := 0 to n
        invariant txs == Txs()[..i]
      {
        txs := txs + [byId[order[i]]];
      }
    }

    /** Offer the transactions a reorganisation displaced to the pool again. */
    method RequeueAfterReorg(g: ChainState, recovery: Recovery) returns (report: Report)
      requires Valid()
      modifies this`byId, this`order
      ensures Valid()
      ensures (Txs(), report) == Requeued(c, Ledger(g.balances, g.nonces), old(Txs()), recovery)
    {
      hide PoolValid, TxsOf, Dropped, Admitted, Evaluate, Offered, Sorted, Candidates;
      ghost var l := Ledger(g.balances, g.nonces);
      var winning := SortedKeys(recovery.winning);
      assert (set id | id in winning) == recovery.winning;
      RemoveConfirmed(winning);
      ghost var start := Txs();
      var candidates := Sorted(Candidates(c, recovery.displaced, recovery.winning));
      report := Report([], []);
      NothingOffered(c, l, start, candidates);
      for i := 0 to |candidates|
        invariant Valid()
        invariant (Txs(), report) == Offered(c, l, start, candidates[..i])
      {
        var tx := candidates[i];
        OfferedNext(c, l, start, candidates, i);
        var current := if tx.sender in g.nonces then g.nonces[tx.sender] else 0;
        var admitted := Admit(tx, current);
        match admitted {
          case Success(_) => report := report.(accepted := report.accepted + [c.txId(tx)]);
          case Failure(e) => report := report.(rejected := report.rejected + [(c.txId(tx), e)]);
        }
      }
      assert candidates[..|candidates|] == candidates;
    }
  }

  lemma PoolReadable(c: Crypto, byId: map<string, Tx>, order: seq<string>)
    requires PoolValid(c, byId, order)
    ensures forall i | 0 <= i < |order| :: order[i] in byId
  {
  }

  /** What the policy lets in is not pooled yet. */
  lemma EvaluateFresh(c: Crypto, current: u64, pending: seq<Tx>, tx: Tx)
    ensures Evaluate(c, current, pending, tx).Success? ==> !HasId(c, pending, c.txId(tx))
  {
  }

  lemma NothingOffered(c: Crypto, l: Ledger, p: seq<Tx>, candidates: seq<Tx>)
    ensures Offered(c, l, p, candidates[..0]) == (p, Report([], []))
  {
  }

  lemma OfferedNext(c: Crypto, l: Ledger, p: seq<Tx>, candidates: seq<Tx>, i: nat)
    requires i < |candidates|
    ensures var (q, report) := Offered(c, l, p, candidates[..i]);
            var tx := candidates[i];
            var current := l.NonceOf(tx.sender);
            Offered(c, l, p, candidates[..i + 1]) ==
            (Admitted(c, current, q, tx),
             match Evaluate(c, current, q, tx)
             case Success(_) => report.(accepted := report.accepted + [c.txId(tx)])
             case Failure(e) => report.(rejected := report.rejected + [(c.txId(tx), e)]))
  {
    hide Admitted, Evaluate;
    assert candidates[..i + 1][..i] == candidates[..i];
  }
}
