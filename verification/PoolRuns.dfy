/** Whole histories of the pool: any admissions and confirmations, in any order,
    with a requeue as one of the ways they come.
 */
module PoolRuns {
  import opened Base
  import opened KeyOrder
  import opened Ledgers
  import opened Consensus
  import opened TxPool
  import opened Admissions
  import opened Mempools

  /** What happens to the pool under its lock: one transaction is offered for
      admission, or some ids are confirmed. */
  datatype PoolEvent = Offer(tx: Tx, current: u64) | Confirm(ids: seq<string>)

  function PoolStep(c: Crypto, p: seq<Tx>, e: PoolEvent): seq<Tx> {
    match e
    case Offer(tx, current) => Admitted(c, current, p, tx)
    case Confirm(ids) => Dropped(c, p, set id | id in ids)
  }

  function PoolRun(c: Crypto, p: seq<Tx>, events: seq<PoolEvent>): seq<Tx> {
    if |events| == 0 then p else PoolStep(c, PoolRun(c, p, events[..|events| - 1]), events[|events| - 1])
  }

  /** No event from the i-th on confirms this id. */
  ghost predicate Unconfirmed(events: seq<PoolEvent>, i: nat, id: string) {
    forall j | i <= j < |events| :: events[j].Confirm? ==> id !in events[j].ids
  }

  /** Offered while its nonce was its sender's next or the one after, able to pass
      without account state, and not confirmed since. */
  ghost predicate OfferedAt(c: Crypto, events: seq<PoolEvent>, i: nat, t: Tx) {
    && i < |events| && events[i].Offer? && events[i].tx == t && Unconfirmed(events, i, c.txId(t))
    && Admissible(c, t) && events[i].current <= t.nonce <= events[i].current + 1
  }

  /** Where a pooled transaction comes from: it was there at the start and not
      confirmed since, or it was rightly offered. */
  ghost predicate Traced(c: Crypto, p: seq<Tx>, events: seq<PoolEvent>, t: Tx) {
    (t in p && Unconfirmed(events, 0, c.txId(t))) || exists i: nat :: OfferedAt(c, events, i, t)
  }

  lemma TracedOn(c: Crypto, p: seq<Tx>, events: seq<PoolEvent>, e: PoolEvent, t: Tx)
    requires Traced(c, p, events, t) && (e.Confirm? ==> c.txId(t) !in e.ids)
    ensures Traced(c, p, events + [e], t)
  {
    hide Admissible;
    if i: nat :| OfferedAt(c, events, i, t) {
      assert OfferedAt(c, events + [e], i, t);
    }
  }

  /** What one event can bring in. */
  ghost predicate Enters(c: Crypto, e: PoolEvent, t: Tx) {
    e.Offer? && t == e.tx && Admissible(c, t) && e.current <= t.nonce <= e.current + 1
  }

  lemma AdmittedEnters(c: Crypto, current: u64, p: seq<Tx>, tx: Tx)
    ensures forall t | t in Admitted(c, current, p, tx) :: t in p || Enters(c, Offer(tx, current), t)
  {
    hide Dropped, Admissible, ValidateStateless, FindSlot;
    EvaluateExactly(c, current, p, tx);
    var verdict := Evaluate(c, current, p, tx);
    if verdict.Success? && verdict.value.Replace? {
      DroppedMeans(c, p, {verdict.value.evict});
    }
  }

  /** One event: the bounds hold, and what is pooled was pooled or has just been
      offered, and is not among what has just been confirmed. */
  lemma StepMeans(c: Crypto, p: seq<Tx>, e: PoolEvent)
    requires |p| <= MEMPOOL_MAX && DistinctPool(c, p)
    ensures var q := PoolStep(c, p, e);
            && |q| <= MEMPOOL_MAX && DistinctPool(c, q) && (OnePerSlot(p) ==> OnePerSlot(q))
            && forall t | t in q :: (t in p || Enters(c, e, t)) && (e.Confirm? ==> c.txId(t) !in e.ids)
  {
    hide Admitted, Dropped, DistinctPool, OnePerSlot, Admissible;
    match e {
      case Offer(tx, current) =>
        AdmittedKeeps(c, current, p, tx);
        AdmittedEnters(c, current, p, tx);
      case Confirm(ids) => DroppedMeans(c, p, set id | id in ids);
    }
  }

  /** Over any history from a good pool, the empty one included: never more than
      the maximum, no id twice, one transaction for each sender and nonce; and
      whatever is pooled has not been confirmed since it was there at the start or
      since it passed, within its sender's nonce window, the checks that need no
      account state, signature included. */
  lemma {:induction false} PoolHistory(c: Crypto, p: seq<Tx>, events: seq<PoolEvent>)
    requires |p| <= MEMPOOL_MAX && DistinctPool(c, p)
    ensures var q := PoolRun(c, p, events);
            && |q| <= MEMPOOL_MAX && DistinctPool(c, q) && (OnePerSlot(p) ==> OnePerSlot(q))
            && forall t | t in q :: Traced(c, p, events, t)
  {
    hide PoolStep, DistinctPool, OnePerSlot, Traced;
    if |events| == 0 {
      StartTraced(c, p);
    } else {
      var init, last := events[..|events| - 1], events[|events| - 1];
      PoolHistory(c, p, init);
      var before, q := PoolRun(c, p, init), PoolRun(c, p, events);
      StepMeans(c, before, last);
      assert init + [last] == events;
      forall t | t in q
        ensures Traced(c, p, events, t)
      {
        if t in before {
          TracedOn(c, p, init, last, t);
        } else {
          JustOffered(c, p, init, last);
        }
      }
    }
  }

  lemma StartTraced(c: Crypto, p: seq<Tx>)
    ensures forall t | t in p :: Traced(c, p, [], t)
  {
  }

  lemma JustOffered(c: Crypto, p: seq<Tx>, events: seq<PoolEvent>, e: PoolEvent)
    requires e.Offer? && Enters(c, e, e.tx)
    ensures Traced(c, p, events + [e], e.tx)
  {
    hide Admissible;
    assert OfferedAt(c, events + [e], |events|, e.tx);
  }

  // --- Requeues ---

  function Offers(l: Ledger, txs: seq<Tx>): seq<PoolEvent> {
    if |txs| == 0 then []
    else Offers(l, txs[..|txs| - 1]) + [Offer(txs[|txs| - 1], l.NonceOf(txs[|txs| - 1].sender))]
  }

  /** A requeue as events: the winners are confirmed, then the candidates offered
      one by one. Between two of them others can get hold of the pool. */
  function RequeueEvents(c: Crypto, l: Ledger, recovery: Recovery): seq<PoolEvent> {
    [Confirm(SortedKeys(recovery.winning))]
    + Offers(l, Sorted(Candidates(c, recovery.displaced, recovery.winning)))
  }

  lemma {:induction false} OffersRun(c: Crypto, l: Ledger, p: seq<Tx>, txs: seq<Tx>)
    ensures PoolRun(c, p, Offers(l, txs)) == TxPool.Offered(c, l, p, txs).0
  {
    hide Admitted;
    if |txs| > 0 {
      OffersRun(c, l, p, txs[..|txs| - 1]);
    }
  }

  lemma {:induction false} RunSplits(c: Crypto, p: seq<Tx>, xs: seq<PoolEvent>, ys: seq<PoolEvent>)
    ensures PoolRun(c, p, xs + ys) == PoolRun(c, PoolRun(c, p, xs), ys)
  {
    hide PoolStep;
    if |ys| == 0 {
      assert xs + ys == xs;
    } else {
      RunSplits(c, p, xs, ys[..|ys| - 1]);
      assert (xs + ys)[..|xs + ys| - 1] == xs + ys[..|ys| - 1];
    }
  }

  /** Undisturbed, these events are the specified requeue. */
  lemma RequeueIsRun(c: Crypto, l: Ledger, p: seq<Tx>, recovery: Recovery)
    ensures PoolRun(c, p, RequeueEvents(c, l, recovery)) == Requeued(c, l, p, recovery).0
  {
    hide Dropped, TxPool.Offered, Sorted, Candidates, Offers;
    var first := [Confirm(SortedKeys(recovery.winning))];
    var candidates := Sorted(Candidates(c, recovery.displaced, recovery.winning));
    RunSplits(c, p, first, Offers(l, candidates));
    assert first[..0] == [];
    assert (set id | id in SortedKeys(recovery.winning)) == recovery.winning;
    OffersRun(c, l, Dropped(c, p, recovery.winning), candidates);
  }

  /** A history on the pool object. */
  method RunEvents(pool: Mempool, events: seq<PoolEvent>)
    requires pool.Valid()
    modifies pool
    ensures pool.Valid() && pool.Txs() == PoolRun(pool.c, old(pool.Txs()), events)
  {
    hide PoolValid, TxsOf, Admitted, Dropped;
    ghost var p := pool.Txs();
    assert events[..0] == [];
    for i := 0 to |events|
      invariant pool.Valid() && pool.Txs() == PoolRun(pool.c, p, events[..i])
    {
      assert events[..i + 1][..i] == events[..i];
      match events[i] {
        case Offer(tx, current) =>
          var _ := pool.Admit(tx, current);
        case Confirm(ids) =>
          pool.RemoveConfirmed(ids);
      }
    }
    assert events[..|events|] == events;
  }
}
