/** What the pool admits and where everything in it stands afterwards, stated
    without the order in which the policy looks.
 */
module Admissions {
  import opened Base
  import opened KeyOrder
  import opened Ledgers
  import opened Accounts
  import opened TxPool

  // --- What is admitted ---

  /** What passes without account state: an authorised transfer, whatever its tip,
      or anything small that calls itself a coinbase. */
  ghost predicate Admissible(c: Crypto, tx: Tx) {
    || Authorised(c, tx)
    || (c.txSize(tx) <= 65_536 && tx.moduleName == "coinbase" && tx.methodName == "reward")
  }

  /** The k-th pooled transaction is the first with this sender and nonce. */
  ghost predicate HoldsSlot(p: seq<Tx>, k: int, tx: Tx) {
    0 <= k < |p| && SameSlot(p[k], tx) && forall j | 0 <= j < k :: !SameSlot(p[j], tx)
  }

  lemma {:induction false} FindSlotFirst(p: seq<Tx>, tx: Tx)
    ensures FindSlot(p, tx).None? ==> forall k :: !HoldsSlot(p, k, tx)
    ensures FindSlot(p, tx).Some? ==> exists k :: HoldsSlot(p, k, tx)
    ensures forall k | HoldsSlot(p, k, tx) :: FindSlot(p, tx) == Some(p[k])
  {
    if |p| > 0 {
      if SameSlot(p[0], tx) {
        assert HoldsSlot(p, 0, tx);
      } else {
        FindSlotFirst(p[1..], tx);
        assert forall k | 0 <= k < |p[1..]| :: p[1..][k] == p[k + 1];
        if k :| HoldsSlot(p[1..], k, tx) {
          assert HoldsSlot(p, k + 1, tx);
        }
        forall k | HoldsSlot(p, k, tx)
          ensures k > 0 && HoldsSlot(p[1..], k - 1, tx)
        {
        }
      }
    }
  }

  /** A transaction is admitted exactly when it passes without account state, its
      id is not pooled, its nonce is the sender's next or the one after, and it
      tips more than whatever holds its slot. It replaces that, and only that. */
  lemma EvaluateExactly(c: Crypto, current: u64, p: seq<Tx>, tx: Tx)
    ensures Evaluate(c, current, p, tx).Success? <==>
            && Admissible(c, tx)
            && (forall i | 0 <= i < |p| :: c.txId(p[i]) != c.txId(tx))
            && current <= tx.nonce <= current + 1
            && forall k | HoldsSlot(p, k, tx) :: p[k].tip < tx.tip
    ensures Evaluate(c, current, p, tx).Success? ==>
              match Evaluate(c, current, p, tx).value
              case Accept => forall i | 0 <= i < |p| :: !SameSlot(p[i], tx)
              case Replace(id) => exists k :: HoldsSlot(p, k, tx) && id == c.txId(p[k])
  {
    hide ValidateStateless, Authorised, FindSlot;
    StatelessExactly(c, tx);
    FindSlotFirst(p, tx);
    FindSlotMeans(p, tx);
    if k :| HoldsSlot(p, k, tx) {
      assert FindSlot(p, tx) == Some(p[k]);
    }
  }

  // --- Where everything stands ---

  /** Dropping a pooled id closes its gap and moves nothing else. */
  lemma {:induction false} DroppedAt(c: Crypto, p: seq<Tx>, k: nat)
    requires DistinctPool(c, p) && k < |p|
    ensures Dropped(c, p, {c.txId(p[k])}) == p[..k] + p[k + 1..]
  {
    var init, last := p[..|p| - 1], p[|p| - 1];
    if k == |p| - 1 {
      forall t | t in init
        ensures c.txId(t) != c.txId(last)
      {
        var i :| 0 <= i < |init| && init[i] == t;
        assert p[i] == t;
      }
      DropNone(c, init, {c.txId(last)});
    } else {
      assert init[k] == p[k];
      DroppedAt(c, init, k);
      assert init[..k] == p[..k] && init[k + 1..] + [last] == p[k + 1..];
    }
  }

  /** First in, first out: an admitted transaction goes to the back; what it
      replaces goes, else from a full pool the one at the front; all others keep
      their order. What is not admitted changes nothing. */
  lemma AdmittedExactly(c: Crypto, current: u64, p: seq<Tx>, tx: Tx)
    requires |p| <= 10_000 && DistinctPool(c, p)
    ensures var q := Admitted(c, current, p, tx);
            && (Evaluate(c, current, p, tx).Failure? ==> q == p)
            && (Evaluate(c, current, p, tx).Success? ==>
                  && (forall k | HoldsSlot(p, k, tx) :: q == p[..k] + p[k + 1..] + [tx])
                  && ((forall i | 0 <= i < |p| :: !SameSlot(p[i], tx)) ==>
                        q == (if |p| == 10_000 then p[1..] else p) + [tx]))
  {
    hide ValidateStateless, FindSlot, Dropped, DistinctPool;
    FindSlotFirst(p, tx);
    FindSlotMeans(p, tx);
    forall k | HoldsSlot(p, k, tx)
      ensures Dropped(c, p, {c.txId(p[k])}) == p[..k] + p[k + 1..]
    {
      DroppedAt(c, p, k);
    }
  }

  /** Confirmation keeps the order of what it leaves. */
  lemma {:induction false} DroppedInOrder(c: Crypto, p: seq<Tx>, ids: set<string>, i: nat, j: nat)
    returns (m: nat, n: nat)
    requires i < j < |Dropped(c, p, ids)|
    ensures m < n < |p| && p[m] == Dropped(c, p, ids)[i] && p[n] == Dropped(c, p, ids)[j]
  {
    var init := p[..|p| - 1];
    if j < |Dropped(c, init, ids)| {
      m, n := DroppedInOrder(c, init, ids, i, j);
    } else {
      n := |p| - 1;
      DroppedHolds(c, init, ids, Dropped(c, init, ids)[i]);
      m :| 0 <= m < |init| && init[m] == Dropped(c, init, ids)[i];
    }
  }

  // --- The order of a requeue ---

  /** The transactions of one slot, in their order. */
  function OfSlot(txs: seq<Tx>, slot: Tx): seq<Tx> {
    if |txs| == 0 then []
    else OfSlot(txs[..|txs| - 1], slot) + if SameSlot(txs[|txs| - 1], slot) then [txs[|txs| - 1]] else []
  }

  lemma OfSlotSnoc(txs: seq<Tx>, last: Tx, slot: Tx)
    ensures OfSlot(txs + [last], slot) == OfSlot(txs, slot) + if SameSlot(last, slot) then [last] else []
  {
    assert (txs + [last])[..|txs|] == txs;
  }

  lemma {:induction false} InsertSortedStable(s: seq<Tx>, tx: Tx, slot: Tx)
    ensures OfSlot(InsertSorted(s, tx), slot) == OfSlot(s + [tx], slot)
  {
    hide OfSlot;
    OfSlotSnoc(s, tx, slot);
    if |s| > 0 && Before(tx, s[|s| - 1]) {
      var init, last := s[..|s| - 1], s[|s| - 1];
      LessTotal(tx.sender, last.sender);
      InsertSortedStable(init, tx, slot);
      OfSlotSnoc(init, tx, slot);
      OfSlotSnoc(init, last, slot);
      OfSlotSnoc(InsertSorted(init, tx), last, slot);
      assert s == init + [last];
    }
  }

  /** The sort is stable: candidates for one slot are offered in the order in which
      they were displaced. */
  lemma {:induction false} SortedStable(txs: seq<Tx>, slot: Tx)
    ensures OfSlot(TxPool.Sorted(txs), slot) == OfSlot(txs, slot)
  {
    hide InsertSorted;
    if |txs| > 0 {
      var init, last := txs[..|txs| - 1], txs[|txs| - 1];
      SortedStable(init, slot);
      InsertSortedStable(TxPool.Sorted(init), last, slot);
      OfSlotSnoc(TxPool.Sorted(init), last, slot);
    }
  }

  // --- What the pool lets through ---

  /** The pool does not compare a tip with the fee limit. A transfer that tips past
      its limit is pooled, and can then apply to no account state at all. An
      authorised transfer is free of this exactly when its charge is within its
      limit. */
  lemma OverLimitPooled(c: Crypto, current: u64, tx: Tx)
    requires Authorised(c, tx) && current <= tx.nonce <= current + 1
    ensures Admitted(c, current, [], tx) == [tx]
    ensures (forall l: Ledger :: Transfer(c, l, tx).Failure?) <==>
            !(1 + tx.tip <= tx.feeLimit && Amount(c, tx) + 1 + tx.tip < U128_LIMIT && tx.nonce + 1 < U64_LIMIT)
  {
    hide ValidateStateless, Transfer, Authorised;
    StatelessExactly(c, tx);
    if 1 + tx.tip <= tx.feeLimit && Amount(c, tx) + 1 + tx.tip < U128_LIMIT && tx.nonce + 1 < U64_LIMIT {
      var l := Ledger(map[tx.sender := Amount(c, tx) + 1 + tx.tip], map[tx.sender := tx.nonce]);
      NotToSelf(c, tx);
      TransferExactly(c, l, tx);
    } else {
      forall l: Ledger
        ensures Transfer(c, l, tx).Failure?
      {
        TransferExactly(c, l, tx);
      }
    }
  }

  lemma NotToSelf(c: Crypto, tx: Tx)
    requires Authorised(c, tx)
    ensures !Pays(c, tx, tx.sender) && Amount(c, tx) < U128_LIMIT
  {
  }
}
