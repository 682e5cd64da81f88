/** The transaction pool: admission policy, first-in first-out eviction, and the
    return of transactions that a reorganisation displaced.
 */
module TxPool {
  import opened Base
  import opened KeyOrder
  import opened Ledgers
  import opened BlockTree
  import opened Validity
  import opened Consensus

  // --- Admission policy ---

  datatype AdmissionError =
    | StatelessValidation(error: TxError)
    | DuplicateCanonicalTxId
    | StaleNonce(current: u64, nonce: u64)
    | NonceGap(current: u64, nonce: u64)
    | DuplicateSenderNonce(sender: Address, nonce: u64, existingTip: u64, newTip: u64)

  datatype Decision = Accept | Replace(evict: string)

  predicate SameSlot(a: Tx, b: Tx) {
    a.sender == b.sender && a.nonce == b.nonce
  }

  /** The first pending transaction with the same sender and nonce. */
  function FindSlot(pending: seq<Tx>, tx: Tx): Option<Tx> {
    if |pending| == 0 then None
    else if SameSlot(pending[0], tx) then Some(pending[0])
    else FindSlot(pending[1..], tx)
  }

  function HasId(c: Crypto, pending: seq<Tx>, id: string): bool {
    exists i | 0 <= i < |pending| :: c.txId(pending[i]) == id
  }

  function Evaluate(c: Crypto, current: u64, pending: seq<Tx>, tx: Tx): Result<Decision, AdmissionError> {
    if ValidateStateless(c, tx).Some? then Failure(StatelessValidation(ValidateStateless(c, tx).value))
    else if HasId(c, pending, c.txId(tx)) then Failure(DuplicateCanonicalTxId)
    else if tx.nonce < current then Failure(StaleNonce(current, tx.nonce))
    else if tx.nonce > (if current + 1 < U64_LIMIT then current + 1 else current) then
      Failure(NonceGap(current, tx.nonce))
    else
      match FindSlot(pending, tx)
      case None => Success(Accept)
      case Some(existing) =>
        if tx.tip > existing.tip then Success(Replace(c.txId(existing)))
        else Failure(DuplicateSenderNonce(tx.sender, tx.nonce, existing.tip, tx.tip))
  }

  // --- The pool as the sequence of its transactions, oldest first ---

  ghost predicate DistinctPool(c: Crypto, p: seq<Tx>) {
    forall i, j | 0 <= i < j < |p| :: c.txId(p[i]) != c.txId(p[j])
  }

  ghost predicate OnePerSlot(p: seq<Tx>) {
    forall i, j | 0 <= i < j < |p| :: !SameSlot(p[i], p[j])
  }

  /** Make room by dropping the oldest, then append. */
  function Inserted(p: seq<Tx>, tx: Tx): seq<Tx> {
    (if |p| >= MEMPOOL_MAX then p[1..] else p) + [tx]
  }

  function Dropped(c: Crypto, p: seq<Tx>, ids: set<string>): seq<Tx> {
    if |p| == 0 then []
    else Dropped(c, p[..|p| - 1], ids) + if c.txId(p[|p| - 1]) in ids then [] else [p[|p| - 1]]
  }

  function Admitted(c: Crypto, current: u64, p: seq<Tx>, tx: Tx): seq<Tx> {
    match Evaluate(c, current, p, tx)
    case Failure(_) => p
    case Success(Accept) => Inserted(p, tx)
    case Success(Replace(id)) => Inserted(Dropped(c, p, {id}), tx)
  }

  // --- Properties of the policy ---

  lemma {:induction false} FindSlotMeans(pending: seq<Tx>, tx: Tx)
    ensures match FindSlot(pending, tx)
            case None => forall i | 0 <= i < |pending| :: !SameSlot(pending[i], tx)
            case Some(t) => t in pending && SameSlot(t, tx)
  {
    if |pending| > 0 && !SameSlot(pending[0], tx) {
      FindSlotMeans(pending[1..], tx);
      assert forall i | 1 <= i < |pending| :: pending[i] == pending[1..][i - 1];
    }
  }

  lemma {:induction false} DroppedHolds(c: Crypto, p: seq<Tx>, ids: set<string>, t: Tx)
    ensures t in Dropped(c, p, ids) <==> t in p && c.txId(t) !in ids
  {
    if |p| > 0 {
      DroppedHolds(c, p[..|p| - 1], ids, t);
      assert p == p[..|p| - 1] + [p[|p| - 1]];
    }
  }

  lemma {:induction false} DroppedKeeps(c: Crypto, p: seq<Tx>, ids: set<string>)
    ensures |Dropped(c, p, ids)| <= |p|
    ensures DistinctPool(c, p) ==> DistinctPool(c, Dropped(c, p, ids))
    ensures OnePerSlot(p) ==> OnePerSlot(Dropped(c, p, ids))
  {
    if |p| > 0 {
      var init, last := p[..|p| - 1], p[|p| - 1];
      var kept := Dropped(c, init, ids);
      DroppedKeeps(c, init, ids);
      forall i | 0 <= i < |kept|
        ensures DistinctPool(c, p) ==> c.txId(kept[i]) != c.txId(last)
        ensures OnePerSlot(p) ==> !SameSlot(kept[i], last)
      {
        DroppedHolds(c, init, ids, kept[i]);
        var j :| 0 <= j < |init| && init[j] == kept[i];
        assert p[j] == kept[i];
      }
    }
  }

  lemma DroppedMeans(c: Crypto, p: seq<Tx>, ids: set<string>)
    ensures |Dropped(c, p, ids)| <= |p|
    ensures forall t :: t in Dropped(c, p, ids) <==> t in p && c.txId(t) !in ids
    ensures DistinctPool(c, p) ==> DistinctPool(c, Dropped(c, p, ids))
    ensures OnePerSlot(p) ==> OnePerSlot(Dropped(c, p, ids))
  {
    hide Dropped, DistinctPool, OnePerSlot;
    DroppedKeeps(c, p, ids);
    forall t
      ensures t in Dropped(c, p, ids) <==> t in p && c.txId(t) !in ids
    {
      DroppedHolds(c, p, ids, t);
    }
  }

  /** Dropping one pooled id removes exactly one transaction. */
  lemma {:induction false} DropOne(c: Crypto, p: seq<Tx>, id: string)
    requires DistinctPool(c, p) && HasId(c, p, id)
    ensures |Dropped(c, p, {id})| == |p| - 1
  {
    var init, last := p[..|p| - 1], p[|p| - 1];
    if c.txId(last) == id {
      forall t | t in init
        ensures c.txId(t) != id
      {
        var i :| 0 <= i < |init| && init[i] == t;
        assert p[i] == t;
      }
      DropNone(c, init, {id});
    } else {
      var i :| 0 <= i < |p| && c.txId(p[i]) == id;
      assert init[i] == p[i];
      DropOne(c, init, id);
    }
  }

  lemma {:induction false} DropNone(c: Crypto, p: seq<Tx>, ids: set<string>)
    requires forall t | t in p :: c.txId(t) !in ids
    ensures Dropped(c, p, ids) == p
  {
    if |p| > 0 {
      var init, last := p[..|p| - 1], p[|p| - 1];
      assert p == init + [last] && last in p;
      DropNone(c, init, ids);
    }
  }

  lemma InsertedKeeps(c: Crypto, p: seq<Tx>, tx: Tx)
    requires |p| <= MEMPOOL_MAX && DistinctPool(c, p)
    requires forall i | 0 <= i < |p| :: c.txId(p[i]) != c.txId(tx)
    ensures |Inserted(p, tx)| <= MEMPOOL_MAX && DistinctPool(c, Inserted(p, tx))
    ensures forall t | t in Inserted(p, tx) :: t == tx || t in p
    ensures OnePerSlot(p) && (forall i | 0 <= i < |p| :: !SameSlot(p[i], tx)) ==> OnePerSlot(Inserted(p, tx))
  {
    var kept := if |p| >= MEMPOOL_MAX then p[1..] else p;
    assert forall i | 0 <= i < |kept| :: kept[i] == p[if |p| >= MEMPOOL_MAX then i + 1 else i];
  }

  /** Admission keeps the pool free of duplicates, bounded, and with at most one
      transaction per sender and nonce; and it never admits a known id. */
  lemma AdmittedKeeps(c: Crypto, current: u64, p: seq<Tx>, tx: Tx)
    requires |p| <= MEMPOOL_MAX && DistinctPool(c, p)
    ensures |Admitted(c, current, p, tx)| <= MEMPOOL_MAX && DistinctPool(c, Admitted(c, current, p, tx))
    ensures OnePerSlot(p) ==> OnePerSlot(Admitted(c, current, p, tx))
    ensures forall t | t in Admitted(c, current, p, tx) :: t == tx || t in p
  {
    hide Inserted, Dropped, DistinctPool, OnePerSlot, ValidateStateless;
    var decision := Evaluate(c, current, p, tx);
    FindSlotMeans(p, tx);
    if decision.Success? {
      match decision.value {
        case Accept =>
          InsertedKeeps(c, p, tx);
        case Replace(id) =>
          DroppedMeans(c, p, {id});
          var q := Dropped(c, p, {id});
          SlotFreed(c, p, tx, id);
          forall i | 0 <= i < |q|
            ensures c.txId(q[i]) != c.txId(tx)
          {
            assert q[i] in q;
            var j :| 0 <= j < |p| && p[j] == q[i];
          }
          InsertedKeeps(c, q, tx);
      }
    }
  }

  /** With one transaction per slot, dropping the one that holds a slot frees it. */
  lemma SlotFreed(c: Crypto, p: seq<Tx>, tx: Tx, id: string)
    requires FindSlot(p, tx).Some? && id == c.txId(FindSlot(p, tx).value)
    ensures OnePerSlot(p) ==> forall i | 0 <= i < |Dropped(c, p, {id})| :: !SameSlot(Dropped(c, p, {id})[i], tx)
  {
    hide Dropped;
    FindSlotMeans(p, tx);
    DroppedMeans(c, p, {id});
    var held := FindSlot(p, tx).value;
    var q := Dropped(c, p, {id});
    if OnePerSlot(p) {
      forall i | 0 <= i < |q|
        ensures !SameSlot(q[i], tx)
      {
        assert q[i] in q;
        var j :| 0 <= j < |p| && p[j] == q[i];
        var k :| 0 <= k < |p| && p[k] == held;
        assert j != k;
      }
    }
  }

  /** A replacement strictly raises the tip paid for its sender and nonce, and
      changes no other slot, because the pool cannot be full after it dropped one. */
  lemma ReplacementRaisesTip(c: Crypto, current: u64, p: seq<Tx>, tx: Tx)
    requires |p| <= MEMPOOL_MAX && DistinctPool(c, p) && OnePerSlot(p)
    requires Evaluate(c, current, p, tx).Success? && Evaluate(c, current, p, tx).value.Replace?
    ensures exists old_: Tx ::
              old_ in p && SameSlot(old_, tx) && old_.tip < tx.tip && old_ !in Admitted(c, current, p, tx)
    ensures tx in Admitted(c, current, p, tx) && |Admitted(c, current, p, tx)| == |p|
    ensures forall t | t in p && !SameSlot(t, tx) :: t in Admitted(c, current, p, tx)
  {
    hide Dropped, ValidateStateless;
    FindSlotMeans(p, tx);
    var held := FindSlot(p, tx).value;
    var id := c.txId(held);
    var k :| 0 <= k < |p| && p[k] == held;
    assert HasId(c, p, id);
    DropOne(c, p, id);
    DroppedMeans(c, p, {id});
    forall t | t in p && !SameSlot(t, tx)
      ensures c.txId(t) != id
    {
      var j :| 0 <= j < |p| && p[j] == t;
      assert j != k;
    }
    assert held in p && SameSlot(held, tx) && held.tip < tx.tip && held !in Admitted(c, current, p, tx);
  }

  // --- Return of displaced transactions ---

  datatype Report = Report(accepted: seq<string>, rejected: seq<(string, AdmissionError)>)

  function RejectedIds(rejected: seq<(string, AdmissionError)>): seq<string> {
    seq(|rejected|, i requires 0 <= i < |rejected| => rejected[i].0)
  }

  /** Order by sender, then nonce. */
  predicate Before(a: Tx, b: Tx) {
    Less(a.sender, b.sender) || (a.sender == b.sender && a.nonce < b.nonce)
  }

  function InsertSorted(s: seq<Tx>, tx: Tx): seq<Tx> {
    if |s| == 0 || !Before(tx, s[|s| - 1]) then s + [tx]
    else InsertSorted(s[..|s| - 1], tx) + [s[|s| - 1]]
  }

  /** The stable sort of the candidates. */
  function Sorted(txs: seq<Tx>): seq<Tx> {
    if |txs| == 0 then [] else InsertSorted(Sorted(txs[..|txs| - 1]), txs[|txs| - 1])
  }

  function Candidates(c: Crypto, txs: seq<Tx>, winning: set<string>): seq<Tx> {
    if |txs| == 0 then []
    else
      var last := txs[|txs| - 1];
      Candidates(c, txs[..|txs| - 1], winning)
      + if last.moduleName != "coinbase" && c.txId(last) !in winning then [last] else []
  }

  /** Offer the candidates one by one. */
  function Offered(c: Crypto, l: Ledger, p: seq<Tx>, candidates: seq<Tx>): (seq<Tx>, Report) {
    if |candidates| == 0 then (p, Report([], []))
    else
      var (q, report) := Offered(c, l, p, candidates[..|candidates| - 1]);
      var tx := candidates[|candidates| - 1];
      var current := l.NonceOf(tx.sender);
      (Admitted(c, current, q, tx),
       match Evaluate(c, current, q, tx)
       case Success(_) => report.(accepted := report.accepted + [c.txId(tx)])
       case Failure(e) => report.(rejected := report.rejected + [(c.txId(tx), e)]))
  }

  function Requeued(c: Crypto, l: Ledger, p: seq<Tx>, recovery: Recovery): (seq<Tx>, Report) {
    Offered(c, l, Dropped(c, p, recovery.winning), Sorted(Candidates(c, recovery.displaced, recovery.winning)))
  }

  lemma {:induction false} InsertSortedPermutes(s: seq<Tx>, tx: Tx)
    ensures multiset(InsertSorted(s, tx)) == multiset(s) + multiset{tx}
  {
    if |s| > 0 && Before(tx, s[|s| - 1]) {
      InsertSortedPermutes(s[..|s| - 1], tx);
      assert s == s[..|s| - 1] + [s[|s| - 1]];
    }
  }

  /** Sorting loses and invents nothing. */
  lemma {:induction false} SortedPermutes(txs: seq<Tx>)
    ensures multiset(Sorted(txs)) == multiset(txs)
  {
    hide InsertSorted;
    if |txs| > 0 {
      SortedPermutes(txs[..|txs| - 1]);
      InsertSortedPermutes(Sorted(txs[..|txs| - 1]), txs[|txs| - 1]);
      assert txs == txs[..|txs| - 1] + [txs[|txs| - 1]];
    }
  }

  ghost predicate InOrder(s: seq<Tx>) {
    forall i, j | 0 <= i < j < |s| :: !Before(s[j], s[i])
  }

  lemma NotBeforeTransitive(a: Tx, b: Tx, d: Tx)
    requires !Before(b, a) && !Before(d, b)
    ensures !Before(d, a)
  {
    LessTotal(a.sender, b.sender);
    LessTotal(b.sender, d.sender);
    LessTotal(a.sender, d.sender);
    if Less(d.sender, a.sender) {
      if Less(a.sender, b.sender) {
        LessTransitive(d.sender, a.sender, b.sender);
      }
    }
  }

  lemma {:induction false} InsertSortedOrders(s: seq<Tx>, tx: Tx)
    requires InOrder(s)
    ensures InOrder(InsertSorted(s, tx))
    ensures forall t | t in InsertSorted(s, tx) :: t == tx || t in s
  {
    if |s| > 0 {
      var init, last := s[..|s| - 1], s[|s| - 1];
      if Before(tx, last) {
        InsertSortedOrders(init, tx);
        LessTotal(tx.sender, last.sender);
        var r := InsertSorted(init, tx);
        forall i | 0 <= i < |r|
          ensures !Before(last, r[i])
        {
          assert r[i] in r;
        }
      } else {
        forall i | 0 <= i < |s|
          ensures !Before(tx, s[i])
        {
          if i < |s| - 1 {
            NotBeforeTransitive(s[i], last, tx);
          }
        }
      }
    }
  }

  /** Candidates are offered sender by sender, lower nonces first. */
  lemma {:induction false} SortedOrders(txs: seq<Tx>)
    ensures InOrder(Sorted(txs))
  {
    if |txs| > 0 {
      SortedOrders(txs[..|txs| - 1]);
      InsertSortedOrders(Sorted(txs[..|txs| - 1]), txs[|txs| - 1]);
    }
  }

  lemma IdsSnoc(c: Crypto, txs: seq<Tx>)
    requires |txs| > 0
    ensures TxIds(c, txs) == TxIds(c, txs[..|txs| - 1]) + [c.txId(txs[|txs| - 1])]
  {
  }

  lemma {:induction false} InsertSortedIds(c: Crypto, s: seq<Tx>, tx: Tx)
    ensures multiset(TxIds(c, InsertSorted(s, tx))) == multiset(TxIds(c, s)) + multiset{c.txId(tx)}
  {
    hide TxIds;
    var r := InsertSorted(s, tx);
    IdsSnoc(c, r);
    if |s| > 0 && Before(tx, s[|s| - 1]) {
      var init, last := s[..|s| - 1], s[|s| - 1];
      InsertSortedIds(c, init, tx);
      IdsSnoc(c, s);
      assert r[..|r| - 1] == InsertSorted(init, tx) && r[|r| - 1] == last;
    } else {
      assert r[..|r| - 1] == s && r[|r| - 1] == tx;
    }
  }

  lemma {:induction false} SortedIds(c: Crypto, txs: seq<Tx>)
    ensures multiset(TxIds(c, Sorted(txs))) == multiset(TxIds(c, txs))
  {
    hide TxIds;
    if |txs| > 0 {
      SortedIds(c, txs[..|txs| - 1]);
      InsertSortedIds(c, Sorted(txs[..|txs| - 1]), txs[|txs| - 1]);
      IdsSnoc(c, txs);
    }
  }

  lemma RejectedSnoc(rejected: seq<(string, AdmissionError)>, r: (string, AdmissionError))
    ensures RejectedIds(rejected + [r]) == RejectedIds(rejected) + [r.0]
  {
  }

  /** Every candidate is reported exactly once, as accepted or as rejected. */
  lemma {:induction false} OfferedPartition(c: Crypto, l: Ledger, p: seq<Tx>, candidates: seq<Tx>)
    ensures var report := Offered(c, l, p, candidates).1;
            multiset(report.accepted) + multiset(RejectedIds(report.rejected)) == multiset(TxIds(c, candidates))
  {
    hide Evaluate, Admitted, TxIds, RejectedIds;
    if |candidates| == 0 {
      NoIds(c);
    } else {
      var init, tx := candidates[..|candidates| - 1], candidates[|candidates| - 1];
      var (q, report) := Offered(c, l, p, init);
      OfferedPartition(c, l, p, init);
      IdsSnoc(c, candidates);
      var verdict := Evaluate(c, l.NonceOf(tx.sender), q, tx);
      if verdict.Failure? {
        RejectedSnoc(report.rejected, (c.txId(tx), verdict.error));
      }
    }
  }

  lemma NoIds(c: Crypto)
    ensures TxIds(c, []) == [] && RejectedIds([]) == []
  {
  }

  lemma {:induction false} OfferedKeeps(c: Crypto, l: Ledger, p: seq<Tx>, candidates: seq<Tx>)
    requires |p| <= MEMPOOL_MAX && DistinctPool(c, p)
    ensures var q := Offered(c, l, p, candidates).0;
            && |q| <= MEMPOOL_MAX && DistinctPool(c, q)
            && (OnePerSlot(p) ==> OnePerSlot(q))
            && (forall t | t in q :: t in p || t in candidates)
  {
    hide DistinctPool, OnePerSlot, Admitted, Evaluate;
    if |candidates| > 0 {
      var init, tx := candidates[..|candidates| - 1], candidates[|candidates| - 1];
      OfferedKeeps(c, l, p, init);
      AdmittedKeeps(c, l.NonceOf(tx.sender), Offered(c, l, p, init).0, tx);
      assert candidates == init + [tx];
    }
  }

  lemma {:induction false} CandidatesMean(c: Crypto, txs: seq<Tx>, winning: set<string>)
    ensures forall t :: t in Candidates(c, txs, winning) <==>
                        t in txs && t.moduleName != "coinbase" && c.txId(t) !in winning
  {
    if |txs| > 0 {
      CandidatesMean(c, txs[..|txs| - 1], winning);
      assert txs == txs[..|txs| - 1] + [txs[|txs| - 1]];
    }
  }

  /** After a reorganisation the pool holds no transaction of the winning branch,
      stays bounded and free of duplicates, and the report names every candidate
      exactly once. */
  lemma RequeuedMeans(c: Crypto, l: Ledger, p: seq<Tx>, recovery: Recovery)
    requires |p| <= MEMPOOL_MAX && DistinctPool(c, p)
    ensures var (q, report) := Requeued(c, l, p, recovery);
            var candidates := Candidates(c, recovery.displaced, recovery.winning);
            && |q| <= MEMPOOL_MAX && DistinctPool(c, q)
            && (OnePerSlot(p) ==> OnePerSlot(q))
            && (forall t | t in q :: c.txId(t) !in recovery.winning)
            && (forall t | t in q :: t in p || t in recovery.displaced)
            && multiset(report.accepted) + multiset(RejectedIds(report.rejected)) == multiset(TxIds(c, candidates))
  {
    hide DistinctPool, OnePerSlot, Offered, Sorted, Candidates, Dropped, TxIds, RejectedIds;
    var candidates := Candidates(c, recovery.displaced, recovery.winning);
    DroppedMeans(c, p, recovery.winning);
    CandidatesMean(c, recovery.displaced, recovery.winning);
    SortedPermutes(candidates);
    SortedIds(c, candidates);
    SameMembers(Sorted(candidates), candidates);
    OfferedKeeps(c, l, Dropped(c, p, recovery.winning), Sorted(candidates));
    OfferedPartition(c, l, Dropped(c, p, recovery.winning), Sorted(candidates));
  }

  lemma SameMembers(a: seq<Tx>, b: seq<Tx>)
    requires multiset(a) == multiset(b)
    ensures forall t :: t in a <==> t in b
  {
    forall t
      ensures t in a <==> t in b
    {
      assert t in multiset(a) <==> t in multiset(b);
    }
  }

  // --- Accounting for a switch of chains ---

  lemma {:induction false} WithoutMeans(c: Crypto, txs: seq<Tx>, ids: set<string>)
    ensures forall t :: t in Without(c, txs, ids) <==> t in txs && c.txId(t) !in ids
  {
    if |txs| > 0 {
      WithoutMeans(c, txs[..|txs| - 1], ids);
      assert txs == txs[..|txs| - 1] + [txs[|txs| - 1]];
    }
  }

  lemma IdSetMeans(c: Crypto, txs: seq<Tx>)
    ensures forall id :: id in IdSet(c, txs) <==> exists i :: 0 <= i < |txs| && c.txId(txs[i]) == id
  {
  }

  /** Every transfer on the blocks a switch takes off the chain is either
      confirmed by the winning branch or displaced, never both; and nothing else
      is displaced. */
  lemma SwitchAccounting(c: Crypto, before: seq<Block>, after: seq<Block>, tx: Tx)
    ensures var n := Fork(before, after);
            var recovery := RecoveryFor(c, before, after);
            && (tx in recovery.displaced <==> tx in Bodies(before[n..]) && c.txId(tx) !in recovery.winning)
            && (forall id :: id in recovery.winning <==>
                             exists i :: 0 <= i < |Bodies(after[n..])| && c.txId(Bodies(after[n..])[i]) == id)
  {
    hide Bodies, Fork, IdSet, Without;
    var n := Fork(before, after);
    WithoutMeans(c, Bodies(before[n..]), IdSet(c, Bodies(after[n..])));
    IdSetMeans(c, Bodies(after[n..]));
  }

  lemma {:induction false} BodiesTransfer(c: Crypto, path: seq<Block>, t: Tx)
    requires Exec(c, path).Success? && t in Bodies(path)
    ensures IsTransfer(t)
  {
    hide Transfer;
    var init, last := path[..|path| - 1], path[|path| - 1];
    if t in Bodies(init) {
      BodiesTransfer(c, init, t);
    } else {
      TransfersOnly(c, Exec(c, init).value, last.Body(), t);
    }
  }

  lemma {:induction false} TransfersOnly(c: Crypto, l: Ledger, txs: seq<Tx>, t: Tx)
    requires Transfers(c, l, txs).Success? && t in txs
    ensures IsTransfer(t)
  {
    var init := txs[..|txs| - 1];
    if t in init {
      TransfersOnly(c, l, init, t);
    } else {
      assert txs == init + [txs[|txs| - 1]];
    }
  }

  lemma EmptySuffix(path: seq<Block>)
    ensures Bodies(path[|path|..]) == []
  {
  }

  lemma {:induction false} SuffixBodies(path: seq<Block>, n: nat, t: Tx)
    requires n <= |path| && t in Bodies(path[n..])
    ensures t in Bodies(path)
  {
    EmptySuffix(path);
    if n < |path| {
      var init := path[..|path| - 1];
      assert path[n..][..|path| - n - 1] == init[n..] && path[n..][|path| - n - 1] == path[|path| - 1];
      if t in Bodies(init[n..]) {
        SuffixBodies(init, n, t);
      }
    }
  }

  lemma {:induction false} CandidatesAll(c: Crypto, txs: seq<Tx>, winning: set<string>)
    requires forall t | t in txs :: t.moduleName != "coinbase" && c.txId(t) !in winning
    ensures Candidates(c, txs, winning) == txs
  {
    if |txs| > 0 {
      CandidatesAll(c, txs[..|txs| - 1], winning);
      assert txs == txs[..|txs| - 1] + [txs[|txs| - 1]];
    }
  }

  /** Nothing that a switch displaces from an executed chain is filtered out
      before it is offered to the pool again. */
  lemma DisplacedAllOffered(c: Crypto, before: seq<Block>, after: seq<Block>)
    requires Exec(c, before).Success?
    ensures var recovery := RecoveryFor(c, before, after);
            Candidates(c, recovery.displaced, recovery.winning) == recovery.displaced
  {
    hide Bodies, Fork, Candidates, Exec, Without;
    var recovery := RecoveryFor(c, before, after);
    forall t | t in recovery.displaced
      ensures t.moduleName != "coinbase" && c.txId(t) !in recovery.winning
    {
      SwitchAccounting(c, before, after, t);
      SuffixBodies(before, Fork(before, after), t);
      BodiesTransfer(c, before, t);
    }
    CandidatesAll(c, recovery.displaced, recovery.winning);
  }

  // --- The pool itself ---

  function TxsOf(byId: map<string, Tx>, order: seq<string>): (txs: seq<Tx>)
    requires forall i | 0 <= i < |order| :: order[i] in byId
  {
    seq(|order|, i requires 0 <= i < |order| => byId[order[i]])
  }

  ghost predicate PoolValid(c: Crypto, byId: map<string, Tx>, order: seq<string>) {
    && (forall i | 0 <= i < |order| :: order[i] in byId)
    && (forall i, j | 0 <= i < j < |order| :: order[i] != order[j])
    && (forall id | id in byId :: id in order && c.txId(byId[id]) == id)
  }

  function Elements(order: seq<string>): set<string> {
    if |order| == 0 then {} else Elements(order[..|order| - 1]) + {order[|order| - 1]}
  }

  lemma {:induction false} ElementsHold(order: seq<string>, id: string)
    ensures id in Elements(order) <==> id in order
  {
    if |order| > 0 {
      ElementsHold(order[..|order| - 1], id);
      assert order == order[..|order| - 1] + [order[|order| - 1]];
    }
  }

  lemma {:induction false} ElementsCount(order: seq<string>)
    requires forall i, j | 0 <= i < j < |order| :: order[i] != order[j]
    ensures |Elements(order)| == |order|
  {
    if |order| > 0 {
      var init, last := order[..|order| - 1], order[|order| - 1];
      ElementsCount(init);
      ElementsHold(init, last);
    }
  }

  /** The queue lists every pooled id once, so the two sizes agree. */
  lemma PoolSizes(c: Crypto, byId: map<string, Tx>, order: seq<string>)
    requires PoolValid(c, byId, order)
    ensures |byId| == |order|
  {
    ElementsCount(order);
    forall id
      ensures id in byId <==> id in Elements(order)
    {
      ElementsHold(order, id);
    }
    assert byId.Keys == Elements(order);
  }

  lemma PoolDistinct(c: Crypto, byId: map<string, Tx>, order: seq<string>)
    requires PoolValid(c, byId, order)
    ensures DistinctPool(c, TxsOf(byId, order))
    ensures forall id :: id in byId <==> HasId(c, TxsOf(byId, order), id)
  {
    var txs := TxsOf(byId, order);
    assert forall i | 0 <= i < |txs| :: c.txId(txs[i]) == order[i];
    forall id | id in byId
      ensures HasId(c, txs, id)
    {
      var i :| 0 <= i < |order| && order[i] == id;
      assert c.txId(txs[i]) == id;
    }
  }
}
