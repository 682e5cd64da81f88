/** Whole-chain accounting: supply conservation, the emission cap that keeps
    every credit inside 128 bits, and nonce-based replay protection.
 */
module Economy {
  import opened Arithmetic
  import opened Base
  import opened Ledgers
  import opened StateRoots
  import opened Consensus

  // --- Sums over accounts ---

  ghost function Sum(m: map<Address, nat>): nat
    decreases |m|
  {
    if m == map[] then 0
    else
      var a :| a in m;
      m[a] + Sum(m - {a})
  }

  lemma {:induction false} SumWithout(m: map<Address, nat>, a: Address)
    requires a in m
    ensures Sum(m) == m[a] + Sum(m - {a})
    decreases |m|
  {
    var b :| b in m && Sum(m) == m[b] + Sum(m - {b});
    if a != b {
      SumWithout(m - {b}, a);
      SumWithout(m - {a}, b);
      assert m - {b} - {a} == m - {a} - {b};
    }
  }

  lemma SumUpdated(m: map<Address, nat>, a: Address, v: nat)
    ensures Sum(m[a := v]) + (if a in m then m[a] else 0) == Sum(m) + v
  {
    SumWithout(m[a := v], a);
    assert m[a := v] - {a} == m - {a};
    if a in m {
      SumWithout(m, a);
    } else {
      assert m - {a} == m;
    }
  }

  lemma SumOfTwo(m: map<Address, nat>, a: Address, b: Address)
    requires a != b
    ensures (if a in m then m[a] else 0) + (if b in m then m[b] else 0) <= Sum(m)
  {
    if a in m {
      SumWithout(m, a);
    }
    if b in m {
      SumWithout(m - {a}, b);
      SumWithout(m, b);
    }
  }

  // --- Conservation ---

  function Fees(txs: seq<Tx>): nat {
    if |txs| == 0 then 0 else Fees(txs[..|txs| - 1]) + Fee(txs[|txs| - 1])
  }

  /** Fees charged by all transfers of a chain. */
  function ChainFees(path: seq<Block>): nat {
    if |path| == 0 then 0 else ChainFees(path[..|path| - 1]) + Fees(path[|path| - 1].Body())
  }

  /** Rewards paid by the blocks at heights 1 to n - 1. */
  function Minted(n: nat): nat {
    if n <= 1 then 0 else Minted(n - 1) + BlockReward(n - 1)
  }

  lemma TransferConserves(c: Crypto, l: Ledger, tx: Tx)
    requires Transfer(c, l, tx).Success?
    ensures Sum(Transfer(c, l, tx).value.balances) + Fee(tx) == Sum(l.balances)
  {
    var args := c.decodeArgs(tx.args).value;
    var cost := args.amount + Fee(tx);
    var paid := l.balances[tx.sender := l.BalanceOf(tx.sender) - cost];
    SumUpdated(l.balances, tx.sender, l.BalanceOf(tx.sender) - cost);
    SumUpdated(paid, args.to, l.BalanceOf(args.to) + args.amount);
  }

  lemma {:induction false} TransfersConserve(c: Crypto, l: Ledger, txs: seq<Tx>)
    requires Transfers(c, l, txs).Success?
    ensures Sum(Transfers(c, l, txs).value.balances) + Fees(txs) == Sum(l.balances)
  {
    hide Transfer;
    if |txs| > 0 {
      var init := txs[..|txs| - 1];
      TransfersConserve(c, l, init);
      TransferConserves(c, Transfers(c, l, init).value, txs[|txs| - 1]);
    }
  }

  lemma ExecBlockConserves(c: Crypto, l: Ledger, b: Block)
    requires ExecBlock(c, l, b).Success?
    ensures Sum(ExecBlock(c, l, b).value.balances) + Fees(b.Body())
            == Sum(l.balances) + if b.Height() == 0 then 0 else BlockReward(b.Height())
  {
    hide Transfers, Fees, BlockReward;
    TransfersConserve(c, l, b.Body());
    var paid := Transfers(c, l, b.Body()).value;
    if b.Height() != 0 {
      SumUpdated(paid.balances, b.header.miner, paid.BalanceOf(b.header.miner) + BlockReward(b.Height()));
    }
  }

  /** Supply: on any executable chain the balances add up to the rewards paid
      minus the fees charged. Nothing else creates or destroys value. */
  lemma {:induction false} SupplyConserved(c: Crypto, path: seq<Block>)
    requires Exec(c, path).Success?
    requires forall i | 0 <= i < |path| :: path[i].Height() == i
    ensures Sum(Exec(c, path).value.balances) + ChainFees(path) == Minted(|path|)
  {
    hide ExecBlock, Fees, BlockReward;
    if |path| > 0 {
      var init := path[..|path| - 1];
      SupplyConserved(c, init);
      ExecBlockConserves(c, Exec(c, init).value, path[|path| - 1]);
    }
  }

  // --- The cap ---

  lemma Regroup(q: nat, p: nat, d: nat)
    requires d == 2 * p
    ensures q * d == (q * 2) * p
  {
  }

  lemma QuotientAtLeast(a: nat, n: nat, q: nat)
    requires n >= 1 && q * n <= a
    ensures q <= a / n
  {
    DivBrackets(a, n);
    MulCancels(q, a / n + 1, n);
  }

  function Subsidy(k: nat): nat {
    DivBetween(EMISSION_PER_BLOCK, Pow2(k), 0, EMISSION_PER_BLOCK);
    EMISSION_PER_BLOCK / Pow2(k)
  }

  /** Emission through height n in halving period k, position j: each period
      emits at most what the remaining doubled subsidy allows. */
  lemma {:induction false} MintedInPeriod(k: nat, j: nat)
    requires k < 128 && j < 2_102_400
    ensures Minted(k * 2_102_400 + j + 1) + 2_102_400 * 2 * Subsidy(k)
            <= 2_102_400 * 2 * EMISSION_PER_BLOCK + Subsidy(k) * (j + 1) - EMISSION_PER_BLOCK
    decreases k, j
  {
    hide Subsidy, Pow2, BlockReward;
    var n := k * 2_102_400 + j;
    if n == 0 {
      FirstSubsidy();
    } else {
      PeriodOf(n, k, j);
      RewardIsSubsidy(n, k);
      MintedNext(n);
      if j > 0 {
        MintedInPeriod(k, j - 1);
        assert Subsidy(k) * (j + 1) == Subsidy(k) * j + Subsidy(k);
      } else {
        MintedInPeriod(k - 1, 2_102_399);
        SubsidyHalves(k - 1);
        assert (k - 1) * 2_102_400 + 2_102_399 + 1 == n;
      }
    }
  }

  lemma MintedNext(n: nat)
    requires n > 0
    ensures Minted(n + 1) == Minted(n) + BlockReward(n)
  {
  }

  lemma FirstSubsidy()
    ensures Subsidy(0) == EMISSION_PER_BLOCK
  {
  }

  lemma SubsidyFloor(k: nat)
    ensures Subsidy(k) * Pow2(k) <= EMISSION_PER_BLOCK
  {
    DivFloor(EMISSION_PER_BLOCK, Pow2(k));
  }

  lemma SubsidyAtLeast(k: nat, q: nat)
    requires q * Pow2(k) <= EMISSION_PER_BLOCK
    ensures q <= Subsidy(k)
  {
    QuotientAtLeast(EMISSION_PER_BLOCK, Pow2(k), q);
  }

  lemma Pow2Next(k: nat)
    ensures Pow2(k + 1) == 2 * Pow2(k)
  {
  }

  lemma SubsidyHalves(k: nat)
    ensures Subsidy(k + 1) * 2 <= Subsidy(k)
  {
    hide Subsidy, Pow2;
    Pow2Next(k);
    SubsidyFloor(k + 1);
    Regroup(Subsidy(k + 1), Pow2(k), Pow2(k + 1));
    SubsidyAtLeast(k, Subsidy(k + 1) * 2);
  }

  lemma PeriodOf(n: nat, k: nat, j: nat)
    requires n == k * 2_102_400 + j && j < 2_102_400
    ensures n / HALVING_INTERVAL == k
  {
  }

  lemma RewardIsSubsidy(n: nat, k: nat)
    requires n / HALVING_INTERVAL == k && k < 128
    ensures BlockReward(n) == Subsidy(k)
  {
  }

  /** Below 128 halvings less than two initial periods' worth is ever emitted. */
  lemma EmissionCap(n: nat)
    requires 1 <= n <= 128 * 2_102_400
    ensures Minted(n) < 2 * 2_102_400 * EMISSION_PER_BLOCK < U128_LIMIT
  {
    hide Subsidy, Minted;
    var k, j := (n - 1) / 2_102_400, (n - 1) % 2_102_400;
    MintedInPeriod(k, j);
    assert k * 2_102_400 + j + 1 == n;
    MulMonotoneRight(Subsidy(k), j + 1, 2_102_400);
  }

  /** The recipient's 128-bit credit check never fires: in any ledger met while
      executing a block on a chain below 128 halvings, an amount the sender can
      pay also fits the recipient. */
  lemma CreditsNeverOverflow(c: Crypto, path: seq<Block>, txs: seq<Tx>, sender: Address, to: Address, amount: nat)
    requires Exec(c, path).Success? && 1 <= |path| <= 128 * 2_102_400
    requires forall i | 0 <= i < |path| :: path[i].Height() == i
    requires Transfers(c, Exec(c, path).value, txs).Success? && sender != to
    ensures var l := Transfers(c, Exec(c, path).value, txs).value;
            amount <= l.BalanceOf(sender) ==> l.BalanceOf(to) + amount < U128_LIMIT
  {
    hide Exec, BlockReward, Transfers, Minted, ChainFees, Fees;
    var l := Transfers(c, Exec(c, path).value, txs).value;
    SupplyConserved(c, path);
    EmissionCap(|path|);
    TransfersConserve(c, Exec(c, path).value, txs);
    SumOfTwo(l.balances, sender, to);
  }

  /** Nor does the miner's. */
  lemma RewardNeverOverflows(c: Crypto, path: seq<Block>, b: Block)
    requires Exec(c, path).Success? && 1 <= |path| <= 128 * 2_102_400
    requires forall i | 0 <= i < |path| :: path[i].Height() == i
    ensures ExecBlock(c, Exec(c, path).value, b) != Failure(RewardOverflow)
  {
    hide Exec, BlockReward, Transfers, Minted, ChainFees, Fees;
    var start := Exec(c, path).value;
    TransfersOnlyFail(c, start, b.Body());
    if Transfers(c, start, b.Body()).Success? {
      var paid := Transfers(c, start, b.Body()).value;
      SupplyConserved(c, path);
      EmissionCap(|path|);
      TransfersConserve(c, start, b.Body());
      SumOfTwo(paid.balances, b.header.miner, b.header.miner + "x");
    }
  }

  /** Transfers never report a reward overflow. */
  lemma {:induction false} TransfersOnlyFail(c: Crypto, l: Ledger, txs: seq<Tx>)
    ensures Transfers(c, l, txs).Failure? ==> Transfers(c, l, txs).error.BadTx?
  {
    if |txs| > 0 {
      TransfersOnlyFail(c, l, txs[..|txs| - 1]);
    }
  }

  // --- Nonces ---

  function SentBy(a: Address, txs: seq<Tx>): nat {
    if |txs| == 0 then 0
    else SentBy(a, txs[..|txs| - 1]) + if txs[|txs| - 1].sender == a then 1 else 0
  }

  lemma {:induction false} SentBySplits(a: Address, xs: seq<Tx>, ys: seq<Tx>)
    ensures SentBy(a, xs + ys) == SentBy(a, xs) + SentBy(a, ys)
  {
    if |ys| == 0 {
      assert xs + ys == xs;
    } else {
      SentBySplits(a, xs, ys[..|ys| - 1]);
      assert (xs + ys)[..|xs + ys| - 1] == xs + ys[..|ys| - 1];
    }
  }

  /** In execution order, every transfer carries the number of earlier
      transfers its sender made. */
  ghost predicate Sequenced(txs: seq<Tx>) {
    forall i | 0 <= i < |txs| :: txs[i].nonce == SentBy(txs[i].sender, txs[..i])
  }

  /** Nonces count: after further transfers each account's nonce has grown by
      the transfers it sent, each of which carried the count before it. */
  lemma {:induction false} TransfersCount(c: Crypto, l: Ledger, earlier: seq<Tx>, txs: seq<Tx>)
    requires Transfers(c, l, txs).Success?
    requires Sequenced(earlier) && forall a :: l.NonceOf(a) == SentBy(a, earlier)
    ensures Sequenced(earlier + txs)
    ensures forall a :: Transfers(c, l, txs).value.NonceOf(a) == SentBy(a, earlier + txs)
  {
    hide Transfer, Sequenced, SentBy;
    if |txs| == 0 {
      assert earlier + txs == earlier;
    } else {
      var init, last := txs[..|txs| - 1], txs[|txs| - 1];
      TransfersCount(c, l, earlier, init);
      var before := earlier + init;
      assert earlier + txs == before + [last];
      assert (before + [last])[..|before|] == before;
      CountOne(c, Transfers(c, l, init).value, before, last);
    }
  }

  lemma CountOne(c: Crypto, l: Ledger, before: seq<Tx>, tx: Tx)
    requires Transfer(c, l, tx).Success?
    requires Sequenced(before) && forall a :: l.NonceOf(a) == SentBy(a, before)
    ensures Sequenced(before + [tx])
    ensures forall a :: Transfer(c, l, tx).value.NonceOf(a) == SentBy(a, before + [tx])
  {
    var txs := before + [tx];
    assert txs[..|before|] == before;
    forall i | 0 <= i < |txs|
      ensures txs[i].nonce == SentBy(txs[i].sender, txs[..i])
    {
      if i < |before| {
        assert txs[..i] == before[..i] && txs[i] == before[i];
      }
    }
    forall a
      ensures Transfer(c, l, tx).value.NonceOf(a) == SentBy(a, txs)
    {
      assert l.NonceOf(a) == SentBy(a, before);
    }
  }

  /** Replay protection on a whole chain: each account's nonce is its number of
      transfers, and its k-th transfer carries nonce k. */
  lemma {:induction false} NoncesCount(c: Crypto, path: seq<Block>)
    requires Exec(c, path).Success?
    ensures Sequenced(Bodies(path))
    ensures forall a :: Exec(c, path).value.NonceOf(a) == SentBy(a, Bodies(path))
  {
    hide Transfers, Sequenced;
    if |path| == 0 {
      NothingSent();
    } else {
      var init, last := path[..|path| - 1], path[|path| - 1];
      NoncesCount(c, init);
      TransfersCount(c, Exec(c, init).value, Bodies(init), last.Body());
    }
  }

  lemma NothingSent()
    ensures Sequenced([])
  {
  }

  lemma {:induction false} SentByGrows(a: Address, txs: seq<Tx>, i: nat, j: nat)
    requires i < j <= |txs| && txs[i].sender == a
    ensures SentBy(a, txs[..i]) < SentBy(a, txs[..j])
    decreases j
  {
    assert txs[..j][..j - 1] == txs[..j - 1];
    if j > i + 1 {
      SentByGrows(a, txs, i, j - 1);
    }
  }

  /** No (sender, nonce) pair occurs twice on an executable chain. */
  lemma NoReplay(c: Crypto, path: seq<Block>, i: nat, j: nat)
    requires Exec(c, path).Success?
    requires i < j < |Bodies(path)|
    ensures Bodies(path)[i].sender != Bodies(path)[j].sender || Bodies(path)[i].nonce != Bodies(path)[j].nonce
  {
    hide Exec;
    NoncesCount(c, path);
    var txs := Bodies(path);
    if txs[i].sender == txs[j].sender {
      SentByGrows(txs[i].sender, txs, i, j);
    }
  }

  // --- How many accounts a chain can have ---

  lemma {:induction false} NonZeroAtMostSum(m: map<Address, nat>)
    ensures |NonZero(m)| <= Sum(m)
    decreases |m|
  {
    if m == map[] {
      assert NonZero(m) == map[];
    } else {
      var a :| a in m;
      NonZeroAtMostSum(m - {a});
      SumWithout(m, a);
      NonZeroWithout(m, a);
    }
  }

  lemma NonZeroWithout(m: map<Address, nat>, a: Address)
    requires a in m
    ensures |NonZero(m)| == |NonZero(m - {a})| + if m[a] == 0 then 0 else 1
  {
    if m[a] == 0 {
      assert NonZero(m) == NonZero(m - {a});
    } else {
      assert NonZero(m) == NonZero(m - {a})[a := m[a]];
    }
  }

  /** Every transfer pays a fee, so nonces are counted in fees. */
  lemma {:induction false} TransfersPayNonces(c: Crypto, l: Ledger, txs: seq<Tx>)
    requires Transfers(c, l, txs).Success?
    ensures Sum(Transfers(c, l, txs).value.nonces) <= Sum(l.nonces) + Fees(txs)
  {
    hide Transfer;
    if |txs| > 0 {
      var init, last := txs[..|txs| - 1], txs[|txs| - 1];
      TransfersPayNonces(c, l, init);
      TransferPaysNonce(c, Transfers(c, l, init).value, last);
    }
  }

  lemma TransferPaysNonce(c: Crypto, l: Ledger, tx: Tx)
    requires Transfer(c, l, tx).Success?
    ensures Sum(Transfer(c, l, tx).value.nonces) <= Sum(l.nonces) + Fee(tx)
  {
    SumUpdated(l.nonces, tx.sender, l.NonceOf(tx.sender) + 1);
  }

  lemma {:induction false} NoncesPaid(c: Crypto, path: seq<Block>)
    requires Exec(c, path).Success?
    ensures Sum(Exec(c, path).value.nonces) <= ChainFees(path)
  {
    hide Transfers, Fees;
    if |path| > 0 {
      var init, last := path[..|path| - 1], path[|path| - 1];
      NoncesPaid(c, init);
      TransfersPayNonces(c, Exec(c, init).value, last.Body());
    }
  }

  /** Below 128 halvings no chain can leave more accounts than an in-memory map
      can hold: every account that holds something holds a unit of the supply,
      and every account that sent something paid a fee out of it. */
  lemma ChainFits(c: Crypto, path: seq<Block>)
    requires Exec(c, path).Success? && |path| <= 128 * HALVING_INTERVAL
    requires forall i | 0 <= i < |path| :: path[i].Height() == i
    ensures Fits(Exec(c, path).value)
  {
    hide Exec, Minted, ChainFees, Sum, NonZero;
    var l := Exec(c, path).value;
    SupplyConserved(c, path);
    NoncesPaid(c, path);
    MintedFits(|path|);
    NonZeroAtMostSum(l.balances);
    NonZeroAtMostSum(l.nonces);
  }

  lemma MintedFits(n: nat)
    requires n <= 128 * HALVING_INTERVAL
    ensures Minted(n) < U64_LIMIT
  {
    if n > 0 {
      EmissionCap(n);
    }
  }
}
