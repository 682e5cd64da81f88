/** What a transfer needs and what it does, account by account; who authorised
    what is on a chain; and what every balance on a chain is made of.
 */
module Accounts {
  import opened Arithmetic
  import opened Base
  import opened Ledgers
  import opened Consensus
  import opened Economy

  // --- One transfer ---

  /** What a transfer moves; nothing where its arguments do not decode. */
  function Amount(c: Crypto, tx: Tx): nat {
    match c.decodeArgs(tx.args)
    case None => 0
    case Some(args) => args.amount
  }

  ghost predicate Pays(c: Crypto, tx: Tx, a: Address) {
    c.decodeArgs(tx.args).Some? && c.decodeArgs(tx.args).value.to == a
  }

  /** A transfer as its sender authorised it: small enough, fee limit high enough,
      signed by a well-formed account, and moving a positive amount to another
      one. */
  ghost predicate Authorised(c: Crypto, tx: Tx) {
    && tx.moduleName == "cash" && tx.methodName == "transfer"
    && c.txSize(tx) <= 65_536 && tx.feeLimit >= 201
    && IsAccount(tx.sender) && |tx.sig| == 128 && IsLowerHex(tx.sig) && c.signed(tx)
    && Amount(c, tx) > 0 && (exists to :: Pays(c, tx, to) && IsAccount(to) && to != tx.sender)
  }

  /** A transfer passes the rules that need no account state exactly when it is
      authorised; of other transactions only a coinbase that is small enough
      passes. */
  lemma StatelessExactly(c: Crypto, tx: Tx)
    ensures ValidateStateless(c, tx) == None <==>
            Authorised(c, tx) || (c.txSize(tx) <= 65_536 && IsCoinbase(tx))
  {
    if IsTransfer(tx) && c.decodeArgs(tx.args).Some? {
      assert Pays(c, tx, c.decodeArgs(tx.args).value.to);
    }
  }

  /** A transfer applies exactly when it is authorised, carries its sender's nonce,
      charges no more than its limit, is covered, and overflows nothing. Then it
      takes amount and fee from the sender, gives the amount to the recipient,
      counts the sender's nonce up, and touches nothing else. */
  lemma TransferExactly(c: Crypto, l: Ledger, tx: Tx)
    ensures Transfer(c, l, tx).Success? <==>
            && Authorised(c, tx)
            && tx.nonce == l.NonceOf(tx.sender) && tx.nonce + 1 < U64_LIMIT
            && 1 + tx.tip <= tx.feeLimit
            && Amount(c, tx) + 1 + tx.tip <= l.BalanceOf(tx.sender)
            && forall a {:trigger Pays(c, tx, a)} | Pays(c, tx, a) :: l.BalanceOf(a) + Amount(c, tx) < U128_LIMIT
    ensures Transfer(c, l, tx).Success? ==> Moves(c, l, tx, Transfer(c, l, tx).value)
  {
    hide ValidateStateless, Authorised;
    StatelessExactly(c, tx);
    if IsTransfer(tx) && ValidateStateless(c, tx).None? {
      Decoded(c, tx);
      var to := c.decodeArgs(tx.args).value.to;
      assert Pays(c, tx, to);
    } else if Authorised(c, tx) {
      AuthorisedTransfer(c, tx);
    }
  }

  /** Which error a refused transfer gets: for what it is before what the account
      state says, then its nonce, its charge, its cover, and last an overflow. */
  lemma TransferErrors(c: Crypto, l: Ledger, tx: Tx)
    ensures var r, charge, cost := Transfer(c, l, tx), 1 + tx.tip, Amount(c, tx) + 1 + tx.tip;
            && (!IsTransfer(tx) ==> r == Failure(UnsupportedModuleMethod))
            && (IsTransfer(tx) && !Authorised(c, tx) ==>
                  r.Failure? && ValidateStateless(c, tx) == Some(r.error))
            && (Authorised(c, tx) && tx.nonce != l.NonceOf(tx.sender) ==>
                  r == Failure(NonceMismatch(l.NonceOf(tx.sender), tx.nonce)))
            && (Authorised(c, tx) && tx.nonce == l.NonceOf(tx.sender) ==>
                  && (tx.feeLimit < charge < U64_LIMIT ==> r == Failure(FeeExceedsLimit(charge, tx.feeLimit)))
                  && (charge <= tx.feeLimit && l.BalanceOf(tx.sender) < cost < U128_LIMIT ==>
                        r == Failure(InsufficientBalance(l.BalanceOf(tx.sender), cost)))
                  && (charge <= tx.feeLimit && cost <= l.BalanceOf(tx.sender) && r.Failure? ==>
                        r == Failure(ArithmeticOverflow)))
  {
    hide ValidateStateless, Authorised;
    StatelessExactly(c, tx);
    if Authorised(c, tx) {
      AuthorisedTransfer(c, tx);
      Decoded(c, tx);
    }
  }

  lemma AuthorisedTransfer(c: Crypto, tx: Tx)
    requires Authorised(c, tx)
    ensures IsTransfer(tx)
  {
  }

  lemma Decoded(c: Crypto, tx: Tx)
    requires IsTransfer(tx) && ValidateStateless(c, tx).None?
    ensures c.decodeArgs(tx.args).Some? && c.decodeArgs(tx.args).value.to != tx.sender
  {
  }

  /** The accounts after a transfer, one by one. */
  ghost predicate Moves(c: Crypto, l: Ledger, tx: Tx, k: Ledger) {
    && (forall a :: k.BalanceOf(a) + (if a == tx.sender then Amount(c, tx) + 1 + tx.tip else 0)
                    == l.BalanceOf(a) + if Pays(c, tx, a) then Amount(c, tx) else 0)
    && (forall a :: k.NonceOf(a) == l.NonceOf(a) + if a == tx.sender then 1 else 0)
  }

  /** The reward credits the miner, and nobody else, with the subsidy. */
  lemma RewardExactly(l: Ledger, miner: Address, height: nat)
    ensures Reward(l, miner, height).Success? <==>
            IsAccount(miner) && l.BalanceOf(miner) + BlockReward(height) < U128_LIMIT
    ensures Reward(l, miner, height).Success? ==>
              var k := Reward(l, miner, height).value;
              && (forall a :: k.BalanceOf(a) == l.BalanceOf(a) + if a == miner then BlockReward(height) else 0)
              && (forall a :: k.NonceOf(a) == l.NonceOf(a))
  {
  }

  /** The first period pays the full emission, and each further one half, rounded
      down, until the shift wraps. */
  lemma RewardHalves(height: nat)
    ensures height < 2_102_400 ==> BlockReward(height) == 510_000_000_000
    ensures height < 127 * 2_102_400 ==> BlockReward(height + 2_102_400) == BlockReward(height) / 2
    ensures BlockReward(height + 128 * 2_102_400) == BlockReward(height)
  {
    hide BlockReward, Subsidy;
    Periods(height);
    var k := height / HALVING_INTERVAL;
    FirstSubsidy();
    SubsidyHalved(k);
    if k < 127 {
      RewardIsSubsidy(height, k);
      RewardIsSubsidy(height + 2_102_400, k + 1);
    }
    RewardWraps(height);
  }

  lemma Periods(height: nat)
    ensures height < 2_102_400 ==> height / HALVING_INTERVAL == 0
    ensures height < 127 * 2_102_400 ==> height / HALVING_INTERVAL < 127
    ensures (height + 2_102_400) / HALVING_INTERVAL == height / HALVING_INTERVAL + 1
    ensures (height + 128 * 2_102_400) / HALVING_INTERVAL == height / HALVING_INTERVAL + 128
  {
  }

  lemma SubsidyHalved(k: nat)
    ensures Subsidy(k + 1) == Subsidy(k) / 2
  {
    hide Pow2;
    Pow2Next(k);
    DivTwice(EMISSION_PER_BLOCK, Pow2(k), 2);
  }

  lemma RewardWraps(height: nat)
    ensures BlockReward(height + 128 * 2_102_400) == BlockReward(height)
  {
    hide Pow2;
    Periods(height);
  }

  // --- Who authorised what ---

  /** A transfer that is in order on a chain: authorised, and charged no more than
      its limit. */
  ghost predicate Rightful(c: Crypto, tx: Tx) {
    Authorised(c, tx) && 1 + tx.tip <= tx.feeLimit
  }

  lemma {:induction false} TransfersInOrder(c: Crypto, l: Ledger, txs: seq<Tx>, t: Tx)
    requires Transfers(c, l, txs).Success? && t in txs
    ensures Rightful(c, t)
  {
    hide Transfer, Authorised;
    var init, last := txs[..|txs| - 1], txs[|txs| - 1];
    assert txs == init + [last];
    if t in init {
      TransfersInOrder(c, l, init, t);
    } else {
      TransferExactly(c, Transfers(c, l, init).value, last);
    }
  }

  /** Nothing moves on an executed chain that was not signed for: every transaction
      beside the coinbases is authorised and charged within its limit. */
  lemma {:induction false} ChainRightful(c: Crypto, path: seq<Block>, t: Tx)
    requires Exec(c, path).Success? && t in Bodies(path)
    ensures Rightful(c, t)
  {
    hide Transfers, Rightful;
    var init, last := path[..|path| - 1], path[|path| - 1];
    if t in Bodies(init) {
      ChainRightful(c, init, t);
    } else {
      TransfersInOrder(c, Exec(c, init).value, last.Body(), t);
    }
  }

  // --- What a balance is made of ---

  /** What an account was paid by transfers. */
  ghost function Received(c: Crypto, a: Address, txs: seq<Tx>): nat {
    if |txs| == 0 then 0
    else Received(c, a, txs[..|txs| - 1]) + if Pays(c, txs[|txs| - 1], a) then Amount(c, txs[|txs| - 1]) else 0
  }

  /** What an account paid, fees included. */
  ghost function Spent(c: Crypto, a: Address, txs: seq<Tx>): nat {
    if |txs| == 0 then 0
    else
      var last := txs[|txs| - 1];
      Spent(c, a, txs[..|txs| - 1]) + if last.sender == a then Amount(c, last) + 1 + last.tip else 0
  }

  /** The rewards of the blocks an account mined. */
  ghost function Mined(a: Address, path: seq<Block>): nat {
    if |path| == 0 then 0
    else
      var last := path[|path| - 1];
      Mined(a, path[..|path| - 1])
      + if last.Height() > 0 && last.header.miner == a then BlockReward(last.Height()) else 0
  }

  lemma {:induction false} ReceivedSplits(c: Crypto, a: Address, xs: seq<Tx>, ys: seq<Tx>)
    ensures Received(c, a, xs + ys) == Received(c, a, xs) + Received(c, a, ys)
    ensures Spent(c, a, xs + ys) == Spent(c, a, xs) + Spent(c, a, ys)
  {
    hide Pays, Amount;
    if |ys| == 0 {
      assert xs + ys == xs;
    } else {
      ReceivedSplits(c, a, xs, ys[..|ys| - 1]);
      assert (xs + ys)[..|xs + ys| - 1] == xs + ys[..|ys| - 1];
    }
  }

  lemma {:induction false} TransfersHistory(c: Crypto, l: Ledger, txs: seq<Tx>, a: Address)
    requires Transfers(c, l, txs).Success?
    ensures Transfers(c, l, txs).value.BalanceOf(a) + Spent(c, a, txs) == l.BalanceOf(a) + Received(c, a, txs)
  {
    hide Transfer, Authorised, Pays, Amount;
    if |txs| > 0 {
      var init, last := txs[..|txs| - 1], txs[|txs| - 1];
      TransfersHistory(c, l, init, a);
      TransferExactly(c, Transfers(c, l, init).value, last);
    }
  }

  /** Every balance on an executed chain is accounted for: the rewards of the
      blocks its account mined and what transfers paid it, less what it sent and
      was charged. */
  lemma {:induction false} AccountHistory(c: Crypto, path: seq<Block>, a: Address)
    requires Exec(c, path).Success?
    ensures Exec(c, path).value.BalanceOf(a) + Spent(c, a, Bodies(path))
            == Mined(a, path) + Received(c, a, Bodies(path))
  {
    hide Transfers, Reward, Spent, Received, BlockReward;
    if |path| == 0 {
      NothingMoved(c, a);
    } else {
      var init, last := path[..|path| - 1], path[|path| - 1];
      var before := Exec(c, init).value;
      AccountHistory(c, init, a);
      TransfersHistory(c, before, last.Body(), a);
      ReceivedSplits(c, a, Bodies(init), last.Body());
      RewardExactly(Transfers(c, before, last.Body()).value, last.header.miner, last.Height());
    }
  }

  lemma NothingMoved(c: Crypto, a: Address)
    ensures Spent(c, a, []) == 0 && Received(c, a, []) == 0
  {
  }

  // --- In which order money can be spent ---

  /** At no point of an executed chain has an account spent more than it had by then:
      the rewards of the blocks below and what was paid to it before. What a block
      pays its miner cannot be spent in it, nor what later transfers bring. */
  lemma NeverOverdrawn(c: Crypto, path: seq<Block>, k: nat, i: nat, a: Address)
    requires Exec(c, path).Success? && k < |path| && i <= |path[k].Body()|
    ensures var txs := Bodies(path[..k]) + path[k].Body()[..i];
            Spent(c, a, txs) <= Mined(a, path[..k]) + Received(c, a, txs)
  {
    hide Transfers, Spent, Received, Mined, Bodies;
    var below, body := path[..k], path[k].Body();
    ExecPrefixSucceeds(c, path, k);
    ExecPrefixSucceeds(c, path, k + 1);
    assert path[..k + 1][..k] == below;
    EveryTransfer(c, Exec(c, below).value, body, i);
    AccountHistory(c, below, a);
    TransfersHistory(c, Exec(c, below).value, body[..i], a);
    ReceivedSplits(c, a, Bodies(below), body[..i]);
  }
}
