/** Account state and its execution: cash transfers, the coinbase reward, and
    the execution of whole blocks and whole chains from an empty ledger.
 */
module Ledgers {
  import opened Arithmetic
  import opened Base

  datatype Ledger = Ledger(balances: map<Address, u128>, nonces: map<Address, u64>) {
    function BalanceOf(a: Address): u128 {
      if a in balances then balances[a] else 0
    }

    function NonceOf(a: Address): u64 {
      if a in nonces then nonces[a] else 0
    }
  }

  const EMPTY_LEDGER := Ledger(map[], map[])

  // --- Stateless validation ---

  datatype TxError =
    | UnsupportedModuleMethod
    | TxTooLarge
    | MissingSenderPubkey
    | MissingSignature
    | FeeLimitTooLow
    | BadSignature
    | BadTransferArgs
    | InvalidTransferDestination
    | TransferAmountZero
    | TransferToSelf
    | NonceMismatch(expected: u64, actual: u64)
    | FeeExceedsLimit(charged: u64, limit: u64)
    | InsufficientBalance(available: u128, required: u128)
    | ArithmeticOverflow

  predicate IsTransfer(tx: Tx) {
    tx.moduleName == "cash" && tx.methodName == "transfer"
  }

  predicate IsCoinbase(tx: Tx) {
    tx.moduleName == "coinbase" && tx.methodName == "reward"
  }

  /** The signature check decodes both hex fields before it verifies. */
  predicate SignatureOk(c: Crypto, tx: Tx) {
    IsAccount(tx.sender) && |tx.sig| == 128 && IsLowerHex(tx.sig) && c.signed(tx)
  }

  function ValidateTransfer(c: Crypto, tx: Tx): (r: Result<TransferArgs, TxError>)
    ensures r.Success? ==>
              IsAccount(tx.sender) && IsAccount(r.value.to) && r.value.to != tx.sender && r.value.amount > 0
  {
    if tx.feeLimit < MIN_CASH_TRANSFER_FEE_LIMIT then Failure(FeeLimitTooLow)
    else if !SignatureOk(c, tx) then Failure(BadSignature)
    else match c.decodeArgs(tx.args)
      case None => Failure(BadTransferArgs)
      case Some(args) =>
        if !IsAccount(args.to) then Failure(InvalidTransferDestination)
        else if args.amount == 0 then Failure(TransferAmountZero)
        else if args.to == tx.sender then Failure(TransferToSelf)
        else Success(args)
  }

  /** Transaction rules that need no account state; a coinbase passes here. */
  function ValidateStateless(c: Crypto, tx: Tx): Option<TxError> {
    if c.txSize(tx) > MAX_SERIALIZED_TX_BYTES then Some(TxTooLarge)
    else if IsCoinbase(tx) then None
    else if |tx.sender| == 0 then Some(MissingSenderPubkey)
    else if |tx.sig| == 0 then Some(MissingSignature)
    else if IsTransfer(tx) then
      match ValidateTransfer(c, tx)
      case Success(_) => None
      case Failure(e) => Some(e)
    else Some(UnsupportedModuleMethod)
  }

  // --- One transfer ---

  /** The charged fee before its 64-bit check. */
  function Fee(tx: Tx): nat {
    CASH_TRANSFER_BASE_FEE + tx.tip
  }

  /** The ledger after one cash transfer, or why it does not apply. The charged
      fee leaves the sender and reaches no account. */
  function Transfer(c: Crypto, l: Ledger, tx: Tx): Result<Ledger, TxError> {
    if !IsTransfer(tx) then Failure(UnsupportedModuleMethod)
    else if ValidateStateless(c, tx).Some? then Failure(ValidateStateless(c, tx).value)
    else if tx.nonce != l.NonceOf(tx.sender) then Failure(NonceMismatch(l.NonceOf(tx.sender), tx.nonce))
    else
      var args := c.decodeArgs(tx.args).value;
      if Fee(tx) >= U64_LIMIT then Failure(ArithmeticOverflow)
      else if Fee(tx) > tx.feeLimit then Failure(FeeExceedsLimit(Fee(tx), tx.feeLimit))
      else if args.amount + Fee(tx) >= U128_LIMIT then Failure(ArithmeticOverflow)
      else
        var available := l.BalanceOf(tx.sender);
        var cost := args.amount + Fee(tx);
        if available < cost then Failure(InsufficientBalance(available, cost))
        else if l.BalanceOf(args.to) + args.amount >= U128_LIMIT then Failure(ArithmeticOverflow)
        else if tx.nonce + 1 >= U64_LIMIT then Failure(ArithmeticOverflow)
        else
          Success(Ledger(
                    l.balances[tx.sender := available - cost][args.to := l.BalanceOf(args.to) + args.amount],
                    l.nonces[tx.sender := tx.nonce + 1]))
  }

  // --- Blocks and chains ---

  datatype ExecError = BadTx(error: TxError) | BadMiner | RewardOverflow

  function Pow2(n: nat): (p: nat)
    ensures p >= 1
  {
    if n == 0 then 1 else 2 * Pow2(n - 1)
  }

  /** The block subsidy. The 128-bit shift takes its amount modulo 128. */
  function BlockReward(height: nat): (r: u128)
    ensures r <= EMISSION_PER_BLOCK
  {
    var p := Pow2(height / HALVING_INTERVAL % 128);
    DivBetween(EMISSION_PER_BLOCK, p, 0, EMISSION_PER_BLOCK);
    EMISSION_PER_BLOCK / p
  }

  function Reward(l: Ledger, miner: Address, height: nat): Result<Ledger, ExecError> {
    if !IsAccount(miner) then Failure(BadMiner)
    else if l.BalanceOf(miner) + BlockReward(height) >= U128_LIMIT then Failure(RewardOverflow)
    else Success(l.(balances := l.balances[miner := l.BalanceOf(miner) + BlockReward(height)]))
  }

  function Transfers(c: Crypto, l: Ledger, txs: seq<Tx>): Result<Ledger, ExecError> {
    if |txs| == 0 then Success(l)
    else
      var before :- Transfers(c, l, txs[..|txs| - 1]);
      match Transfer(c, before, txs[|txs| - 1])
      case Success(after) => Success(after)
      case Failure(e) => Failure(BadTx(e))
  }

  function ExecBlock(c: Crypto, l: Ledger, b: Block): Result<Ledger, ExecError> {
    var paid :- Transfers(c, l, b.Body());
    if b.Height() == 0 then Success(paid) else Reward(paid, b.header.miner, b.Height())
  }

  /** Execution of a chain, genesis first, from the empty ledger. */
  function Exec(c: Crypto, path: seq<Block>): Result<Ledger, ExecError> {
    if |path| == 0 then Success(EMPTY_LEDGER)
    else
      var before :- Exec(c, path[..|path| - 1]);
      ExecBlock(c, before, path[|path| - 1])
  }

  lemma EmptyExec(c: Crypto)
    ensures Exec(c, []) == Success(EMPTY_LEDGER)
  {
  }

  /** Execution of further blocks on top of a ledger. */
  function ExecFrom(c: Crypto, l: Ledger, branch: seq<Block>): Result<Ledger, ExecError> {
    if |branch| == 0 then Success(l)
    else
      var before :- ExecFrom(c, l, branch[..|branch| - 1]);
      ExecBlock(c, before, branch[|branch| - 1])
  }

  /** A chain executes exactly as its head followed by the rest. */
  lemma {:induction false} ExecSplits(c: Crypto, head: seq<Block>, branch: seq<Block>)
    ensures Exec(c, head + branch) ==
            match Exec(c, head) { case Success(l) => ExecFrom(c, l, branch) case Failure(e) => Failure(e) }
  {
    if |branch| == 0 {
      assert head + branch == head;
    } else {
      ExecSplits(c, head, branch[..|branch| - 1]);
      assert (head + branch)[..|head + branch| - 1] == head + branch[..|branch| - 1];
    }
  }

  // --- Zero entries never matter ---

  function NonZero(m: map<Address, nat>): (r: map<Address, nat>)
    ensures forall a | a in r :: a in m && r[a] == m[a] && r[a] != 0
  {
    map a | a in m && m[a] != 0 :: m[a]
  }

  /** A ledger without its zero entries: the part that carries meaning. */
  function Norm(l: Ledger): Ledger {
    Ledger(NonZero(l.balances), NonZero(l.nonces))
  }

  ghost predicate Same(l: Ledger, k: Ledger) {
    Norm(l) == Norm(k)
  }

  lemma SameReads(l: Ledger, k: Ledger)
    requires Same(l, k)
    ensures forall a :: l.BalanceOf(a) == k.BalanceOf(a) && l.NonceOf(a) == k.NonceOf(a)
  {
    forall a
      ensures l.BalanceOf(a) == k.BalanceOf(a) && l.NonceOf(a) == k.NonceOf(a)
    {
      assert l.BalanceOf(a) == Norm(l).BalanceOf(a) && k.BalanceOf(a) == Norm(k).BalanceOf(a);
      assert l.NonceOf(a) == Norm(l).NonceOf(a) && k.NonceOf(a) == Norm(k).NonceOf(a);
    }
  }

  lemma SameFromReads(l: Ledger, k: Ledger)
    requires forall a :: l.BalanceOf(a) == k.BalanceOf(a) && l.NonceOf(a) == k.NonceOf(a)
    ensures Same(l, k)
  {
    forall a
      ensures a in Norm(l).balances <==> a in Norm(k).balances
      ensures a in Norm(l).nonces <==> a in Norm(k).nonces
      ensures a in Norm(l).balances ==> Norm(l).balances[a] == Norm(k).balances[a]
      ensures a in Norm(l).nonces ==> Norm(l).nonces[a] == Norm(k).nonces[a]
    {
      assert l.BalanceOf(a) == k.BalanceOf(a) && l.NonceOf(a) == k.NonceOf(a);
    }
    assert Norm(l).balances == Norm(k).balances;
    assert Norm(l).nonces == Norm(k).nonces;
  }

  /** Two ledgers are the same up to zero entries exactly when every balance
      and every nonce reads the same. */
  lemma SamePointwise(l: Ledger, k: Ledger)
    ensures Same(l, k) <==> forall a :: l.BalanceOf(a) == k.BalanceOf(a) && l.NonceOf(a) == k.NonceOf(a)
  {
    if Same(l, k) {
      SameReads(l, k);
    }
    if forall a :: l.BalanceOf(a) == k.BalanceOf(a) && l.NonceOf(a) == k.NonceOf(a) {
      SameFromReads(l, k);
    }
  }

  /** Equal failures, or successes that are the same up to zero entries. */
  ghost predicate SameOutcome<E>(r: Result<Ledger, E>, q: Result<Ledger, E>) {
    match (r, q)
    case (Success(l), Success(k)) => Same(l, k)
    case (Failure(e), Failure(d)) => e == d
    case _ => false
  }

  lemma TransferCongruent(c: Crypto, l: Ledger, k: Ledger, tx: Tx)
    requires Same(l, k)
    ensures SameOutcome(Transfer(c, l, tx), Transfer(c, k, tx))
  {
    SameReads(l, k);
    var r, q := Transfer(c, l, tx), Transfer(c, k, tx);
    if r.Success? {
      forall a
        ensures r.value.BalanceOf(a) == q.value.BalanceOf(a) && r.value.NonceOf(a) == q.value.NonceOf(a)
      {
        assert l.BalanceOf(a) == k.BalanceOf(a) && l.NonceOf(a) == k.NonceOf(a);
      }
      SameFromReads(r.value, q.value);
    }
  }

  lemma {:induction false} TransfersCongruent(c: Crypto, l: Ledger, k: Ledger, txs: seq<Tx>)
    requires Same(l, k)
    ensures SameOutcome(Transfers(c, l, txs), Transfers(c, k, txs))
  {
    if |txs| != 0 {
      var init, last := txs[..|txs| - 1], txs[|txs| - 1];
      TransfersCongruent(c, l, k, init);
      if Transfers(c, l, init).Success? {
        TransferCongruent(c, Transfers(c, l, init).value, Transfers(c, k, init).value, last);
      }
    }
  }

  lemma RewardCongruent(l: Ledger, k: Ledger, miner: Address, height: nat)
    requires Same(l, k)
    ensures SameOutcome(Reward(l, miner, height), Reward(k, miner, height))
  {
    SameReads(l, k);
    var r, q := Reward(l, miner, height), Reward(k, miner, height);
    if r.Success? {
      forall a
        ensures r.value.BalanceOf(a) == q.value.BalanceOf(a) && r.value.NonceOf(a) == q.value.NonceOf(a)
      {
        assert l.BalanceOf(a) == k.BalanceOf(a) && l.NonceOf(a) == k.NonceOf(a);
      }
      SameFromReads(r.value, q.value);
    }
  }

  /** Executing a block cannot tell a ledger from its zero-free form. */
  lemma ExecBlockCongruent(c: Crypto, l: Ledger, k: Ledger, b: Block)
    requires Same(l, k)
    ensures SameOutcome(ExecBlock(c, l, b), ExecBlock(c, k, b))
  {
    TransfersCongruent(c, l, k, b.Body());
    var r, q := Transfers(c, l, b.Body()), Transfers(c, k, b.Body());
    if r.Success? && b.Height() != 0 {
      RewardCongruent(r.value, q.value, b.header.miner, b.Height());
    }
  }

  // --- Well-formed keys ---

  ghost predicate KeysOk(l: Ledger) {
    (forall a | a in l.balances :: IsAccount(a)) && (forall a | a in l.nonces :: IsAccount(a))
  }

  lemma {:induction false} TransfersKeepKeys(c: Crypto, l: Ledger, txs: seq<Tx>)
    requires KeysOk(l)
    ensures Transfers(c, l, txs).Success? ==> KeysOk(Transfers(c, l, txs).value)
  {
    if |txs| != 0 {
      TransfersKeepKeys(c, l, txs[..|txs| - 1]);
    }
  }

  /** Every ledger a chain can produce has only 64-character lowercase hex keys. */
  lemma {:induction false} ExecKeepsKeys(c: Crypto, path: seq<Block>)
    ensures Exec(c, path).Success? ==> KeysOk(Exec(c, path).value)
  {
    if |path| != 0 {
      ExecKeepsKeys(c, path[..|path| - 1]);
      if Exec(c, path[..|path| - 1]).Success? {
        TransfersKeepKeys(c, Exec(c, path[..|path| - 1]).value, path[|path| - 1].Body());
      }
    }
  }

  // --- In-place execution ---

  datatype Outcome = Outcome(sender: Address, recipient: Address, amount: u128, fee: u64, nextNonce: u64)

  /** The mutable balances and nonces that a block is executed against. */
  class TxExecutionState {
    var balances: map<Address, u128>
    var nonces: map<Address, u64>

    ghost function View(): Ledger
      reads this
    {
      Ledger(balances, nonces)
    }

    constructor (balances: map<Address, u128>, nonces: map<Address, u64>)
      ensures View() == Ledger(balances, nonces)
    {
      this.balances, this.nonces := balances, nonces;
    }

    method BalanceOf(a: Address) returns (r: u128)
      ensures r == View().BalanceOf(a)
    {
      r := if a in balances then balances[a] else 0;
    }

    method NonceOf(a: Address) returns (r: u64)
      ensures r == View().NonceOf(a)
    {
      r := if a in nonces then nonces[a] else 0;
    }

    /** Execute one transfer; on any error nothing has changed. */
    method Simulate(c: Crypto, tx: Tx) returns (r: Result<Outcome, TxError>)
      modifies this
      ensures match Transfer(c, old(View()), tx)
              case Success(after) =>
                View() == after && r.Success? && r.value.sender == tx.sender && r.value.fee == Fee(tx)
                && r.value.nextNonce == after.NonceOf(tx.sender)
              case Failure(e) => View() == old(View()) && r == Failure(e)
    {
      if tx.moduleName != "cash" || tx.methodName != "transfer" {
        return Failure(UnsupportedModuleMethod);
      }
      match ValidateStateless(c, tx) {
        case Some(e) => return Failure(e);
        case None =>
      }
      var expectedNonce := NonceOf(tx.sender);
      if tx.nonce != expectedNonce {
        return Failure(NonceMismatch(expectedNonce, tx.nonce));
      }
      var args := c.decodeArgs(tx.args).value;
      var charged := CASH_TRANSFER_BASE_FEE + tx.tip;
      if charged >= U64_LIMIT {
        return Failure(ArithmeticOverflow);
      }
      if charged > tx.feeLimit {
        return Failure(FeeExceedsLimit(charged, tx.feeLimit));
      }
      var totalCost := args.amount + charged;
      if totalCost >= U128_LIMIT {
        return Failure(ArithmeticOverflow);
      }
      var available := BalanceOf(tx.sender);
      if available < totalCost {
        return Failure(InsufficientBalance(available, totalCost));
      }
      var recipientBalance := BalanceOf(args.to);
      if recipientBalance + args.amount >= U128_LIMIT || expectedNonce + 1 >= U64_LIMIT {
        return Failure(ArithmeticOverflow);
      }
      balances := balances[tx.sender := available - totalCost];
      balances := balances[args.to := recipientBalance + args.amount];
      nonces := nonces[tx.sender := expectedNonce + 1];
      return Success(Outcome(tx.sender, args.to, args.amount, charged, expectedNonce + 1));
    }

    /** Execute a block's transactions in order, the coinbase skipped. */
    method ExecuteBody(c: Crypto, b: Block) returns (r: Result<(), ExecError>)
      modifies this
      ensures match Transfers(c, old(View()), b.Body())
              case Success(after) => View() == after && r == Success(())
              case Failure(e) => r == Failure(e)
    {
      ghost var start := View();
      var body := b.Body();
      var i := 0;
      assert body[..0] == [];
      while i < |body|
        invariant 0 <= i <= |body|
        invariant Transfers(c, start, body[..i]) == Success(View())
      {
        assert body[..i + 1][..i] == body[..i];
        var outcome := Simulate(c, body[i]);
        if outcome.Failure? {
          TransfersFail(c, start, body, i + 1);
          return Failure(BadTx(outcome.error));
        }
        i := i + 1;
      }
      assert body[..i] == body;
      return Success(());
    }

    method ApplyCoinbaseReward(miner: Address, height: u64) returns (r: Result<(), ExecError>)
      modifies this
      ensures match Reward(old(View()), miner, height)
              case Success(after) => View() == after && r == Success(())
              case Failure(e) => r == Failure(e)
    {
      if |miner| != 64 || !IsLowerHex(miner) {
        return Failure(BadMiner);
      }
      var reward := BlockReward(height);
      var entry := BalanceOf(miner);
      if entry + reward >= U128_LIMIT {
        return Failure(RewardOverflow);
      }
      balances := balances[miner := entry + reward];
      return Success(());
    }

    /** Execute one block: its transfers, then the reward unless it is genesis. */
    method ExecuteBlock(c: Crypto, b: Block) returns (r: Result<(), ExecError>)
      modifies this
      ensures match ExecBlock(c, old(View()), b)
              case Success(after) => View() == after && r == Success(())
              case Failure(e) => r == Failure(e)
    {
      r := ExecuteBody(c, b);
      if r.Failure? {
        return;
      }
      if b.Height() != 0 {
        r := ApplyCoinbaseReward(b.header.miner, b.Height());
      }
    }
  }

  /** A failing prefix fails the whole sequence with the same error. */
  lemma {:induction false} TransfersFail(c: Crypto, l: Ledger, txs: seq<Tx>, n: nat)
    requires n <= |txs| && Transfers(c, l, txs[..n]).Failure?
    ensures Transfers(c, l, txs) == Transfers(c, l, txs[..n])
    decreases |txs| - n
  {
    if n == |txs| {
      assert txs[..n] == txs;
    } else {
      assert txs[..n + 1][..n] == txs[..n];
      TransfersFail(c, l, txs, n + 1);
    }
  }

  lemma {:induction false} EveryTransfer(c: Crypto, l: Ledger, txs: seq<Tx>, n: nat)
    requires n <= |txs| && Transfers(c, l, txs).Success?
    ensures Transfers(c, l, txs[..n]).Success?
    decreases |txs|
  {
    if n < |txs| {
      EveryTransfer(c, l, txs[..|txs| - 1], n);
      assert txs[..|txs| - 1][..n] == txs[..n];
    } else {
      assert txs[..n] == txs;
    }
  }

  lemma {:induction false} ExecPrefixSucceeds(c: Crypto, path: seq<Block>, n: nat)
    requires n <= |path| && Exec(c, path).Success?
    ensures Exec(c, path[..n]).Success?
  {
    if n < |path| {
      ExecPrefixSucceeds(c, path[..|path| - 1], n);
      assert path[..|path| - 1][..n] == path[..n];
    } else {
      assert path[..n] == path;
    }
  }
}
