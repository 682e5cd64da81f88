/** Block validity: what a block must satisfy by itself and against the chain
    it extends. Nothing here looks at the rest of the node's state.
 */
module Validity {
  import opened Arithmetic
  import opened Base
  import opened Ledgers
  import opened StateRoots
  import opened Difficulty

  datatype Reason =
    | Overweight
    | TxRootMismatch
    | MissingCoinbase
    | FirstTxNotCoinbase
    | Duplicate
    | GenesisHashMismatch
    | GenesisAlreadyApplied
    | TimestampNotMonotonic
    | TooFarInFuture
    | DifficultyBelowFloor
    | DifficultyMismatch
    | PowUndefined
    | PowFailed
    | PowHashMismatch
    | CoinbaseArgsLength
    | CoinbaseHeightMismatch
    | DuplicateTx
    | ExecutionFailed(error: ExecError)
    | StateRootFailed
    | StateRootMismatch
    | PersistenceFailed

  // --- Stage 1: the block by itself ---

  function TxIds(c: Crypto, txs: seq<Tx>): (ids: seq<string>)
    ensures |ids| == |txs| && forall i | 0 <= i < |txs| :: ids[i] == c.txId(txs[i])
  {
    seq(|txs|, i requires 0 <= i < |txs| => c.txId(txs[i]))
  }

  function TxRoot(c: Crypto, txs: seq<Tx>): string {
    if |txs| == 0 then NullHash() else c.idsRoot(TxIds(c, txs))
  }

  function Shape(c: Crypto, b: Block): Option<Reason> {
    if b.weight > BLOCK_WEIGHT_LIMIT then Some(Overweight)
    else if b.header.txRoot != TxRoot(c, b.txs) then Some(TxRootMismatch)
    else if b.Height() > 0 && |b.txs| == 0 then Some(MissingCoinbase)
    else if b.Height() > 0 && !IsCoinbase(b.txs[0]) then Some(FirstTxNotCoinbase)
    else None
  }

  /** Within the weight limit, committed to by the root of the transaction ids, of
      nothing by 64 zeros, and above genesis with a coinbase in front. */
  ghost predicate Formed(c: Crypto, b: Block) {
    && b.weight <= 400_000
    && (if |b.txs| == 0 then |b.header.txRoot| == 64 && AllZeros(b.header.txRoot)
        else b.header.txRoot == c.idsRoot(TxIds(c, b.txs)))
    && (b.Height() > 0 ==> |b.txs| > 0 && b.txs[0].moduleName == "coinbase" && b.txs[0].methodName == "reward")
  }

  /** The first stage passes exactly the blocks of this form. */
  lemma ShapeExactly(c: Crypto, b: Block)
    ensures Shape(c, b) == None <==> Formed(c, b)
  {
    hide TxIds;
    if |b.header.txRoot| == 64 && AllZeros(b.header.txRoot) {
      assert b.header.txRoot == NullHash();
    }
  }

  lemma ShapeHasCoinbase(c: Crypto, b: Block)
    requires Shape(c, b) == None && b.Height() > 0
    ensures |b.txs| > 0
  {
  }

  // --- Stages 4 and 5: difficulty and proof of work ---

  /** Up to n blocks ending the chain, not reaching past a block whose parent
      is all zeros. */
  function Ancestors(path: seq<Block>, n: nat): seq<Block> {
    if n == 0 || |path| == 0 then []
    else if AllZeros(path[|path| - 1].Parent()) then [path[|path| - 1]]
    else Ancestors(path[..|path| - 1], n - 1) + [path[|path| - 1]]
  }

  function RequiredDifficulty(path: seq<Block>, timestamp: u64): u64 {
    NextDifficulty(Ancestors(path, RETARGET_WINDOW + 1), timestamp)
  }

  /** The largest upper half of a digest that meets a difficulty. */
  function Target(difficulty: u64): nat {
    (U64_LIMIT - 1) / Max(difficulty, 1)
  }

  function PowInputOf(h: Header): PowInput {
    PowInput(h.number / EPOCH_BLOCKS, h.parent, h.number, h.timestamp, h.difficulty, h.nonce, h.txRoot, h.miner)
  }

  function PowError(c: Crypto, b: Block): Option<Reason> {
    match c.digest(PowInputOf(b.header))
    case None => Some(PowUndefined)
    case Some(d) =>
      if d.upper > Target(b.header.difficulty) then Some(PowFailed)
      else if b.Id() != d.hex then Some(PowHashMismatch)
      else None
  }

  /** The work behind a block: its header has a digest, the block is named by
      that digest, and the digest's upper half times the difficulty stays below
      2^64. */
  ghost predicate Backed(c: Crypto, b: Block) {
    var h := b.header;
    match c.digest(PowInput(h.number / 32, h.parent, h.number, h.timestamp, h.difficulty, h.nonce, h.txRoot, h.miner))
    case None => false
    case Some(d) => d.upper * h.difficulty < 0x1_0000_0000_0000_0000 && b.Id() == d.hex
  }

  lemma TargetExactly(upper: nat, difficulty: u64)
    requires difficulty >= 1
    ensures upper <= Target(difficulty) <==> upper * difficulty < U64_LIMIT
  {
    var target := Target(difficulty);
    DivBrackets(U64_LIMIT - 1, difficulty);
    if upper <= target {
      MulMonotone(upper, target, difficulty);
    } else {
      MulMonotone(target + 1, upper, difficulty);
    }
  }

  /** The fifth stage passes exactly the blocks with the work for their
      difficulty behind them. */
  lemma PowExactly(c: Crypto, b: Block)
    requires b.header.difficulty >= 1
    ensures PowError(c, b) == None <==> Backed(c, b)
  {
    var d := c.digest(PowInputOf(b.header));
    if d.Some? {
      TargetExactly(d.value.upper, b.header.difficulty);
    }
  }

  // --- Stage 6: coinbase and transactions ---

  function BigEndian(bytes: seq<byte>): nat {
    if |bytes| == 0 then 0 else 256 * BigEndian(bytes[..|bytes| - 1]) + bytes[|bytes| - 1]
  }

  /** The base-256 digit of a number at a place, counted from the right. */
  function Digit(n: nat, place: nat): byte {
    n / Limit(place) % 256
  }

  /** The bytes are the digits of the number, most significant first. */
  ghost predicate Spells(bytes: seq<byte>, n: nat) {
    n < Limit(|bytes|) && forall i | 0 <= i < |bytes| :: bytes[i] == Digit(n, |bytes| - 1 - i)
  }

  lemma DigitShifts(n: nat, k: nat)
    ensures Digit(n, k + 1) == Digit(n / 256, k) && Digit(n, 0) == n % 256
    ensures n < Limit(k + 1) <==> n / 256 < Limit(k)
  {
    DivTwice(n, 256, Limit(k));
  }

  lemma SpellsSnoc(bytes: seq<byte>, n: nat)
    requires |bytes| > 0
    ensures Spells(bytes, n) <==> Spells(bytes[..|bytes| - 1], n / 256) && bytes[|bytes| - 1] == n % 256
  {
    hide Limit, Digit;
    var k := |bytes| - 1;
    var init := bytes[..k];
    DigitShifts(n, k);
    forall i | 0 <= i < k
      ensures Digit(n, k - i) == Digit(n / 256, k - 1 - i) && init[i] == bytes[i]
    {
      DigitShifts(n, k - 1 - i);
    }
  }

  /** A byte string reads as a number exactly when it spells it. */
  lemma {:induction false} BigEndianExactly(bytes: seq<byte>, n: nat)
    ensures BigEndian(bytes) == n <==> Spells(bytes, n)
    decreases |bytes|
  {
    hide Spells;
    if |bytes| == 0 {
      NothingSpells(n);
    } else {
      BigEndianExactly(bytes[..|bytes| - 1], n / 256);
      SpellsSnoc(bytes, n);
    }
  }

  lemma NothingSpells(n: nat)
    ensures Spells([], n) <==> n == 0
  {
  }

  ghost predicate DistinctIds(c: Crypto, txs: seq<Tx>) {
    forall i, j | 0 <= i < j < |txs| :: c.txId(txs[i]) != c.txId(txs[j])
  }

  /** Everything about a block but its execution, the retarget taken from a window
      of earlier blocks. */
  ghost function HeaderErrorOn(c: Crypto, window: seq<Block>, b: Block): Option<Reason>
    requires b.Height() > 0 ==> |b.txs| > 0
  {
    if b.header.difficulty < DIFFICULTY_FLOOR then Some(DifficultyBelowFloor)
    else if b.header.difficulty != NextDifficulty(window, b.header.timestamp) then Some(DifficultyMismatch)
    else if PowError(c, b).Some? then PowError(c, b)
    else if b.Height() > 0 && |b.txs[0].args| != 8 then Some(CoinbaseArgsLength)
    else if b.Height() > 0 && BigEndian(b.txs[0].args) != b.Height() then Some(CoinbaseHeightMismatch)
    else if !DistinctIds(c, b.txs) then Some(DuplicateTx)
    else None
  }

  /** The same against the block's own ancestry. */
  ghost function HeaderError(c: Crypto, path: seq<Block>, b: Block): Option<Reason>
    requires b.Height() > 0 ==> |b.txs| > 0
  {
    HeaderErrorOn(c, Ancestors(path, RETARGET_WINDOW + 1), b)
  }

  /** Execute a block on a ledger and compare the state root it claims. */
  function Settle(c: Crypto, l: Ledger, b: Block): Result<Ledger, Reason> {
    match ExecBlock(c, l, b)
    case Failure(e) => Failure(ExecutionFailed(e))
    case Success(after) =>
      match Root(c, after)
      case Failure(_) => Failure(StateRootFailed)
      case Success(root) => if b.header.stateRoot != root then Failure(StateRootMismatch) else Success(after)
  }

  /** Stages 4 to 6 for a block on top of a chain. The ledger is the one the
      chain itself produces. */
  ghost function Verdict(c: Crypto, path: seq<Block>, b: Block): Result<Ledger, Reason>
    requires b.Height() > 0 ==> |b.txs| > 0
  {
    match HeaderError(c, path, b)
    case Some(e) => Failure(e)
    case None =>
      match Exec(c, path)
      case Failure(e) => Failure(ExecutionFailed(e))
      case Success(l) => Settle(c, l, b)
  }

  /** A block is valid on a chain: everything acceptance asks of it except
      that its timestamp is not too far ahead of the local clock. */
  ghost predicate ValidOn(c: Crypto, path: seq<Block>, b: Block) {
    && |path| > 0
    && b.Height() > 0
    && Shape(c, b) == None
    && b.header.timestamp > path[|path| - 1].header.timestamp
    && Verdict(c, path, b).Success?
  }

  /** A valid block extends an executable chain to an executable chain whose
      ledger has the state root the block claims. */
  lemma ValidExtends(c: Crypto, path: seq<Block>, b: Block)
    requires ValidOn(c, path, b)
    ensures Exec(c, path).Success?
    ensures Exec(c, path + [b]) == Success(Verdict(c, path, b).value)
    ensures Root(c, Exec(c, path + [b]).value) == Success(b.header.stateRoot)
    ensures b.header.difficulty >= 1
  {
    assert (path + [b])[..|path|] == path;
  }

  /** What a block carries: the coinbase first and paid for its own height, no
      transaction twice, within the weight limit, and all of it committed to. */
  ghost predicate Carries(c: Crypto, b: Block) {
    && b.weight <= 400_000 && |b.txs| > 0
    && b.txs[0].moduleName == "coinbase" && b.txs[0].methodName == "reward"
    && |b.txs[0].args| == 8 && Spells(b.txs[0].args, b.Height())
    && DistinctIds(c, b.txs)
    && b.header.txRoot == c.idsRoot(TxIds(c, b.txs))
  }

  /** The chain with the block on top executes to the root in its header. */
  ghost predicate Settles(c: Crypto, path: seq<Block>, b: Block) {
    var executed := Exec(c, path + [b]);
    executed.Success? && Root(c, executed.value) == Success(b.header.stateRoot)
  }

  /** The rules of a block on a chain, without the order they are checked in:
      later than its parent, at the required difficulty with the work behind it,
      carrying what it commits to, and executing to the root it claims. */
  lemma ValidExactly(c: Crypto, path: seq<Block>, b: Block)
    ensures ValidOn(c, path, b) <==>
            && |path| > 0 && b.Height() > 0
            && b.header.timestamp > path[|path| - 1].header.timestamp
            && 1 <= b.header.difficulty == RequiredDifficulty(path, b.header.timestamp)
            && Backed(c, b) && Carries(c, b) && Settles(c, path, b)
  {
    hide Exec, Root, NextDifficulty, Ancestors, PowError, Backed, BigEndian, Spells, DistinctIds, TxIds, ExecBlock;
    if b.header.difficulty >= 1 {
      PowExactly(c, b);
    }
    if |b.txs| > 0 {
      BigEndianExactly(b.txs[0].args, b.Height());
    }
    SettlesExactly(c, path, b);
  }

  lemma SettlesExactly(c: Crypto, path: seq<Block>, b: Block)
    ensures Settles(c, path, b) <==> Exec(c, path).Success? && Settle(c, Exec(c, path).value, b).Success?
  {
    hide Root, ExecBlock;
    assert (path + [b])[..|path|] == path;
  }

  /** Settling a block cannot tell a ledger from its zero-free form. */
  lemma SettleCongruent(c: Crypto, l: Ledger, k: Ledger, b: Block)
    requires Same(l, k)
    ensures SameOutcome(Settle(c, l, b), Settle(c, k, b))
  {
    hide ExecBlock, Root, Same;
    ExecBlockCongruent(c, l, k, b);
    if ExecBlock(c, l, b).Success? {
      RootCongruent(c, ExecBlock(c, l, b).value, ExecBlock(c, k, b).value);
    }
  }
}
