/** The miner: building a candidate on the canonical tip, trying nonces, and
    submitting what was found through ordinary acceptance.
 */
module Miner {
  import opened Base
  import opened Ledgers
  import opened StateRoots
  import opened Difficulty
  import opened BlockTree
  import opened Validity
  import opened OrphanPool
  import opened Consensus
  import opened Tables
  import opened Invariants
  import opened Acceptance
  import opened ChainStates
  import opened Replay
  import opened ApplyBlocks
  import opened Outcomes
  import opened Numbering

  /** Work for the mining threads: a header without nonce and hash, and the
      transactions it commits to. */
  datatype MiningJob = MiningJob(header: Header, target: u64, epoch: nat, jobId: nat, txs: seq<Tx>)

  /** A height as eight big-endian bytes. */
  function ToBigEndian(n: nat, width: nat): (bytes: seq<byte>)
    ensures |bytes| == width
  {
    if width == 0 then [] else ToBigEndian(n / 256, width - 1) + [n % 256]
  }

  lemma {:induction false} BigEndianRoundTrip(n: nat, width: nat)
    requires n < Limit(width)
    ensures BigEndian(ToBigEndian(n, width)) == n
  {
    if width > 0 {
      BigEndianRoundTrip(n / 256, width - 1);
      var bytes := ToBigEndian(n, width);
      assert bytes[..|bytes| - 1] == ToBigEndian(n / 256, width - 1);
    }
  }

  function Coinbase(height: u64): Tx {
    Tx(height, "", "coinbase", "reward", ToBigEndian(height, 8), 0, 0, "")
  }

  /** Put the coinbase first and keep at most the target number of transactions. */
  function CandidateTxs(height: u64, extra: seq<Tx>): (txs: seq<Tx>)
    ensures 0 < |txs| <= BLOCK_TARGET_TXS
  {
    [Coinbase(height)] + if |extra| > BLOCK_TARGET_TXS - 1 then extra[..BLOCK_TARGET_TXS - 1] else extra
  }

  /** The coinbase comes first and spells its height; after it the first 199 of the
      others follow in their order, or all if there are no more. */
  lemma CandidateExactly(height: u64, extra: seq<Tx>)
    ensures var txs := CandidateTxs(height, extra);
            && txs[0] == Tx(height, "", "coinbase", "reward", txs[0].args, 0, 0, "")
            && |txs[0].args| == 8 && Spells(txs[0].args, height)
            && txs[1..] == if |extra| <= 199 then extra else extra[..199]
  {
    hide Spells;
    Limits();
    BigEndianRoundTrip(height, 8);
    BigEndianExactly(ToBigEndian(height, 8), height);
  }

  /** The job for a parent, without its state root. */
  method BuildCandidate(c: Crypto, tip: Block, jobId: nat, miner: Address, extra: seq<Tx>, window: seq<Block>, now: u64)
    returns (job: MiningJob)
    requires tip.Height() + 1 < U64_LIMIT
    ensures job.jobId == jobId && job.txs == CandidateTxs(tip.Height() + 1, extra)
    ensures job.header == Header(tip.Id(), tip.Height() + 1, now, NextDifficulty(window, now), 0, "", NullHash(),
                                 TxRoot(c, job.txs), miner)
    ensures job.target == job.header.difficulty && job.epoch == job.header.number / EPOCH_BLOCKS
  {
    var height := tip.Height() + 1;
    var txs := CandidateTxs(height, extra);
    var difficulty := CalculateNextDifficulty(window, now);
    var header := Header(tip.Id(), height, now, difficulty, 0, "", NullHash(), c.idsRoot(TxIds(c, txs)), miner);
    return MiningJob(header, difficulty, height / EPOCH_BLOCKS, jobId, txs);
  }

  /** Test one nonce. */
  function TryNonce(c: Crypto, job: MiningJob, nonce: u64): Option<Block>
    requires |job.txs| < U64_LIMIT
  {
    var h := job.header.(nonce := nonce, powHash := "");
    match c.digest(PowInput(job.epoch, h.parent, h.number, h.timestamp, h.difficulty, nonce, h.txRoot, h.miner))
    case None => None
    case Some(d) =>
      if d.upper > Target(job.target) then None
      else Some(Block(h.(powHash := d.hex), job.txs, |job.txs|))
  }

  /** A nonce solves a job exactly when the header has a digest with it whose upper
      half times the difficulty, of zero as of one, stays below 2^64. The block is
      the job's header with the nonce and named by the digest, over the job's
      transactions. */
  lemma TryNonceExactly(c: Crypto, job: MiningJob, nonce: u64)
    requires |job.txs| < U64_LIMIT
    ensures var h := job.header;
            match c.digest(PowInput(job.epoch, h.parent, h.number, h.timestamp, h.difficulty, nonce, h.txRoot, h.miner))
            case None => TryNonce(c, job, nonce) == None
            case Some(d) =>
              TryNonce(c, job, nonce)
              == if d.upper * (if job.target == 0 then 1 else job.target) < 0x1_0000_0000_0000_0000
                 then Some(Block(h.(nonce := nonce, powHash := d.hex), job.txs, |job.txs|)) else None
  {
    hide Target;
    var h := job.header;
    var d := c.digest(PowInput(job.epoch, h.parent, h.number, h.timestamp, h.difficulty, nonce, h.txRoot, h.miner));
    if d.Some? {
      TargetExactly(d.value.upper, if job.target == 0 then 1 else job.target);
      TargetOfZero();
    }
  }

  lemma TargetOfZero()
    ensures Target(0) == Target(1)
  {
  }

  // --- What a good candidate is ---

  /** Transaction ids identify everything but the signature. */
  ghost predicate IdsIdentify(c: Crypto) {
    forall a, b :: c.txId(a) == c.txId(b) ==> a.(sig := "") == b.(sig := "")
  }

  /** A job whose solution is valid on a chain, whatever its nonce and hash. */
  ghost predicate GoodJob(c: Crypto, path: seq<Block>, job: MiningJob) {
    SoundJob(c, path, job) && job.header.difficulty == RequiredDifficulty(path, job.header.timestamp)
  }

  /** A good job, but for the difficulty. */
  ghost predicate SoundJob(c: Crypto, path: seq<Block>, job: MiningJob) {
    && |path| > 0 && 0 < |job.txs| <= BLOCK_TARGET_TXS
    && job.header.parent == path[|path| - 1].Id()
    && job.header.number == path[|path| - 1].Height() + 1
    && job.header.timestamp > path[|path| - 1].header.timestamp
    && job.header.difficulty == job.target
    && job.epoch == job.header.number / EPOCH_BLOCKS
    && job.txs[0] == Coinbase(job.header.number)
    && job.header.txRoot == TxRoot(c, job.txs)
    && Exec(c, path).Success?
    && Settle(c, Exec(c, path).value, Block(job.header, job.txs, 0)).Success?
  }

  // --- The retarget window ---

  /** The last n blocks. */
  function LastBlocks(path: seq<Block>, n: nat): seq<Block> {
    if |path| > n then path[|path| - n..] else path
  }

  /** Among the last n blocks, none but the oldest, or genesis, names an
      all-zero parent. */
  ghost predicate NoZeroLinks(path: seq<Block>, n: nat) {
    forall i | 0 < i < |path| && |path| - n < i :: !AllZeros(path[i].Parent())
  }

  /** The miner's slice of the chain is the window validation walks back to,
      exactly when that walk meets no all-zero parent on the way. */
  lemma {:induction false} WindowsAgree(path: seq<Block>, n: nat)
    requires |path| > 0 ==> AllZeros(path[0].Parent())
    ensures LastBlocks(path, n) == Ancestors(path, n) <==> NoZeroLinks(path, n)
  {
    hide AllZeros, LastBlocks, Ancestors, NoZeroLinks;
    if n == 0 || |path| <= 1 {
      ShortWindow(path, n);
    } else {
      var init, last := path[..|path| - 1], path[|path| - 1];
      WindowsAgree(init, n - 1);
      LastSnoc(path, n);
      AncestorsStep(path, n);
      ZeroLinksSnoc(path, n);
      LastLength(init, n - 1);
      SameFront(LastBlocks(init, n - 1), if AllZeros(last.Parent()) then [] else Ancestors(init, n - 1), last);
    }
  }

  lemma ShortWindow(path: seq<Block>, n: nat)
    requires n == 0 || |path| <= 1
    requires |path| > 0 ==> AllZeros(path[0].Parent())
    ensures LastBlocks(path, n) == Ancestors(path, n) && NoZeroLinks(path, n)
  {
  }

  lemma LastLength(path: seq<Block>, n: nat)
    requires |path| > 0
    ensures LastBlocks(path, n) == [] <==> n == 0
    ensures n == 0 ==> NoZeroLinks(path, n)
  {
  }

  lemma SameFront(a: seq<Block>, b: seq<Block>, last: Block)
    ensures a + [last] == b + [last] <==> a == b
  {
    assert (a + [last])[..|a|] == a && (b + [last])[..|b|] == b;
  }

  lemma ZeroLinksSnoc(path: seq<Block>, n: nat)
    requires n > 0 && |path| > 1
    ensures NoZeroLinks(path, n) <==>
            NoZeroLinks(path[..|path| - 1], n - 1) && (n > 1 ==> !AllZeros(path[|path| - 1].Parent()))
  {
    hide AllZeros;
    var init := path[..|path| - 1];
    assert forall i | 0 <= i < |init| :: init[i] == path[i];
  }

  lemma LastSnoc(path: seq<Block>, n: nat)
    requires n > 0 && |path| > 0
    ensures LastBlocks(path, n) == LastBlocks(path[..|path| - 1], n - 1) + [path[|path| - 1]]
  {
  }

  /** Execution looks at a block's transactions, height and miner only. */
  lemma SameExecution(c: Crypto, l: Ledger, a: Block, b: Block)
    requires a.txs == b.txs && a.Height() == b.Height() && a.header.miner == b.header.miner
    ensures ExecBlock(c, l, a) == ExecBlock(c, l, b)
  {
  }

  /** What a candidate on this parent would execute. */
  function Draft(tip: Block, miner: Address, extra: seq<Tx>): Block
    requires tip.Height() + 1 < U64_LIMIT
  {
    Block(Header("", tip.Height() + 1, 0, 0, 0, "", "", "", miner), CandidateTxs(tip.Height() + 1, extra), 0)
  }

  // --- Distinct ids ---

  lemma {:induction false} NonceAfter(c: Crypto, l: Ledger, txs: seq<Tx>, i: nat, n: nat)
    requires i < n <= |txs| && Transfers(c, l, txs[..n]).Success?
    ensures Transfers(c, l, txs[..n]).value.NonceOf(txs[i].sender) > txs[i].nonce
    decreases n
  {
    hide Transfer;
    assert txs[..n][..n - 1] == txs[..n - 1];
    TransferNonce(c, Transfers(c, l, txs[..n - 1]).value, txs[n - 1], txs[i].sender);
    if i < n - 1 {
      NonceAfter(c, l, txs, i, n - 1);
    }
  }

  lemma TransferNonce(c: Crypto, l: Ledger, tx: Tx, a: Address)
    requires Transfer(c, l, tx).Success?
    ensures IsTransfer(tx) && tx.nonce == l.NonceOf(tx.sender)
    ensures Transfer(c, l, tx).value.NonceOf(a) == l.NonceOf(a) + if a == tx.sender then 1 else 0
  {
  }

  /** Transactions that execute one after the other have different nonces or
      different senders. */
  lemma ExecutedDiffer(c: Crypto, l: Ledger, txs: seq<Tx>, i: nat, j: nat)
    requires Transfers(c, l, txs).Success? && i < j < |txs|
    ensures txs[i].sender != txs[j].sender || txs[i].nonce != txs[j].nonce
    ensures IsTransfer(txs[i])
  {
    hide Transfer;
    EveryTransfer(c, l, txs, i + 1);
    EveryTransfer(c, l, txs, j);
    EveryTransfer(c, l, txs, j + 1);
    assert txs[..i + 1][..i] == txs[..i] && txs[..j + 1][..j] == txs[..j];
    TransferNonce(c, Transfers(c, l, txs[..i]).value, txs[i], txs[i].sender);
    TransferNonce(c, Transfers(c, l, txs[..j]).value, txs[j], txs[j].sender);
    NonceAfter(c, l, txs, i, j);
  }

  /** A block that executes has no transaction twice. */
  lemma ExecutedDistinct(c: Crypto, l: Ledger, b: Block)
    requires IdsIdentify(c) && |b.txs| > 0 && IsCoinbase(b.txs[0]) && ExecBlock(c, l, b).Success?
    ensures DistinctIds(c, b.txs)
  {
    hide ExecBlock, IdsIdentify;
    forall i, j | 0 <= i < j < |b.txs|
      ensures c.txId(b.txs[i]) != c.txId(b.txs[j])
    {
      BodyTransfers(c, l, b, j - 1);
      if i > 0 {
        ExecutedDiffer(c, l, b.Body(), i - 1, j - 1);
      }
      DifferentIds(c, b.txs[i], b.txs[j]);
    }
  }

  lemma DifferentIds(c: Crypto, a: Tx, b: Tx)
    requires IdsIdentify(c)
    requires a.sender != b.sender || a.nonce != b.nonce || (IsCoinbase(a) && IsTransfer(b))
    ensures c.txId(a) != c.txId(b)
  {
    assert a.(sig := "") != b.(sig := "");
  }

  lemma BodyTransfers(c: Crypto, l: Ledger, b: Block, j: nat)
    requires j < |b.Body()| && ExecBlock(c, l, b).Success?
    ensures Transfers(c, l, b.Body()).Success? && IsTransfer(b.Body()[j])
  {
    hide Transfer;
    EveryTransfer(c, l, b.Body(), j + 1);
    assert b.Body()[..j + 1][..j] == b.Body()[..j];
    TransferNonce(c, Transfers(c, l, b.Body()[..j]).value, b.Body()[j], "");
  }

  // --- Agreement with validation ---

  lemma SolvedShape(c: Crypto, path: seq<Block>, job: MiningJob, nonce: u64)
    requires GoodJob(c, path, job) && TryNonce(c, job, nonce).Some?
    ensures var b := TryNonce(c, job, nonce).value;
            && b.txs == job.txs && b.Height() > 0 && Shape(c, b) == None && PowError(c, b) == None
            && b.Parent() == job.header.parent && b.Height() == job.header.number
            && b.header.timestamp == job.header.timestamp && b.header.difficulty == job.header.difficulty
            && Settle(c, Exec(c, path).value, b) == Settle(c, Exec(c, path).value, Block(job.header, job.txs, 0))
  {
    hide Exec, TxRoot, RequiredDifficulty, Root, Transfers, Target;
  }

  lemma SolvedHeader(c: Crypto, path: seq<Block>, job: MiningJob, b: Block)
    requires GoodJob(c, path, job) && IdsIdentify(c)
    requires b.txs == job.txs && b.Height() == job.header.number && PowError(c, b) == None
    requires b.header.timestamp == job.header.timestamp && b.header.difficulty == job.header.difficulty
    requires Settle(c, Exec(c, path).value, b).Success?
    ensures HeaderError(c, path, b) ==
            if b.header.difficulty < DIFFICULTY_FLOOR then Some(DifficultyBelowFloor) else None
  {
    hide Exec, TxRoot, NextDifficulty, Ancestors, Root, Transfers, PowError, BigEndian, ToBigEndian, ExecBlock,
      IdsIdentify, DistinctIds, Limit;
    Limits();
    BigEndianRoundTrip(b.Height(), 8);
    ExecutedDistinct(c, Exec(c, path).value, b);
  }

  /** What becomes of a solved job that is submitted to the chain it was built
      on. */
  function SolvedResult(w: World, ticks: nat, seen: set<Hash>, b: Block): AcceptResult {
    if b.Id() in seen then Rejected(Duplicate)
    else if b.header.timestamp > w.clock(ticks) + MAX_FUTURE_TIMESTAMP_SECS then Rejected(TooFarInFuture)
    else if b.header.difficulty < DIFFICULTY_FLOOR then Rejected(DifficultyBelowFloor)
    else if !w.dbOk(ticks + 1) then Rejected(PersistenceFailed)
    else CanonExtension(b.Height())
  }

  /** Miner and validator agree: a solved job, submitted to the chain it was
      built on, extends it. It is turned away only as a duplicate, for a
      timestamp the clock has not come within two hours of, for a retarget that
      the cast to 64 bits has brought to zero, or by a failing write. */
  lemma SolvedJobAccepted(c: Crypto, w: World, s: Node, job: MiningJob, nonce: u64, peer: string)
    requires Inv(c, s) && s.known != map[] && Sorted(s.orphans.pool)
    requires GoodJob(c, Chain(s), job) && IdsIdentify(c) && TryNonce(c, job, nonce).Some?
    ensures var b := TryNonce(c, job, nonce).value;
            Apply(c, w, s, b, peer).1 == SolvedResult(w, s.ticks, s.seen, b)
  {
    hide Path, Shape, TryNonce, HeaderError, Settle, Exec, Integrate, Promote, Inv, RequiredDifficulty, TxRoot,
      IdsIdentify;
    var b := TryNonce(c, job, nonce).value;
    SolvedShape(c, Chain(s), job, nonce);
    SolvedHeader(c, Chain(s), job, b);
    TipParent(c, s, b);
    ExtendsAt(c, w, Tick(s), b);
    AdmitBasics(c, w, s, b, peer);
  }

  lemma TipParent(c: Crypto, s: Node, b: Block)
    requires Inv(c, s) && s.known != map[] && |Chain(s)| > 0 && b.Parent() == Chain(s)[|Chain(s)| - 1].Id()
    ensures b.Parent() == s.tip && s.tip in s.known && s.known[s.tip] == Chain(s)[|Chain(s)| - 1]
  {
    hide Path;
    ChainEnds(c, s);
    ChainKnown(c, s, |Chain(s)| - 1);
  }

  lemma ExtendsAt(c: Crypto, w: World, s: Node, b: Block)
    requires b.Parent() == s.tip
    ensures Integrate(c, w, s, b).1 == if w.dbOk(s.ticks) then Extended else Refused
  {
    hide ExtendBy, StoreAside, MoveTo;
  }

  // --- The manager ---

  class MinerManager {
    var currentJob: Option<MiningJob>
    /** Zero when paused, else the id of the current job. */
    var activeJobId: nat
    var lastBuiltEpoch: Option<nat>
    var blocksFound: nat
    var nextId: nat

    /** Job ids start at one, and only issued ids are ever active. */
    ghost predicate Valid()
      reads this
    {
      && nextId > 0 && activeJobId < nextId
      && activeJobId == if currentJob.Some? then currentJob.value.jobId else 0
    }

    constructor ()
      ensures Valid() && currentJob == None && blocksFound == 0
    {
      currentJob, activeJobId, lastBuiltEpoch, blocksFound, nextId := None, 0, None, 0, 1;
    }

    /** Publish a job. Every other id becomes stale. */
    method BuildJob(job: MiningJob)
      requires Valid() && 0 < job.jobId < nextId
      modifies this`activeJobId, this`currentJob, this`lastBuiltEpoch
      ensures Valid() && currentJob == Some(job) && activeJobId == job.jobId && lastBuiltEpoch == Some(job.epoch)
    {
      if lastBuiltEpoch != Some(job.epoch) {
        lastBuiltEpoch := Some(job.epoch);
      }
      activeJobId := job.jobId;
      currentJob := Some(job);
    }

    /** Pause. No issued id stays current; the built epoch is kept. */
    method ClearJob()
      requires Valid()
      modifies this`activeJobId, this`currentJob
      ensures Valid() && currentJob == None && activeJobId == 0
    {
      activeJobId := 0;
      currentJob := None;
    }

    method NextJobId() returns (id: nat)
      requires Valid()
      modifies this`nextId
      ensures Valid() && id == old(nextId) && nextId == id + 1 && id != activeJobId
    {
      id := nextId;
      nextId := nextId + 1;
    }

    /** Submit a found block through ordinary acceptance and count it if it
        became canonical. */
    method SubmitSolution(g: ChainState, b: Block) returns (r: AcceptResult)
      requires Valid() && g.Valid() && Proper(g.c, b) && Trusted(g.abs, b)
      modifies this`blocksFound, g
      ensures Valid() && g.Valid() && (g.abs, r) == Apply(g.c, g.w, old(g.abs), b, "anon")
      ensures blocksFound == old(blocksFound) + if r.CanonExtension? then 1 else 0
    {
      hide Inv, PoolOk, FieldsOk, Apply, Path, Proper, Trusted;
      r := ApplyBlock(g, b, "anon");
      if r.CanonExtension? {
        blocksFound := blocksFound + 1;
      }
    }

    /** Build a candidate for the tip. None when there is no chain yet, or the
        transactions, the miner address or the state root do not work out;
        otherwise the job is sound on the current chain, with the retarget of its
        last blocks for difficulty, which is the one validation asks for unless
        an all-zero parent cuts the walk of validation short. */
    method BuildCandidateForTip(g: ChainState, clock: Seconds, miner: Address, extra: seq<Tx>)
      returns (r: Option<MiningJob>)
      requires Valid() && g.Valid()
      requires |g.blocks| > 0 ==> g.blocks[|g.blocks| - 1].Height() + 1 < U64_LIMIT
                                  && g.blocks[|g.blocks| - 1].header.timestamp + 1 < U64_LIMIT
      modifies this`nextId
      ensures Valid()
      ensures r.Some? ==>
                && SoundJob(g.c, g.blocks, r.value) && r.value.jobId == old(nextId) < nextId
                && r.value.target ==
                   NextDifficulty(LastBlocks(g.blocks, RETARGET_WINDOW + 1), r.value.header.timestamp)
                && (NoZeroLinks(g.blocks, RETARGET_WINDOW + 1) ==> GoodJob(g.c, g.blocks, r.value))
      ensures r.Some? ==> r.value.header.miner == miner
      ensures r.Some? ==> r.value.txs == CandidateTxs(r.value.header.number, extra) && r.value.header.timestamp >= clock
      ensures r.None? <==>
              |g.blocks| == 0
              || var draft := Draft(g.blocks[|g.blocks| - 1], miner, extra);
                 var after := ExecBlock(g.c, Ledger(g.balances, g.nonces), draft);
                 after.Failure? || Root(g.c, after.value).Failure?
    {
      hide TreeInv, PoolOk, Path, IndexOk, SideOk, Exec, ExecBlock, Root, Same, NextDifficulty, TxRoot, Ancestors;
      if |g.blocks| == 0 {
        return None;
      }
      var tip := g.blocks[|g.blocks| - 1];
      var now := if clock > tip.header.timestamp then clock else tip.header.timestamp + 1;
      var window := LastBlocks(g.blocks, RETARGET_WINDOW + 1);
      GenesisFirst(g);
      WindowsAgree(g.blocks, RETARGET_WINDOW + 1);
      var jobId := NextJobId();
      var job := BuildCandidate(g.c, tip, jobId, miner, extra, window, now);
      var state := new TxExecutionState(g.balances, g.nonces);
      var b := Block(job.header, job.txs, 0);
      SameExecution(g.c, state.View(), b, Draft(tip, miner, extra));
      var executed := state.ExecuteBlock(g.c, b);
      if executed.Failure? {
        return None;
      }
      var root := ComputeStateRoot(g.c, Ledger(state.balances, state.nonces));
      if root.Failure? {
        return None;
      }
      job := job.(header := job.header.(stateRoot := root.value));
      RootedJob(g, b, root.value);
      return Some(job);
    }
  }

  lemma GenesisFirst(g: ChainState)
    requires g.Valid() && |g.blocks| > 0
    ensures AllZeros(g.blocks[0].Parent())
  {
    hide PoolOk, FieldsOk, Path, TreeInv;
    ChainLinked(g.c, g.abs);
  }

  lemma RootedJob(g: ChainState, b: Block, root: string)
    requires g.Valid() && ExecBlock(g.c, Ledger(g.balances, g.nonces), b).Success?
    requires Root(g.c, ExecBlock(g.c, Ledger(g.balances, g.nonces), b).value) == Success(root)
    ensures Exec(g.c, g.blocks).Success?
    ensures Settle(g.c, Exec(g.c, g.blocks).value, b.(header := b.header.(stateRoot := root))).Success?
  {
    hide TreeInv, PoolOk, Path, IndexOk, SideOk, Exec, Root, Same, Transfers;
    var claimed := b.(header := b.header.(stateRoot := root));
    SettleCongruent(g.c, Ledger(g.balances, g.nonces), Exec(g.c, g.blocks).value, claimed);
  }

  // --- Build, solve, submit ---

  /** A solved job is a proper block. */
  lemma SolvedProper(g: ChainState, job: MiningJob, nonce: u64)
    requires g.Valid() && g.abs.known != map[] && DigestsBind(g.c)
    requires GoodJob(g.c, g.blocks, job) && TryNonce(g.c, job, nonce).Some?
    ensures Proper(g.c, TryNonce(g.c, job, nonce).value)
  {
    hide Inv, PoolOk, FieldsOk, Path, GoodChain, DigestsBind, Exec, Settle, TxRoot, RequiredDifficulty;
    TipIsKnown(g.c, g.abs);
    TreeOfInv(g.c, g.abs);
    PathGood(g.c, g.abs.known, g.abs.tip);
    PathLinked(g.abs.known, g.abs.tip);
    NumberedIsProper(g.c, g.blocks, TryNonce(g.c, job, nonce).value);
  }

  /** What a round of mining may do with the block it found. */
  ghost predicate Mined(w: World, s: Node, t: Node, b: Block, r: AcceptResult) {
    && b.Parent() == s.tip && b.Height() == |Chain(s)|
    && r == SolvedResult(w, s.ticks, s.seen, b)
    && (r.CanonExtension? ==>
          b.Id() in t.known && Work(Chain(t)) > Work(Chain(s)) && Path(t.known, b.Id()) == Chain(s) + [b])
  }

  /** Submit the block that a nonce has made of a good job. */
  method SubmitSolved(m: MinerManager, g: ChainState, ghost job: MiningJob, ghost nonce: u64, b: Block)
    returns (r: AcceptResult)
    requires m.Valid() && g.Valid() && g.abs.known != map[] && IdsIdentify(g.c) && DigestsBind(g.c)
    requires GoodJob(g.c, g.blocks, job) && TryNonce(g.c, job, nonce) == Some(b)
    modifies m`blocksFound, g
    ensures m.Valid() && g.Valid() && Mined(g.w, old(g.abs), g.abs, b, r)
    ensures b.header.miner == job.header.miner && b.txs == job.txs
    ensures m.blocksFound == old(m.blocksFound) + if r.CanonExtension? then 1 else 0
  {
    hide Inv, PoolProper, FieldsOk, Path, GoodJob, IdsIdentify, DigestsBind, Apply, Proper, Work, TryNonce,
      SolvedResult, Trusted;
    SolvedProper(g, job, nonce);
    SolvedFacts(g.c, g.w, g.abs, job, nonce);
    r := m.SubmitSolution(g, b);
  }

  /** One round of mining: build a candidate on the tip, publish it, try a nonce,
      and submit what solves it. Whatever solves it is a block on the tip, paid to
      the miner; its fate is decided by the four reasons to turn it away and
      nothing else; and if none applies the node ends on a heavier chain and the
      block stands on what the chain was. */
  method MineTip(m: MinerManager, g: ChainState, clock: Seconds, miner: Address, extra: seq<Tx>, nonce: u64)
    returns (found: Option<Block>, r: Option<AcceptResult>)
    requires m.Valid() && g.Valid() && g.abs.known != map[] && NoZeroLinks(g.blocks, RETARGET_WINDOW + 1)
    requires IdsIdentify(g.c) && DigestsBind(g.c)
    requires g.blocks[|g.blocks| - 1].Height() + 1 < U64_LIMIT
             && g.blocks[|g.blocks| - 1].header.timestamp + 1 < U64_LIMIT
    modifies m, g
    ensures m.Valid() && g.Valid()
    ensures found.None? ==> r.None? && g.abs == old(g.abs) && m.blocksFound == old(m.blocksFound)
    ensures found.Some? ==>
              && r.Some? && Mined(g.w, old(g.abs), g.abs, found.value, r.value)
              && found.value.header.miner == miner && found.value.txs == CandidateTxs(found.value.Height(), extra)
              && m.blocksFound == old(m.blocksFound) + if r.value.CanonExtension? then 1 else 0
  {
    hide Inv, PoolOk, FieldsOk, Path, GoodJob, IdsIdentify, DigestsBind, NoZeroLinks, Mined, TryNonce, Settle, Exec;
    var built := m.BuildCandidateForTip(g, clock, miner, extra);
    if built.None? {
      return None, None;
    }
    var job := built.value;
    m.BuildJob(job);
    JobSize(g.c, g.blocks, job);
    var solved := TryNonce(g.c, job, nonce);
    if solved.None? {
      return None, None;
    }
    SolvedNumber(g.c, g.blocks, job, nonce);
    var result := SubmitSolved(m, g, job, nonce, solved.value);
    return solved, Some(result);
  }

  lemma SolvedNumber(c: Crypto, path: seq<Block>, job: MiningJob, nonce: u64)
    requires GoodJob(c, path, job) && TryNonce(c, job, nonce).Some?
    ensures TryNonce(c, job, nonce).value.Height() == job.header.number
  {
    hide Exec, TxRoot, RequiredDifficulty, Settle;
  }

  lemma JobSize(c: Crypto, path: seq<Block>, job: MiningJob)
    requires GoodJob(c, path, job)
    ensures |job.txs| < U64_LIMIT
  {
    hide Exec, Settle, TxRoot, RequiredDifficulty;
  }

  /** The block a solved job becomes, and what acceptance makes of it. */
  lemma SolvedFacts(c: Crypto, w: World, s: Node, job: MiningJob, nonce: u64)
    requires Inv(c, s) && s.known != map[] && PoolOk(c, s.orphans.pool)
    requires GoodJob(c, Chain(s), job) && IdsIdentify(c) && TryNonce(c, job, nonce).Some?
    requires Proper(c, TryNonce(c, job, nonce).value)
    ensures Sorted(s.orphans.pool)
    ensures var b := TryNonce(c, job, nonce).value;
            var (t, result) := Apply(c, w, s, b, "anon");
            && b.Parent() == s.tip && b.Height() == |Chain(s)| && b.header.miner == job.header.miner && b.txs == job.txs
            && Trusted(s, b) && result == SolvedResult(w, s.ticks, s.seen, b)
            && (result.CanonExtension? ==>
                  && b.Id() in t.known && Work(Chain(t)) > Work(Chain(s)) && Path(t.known, b.Id()) == Chain(s) + [b])
  {
    hide Path, TryNonce, Settle, Exec, Inv, RequiredDifficulty, TxRoot, IdsIdentify, Work, Apply, Proper, PoolProper,
      SolvedResult;
    var b := TryNonce(c, job, nonce).value;
    SolvedMiner(c, Chain(s), job, nonce);
    SolvedShape(c, Chain(s), job, nonce);
    TipParent(c, s, b);
    ChainLinked(c, s);
    SolvedJobAccepted(c, w, s, job, nonce, "anon");
    ResultMeans(c, w, s, b, "anon");
    if Apply(c, w, s, b, "anon").1.CanonExtension? {
      MinedPath(c, w, s, b);
    }
  }

  lemma SolvedMiner(c: Crypto, path: seq<Block>, job: MiningJob, nonce: u64)
    requires GoodJob(c, path, job) && TryNonce(c, job, nonce).Some?
    ensures TryNonce(c, job, nonce).value.header.miner == job.header.miner
  {
    hide Exec, TxRoot, RequiredDifficulty, Settle;
  }

  /** A canonical child of the tip keeps its place on top of the old chain. */
  lemma MinedPath(c: Crypto, w: World, s: Node, b: Block)
    requires Inv(c, s) && PoolOk(c, s.orphans.pool) && Proper(c, b) && Trusted(s, b) && s.known != map[]
    requires b.Parent() == s.tip && b.Height() > 0 && Apply(c, w, s, b, "anon").1.CanonExtension?
    ensures b.Id() in Apply(c, w, s, b, "anon").0.known
    ensures Path(Apply(c, w, s, b, "anon").0.known, b.Id()) == Chain(s) + [b]
  {
    hide Path, Inv, Admit, Promote, Proper, PoolProper, Sorted, Safe, Work, Trusted;
    AdmitSafe(c, w, s, b, "anon");
    AdmitBasics(c, w, s, b, "anon");
    AdmitMeans(c, w, s, b, "anon");
    var a := Admit(c, w, s, b, "anon");
    assert a.Integrated? && a.node.known == s.known[b.Id() := b];
    TipIsKnown(c, s);
    SafeInv(c, w, s, a.node);
    PromoteSafe(c, w, a.node, b.Id());
    SafeInv(c, w, a.node, Promote(c, w, a.node, b.Id()));
    TreeOfInv(c, a.node);
    TreeOfInv(c, s);
    PathStable(a.node.known, Promote(c, w, a.node, b.Id()).known, b.Id());
    MinedChild(c, s, a.node, b);
  }

  lemma MinedChild(c: Crypto, s: Node, t: Node, b: Block)
    requires Inv(c, s) && Inv(c, t) && t.known == s.known[b.Id() := b] && Grows(s.known, t.known) && b.Height() > 0
    requires b.Parent() == s.tip && s.tip in s.known
    ensures Path(t.known, b.Id()) == Chain(s) + [b]
  {
    hide Judged, TableOk;
    assert RootedAt(t.known, b.Id());
    PathStable(s.known, t.known, s.tip);
  }
}
