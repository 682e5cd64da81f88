/** Shared vocabulary: machine widths, transactions, blocks, and the library
    primitives (hashes, signatures, proof of work) that the node calls but that
    carry no behaviour of their own in this model.
 */
module Base {

  // --- Machine widths ---

  const U64_LIMIT: nat := 0x1_0000_0000_0000_0000
  const U128_LIMIT: nat := 0x1_0000_0000_0000_0000_0000_0000_0000_0000

  type u64 = x: int | 0 <= x < U64_LIMIT
  type u128 = x: int | 0 <= x < U128_LIMIT
  type byte = x: int | 0 <= x < 256

  /** A wall-clock reading in seconds; far enough below the 64-bit limit for
      the two-hour future margin to be added to it. */
  type Seconds = x: int | 0 <= x < 0x8000_0000_0000_0000

  // --- Results ---

  datatype Option<+T> = None | Some(value: T)

  datatype Result<+T, +E> = Success(value: T) | Failure(error: E) {
    predicate IsFailure() {
      Failure?
    }

    function PropagateFailure<U>(): Result<U, E>
      requires Failure?
    {
      Failure(error)
    }

    function Extract(): T
      requires Success?
    {
      value
    }
  }

  // --- Transactions and blocks ---

  type Hash = string
  type Address = string

  datatype Tx = Tx(
    nonce: u64,
    sender: Address,
    moduleName: string,
    methodName: string,
    args: seq<byte>,
    tip: u64,
    feeLimit: u64,
    sig: string)

  datatype TransferArgs = TransferArgs(to: Address, amount: u128)

  datatype Header = Header(
    parent: Hash,
    number: u64,
    timestamp: u64,
    difficulty: u64,
    nonce: u64,
    powHash: Hash,
    stateRoot: string,
    txRoot: string,
    miner: Address)

  datatype Block = Block(header: Header, txs: seq<Tx>, weight: u64) {
    /** The block hash is the proof-of-work hash carried in the header. */
    function Id(): Hash {
      header.powHash
    }

    function Parent(): Hash {
      header.parent
    }

    function Height(): u64 {
      header.number
    }

    /** Every transaction but the leading coinbase. */
    function Body(): seq<Tx> {
      if |txs| == 0 then [] else txs[1..]
    }
  }

  // --- Library primitives ---

  /** The header fields that enter the proof-of-work preimage. The state root
      and the claimed hash are not among them. */
  datatype PowInput = PowInput(
    epoch: nat,
    parent: Hash,
    number: u64,
    timestamp: u64,
    difficulty: u64,
    nonce: u64,
    txRoot: string,
    miner: Address)

  /** A 32-byte digest, seen through its upper 64 bits and its hex text. */
  datatype Digest = Digest(upper: u64, hex: Hash)

  /** Deterministic library functions the node is built on. */
  datatype Crypto = Crypto(
    txId: Tx -> string,
    idsRoot: seq<string> -> string,
    stateHash: seq<byte> -> string,
    digest: PowInput -> Option<Digest>,
    signed: Tx -> bool,
    txSize: Tx -> nat,
    decodeArgs: seq<byte> -> Option<TransferArgs>)

  // --- Hex text ---

  predicate IsLowerHexChar(ch: char) {
    '0' <= ch <= '9' || 'a' <= ch <= 'f'
  }

  predicate IsLowerHex(s: string) {
    forall i | 0 <= i < |s| :: IsLowerHexChar(s[i])
  }

  /** A 64-character lowercase hex account key. */
  predicate IsAccount(s: string) {
    |s| == 64 && IsLowerHex(s)
  }

  predicate AllZeros(s: string) {
    forall i | 0 <= i < |s| :: s[i] == '0'
  }

  /** Sixty-four zeros: the parent of genesis and the tip of an empty chain. */
  function NullHash(): (h: Hash)
    ensures |h| == 64 && AllZeros(h)
  {
    seq(64, i => '0')
  }

  // --- Consensus constants ---

  const BLOCK_WEIGHT_LIMIT: nat := 400_000
  const MAX_FUTURE_TIMESTAMP_SECS: nat := 7_200
  const DIFFICULTY_FLOOR: nat := 1
  const RETARGET_WINDOW: nat := 20
  const TARGET_BLOCK_TIME: nat := 30
  const STALL_MULTIPLIER: nat := 4
  const LWMA_MIN_INTERVAL_SECS: nat := TARGET_BLOCK_TIME / 4
  const LWMA_MAX_INTERVAL_SECS: nat := TARGET_BLOCK_TIME * 6
  const ORPHAN_POOL_MAX: nat := 2_000
  const SNAPSHOT_EVERY: nat := 32
  const EPOCH_BLOCKS: nat := 32
  const HALVING_INTERVAL: nat := 2_102_400
  const EMISSION_PER_BLOCK: nat := 510_000_000_000
  const MAX_SERIALIZED_TX_BYTES: nat := 65_536
  const MIN_CASH_TRANSFER_FEE_LIMIT: nat := 201
  const CASH_TRANSFER_BASE_FEE: nat := 1
  const BLOCK_TARGET_TXS: nat := 200
  const MEMPOOL_MAX: nat := 10_000

  const GENESIS_HASH: Hash := "d6469ec95f56b56be4921ef40b9795902c96f2ad26582ef8db8fac46f4a7aa13"

  /** The genesis block: height 0, no transactions, null parent. */
  function GenesisBlock(): (g: Block)
    ensures g.Height() == 0 && g.Id() == GENESIS_HASH && g.Body() == [] && AllZeros(g.Parent())
  {
    Block(Header(NullHash(), 0, 0, 1, 0, GENESIS_HASH, NullHash(), NullHash(), "network_genesis"), [], 0)
  }
}
