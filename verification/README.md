# Vision Core: a verified model of block acceptance and what depends on it

Vision Core is a proof-of-work blockchain node. Every block, whoever sends it,
enters the node through one function, `apply_block`. It validates the block
against its own ancestry, extends the canonical chain or stores the block on
the side, switches to a side branch that has strictly more work, and re-submits
the orphans that were waiting for it, which calls `apply_block` again. This
project models that machine with everything it rests on: account execution, the
state root, the difficulty retarget, the orphan pool, the database writes,
account snapshots and startup recovery. It also models four components around
it: the miner, the mempool, the peer-session protocol and the proof-of-work
dataset cache, and the branch synchronisation that feeds the machine.

## How the model is built

* `Consensus.dfy` states acceptance as an abstract machine on a `Node`: a tree
  of known blocks, a tip, an orphan pool, a recovery note, a disk, the table of
  recorded work, the seen set, a log of disk images and a counter of outside
  events. The canonical chain, the side blocks and the ledger are read off the
  tree: `Path` follows parent links, `Work` adds difficulties, `Exec` executes a
  path from the empty ledger. Fork choice compares recorded work, as the program
  does; `Tables.dfy` relates the records to the work of the paths.
* `ChainState.dfy`, `Replay.dfy`, `Reorg.dfy`, `Accept.dfy` and `Apply.dfy` hold
  the class `ChainState` with the program's own fields (`blocks`, `balances`,
  `nonces`, `sideBlocks`, `cumulativeWork`, `canonIndex`, `seenBlocks`, the two
  orphan maps, the recovery note) and the methods that update them in place
  with the program's loops and branches. `Valid()` ties the fields to an
  abstract node, and `ApplyBlock` is proved to do exactly what the abstract
  `Apply` does. So every theorem about the abstract machine is one about
  the fields. The database field is assigned in one method, `Put`, which also
  logs the image it leaves, so the log is that of the in-place writes.
* `Bootstrap.dfy` is the first start of a node, `Startup.dfy` every start, and
  `Runs.dfy` and `ChainRuns.dfy` are about runs. A run goes from any `Live` node
  to a `Live` node: a bootstrapped one (`Bootstraps.BootedLive`), one that has
  accepted genesis as a block (`Bootstraps.AcceptedLive`) or a restarted one
  (`Startup.InitializeChainState`), so runs and restarts can alternate.
* Most specification functions have a law that does not mention them: what a
  transfer needs and does (`Accounts.dfy`), which bytes make up the hashed vector
  (`Canonical.dfy`), how much each block counts in the retarget (`Recency.dfy`),
  the rules of a block (`Validity.ValidExactly`), where everything stands in the
  orphan pool (`OrphanPool.PooledExactly`) and in the mempool (`Admission.dfy`),
  and which blocks are accepted (`Outcomes.AcceptedExactly`).
* `Delivery.dfy` is about the order in which blocks arrive, `Branch.dfy` about a
  valid branch that a node imports.
* `Outcomes.dfy` says what results mean, `Notes.dfy` what note a call leaves behind,
  `Numbering.dfy` what becomes of a block whose number nobody has checked, and
  `Announced.dfy` and `PoolRuns.dfy` follow transactions back into the pool and
  over its whole history.
* The same split is used elsewhere: a method with the program's loop is proved
  equal to a specification function, and the theorems are about the function.

Libraries are parameters: hashing, signature checking, transaction ids,
argument decoding, serialised size and the proof-of-work digest are fields of
`Crypto`, arbitrary deterministic functions. The wall clock, the success of each
database write and the success of each snapshot write are fields of `World`,
arbitrary functions of a counter. Theorems that need more say so.

## Where the code falls short

* The heaviest tip. A bootstrap pushes genesis past acceptance, so its work is
  not on record, and every record of that run is one genesis difficulty short
  until a switch whose common ancestor is genesis counts the difficulties up
  instead (`src/chain/reorg.rs:249-252`). From then on the records of different
  branches no longer compare. `FirstRuns.FirstRunLosesHeaviest` gives five
  ordinary blocks after which the tip has work 3 and a known block work 4.
  `Runs.HeaviestTip` says exactly when the tip of a run is not the heaviest known
  block: a block whose record is short ties with it on record, on a table that
  such a switch has made uneven; and then it is one genesis difficulty short, no
  more. `Invariants.HeaviestExactly` is the condition for a single placement, and
  `Runs.RecordedExactly` says when the records stay uniform over a run. A node
  that accepted genesis or was restarted has exact records and is not affected.
* Convergence. For the same reason two nodes that know the same blocks, one of
  them heaviest, need not agree: `DivergingRuns.OrderDecides` takes the same five
  blocks in two orders and ends on different chains. `Runs.Convergence` and
  `Runs.SameWork` say exactly when nodes agree: when neither tip has such a tie.
* Heights. `apply_block` never compares a block's height with its parent's.
  `Numbering.AcceptOnTip` takes such a block in place: what the index resolves to
  and what a restart loads stay right exactly when the number is the position. A
  block numbered higher leaves its own hash in the index, resolving to nothing,
  and a height without an entry below it in the database. Although the
  documentation promises that there are no panics on the consensus path
  (`src/chain/accept.rs:409-410`), the next well-formed child of it hits the
  `expect` at line 501: `Numbering.SubmitNumberedHigh` says exactly when that
  happens within the same call. A block numbered lower resolves to an older one,
  by whose timestamp and retarget its children are then judged
  (`Numbering.SubmitNumberedLow`). `Numbering.GapAccepted` gives a block that
  passes every stage.
* Displaced transactions. The note of what a switch has displaced is replaced as
  soon as a promoted orphan moves the new tip on, before any caller can take it
  (`src/chain/accept.rs:328`, `:667`). `Outcomes.NoteSurvives` says that it is
  there as long as the tip is, and that afterwards at most a note about the blocks
  on top is left, so that no transaction which only the abandoned branch held
  comes back to the pool (`Announcements.ImportAnnounced`);
  `Outcomes.NoteWipedExactly` says when one waiting orphan does this.
* Tips beyond the fee limit. The pool does not compare them, so it takes and keeps
  transfers that no account state can ever execute (`Admissions.OverLimitPooled`).
* An interrupted bootstrap. Its five writes are not atomic;
  `Bootstraps.InterruptedExactly` says after which of them the next start pushes
  genesis a second time.
* A recovery cut short. Replaying the stored chain moves the stored tip down and
  up again block by block, so after a crash in between the next start comes back
  on the chain up to the block replayed last, and no further
  (`Startup.ReplayLogs`, `Startup.RestartAfterCrash`).
* Snapshots at height 0. `SnapshotChecks.GenesisTakesAnything` plants any account
  state; the program never writes such a record, and `RunThenRestart` derives
  that none exists.

## Hypotheses

* Blocks are `Proper`: wherever a block is valid, it is numbered one above its
  parent and does not carry the genesis hash. Nothing is asked of a block that
  is valid nowhere. `Numbering.NumberedIsProper` reduces this, for digests that
  bind the height they were computed for, to the one comparison the callers make.
* On an empty node the genesis branch compares nothing but the claimed hash, so
  there the block that claims it has to be genesis (`Acceptance.Trusted`). Runs
  and synchronisation start with genesis known, as every started node has it.
* "No failing write" (`NoFailure`) is assumed only for the heaviest-tip and
  convergence results, for the order of arrival and for the success of a
  synchronisation.
* The order of arrival, and the success of a synchronisation, further assume that
  no block in play is ever more than two hours ahead of the clock and that no two
  of them share a hash (`Deliveries.Named`); the former that the orphan pool has
  room for everything submitted.
* Restart results assume that the clock has not gone back behind the earlier
  run, that the database takes the writes of the recovery itself, two events for
  each stored block, that the state hash has no collisions, that no height passes
  the 128th halving, and of the snapshot records that they fit in memory and none
  is at height 0. What happens to writes after the recovery is left open.
  `RunThenRestart` derives what it needs of the snapshot records from the run
  itself; that account states fit in memory below the 128th halving is
  `Economy.ChainFits`.
* Miner agreement assumes that transaction ids identify everything but the
  signature, that digests bind heights, and that no block of the retarget window
  names an all-zero parent (the exact condition, by `Miner.WindowsAgree`).
* Session results assume that generations enter the registry in the order in
  which they were drawn. The program draws the generation before it takes the
  lock. `Sessions.EnrolExactly` shows that this order is exactly what the
  guarantees need, and two lemmas give the shortest runs in which each fails.

## Model

| member | source | states |
|---|---|---|
| Ledgers.TxExecutionState.Simulate | src/types/transaction.rs:254-321 | One transfer in place: the whole new account state, or the exact error with nothing changed |
| Ledgers.TxExecutionState.ExecuteBody | src/chain/accept.rs:336-342 | Transfers run in order after the coinbase; the first failing one decides the error |
| Ledgers.TxExecutionState.ApplyCoinbaseReward | src/chain/accept.rs:34-54 | The reward credited to the miner, or the address or overflow error |
| Ledgers.TxExecutionState.ExecuteBlock | src/chain/accept.rs:350-358 | One block: transfers, then the reward unless it is genesis |
| Ledgers.ValidateTransfer | src/types/transaction.rs:182-201 | An accepted transfer moves a positive amount between two different well-formed accounts |
| Ledgers.BlockReward | src/miner/job.rs:100-102 | The subsidy never exceeds the initial emission, although the shift wraps after 128 halvings |
| Ledgers.ExecSplits | src/chain/accept.rs:363-400 | Executing a chain is executing its head and then the branch above it |
| Ledgers.SamePointwise | src/chain/snapshots.rs:66-72 | Equality up to zero entries is exactly that every balance and nonce reads the same |
| Ledgers.TransferCongruent | src/types/transaction.rs:254-321 | A transfer cannot tell an account state from its zero-free form, error for error |
| Ledgers.ExecBlockCongruent | src/chain/accept.rs:336-342 | Nor can a whole block |
| Ledgers.ExecKeepsKeys | src/types/transaction.rs:182-201 | Every ledger a chain produces has only 64-character lowercase hex keys |
| KeyOrder.LessExactly | src/chain/state_root.rs:54-72 | The order in which keys are visited is that of a dictionary: the smaller character at the first difference decides |
| StateRoots.ValidateAccountKey | src/chain/state_root.rs:16-39 | The key loop reports mixed case ahead of other malformation and accepts exactly account keys |
| StateRoots.AppendEntries | src/chain/state_root.rs:54-86 | Count and non-zero entries in key order are appended, or the first malformed key is reported |
| StateRoots.ComputeStateRoot | src/chain/state_root.rs:88-105 | The root is the hash of the canonical vector, or the key error |
| StateRoots.RootTotal | src/chain/state_root.rs:88-105 | A root exists exactly when every account holding something has a well-formed key |
| StateRoots.RootCongruent | src/chain/state_root.rs:54-86 | Zero entries never show in the vector or the root |
| StateRoots.HexRoundTrip | src/chain/state_root.rs:41-47 | Decoding a lowercase hex key loses nothing |
| StateRoots.LittleEndianRoundTrip | src/chain/state_root.rs:54-86 | Fixed-width little-endian numbers read back |
| StateRoots.EntriesRoundTrip | src/chain/state_root.rs:54-72 | A list of entries parses back to its map with the rest of the input untouched |
| StateRoots.SectionRoundTrip | src/chain/state_root.rs:54-86 | A counted section parses back to exactly the non-zero entries |
| StateRoots.VectorRoundTrip | src/chain/state_root.rs:88-97 | The whole vector has an inverse parser |
| StateRoots.VectorInjective | src/chain/state_root.rs:88-97 | Two ledgers have the same vector exactly when they are the same up to zero entries |
| CanonicalVectors.LittleEndianAt | src/chain/state_root.rs:54-86 | Byte i of a number in the vector is its base-256 digit i |
| CanonicalVectors.HexDecodeAt | src/chain/state_root.rs:41-47 | Byte i of a decoded key is its i-th pair of hex digits |
| CanonicalVectors.SectionKeys | src/chain/state_root.rs:54-86 | The keys read back from the consecutive entries of a section are all that hold something, in strictly ascending order, after their count |
| CanonicalVectors.VectorSorted | src/chain/state_root.rs:88-97 | The vector starts with its ten fixed bytes, both sections ascend, and its length is 26 bytes, 48 for each balance and 40 for each nonce |
| CanonicalVectors.OnlyVector | src/chain/state_root.rs:88-97 | It is the one byte string that parses to the non-zero entries of the ledger with ascending keys |
| CanonicalVectors.OneAccount | src/chain/state_root.rs:88-105 | The vector of a ledger with one account, byte for byte |
| Difficulty.CalculateNextDifficulty | src/pow/difficulty.rs:75-150 | The accumulating loop computes the retarget formula, final 64-bit cast included |
| Difficulty.WeightedIntervalBounds | src/pow/difficulty.rs:90-117 | The weighted interval of any window lies between 7 and 180 seconds |
| Difficulty.RetargetUnsaturated | src/pow/difficulty.rs:121-149 | The saturating multiplications never saturate |
| Difficulty.RetargetBounds | src/pow/difficulty.rs:75-150 | The result lies between three quarters of 30/180 and 30/7 of the average, whenever the latter fits 64 bits |
| Difficulty.RetargetAntitone | src/pow/difficulty.rs:75-150 | At equal stall status longer intervals never raise the retarget, nor the required difficulty whenever the fastest retarget fits 64 bits |
| Difficulty.RetargetLocal | src/pow/difficulty.rs:75-93 | Only the last twenty-one blocks matter |
| Difficulty.RetargetFixedPoint | src/pow/difficulty.rs:75-150 | A steady thirty-second chain of difficulty d keeps difficulty d |
| Recency.SlowerRaises | src/pow/difficulty.rs:96-114 | An interval counts as often as its place in the window says, the oldest once |
| Recency.WeightTotalExactly | src/pow/difficulty.rs:110-117 | The weights of n intervals add up to n(n+1)/2 |
| Recency.RecencyLaw | src/pow/difficulty.rs:96-114 | Moving t seconds from one interval to another, inside the clamp, raises the weighted sum by t times the distance |
| Recency.SlowerLater | src/pow/difficulty.rs:75-150 | Of two chains that differ by exchanging two intervals the one with the slower interval later never has the higher retarget |
| Recency.SlowerLaterStrict | src/pow/difficulty.rs:75-150 | A pair for which it is lower: 42 against 75 |
| Recency.TwoBlocks | src/pow/difficulty.rs:75-150 | The required difficulty on two blocks, clamp, stall and floor included: only the younger one's difficulty counts |
| Recency.OldestCounts | src/pow/difficulty.rs:84-117 | In a full window the block above the oldest counts one twentieth |
| Recency.StallShift | src/pow/difficulty.rs:129-149 | Later than two minutes after the last block the retarget is three quarters of what it was until then |
| BlockTree.PathShape | src/chain/state.rs:18-21 | In a rooted tree every path is a genesis chain with heights equal to positions, and its prefixes are the paths of its own blocks |
| BlockTree.PathStable | src/chain/accept.rs:288-293 | Learning more blocks never changes the ancestry of a known one |
| BlockTree.PathDistinct | src/chain/state.rs:63-64 | No hash occurs twice on a path |
| BlockTree.WorkFits | src/chain/state.rs:47-49 | Cumulative work of any chain fits its 128-bit counter |
| BlockTree.ForkSeparates | src/chain/reorg.rs:25-49 | Two paths of one tree share a block exactly inside their common prefix |
| Works.RewrittenOn | src/chain/reorg.rs:249-262 | Each block of a switched branch is recorded with the starting work plus the difficulties from the fork up to it |
| Validity.ShapeExactly | src/chain/accept.rs:420-453 | The first stage passes exactly the blocks within the weight limit, with the root of their transaction ids, and above genesis with a coinbase in front |
| Validity.PowExactly | src/chain/accept.rs:223-262 | The fifth stage passes exactly the blocks named by the digest of their header whose upper half times their difficulty stays below 2^64 |
| Validity.BigEndianExactly | src/chain/accept.rs:551-566 | The coinbase arguments read as a number exactly when each byte is the digit of its place |
| Validity.ValidExactly | src/chain/accept.rs:416-623 | A block is valid on a chain if and only if it is later than its parent, at the required difficulty with the work behind it, carries and commits to a coinbase for its height and distinct transactions, and executes to the root it claims |
| Validity.SettleCongruent | src/chain/accept.rs:581-623 | Validation of execution and root cannot see zero entries |
| OrphanPool.OldestIsOldest | src/chain/orphan.rs:59-67 | The scan finds a pooled entry that nothing pooled arrived before |
| OrphanPool.EvictKeeps | src/chain/orphan.rs:69-77 | Eviction removes one entry, leaves no empty bucket and keeps the reverse index sound |
| OrphanPool.OldestGoesFirst | src/chain/orphan.rs:59-67 | Of equally old entries the scan finds the first in key order and then in bucket order |
| OrphanPool.AddOrphanKeeps | src/chain/orphan.rs:36-78 | Pooling a block keeps buckets sorted, the size bounded and the reverse index sound |
| OrphanPool.PooledExactly | src/chain/orphan.rs:36-78 | Pooling puts the block at the back of the bucket of its parent, with arrival and peer, and indexes it; every other entry stays in its place, but for the one oldest that goes when 2,000 were pooled |
| ChainDisk.LoadReadsBack | src/chain/storage.rs:123-146 | Loading reads back exactly the chain the disk describes |
| ChainDisk.StoreKeepsChain | src/chain/storage.rs:19-23 | Storing a side block leaves the described chain alone |
| ChainDisk.ExtensionAppends | src/chain/storage.rs:26-40 | An extension describes the chain with the block appended, and leaves no height entry above it if there was none |
| ChainDisk.ExtensionReadsBack | src/chain/storage.rs:26-40 | After any block was written as the new tip the load gives the chain with it on top exactly when it is numbered by its position; numbered lower it cuts the chain off, higher it makes the load fail |
| ChainDisk.ReorgReplaces | src/chain/storage.rs:75-106 | A reorganisation describes exactly the new chain, also a shorter one, and leaves no stale height if there was none |
| Consensus.Apply | src/chain/accept.rs:416-684 | Acceptance with promotion terminates, keeps buckets sorted, never forgets a block, and does not grow the pool when the parent is known |
| Consensus.Promote | src/chain/orphan.rs:10-30 | Promotion never grows the pool or forgets a block |
| Tables.RecordKeepsTable | src/chain/accept.rs:655-660 | Storing a child keeps each of the three kinds of table: exact, uniformly short, mixed |
| Tables.SwitchKeepsTable | src/chain/reorg.rs:249-262 | A switch keeps exact tables exact, and a uniformly short one uniform exactly when it forks above genesis |
| Tables.OutweighsMeans | src/chain/accept.rs:480-494 | A branch has more work than the tip in fact exactly when it has on record, or when on a mixed table it ties on record while its parent's record is short |
| Tables.TopMeans | src/chain/accept.rs:662-678 | Being on top of the records is having the heaviest chain unless the table is mixed; then the tip is heaviest exactly when no short record ties with it, and always within the genesis difficulty |
| Tables.SwitchTops | src/chain/reorg.rs:249-262 | Rewriting records along a branch leaves its end on top of them if it was |
| Invariants.KnownExecutes | src/chain/accept.rs:581-623 | For every known block the chain below it executes and yields the root in its header |
| Invariants.AddBlock | src/chain/accept.rs:655-660 | A valid child keeps the tree sound and every path unchanged |
| Invariants.IntegrateSafe | src/chain/accept.rs:625-684 | Placing a block changes nothing, or adds it beside the tip, or makes it the tip of a strictly heavier chain; a switch decided by records is always one to a heavier chain |
| Invariants.HeaviestExactly | src/chain/accept.rs:646-684 | A placement loses the heaviest tip exactly when a side block beats the tip on record and the switching write fails, or only ties with it on record while its parent's record is short |
| Invariants.IntegrateTops | src/chain/accept.rs:662-678 | Without failing writes the tip stays on top of the records, and moves exactly when the new record beats its own |
| WriteLog.LogAppends | src/chain/storage.rs:19-106 | A write leaves an image that describes the chain of its moment, and older images stay right as the tree grows |
| WriteLog.MoveTracked | src/chain/reorg.rs:249-252 | A switch makes a uniformly short table uneven exactly when it crosses genesis |
| Acceptance.PlaceKeeps | src/chain/accept.rs:625-684 | Every placement, whichever writes fail, keeps tree, seen set, records, disk and log |
| Acceptance.ApplySafe | src/chain/accept.rs:416-684 | One outer call, promotions included: the tree only grows and stays sound, tip work never falls, disk and log agree, blocks were on time, and without failing writes the tip stays on top of the records |
| Acceptance.PromoteSafe | src/chain/orphan.rs:10-30 | The same for promotion by itself |
| Acceptance.ApplyPool | src/chain/orphan.rs:10-78 | After an outer call nothing pooled waits for a known block, the pool is bounded with no empty bucket, and reverse entries point at pooled blocks |
| Acceptance.PromotePool | src/chain/orphan.rs:10-30 | Promotion restores that state after its bucket was the only exception |
| Economy.TransferConserves | src/types/transaction.rs:275-312 | A transfer takes exactly its fee out of circulation |
| Economy.SupplyConserved | src/chain/accept.rs:34-54 | Total balances are the rewards paid minus the fees charged, on any executable chain |
| Economy.EmissionCap | src/miner/job.rs:100-102 | Below 128 halvings less than two initial periods' worth is ever emitted |
| Economy.CreditsNeverOverflow | src/types/transaction.rs:299-301 | The recipient overflow error is unreachable in any ledger met on such a chain |
| Economy.RewardNeverOverflows | src/chain/accept.rs:49-52 | So is the coinbase overflow error |
| Economy.NoncesCount | src/types/transaction.rs:266-273 | An account's nonce is its number of transfers on the chain, and each carries the count before it |
| Economy.NoReplay | src/types/transaction.rs:266-312 | No sender and nonce occur twice on an executable chain |
| Economy.ChainFits | src/chain/accept.rs:34-54 | Before the 128th halving an executable chain cannot leave 2^64 accounts that hold or have sent anything |
| Accounts.StatelessExactly | src/types/transaction.rs:161-202 | What passes without account state: exactly the transfers that are small enough, signed by a well-formed account, above the least fee limit and moving a positive amount to another account; and small coinbases |
| Accounts.TransferExactly | src/types/transaction.rs:254-321 | A transfer applies if and only if it is authorised, next in nonce, charged within its limit and covered, and overflows nothing; then every balance and nonce afterwards, account by account |
| Accounts.TransferErrors | src/types/transaction.rs:254-321 | Which error each refused transfer gets |
| Accounts.RewardExactly | src/chain/accept.rs:34-54 | The reward credits the miner and nobody else, exactly when the address is well formed and nothing overflows |
| Accounts.RewardHalves | src/miner/job.rs:100-102 | The subsidy is the full emission in the first period and half, rounded down, in each further one, until the shift wraps after 128 |
| Accounts.ChainRightful | src/types/transaction.rs:161-202 | On an executed chain every transaction beside the coinbases is authorised by its sender and charged within its limit |
| Accounts.AccountHistory | src/chain/accept.rs:336-358 | Every balance on an executed chain is the rewards its account mined and the payments it received, less what it paid and was charged |
| Accounts.NeverOverdrawn | src/chain/accept.rs:336-358 | At no point of an executed chain has an account spent more than the rewards of the blocks below and what was paid to it before, so a block's own reward cannot be spent in it |
| ChainStates.ChainState.CurrentHeight | src/chain/state.rs:131-133 | The number of the last block, which on a valid state is the chain length minus one, or zero |
| ChainStates.ChainState.TipHash | src/chain/state.rs:137-142 | The tip's hash, or the null hash on an empty chain |
| ChainStates.ChainState.BlockByHash | src/chain/state.rs:151-156 | The two-store lookup, index entries past the end included; on a valid state it finds exactly the known blocks |
| Replay.CollectAncestorWindow | src/chain/accept.rs:300-322 | The backward walk over both stores returns the blocks from a hash backwards, oldest first, as far as hashes resolve; on a valid state the last twenty-one ancestors of any known block |
| Replay.ReconstructCanonicalStateAtHeight | src/chain/accept.rs:344-361 | Replay up to a canonical height cannot fail and gives the execution of that prefix |
| Replay.TraceToCanonical | src/chain/reorg.rs:25-49 | The walk through side blocks always reaches the canonical chain and splits the path exactly there |
| Replay.ReconstructParentState | src/chain/accept.rs:363-400 | Reconstruction of any known block's ledger cannot fail and equals executing its path |
| Reorg.ReplayChecked | src/chain/reorg.rs:117-156 | Replay with parent and root checks never aborts on an already validated chain |
| Reorg.ReplayBranch | src/chain/reorg.rs:179-203 | Ancestor and branch replay together give the execution of the whole branch path |
| Reorg.DemoteAbove | src/chain/reorg.rs:243-247 | Exactly the blocks above the fork leave the index and join the side store |
| Reorg.PromoteSegment | src/chain/reorg.rs:254-262 | The promotion loop rebuilds the branch path and its index and records along it the start plus the difficulties above the fork |
| Reorg.SwitchFields | src/chain/reorg.rs:237-262 | The new fields of a switch, its work counted from the record of the common ancestor or else from the difficulties summed up to it |
| Reorg.TryReorg | src/chain/reorg.rs:157-292 | The switch does what the abstract machine does, records included, and is refused only by a failing write with every field unchanged |
| Accept.HasDistinctIds | src/chain/accept.rs:568-579 | The set loop decides whether transaction ids are pairwise different |
| Accept.CheckHeader | src/chain/accept.rs:520-579 | Difficulty, proof of work, coinbase and duplicate checks give the first error against the window the walk from the parent's hash finds; on a valid state that is the block's own ancestry |
| Accept.ExecuteOnParent | src/chain/accept.rs:581-623 | Node balances at the tip and replay elsewhere give the same verdict and the same ledger up to zero entries |
| Accept.MaybeSaveSnapshot | src/chain/snapshots.rs:22-62 | Snapshots are written at multiples of 32 above 0, write by write, stopping at the first failure, so none is written at height 0; before the 128th halving what is written fits in memory |
| Accept.PushedExactly | src/chain/accept.rs:326-334 | A pushed block keeps positions and what the index resolves to right exactly when numbered by its position; numbered higher its own hash resolves to nothing |
| Accept.PushCanonical | src/chain/accept.rs:326-334 | The five field updates; positions and everything the index resolves stay right exactly when the block is numbered by its position |
| Accept.ExtendTip | src/chain/accept.rs:625-644 | Extending the tip pushes the block whatever its number; one fit for its place equals the abstract placement; a failed write changes nothing |
| Accept.PlaceOnSide | src/chain/accept.rs:646-684 | Storing on the side with its possible switch, decided by recorded work, equals the abstract placement |
| ApplyBlocks.PruneOldOrphans | src/chain/orphan.rs:53-78 | At the maximum the single oldest entry goes, else nothing changes |
| ApplyBlocks.AddToPool | src/chain/orphan.rs:36-48 | Pooling in place equals the abstract insertion (OrphanPool.PooledExactly), one clock reading later |
| ApplyBlocks.AdmitGenesis | src/chain/accept.rs:458-474 | The genesis branch rejects other claimed hashes, non-empty chains and failing writes, and otherwise makes whatever claims the hash the chain; for genesis itself, and for every rejection, it equals the abstract genesis step |
| ApplyBlocks.ValidateChild | src/chain/accept.rs:503-623 | Stages 3 to 6 in place pass exactly the blocks that are valid on their parent and not too early, and reject with the abstract reason |
| ApplyBlocks.AdmitBlock | src/chain/accept.rs:416-684 | All eight stages before promotion equal the abstract admission, error for error |
| ApplyBlocks.ApplyBlock | src/chain/accept.rs:416-684 | The in-place acceptor refines the abstract machine: new node, result and recursion |
| ApplyBlocks.ProcessOrphans | src/chain/orphan.rs:10-30 | The promotion loop refines the abstract promotion |
| Runs.Reachable | src/chain/accept.rs:416-684 | Every run leads from a live node to a live node: tree, records, disk, log, pool and punctuality; tip work never falls and exact records stay exact |
| Runs.RecordedExactly | src/chain/accept.rs:480-494 | Over any run from a bootstrap every record is one genesis difficulty short exactly as long as no write crossed genesis; from exact records, exact |
| Runs.HeaviestTip | src/chain/accept.rs:662-678 | Without failing writes the tip after a run is the heaviest known block exactly when no block whose record is short ties with it on a mixed table; so it is while the records can be compared, and it is never short by more than the genesis difficulty |
| Runs.RestartReadsChain | src/chain/storage.rs:123-146 | After any run, with any failing writes, the disk loads back the chain, and has no height entry above it unless there was one before the run |
| Runs.CrashReloads | src/chain/storage.rs:19-106 | A crash after any write of a run, promotions included, reads back as the whole chain to the tip of that moment |
| Runs.ChainAccounts | src/chain/accept.rs:581-644 | After any run the canonical chain executes, supply is conserved, keys are well formed and nonces count transfers |
| Runs.SupplyCapped | src/miner/job.rs:100-102 | Circulating supply stays below two initial periods' emission for 128 halvings |
| Runs.KnownRightful | src/types/transaction.rs:161-202 | Over any run, on the chain of every known block, the canonical one among them, every transaction was signed for and is charged within its limit |
| Runs.ChainBalances | src/chain/accept.rs:336-358 | After any run every balance on the canonical chain is accounted for by mining and transfers |
| Runs.KnownObeys | src/chain/accept.rs:503-623 | Every known block above genesis obeys all rules on its own ancestry; its digest times its difficulty stays below 2^64, so recorded work is backed by proof of work |
| Runs.Convergence | src/chain/accept.rs:662-678 | Two runs without failing writes, from any starts, that know the same blocks with one heaviest: each is on the heaviest chain exactly when no short record ties with its tip, so they agree when neither has such a tie, as with comparable records, and disagree when just one has |
| Runs.SameWork | src/chain/accept.rs:662-678 | Two such runs without a unique heaviest block have equal tip work exactly when both or neither have such a tie; otherwise the one that has is one genesis difficulty behind |
| Runs.RunPool | src/chain/orphan.rs:10-78 | After genesis, every run leaves the orphan pool bounded, indexed and with nothing promotable |
| Outcomes.ResultMeans | src/chain/accept.rs:61-86 | What each result says about the chain afterwards; a side result keeps the tip unless orphans were waiting |
| Outcomes.AcceptedExactly | src/chain/accept.rs:416-684 | A block is accepted if and only if it is unseen, valid on a known parent, at most two hours ahead and written; it becomes canonical if and only if it then extends the tip, or beats it on record and the second write succeeds |
| Outcomes.PooledMeans | src/chain/accept.rs:494-498 | A block is pooled if and only if it is well-formed, unseen, above genesis and its parent unknown; then it ends the bucket of its parent and nothing else changes but one evicted entry |
| Outcomes.NeverReorphaned | src/chain/orphan.rs:18-28 | A block whose parent is known is never pooled again |
| RecoveryNotes.ApplyTrail | src/chain/accept.rs:326-334 | Over one outer call with its promotions tip and note follow from the writes in between, and while everything placed rests on blocks through a hash the tip only moves between chains through it |
| Outcomes.NoteSurvives | src/chain/accept.rs:662-678 | After a whole call the recovery note is that of the last placement that moved the tip; after a canonical result it describes that very switch, or none for an extension, unless a promoted orphan has moved the tip on, and then at most a switch between chains through the block |
| Outcomes.NoteWipedExactly | src/chain/accept.rs:326-334 | With one orphan waiting for the block of a switch, the note is wiped within the call exactly when the orphan is accepted |
| Deliveries.PromotedInOrder | src/chain/orphan.rs:18-28 | Waiting children are submitted again in the order in which they came |
| Deliveries.RunComplete | src/chain/orphan.rs:10-48 | With room in the pool, prompt clocks and no failing write, a run knows nothing but what it was given and everything given that is valid on a known parent |
| Deliveries.ArrivalOrder | src/chain/orphan.rs:10-48 | The order of arrival does not decide what a node knows: two nodes given the same blocks in any order, some of them twice or before their parents, come to know the same blocks |
| Deliveries.ArrivalConverges | src/chain/accept.rs:662-678 | So their tips have equal work unless just one has a short tie, and with comparable records both are on the heaviest chain |
| Deliveries.ChildFirst | src/chain/accept.rs:494-498 | On top of the tip a child submitted before its parent waits and is the tip once its parent is in, as in the other order |
| Branches.NextAcceptable | src/chain/accept.rs:416-684 | Wherever a node has got to since, the next unknown block of a valid branch on top of what it knew is acceptable to it |
| Numbering.AcceptOnTip | src/chain/accept.rs:288-334 | A child of the tip with an unchecked number is accepted exactly when unseen, valid, on time and written, and written to the database under its own number; positions and what the index resolves to stay right exactly when the number is the position |
| Numbering.NumberedReload | src/chain/storage.rs:123-146 | Of a node's own database such a block leaves one that loads the chain with it on top exactly when numbered by its position |
| Numbering.PromoteUnresolved | src/chain/orphan.rs:10-30 | Promotion for a hash that resolves to nothing panics exactly when a waiting block is well-formed and unseen; its bucket is gone either way |
| Numbering.SubmitNumberedHigh | src/chain/accept.rs:416-684 | A child of the tip numbered above its position, promotion included: accepted under the usual conditions, a panic exactly when a well-formed block waited for it, and a database that no longer loads |
| Numbering.LoweredWalk | src/chain/accept.rs:288-323 | The hash of a block numbered below its position resolves to the older block with that number, and the retarget window from there runs down the chain below it |
| Numbering.SubmitNumberedLow | src/chain/accept.rs:416-644 | A child of such a block is judged by the timestamp and the retarget of that older block, and executed on the accounts of the whole chain |
| Numbering.NumberedIsProper | src/chain/state.rs:18-21 | When digests bind heights, a block is proper exactly when numbered one above the chain it is valid on |
| Numbering.GapAccepted | src/chain/accept.rs:416-684 | A concrete block numbered five with genesis as its parent passes every stage on top of genesis and is not proper |
| ChainRuns.SubmitAll | src/chain/accept.rs:416-684 | Submitting blocks one by one in place equals the abstract run |
| ChainRuns.Structure | src/chain/state.rs:17-73 | Linked blocks at their heights, an exact index, disjoint side store, known parents, and seen set and work table covering all but perhaps genesis |
| ChainRuns.WorkAndAccounts | src/chain/state.rs:22-49 | Recorded work is the sum along the path, short of it by at most the genesis difficulty and only when genesis is unrecorded; balances and nonces read as executing the canonical blocks |
| ChainRuns.RecordedWorkFits | src/chain/state.rs:47-49 | Recorded work never outgrows 128 bits |
| ChainRuns.ConvergedNodes | src/chain/accept.rs:662-678 | Two nodes with the same known blocks and both tips heaviest agree on blocks, index, side store and every balance and nonce |
| ChainRuns.ConvergedRuns | src/chain/accept.rs:662-678 | Two in-memory nodes after such runs, one of them without a short tie, hold the same blocks exactly when the other is without one too, and then the same balances and nonces |
| Bootstraps.BootstrapChain | src/node/bootstrap.rs:213-234 | Without the genesis mark genesis is written and pushed, or the start fails after one of the first four writes; with it the mark is checked |
| Bootstraps.InterruptedExactly | src/node/bootstrap.rs:216-223 | A bootstrap cut short is taken up again unless the tip height was stored and the mark was not; then genesis is pushed twice |
| Bootstraps.UnmarkedChain | src/node/bootstrap.rs:216-223 | A stored chain without the mark gets a second genesis on top, and with it none |
| Bootstraps.BootedLive | src/node/bootstrap.rs:213-223 | A bootstrapped node is live, its records uniformly short and its tip heaviest |
| Bootstraps.AcceptedLive | src/chain/accept.rs:458-474 | A node that accepted genesis is live with exact records |
| FirstRuns.FirstRunLosesHeaviest | src/chain/reorg.rs:249-252 | Five plain valid blocks after a bootstrap, every write succeeding, leave the tip at work 3 beside a known block of work 4 |
| DivergingRuns.OrderDecides | src/chain/reorg.rs:249-252 | The same five plain valid blocks taken in another order leave a second bootstrapped node on another chain, heavier by one, although both know the same blocks with one heaviest |
| SnapshotChecks.SnapshotSound | src/chain/snapshots.rs:132-229 | Before the 128th halving an accepted snapshot above genesis is on the canonical chain and holds what executing the chain yields |
| SnapshotChecks.StaleSnapshotRejected | src/chain/snapshots.rs:146-156 | A snapshot whose hash is off the canonical chain is never used |
| SnapshotChecks.SnapshotExactly | src/chain/snapshots.rs:132-200 | A snapshot restores an account state if and only if it is recorded for its own height and the block stored there, with well-formed accounts and the roots on record and in the block; what it restores reads as recorded |
| SnapshotChecks.SavedIsAccepted | src/chain/snapshots.rs:31-62 | A fully saved snapshot is accepted again and gives the same accounts, zero entries dropped |
| SnapshotChecks.GenesisTakesAnything | src/chain/snapshots.rs:189-199 | On a chain of genesis alone a planted record at height 0 restores any account state with well-formed keys |
| Recovery.PrefixTree | src/chain/storage.rs:123-146 | Any prefix of a sound node's chain is a sound tree in which every block keeps its path |
| Recovery.PrefixFields | src/chain/snapshots.rs:204-229 | Tables rebuilt from a prefix, with accounts that read like its execution, fit the tree of that prefix |
| Recovery.HolderSound | src/chain/storage.rs:123-146 | A node that knows exactly a stored chain is sound, with exact records and the heaviest tip |
| Recovery.ImagedSound | src/chain/storage.rs:123-146 | Every logged disk image is the disk of a sound node on the chain of its moment |
| Startup.LoadCanonChain | src/chain/storage.rs:123-146 | Loading rebuilds blocks, index, work and seen set of the described chain, or reports the first missing entry |
| Startup.CheckSnapshot | src/chain/snapshots.rs:132-200 | The checks of a snapshot in order, with normalised state |
| Startup.RestoreSnapshotAt | src/chain/snapshots.rs:132-229 | Restoring truncates the chain and rebuilds its tables, or changes nothing |
| Startup.RestoreLatestSnapshot | src/chain/snapshots.rs:88-130 | The newest acceptable snapshot at or below a height is restored, or nothing changes |
| Startup.ReplayStep | src/node/bootstrap.rs:274-293 | Acceptance of the next stored block always extends the replayed chain by it |
| Startup.ReplayStoredCanonicalTail | src/node/bootstrap.rs:241-303 | The tail replay succeeds, ends on the stored chain and leaves the disk as it was |
| Startup.RebuildFromGenesis | src/node/bootstrap.rs:305-369 | The full rebuild succeeds with the same outcome |
| Startup.ReplayCrashLoads | src/node/bootstrap.rs:274-293 | A crash in the middle of a replay loads the chain up to the last replayed block |
| Startup.ReplayLogs | src/node/bootstrap.rs:274-293 | Each write of a replay leaves an image of the stored chain up to the block replayed last, and the last one the disk as it was |
| Startup.OpenChain | src/node/bootstrap.rs:376-394 | Opening loads the stored chain and bootstraps: the blocks it ends up with, genesis once more where the mark is missing |
| Startup.RecoverAccounts | src/node/bootstrap.rs:392-418 | Whichever recovery is chosen ends valid on the stored chain |
| Startup.InitializeChainState | src/node/bootstrap.rs:376-422 | Startup on an empty database, on a bootstrap cut short, or on the marked chain of a sound node, with the writes of recovery itself granted: it succeeds on that chain with the executed accounts, ready for the next run, its log beginning with the disk it found |
| Startup.StartupsAgree | src/node/bootstrap.rs:241-369 | Two states on the same chain agree on every balance and nonce, so snapshot and rebuild recoveries do |
| Startup.RestartAfterRun | src/node/bootstrap.rs:376-422 | Whatever a run did and whichever writes failed, a restart comes back on its chain with its accounts and with exact records |
| Startup.RestartAfterCrash | src/node/bootstrap.rs:376-422 | A restart from any disk image the in-place methods left, those of a recovery included, comes back on the chain to the tip of that moment, with its accounts |
| Startup.RunThenRestart | src/node/bootstrap.rs:376-422 | Bootstrap, any run, restart on what it left, snapshots included: same chain, same balance and nonce for every account |
| Miner.BigEndianRoundTrip | src/chain/accept.rs:551-566 | The height in a coinbase reads back |
| Miner.WindowsAgree | src/miner/manager.rs:161-172 | The miner's slice of the chain is the window validation walks back to exactly when that walk meets no all-zero parent |
| Miner.CandidateExactly | src/miner/job.rs:124-150 | A candidate carries the coinbase for its height and then the first 199 of the other transactions in their order |
| Miner.TryNonceExactly | src/miner/job.rs:66-94 | A nonce solves a job if and only if the digest's upper half times the difficulty stays below 2^64; the block is the job's header with nonce and digest over its transactions |
| Miner.ExecutedDistinct | src/chain/accept.rs:568-579 | A block that executes never fails the duplicate-id check |
| Miner.BuildCandidate | src/miner/job.rs:124-185 | The job commits to the parent, the retarget and the capped transactions, coinbase first |
| Miner.MinerManager.BuildCandidateForTip | src/miner/manager.rs:149-195 | A job is sound for the current chain with the retarget of its last blocks, which is the required one unless an all-zero parent cuts validation's walk short; there is none exactly when chain, execution, address or root fail |
| Miner.MinerManager.BuildJob | src/miner/manager.rs:65-81 | Publishing a job makes its id the only current one |
| Miner.MinerManager.SubmitSolution | src/miner/manager.rs:137-144 | Submission is ordinary acceptance, counted exactly when it became canonical |
| Miner.SolvedJobAccepted | src/miner/job.rs:66-94 | A solved job extends its chain; only a duplicate hash, a far-future timestamp, a retarget cast to zero or a failing write turns it away |
| Miner.MineTip | src/miner/manager.rs:137-195 | Build, publish, solve and submit: the found block stands on the tip and pays the miner, its fate is one of five, and when canonical the chain is heavier and holds it |
| TxPool.AdmittedKeeps | src/mempool/pool.rs:86-111 | Admission keeps the pool bounded, free of duplicate ids and with one transaction per sender and nonce |
| TxPool.ReplacementRaisesTip | src/mempool/admission.rs:69-85 | A replacement strictly raises the tip of its slot and touches no other |
| Admissions.EvaluateExactly | src/mempool/admission.rs:46-88 | A transaction is admitted if and only if it passes without account state, its id is new, its nonce is the sender's next or the one after, and it tips more than what holds its slot; it replaces just that |
| Admissions.AdmittedExactly | src/mempool/pool.rs:23-111 | First in, first out: the admitted one goes to the back, the replaced one goes, else from a full pool the one in front, and all others keep their order |
| Admissions.DroppedInOrder | src/mempool/pool.rs:150-157 | Confirmation keeps the order of what it leaves |
| Admissions.OverLimitPooled | src/mempool/admission.rs:46-88 | The pool takes a transfer whatever its tip; it can apply to no account state exactly when its charge is beyond its limit or an amount or the nonce would overflow |
| TxPool.SortedPermutes | src/mempool/pool.rs:171-180 | Sorting the candidates loses and invents nothing |
| TxPool.SortedOrders | src/mempool/pool.rs:176-180 | Candidates are offered by sender, lower nonces first |
| Admissions.SortedStable | src/mempool/pool.rs:176-180 | Candidates with the same sender and nonce keep their order |
| TxPool.OfferedPartition | src/mempool/pool.rs:182-197 | Every candidate is reported exactly once |
| TxPool.RequeuedMeans | src/mempool/pool.rs:160-197 | After a reorganisation no winning transaction is pooled, the bounds hold and the report partitions the candidates |
| TxPool.SwitchAccounting | src/chain/reorg.rs:222-235 | A transfer on a demoted block is confirmed by the winner or displaced, never both |
| TxPool.DisplacedAllOffered | src/mempool/pool.rs:171-175 | Nothing displaced from an executed chain is filtered out before it is offered |
| Mempools.Mempool.InsertLocked | src/mempool/pool.rs:23-32 | Map and queue together drop the oldest at the maximum and append |
| Mempools.Mempool.Admit | src/mempool/pool.rs:86-111 | Admission in place equals the policy on the pending sequence |
| Mempools.Mempool.RemoveConfirmed | src/mempool/pool.rs:150-157 | Confirmed ids leave map and queue, the rest keeps its order |
| Mempools.Mempool.SelectForBlock | src/mempool/pool.rs:140-147 | Selection is the oldest prefix of the pool |
| Mempools.Mempool.RequeueAfterReorg | src/mempool/pool.rs:160-197 | The requeue loop equals the specified offer, report included |
| PoolRuns.PoolHistory | src/mempool/pool.rs:86-157 | Over any sequence of admissions and confirmations the pool stays bounded, free of duplicate ids and with one transaction per sender and nonce; whatever is pooled was there at the start or passed the checks without account state, signature included, in its sender's nonce window, and was not confirmed since |
| PoolRuns.RequeueIsRun | src/mempool/pool.rs:160-197 | A requeue is the confirmation of the winners followed by one admission for each candidate in order |
| PoolRuns.RunEvents | src/mempool/pool.rs:86-157 | Such a sequence on the pool object equals the specified run |
| Announcements.SwitchReported | src/mempool/pool.rs:160-197 | Requeueing after a switch from an executed chain reports just what the switch displaced, each transaction once |
| Announcements.DisplacedAbove | src/chain/reorg.rs:222-235 | A switch between two chains through a block displaces only what the blocks on top of that block carry |
| Announcements.ImportAnnounced | src/node/services.rs:358-376 | Accept, clear confirmed, take the note and requeue, in place; after a switch that no promoted orphan has built on, every transaction that only the abandoned branch held is reported once; after one that was built on, only what a later switch took off the blocks above |
| Sessions.PeerSessionRegistry.Register | src/p2p/connection.rs:61-74 | A fresh generation is enrolled for one peer |
| Sessions.PeerSessionRegistry.Unregister | src/p2p/connection.rs:78-91 | One transport leaves; the latest generation is returned only when it was the last |
| Sessions.PeerManager.ConnectSession | src/p2p/peer_manager.rs:241-247 | The peer is marked connected and its generation never falls |
| Sessions.PeerManager.DisconnectIfGeneration | src/p2p/peer_manager.rs:223-234 | The peer is marked disconnected only at its newest generation |
| Sessions.StepKeeps | src/p2p/connection.rs:61-91 | Every interleaved step keeps the protocol invariant |
| Sessions.ConnectedStaysUp | src/p2p/connection.rs:755-759 | Over all interleavings a peer with a connected transport is shown connected |
| Sessions.FinishedIsDown | src/p2p/connection.rs:755-759 | Once every transport has finished its cleanup the peer is shown disconnected |
| Sessions.EnrolExactly | src/p2p/connection.rs:61-74 | Both guarantees hold in every continuation if and only if no newer generation entered the registry first |
| Sessions.LateEnrolDropsConnected | src/p2p/connection.rs:61-74 | Enrolled out of order, an old cleanup marks a connected peer disconnected |
| Sessions.LateEnrolLeavesUp | src/p2p/connection.rs:61-74 | Enrolled out of order, a peer whose transports all finished stays shown connected |
| Datasets.BuiltShape | src/pow/visionx.rs:213-233 | A dataset is a power of two long, covers its configured size by less than double, and its mask is one less |
| Datasets.BuiltWords | src/pow/visionx.rs:213-233 | Word i of a dataset is the i-th word generated for its key |
| Datasets.Build | src/pow/visionx.rs:213-233 | The doubling and filling loops compute that dataset |
| Datasets.DatasetCache.EvictOverCapacityLimit | src/pow/visionx.rs:134-160 | The rotate-or-evict loop ends with the oldest entries gone, the active key kept and order and map in step |
| Datasets.DatasetCache.InsertIfAbsent | src/pow/visionx.rs:101-128 | The stored dataset wins; a new one goes to the back and the oldest beyond capacity go |
| Datasets.DatasetCache.GetCached | src/pow/visionx.rs:235-274 | The cached lookup returns what building anew would give |
| Datasets.InsertedKeeps | src/pow/visionx.rs:101-128 | The queue stays a duplicate-free, bounded listing of the map |
| Datasets.InsertedExactly | src/pow/visionx.rs:101-160 | A new key goes to the back, the front one goes when three were cached, and all others keep place and dataset |
| Datasets.CachedIsBuilt | src/pow/visionx.rs:235-274 | Over all interleavings of lookup, build and insert every returned dataset equals a fresh build |
| Sync.FetchBackwards | src/p2p/sync.rs:219-283 | The backward fetch is parent-linked from the requested tip down to genesis or a block known by then; from a peer that serves its tip it always succeeds, with the blocks served |
| Sync.FetchedImportable | src/p2p/sync.rs:283-295 | Reversed, the branch starts at genesis or on a known block and ends at the tip |
| Sync.ImportOne | src/p2p/sync.rs:299-362 | One block with a known parent is known afterwards or rejected, never orphaned; it succeeds if and only if it was known or acceptable |
| Sync.ImportFetchedBlocks | src/p2p/sync.rs:299-362 | Importing never ends in the orphan pool although other blocks interleave, and success means all are known; a branch the node can take always succeeds |
| Sync.LiveSync | src/p2p/sync.rs:219-362 | The whole exchange, whatever invalid blocks the peer sends, never stores an orphan, and on success the peer's tip is known; from a peer that serves a valid branch it always succeeds |

## Left out

- Ed25519, BLAKE3, bincode and JSON: arbitrary deterministic functions here; the VisionX mixing and the byte layout of the proof-of-work preimage are inside one of them, so the miner's and the validator's digest are one function by assumption.
- The proof-of-work prevalidation cache: `apply_block` clears it and verifies again, so it decides nothing.
- `cached_state_root`, `seen_txs` and the `difficulty` field of the chain state: derived or unused by acceptance; the second root comparison `try_reorg` makes on the same ledger is part of the last replayed block's check.
- `validate_genesis_hash`: a check of compile-time constants.
- `alpha_airdrop`: it changes balances outside blocks and deliberately breaks the replay invariant.
- Rejection texts: results carry a reason without its message; `winning_tx_ids` is a set rather than its sorted list.
- Strings are sequences of characters and database values are maps, so encodings of keys and values in the database are not modelled; neither are read errors.
- Execution threads: each locked section is one step; TCP framing, the handshake, channels, logging, the HTTP API, settings and data-directory probing are not modelled.
- `PeerManager.set_state` and the peer summaries beyond what a disconnect clears; outbound polling that sets states directly is not part of the session protocol.
- `SyncGuard`, the sync decisions and the watchdog: they choose when to synchronise, not what is imported; the requeue of displaced transactions is modelled for announced blocks (Announcements.ImportAnnounced) and not again for synchronised and mined ones.
- Startup.InitializeChainState: assumes that the writes of the recovery itself succeed and states nothing about databases that no run can leave; that a stored chain without the genesis mark ends up with genesis twice is Bootstraps.UnmarkedChain.
- ApplyBlocks.ApplyBlock: asks that a block which is valid somewhere be numbered one above its parent there, as its callers must; Numbering.AcceptOnTip and Numbering.SubmitNumberedHigh show what one block that is not does.
- ApplyBlocks.AdmitBlock: asks the same.
- Runs.Reachable: asks the same of every block of the run; so do the other results about runs.
- ChainRuns.SubmitAll: asks the same of every block submitted.
- Miner.MinerManager.SubmitSolution: asks the same; a solved job is such a block (Miner.MineTip).
- Sync.FetchBackwards: asks the same of the blocks a peer sends, since the code leaves that to no one.
- Sync.ImportOne: asks the same.
- Sync.ImportFetchedBlocks: asks the same.
- Deliveries.ArrivalOrder: assumes room in the orphan pool, prompt clocks, granted writes and no two blocks with one hash, because an orphan that was evicted and a block that was turned away for its time or a failed write are not taken up again unless they are sent again.
- Deliveries.RunComplete: assumes the same, but for the hashes.
- Numbering.AcceptOnTip: stops before promotion; promotion is modelled whole for a block numbered above its position (Numbering.SubmitNumberedHigh), and up to the verdict on the first child for one numbered below (Numbering.SubmitNumberedLow).
- Sync.LiveSync: starts with genesis known, as every started node has it, and asks of every block that it be properly numbered.
- Sessions.ConnectedStaysUp: assumes that generations enter the registry in the order drawn, because out of order it is false (Sessions.LateEnrolDropsConnected).
- Sessions.FinishedIsDown: assumes the same, for the same reason (Sessions.LateEnrolLeavesUp).
- TxPool.AdmittedKeeps: the unchecked insert, which only tests and setup call, may put two transactions in one slot and is only shown to keep ids distinct.
