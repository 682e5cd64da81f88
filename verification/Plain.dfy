/** Plain blocks: thirty seconds apart, difficulty one, nothing but a coinbase.
    Under primitives that let every one of them pass they are valid wherever
    they stand, which is what concrete runs are built from.
 */
module PlainBlocks {
  import opened Base
  import opened Ledgers
  import opened StateRoots
  import opened Difficulty
  import opened BlockTree
  import opened Validity
  import opened Consensus
  import opened Invariants
  import opened Economy

  /** Two families of hashes, each naming a height. */
  function Name(branch: u64, number: nat): (h: Hash)
    ensures |h| == number + 1 && !AllZeros(h) && h != GENESIS_HASH
  {
    var h := [if branch == 0 then 'a' else 'b'] + seq(number, i => '1');
    assert h[0] != '0' && |GENESIS_HASH| == 64 && GENESIS_HASH[63] == '3';
    assert |h| == 64 ==> h[63] != '3';
    h
  }

  lemma NamesDiffer(branch: u64, number: nat, other: u64, height: nat)
    requires Name(branch, number) == Name(other, height)
    ensures number == height && (branch == 0 <==> other == 0)
  {
    assert Name(branch, number)[0] == Name(other, height)[0];
  }

  /** Primitives under which the nonce picks the branch and any digest will do. */
  function PlainCrypto(): Crypto {
    Crypto(tx => "", ids => "", v => "", (input: PowInput) => Some(Digest(0, Name(input.nonce, input.number))),
           tx => true, tx => 0, args => None)
  }

  function PlainBlock(parent: Hash, branch: u64, number: u64, timestamp: u64): Block
    requires number < 256
  {
    Block(Header(parent, number, timestamp, 1, branch, Name(branch, number), "", "", NullHash()),
          [Tx(0, "", "coinbase", "reward", [0, 0, 0, 0, 0, 0, 0, number], 0, 0, "")], 1)
  }

  /** A steady chain of difficulty one. */
  ghost predicate SteadyAt(path: seq<Block>, i: nat)
    requires i < |path|
  {
    && path[i].header.difficulty == 1 && path[i].header.timestamp == TARGET_BLOCK_TIME * i
    && (i > 0 ==> !AllZeros(path[i].Parent()))
  }

  ghost predicate Steady(path: seq<Block>) {
    forall i: nat {:trigger SteadyAt(path, i)} | i < |path| :: SteadyAt(path, i)
  }

  /** With no all-zero parent above genesis the ancestor walk returns the whole
      of a short chain. */
  lemma {:induction false} WholeWindow(path: seq<Block>, n: nat)
    requires 0 < |path| <= n && AllZeros(path[0].Parent())
    requires forall i | 0 < i < |path| :: !AllZeros(path[i].Parent())
    ensures Ancestors(path, n) == path
  {
    hide AllZeros;
    if |path| > 1 {
      WholeWindow(path[..|path| - 1], n - 1);
    }
  }

  lemma SteadyDifficulty(path: seq<Block>, timestamp: u64)
    requires 0 < |path| <= RETARGET_WINDOW && path[0] == GenesisBlock() && Steady(path)
    requires timestamp == TARGET_BLOCK_TIME * |path|
    ensures RequiredDifficulty(path, timestamp) == 1
  {
    hide AllZeros, NextDifficulty, Ancestors, Stalled, SteadyAt;
    NoZeros(path);
    WholeWindow(path, RETARGET_WINDOW + 1);
    if |path| >= 2 {
      SteadyPace(path, timestamp);
      RetargetFixedPoint(path, timestamp, 1);
    } else {
      ShortRetarget(path, timestamp);
    }
  }

  lemma NoZeros(path: seq<Block>)
    requires Steady(path)
    ensures forall i: nat | 0 < i < |path| :: !AllZeros(path[i].Parent())
  {
    hide AllZeros;
    forall i: nat | 0 < i < |path|
      ensures !AllZeros(path[i].Parent())
    {
      assert SteadyAt(path, i);
    }
  }

  lemma ShortRetarget(path: seq<Block>, timestamp: u64)
    requires |path| < 2
    ensures NextDifficulty(path, timestamp) == 1
  {
  }

  lemma SteadyPace(path: seq<Block>, timestamp: u64)
    requires 2 <= |path| <= RETARGET_WINDOW && Steady(path) && timestamp == TARGET_BLOCK_TIME * |path|
    ensures Window(path) == path && !Stalled(path, timestamp)
    ensures forall i | 0 <= i < |path| :: path[i].header.difficulty == 1
    ensures forall i | 0 <= i < |path| - 1 :: Interval(path, i) == TARGET_BLOCK_TIME
  {
    hide AllZeros;
    forall i: nat | i < |path|
      ensures path[i].header.difficulty == 1 && path[i].header.timestamp == TARGET_BLOCK_TIME * i
    {
      assert SteadyAt(path, i);
    }
    assert path[|path| - 1].header.timestamp == TARGET_BLOCK_TIME * (|path| - 1);
  }

  lemma {:induction false} ZeroPrefix(bytes: seq<byte>, n: nat)
    requires n <= |bytes| && forall i | 0 <= i < n :: bytes[i] == 0
    ensures BigEndian(bytes[..n]) == 0
  {
    if n > 0 {
      ZeroPrefix(bytes, n - 1);
      assert bytes[..n][..n - 1] == bytes[..n - 1];
    }
  }

  lemma ZerosThen(n: byte)
    ensures BigEndian([0, 0, 0, 0, 0, 0, 0, n]) == n
  {
    var bytes: seq<byte> := [0, 0, 0, 0, 0, 0, 0, n];
    ZeroPrefix(bytes, 7);
  }

  lemma PlainShape(b: Block, parent: Hash, branch: u64, number: u64, timestamp: u64)
    requires 0 < number < 256 && b == PlainBlock(parent, branch, number, timestamp)
    ensures Shape(PlainCrypto(), b) == None && PowError(PlainCrypto(), b) == None
    ensures BigEndian(b.txs[0].args) == number && DistinctIds(PlainCrypto(), b.txs)
  {
    hide Name;
    ZerosThen(number);
  }

  /** A plain block settles on any steady chain that executes. */
  lemma PlainSettles(path: seq<Block>, b: Block, parent: Hash, branch: u64, number: u64, timestamp: u64)
    requires 0 < |path| < 256 && 0 < number < 256 && b == PlainBlock(parent, branch, number, timestamp)
    requires Linked(path) && Exec(PlainCrypto(), path).Success?
    ensures Settle(PlainCrypto(), Exec(PlainCrypto(), path).value, b).Success?
  {
    hide Exec, ExecBlock, Name, Root, KeysOk, Norm, Settle, Linked;
    var c := PlainCrypto();
    PlainPays(c, path, b);
    var l := Exec(c, path).value;
    ExecKeepsKeys(c, path);
    PlainKeys(c, l, b);
    RootTotal(c, ExecBlock(c, l, b).value);
    PlainRoot(l, b);
  }

  lemma PlainPays(c: Crypto, path: seq<Block>, b: Block)
    requires 0 < |path| < 256 && Linked(path) && Exec(c, path).Success?
    requires |b.txs| == 1 && b.Height() > 0 && b.header.miner == NullHash()
    ensures ExecBlock(c, Exec(c, path).value, b).Success?
  {
    hide Exec, ExecBlock;
    RewardNeverOverflows(c, path, b);
    PlainExecutes(c, Exec(c, path).value, b);
  }

  lemma PlainExecutes(c: Crypto, l: Ledger, b: Block)
    requires |b.txs| == 1 && b.Height() > 0 && b.header.miner == NullHash()
    requires ExecBlock(c, l, b) != Failure(RewardOverflow)
    ensures ExecBlock(c, l, b).Success?
  {
    hide BlockReward;
    assert b.Body() == [];
  }

  lemma PlainKeys(c: Crypto, l: Ledger, b: Block)
    requires KeysOk(l) && |b.txs| == 1 && ExecBlock(c, l, b).Success?
    ensures KeysOk(Norm(ExecBlock(c, l, b).value))
  {
    hide BlockReward;
    assert b.Body() == [];
  }

  lemma PlainRoot(l: Ledger, b: Block)
    requires ExecBlock(PlainCrypto(), l, b).Success?
             && Root(PlainCrypto(), ExecBlock(PlainCrypto(), l, b).value).Success?
    requires b.header.stateRoot == ""
    ensures Settle(PlainCrypto(), l, b).Success?
  {
    hide ExecBlock, Vector;
  }

  /** A plain block is valid on every short steady chain, whatever height it
      claims. */
  lemma PlainValid(path: seq<Block>, b: Block, branch: u64, number: u64)
    requires 0 < |path| <= RETARGET_WINDOW && 0 < number < 256
    requires GoodChain(PlainCrypto(), path) && Steady(path)
    requires b == PlainBlock(path[|path| - 1].Id(), branch, number, TARGET_BLOCK_TIME * |path|)
    ensures ValidOn(PlainCrypto(), path, b)
  {
    hide Exec, Shape, PowError, NextDifficulty, Ancestors, BigEndian, DistinctIds, Settle, Name, Root, ExecBlock,
      AllZeros;
    var c := PlainCrypto();
    GoodExecutes(c, path);
    SteadyDifficulty(path, b.header.timestamp);
    PlainShape(b, path[|path| - 1].Id(), branch, number, b.header.timestamp);
    PlainSettles(path, b, path[|path| - 1].Id(), branch, number, b.header.timestamp);
    assert SteadyAt(path, |path| - 1);
  }

  lemma GoodExecutes(c: Crypto, path: seq<Block>)
    requires GoodChain(c, path)
    ensures Exec(c, path).Success?
  {
    hide Exec, ValidOn;
    if |path| == 1 {
      GenesisExecutes(c);
      assert path == [GenesisBlock()];
    } else {
      assert ValidAt(c, path, |path| - 1);
      ValidExtends(c, path[..|path| - 1], path[|path| - 1]);
      assert path[..|path| - 1] + [path[|path| - 1]] == path;
    }
  }

  /** Put on the end of such a chain at its own height, it continues it. */
  lemma PlainChain(path: seq<Block>, branch: u64)
    requires 0 < |path| <= RETARGET_WINDOW && GoodChain(PlainCrypto(), path) && Steady(path)
    ensures var b := PlainBlock(path[|path| - 1].Id(), branch, |path|, TARGET_BLOCK_TIME * |path|);
            && ValidOn(PlainCrypto(), path, b)
            && (!AllZeros(path[|path| - 1].Id()) ==> GoodChain(PlainCrypto(), path + [b]) && Steady(path + [b]))
            && !AllZeros(b.Id())
  {
    hide ValidOn, Name, AllZeros, PlainCrypto;
    var b := PlainBlock(path[|path| - 1].Id(), branch, |path|, TARGET_BLOCK_TIME * |path|);
    PlainValid(path, b, branch, |path|);
    var more := path + [b];
    forall i: nat | 0 < i < |more|
      ensures ValidAt(PlainCrypto(), more, i)
    {
      if i < |path| {
        assert ValidAt(PlainCrypto(), path, i) && more[..i] == path[..i];
      } else {
        assert more[..i] == path;
      }
    }
    if !AllZeros(path[|path| - 1].Id()) {
      forall i: nat | i < |more|
        ensures SteadyAt(more, i)
      {
        if i < |path| {
          assert SteadyAt(path, i);
        }
      }
    }
  }
}
