/** Catching up from a peer: fetch a branch backwards from the peer's tip until
    it meets a known block, then import it forwards, while other blocks keep
    arriving in between.
 */
module Sync {
  import opened Base
  import opened BlockTree
  import opened Validity
  import opened OrphanPool
  import opened ChainDisk
  import opened Consensus
  import opened Invariants
  import opened Acceptance
  import opened ChainStates
  import opened Replay
  import opened ApplyBlocks
  import opened Runs
  import opened ChainRuns
  import opened Outcomes
  import opened Deliveries
  import opened Branches

  datatype Message =
    | BlockMessage(block: Block)
    | Announcement
    | GetHeight
    | Ping
    | Disconnect
    | OtherMessage

  datatype SyncError =
    | LoopDetected(hash: Hash)
    | PeerRejected
    | UnexpectedReply
    | ConnectionClosed
    | WrongBlock(requested: Hash, received: Hash)
    | ImportStoredOrphan(hash: Hash)
    | ImportRejected(reason: Reason)

  /** Wherever a block from the peer is valid, it is numbered one above its
      parent. What is valid nowhere may be anything. */
  ghost predicate Sane(c: Crypto, messages: seq<Message>) {
    forall i | 0 <= i < |messages| :: messages[i].BlockMessage? ==> Proper(c, messages[i].block)
  }

  ghost predicate OthersProper(c: Crypto, others: nat -> seq<Input>) {
    forall i: nat {:trigger others(i)} :: AllProper(c, others(i))
  }

  /** What other tasks submit while the lock is free. */
  method LetOthersRun(g: ChainState, inputs: seq<Input>)
    requires g.Valid() && g.abs.known != map[] && AllProper(g.c, inputs)
    modifies g
    ensures g.Valid() && g.abs.known != map[] && Grows(old(g.abs.known), g.abs.known)
    ensures Sorted(old(g.abs.orphans.pool)) && g.abs == Run(g.c, g.w, old(g.abs), inputs)
  {
    hide Inv, PoolOk, FieldsOk, Path, Run, AllProper;
    ghost var s := g.abs;
    RunGrows(g, inputs);
    SubmitAll(g, inputs);
  }

  // --- Who has sent what ---

  /** Whatever can come to a node while it synchronises: what waits in its pool,
      what other tasks submit, and the blocks of the branch. */
  ghost function InPlay(s: Node, others: nat -> seq<Input>, branch: seq<Block>): iset<Block> {
    (iset b | Pooled(s.orphans.pool, b)) + (iset n: nat, i | 0 <= i < |others(n)| :: others(n)[i].block)
    + (iset i | 0 <= i < |branch| :: branch[i])
  }

  lemma StartInPlay(s: Node, others: nat -> seq<Input>, branch: seq<Block>)
    ensures Sourced(s.known, InPlay(s, others, branch), s)
  {
    hide Pooled;
  }

  lemma OthersInPlay(c: Crypto, w: World, s: Node, t: Node, others: nat -> seq<Input>, branch: seq<Block>, n: nat)
    requires Sorted(t.orphans.pool) && t.known != map[] && Sourced(s.known, InPlay(s, others, branch), t)
    ensures Sourced(s.known, InPlay(s, others, branch), Run(c, w, t, others(n)))
  {
    hide Sourced, Sorted;
    RunSourced(c, w, t, others(n), s.known, InPlay(s, others, branch));
  }

  /** A peer that keeps to the exchange. */
  ghost predicate Polite(messages: seq<Message>) {
    forall i | 0 <= i < |messages| :: !messages[i].Disconnect? && !messages[i].OtherMessage?
  }

  /** The blocks a peer sends, in their order. */
  function BlocksOf(messages: seq<Message>): seq<Block> {
    if |messages| == 0 then []
    else (if messages[0].BlockMessage? then [messages[0].block] else []) + BlocksOf(messages[1..])
  }

  lemma BlocksNext(messages: seq<Message>, i: nat)
    requires i < |messages|
    ensures BlocksOf(messages[i..])
            == (if messages[i].BlockMessage? then [messages[i].block] else []) + BlocksOf(messages[i + 1..])
  {
    assert messages[i..][1..] == messages[i + 1..];
  }

  lemma RunGrows(g: ChainState, inputs: seq<Input>)
    requires g.Valid() && g.abs.known != map[] && AllProper(g.c, inputs)
    ensures Sorted(g.abs.orphans.pool) && Grows(g.abs.known, Run(g.c, g.w, g.abs, inputs).known)
  {
    hide FieldsOk, Path, Run, AllProper, Safe, Sorted, PoolProper, Rooted, Judged;
    RunSafe(g.c, g.w, g.abs, inputs);
    SafeInv(g.c, g.w, g.abs, Run(g.c, g.w, g.abs, inputs));
  }

  /** Wait for the requested block, answering what else comes in. */
  method ReceiveBlock(messages: seq<Message>, start: nat) returns (r: Result<Block, SyncError>, next: nat)
    requires start <= |messages|
    ensures start <= next <= |messages|
    ensures r.Success? ==> start < next && messages[next - 1] == BlockMessage(r.value)
    ensures r.Failure? ==> r.error == PeerRejected || r.error == UnexpectedReply || r.error == ConnectionClosed
    ensures Polite(messages) && BlocksOf(messages[start..]) != [] ==>
              r.Success? && BlocksOf(messages[start..]) == [r.value] + BlocksOf(messages[next..])
  {
    hide BlocksOf;
    next := start;
    while next < |messages|
      invariant start <= next <= |messages| && BlocksOf(messages[next..]) == BlocksOf(messages[start..])
    {
      BlocksNext(messages, next);
      var m := messages[next];
      next := next + 1;
      match m {
        case BlockMessage(b) => return Success(b), next;
        case Disconnect => return Failure(PeerRejected), next;
        case OtherMessage => return Failure(UnexpectedReply), next;
        case Announcement =>
        case GetHeight =>
        case Ping =>
      }
    }
    NoBlocks(messages);
    return Failure(ConnectionClosed), next;
  }

  lemma NoBlocks(messages: seq<Message>)
    ensures BlocksOf(messages[|messages|..]) == []
  {
  }

  ghost predicate StepsDown(fetched: seq<Block>, i: nat)
    requires 0 < i < |fetched|
  {
    fetched[i].Id() == fetched[i - 1].Parent() && fetched[i - 1].Height() != 0
  }

  /** A parent-linked run of blocks down from a tip. */
  ghost predicate Descends(c: Crypto, fetched: seq<Block>, tip: Hash) {
    && (forall i: nat {:trigger StepsDown(fetched, i)} | 0 < i < |fetched| :: StepsDown(fetched, i))
    && (|fetched| > 0 ==> fetched[0].Id() == tip)
    && (forall i | 0 <= i < |fetched| :: Proper(c, fetched[i]))
  }

  /** The hash to ask for next. */
  ghost predicate Wants(fetched: seq<Block>, tip: Hash, current: Hash) {
    if |fetched| == 0 then current == tip
    else fetched[|fetched| - 1].Height() != 0 && current == fetched[|fetched| - 1].Parent()
  }

  /** Where a fetched branch attaches: at genesis, or to a known block. */
  ghost predicate Attached(known: map<Hash, Block>, fetched: seq<Block>, tip: Hash) {
    if |fetched| == 0 then tip in known
    else fetched[|fetched| - 1].Height() == 0 || fetched[|fetched| - 1].Parent() in known
  }

  /** The next block down continues the run. */
  lemma DescendsOn(c: Crypto, fetched: seq<Block>, tip: Hash, current: Hash, b: Block)
    requires Descends(c, fetched, tip) && Wants(fetched, tip, current) && b.Id() == current && Proper(c, b)
    ensures Descends(c, fetched + [b], tip)
    ensures b.Height() != 0 ==> Wants(fetched + [b], tip, b.Parent())
  {
    hide Proper;
    var more := fetched + [b];
    forall i: nat | 0 < i < |more|
      ensures StepsDown(more, i)
    {
      if i < |fetched| {
        assert StepsDown(fetched, i);
      }
    }
  }

  lemma MetKnown(known: map<Hash, Block>, fetched: seq<Block>, tip: Hash, current: Hash)
    requires Wants(fetched, tip, current) && current in known
    ensures Attached(known, fetched, tip)
  {
  }

  lemma MetGenesis(known: map<Hash, Block>, fetched: seq<Block>, b: Block, tip: Hash)
    requires b.Height() == 0
    ensures Attached(known, fetched + [b], tip)
  {
  }

  lemma NothingFetched(c: Crypto, tip: Hash)
    ensures Descends(c, [], tip) && Wants([], tip, tip)
  {
  }

  lemma SaneAt(c: Crypto, messages: seq<Message>, i: nat)
    requires Sane(c, messages) && i < |messages| && messages[i].BlockMessage?
    ensures Proper(c, messages[i].block)
  {
  }

  lemma OthersAt(c: Crypto, others: nat -> seq<Input>, i: nat)
    requires OthersProper(c, others)
    ensures AllProper(c, others(i))
  {
  }

  lemma GrowsOn(a: map<Hash, Block>, b: map<Hash, Block>, d: map<Hash, Block>)
    requires Grows(a, b) && Grows(b, d)
    ensures Grows(a, d)
  {
  }

  // --- A peer that serves its tip ---

  /** The peer answers with the blocks from its tip down, each once, to genesis or
      to one whose parent the node knew when it asked. */
  ghost predicate Serves(c: Crypto, known: map<Hash, Block>, tip: Hash, messages: seq<Message>) {
    var down := BlocksOf(messages);
    && Polite(messages) && Descends(c, down, tip) && Attached(known, down, tip)
    && forall i, j | 0 <= i < j < |down| :: down[i].Id() != down[j].Id()
  }

  function IdsOf(blocks: seq<Block>): set<Hash> {
    set i | 0 <= i < |blocks| :: blocks[i].Id()
  }

  /** How far the fetch has got in what the peer serves. */
  ghost predicate OnTrack(messages: seq<Message>, at: nat, fetched: seq<Block>, seen: set<Hash>) {
    at <= |messages| && BlocksOf(messages) == fetched + BlocksOf(messages[at..]) && seen == IdsOf(fetched)
  }

  /** While the next hash is unknown, the peer has the block for it, and it has not
      been asked for before. */
  lemma PeerHasNext(c: Crypto, start: map<Hash, Block>, known: map<Hash, Block>, tip: Hash, messages: seq<Message>,
                    at: nat, fetched: seq<Block>, seen: set<Hash>, current: Hash)
    requires Serves(c, start, tip, messages) && OnTrack(messages, at, fetched, seen) && Grows(start, known)
    requires Wants(fetched, tip, current) && current !in known
    ensures var rest := BlocksOf(messages[at..]); rest != [] && rest[0].Id() == current && current !in seen
  {
    hide Proper, BlocksOf;
    var down, rest, n := BlocksOf(messages), BlocksOf(messages[at..]), |fetched|;
    assert forall i | 0 <= i < n :: down[i] == fetched[i];
    assert forall i | 0 <= i < |rest| :: down[n + i] == rest[i];
    if rest != [] {
      if n > 0 {
        assert StepsDown(down, n);
      }
      assert down[n].Id() == current;
    }
  }

  lemma TrackOn(messages: seq<Message>, at: nat, next: nat, fetched: seq<Block>, seen: set<Hash>, b: Block)
    requires OnTrack(messages, at, fetched, seen) && next <= |messages|
    requires BlocksOf(messages[at..]) == [b] + BlocksOf(messages[next..])
    ensures OnTrack(messages, next, fetched + [b], seen + {b.Id()})
  {
    hide BlocksOf;
    assert fetched + ([b] + BlocksOf(messages[next..])) == fetched + [b] + BlocksOf(messages[next..]);
    var more := fetched + [b];
    assert forall i | 0 <= i < |fetched| :: more[i] == fetched[i];
    assert more[|fetched|] == b;
  }

  lemma TrackStarts(messages: seq<Message>)
    ensures OnTrack(messages, 0, [], {})
  {
    assert messages[0..] == messages;
  }

  lemma TrackPrefix(messages: seq<Message>, at: nat, fetched: seq<Block>, seen: set<Hash>)
    ensures OnTrack(messages, at, fetched, seen) ==> fetched <= BlocksOf(messages)
  {
    hide BlocksOf;
  }

  lemma ServesPolite(c: Crypto, known: map<Hash, Block>, tip: Hash, messages: seq<Message>)
    requires Serves(c, known, tip, messages)
    ensures Polite(messages)
  {
  }

  /** The backward fetch, newest first. From a peer that serves its tip it always
      comes back with the blocks, down to where the node has got to by then. */
  method FetchBackwards(g: ChainState, tip: Hash, messages: seq<Message>, others: nat -> seq<Input>)
    returns (r: Result<seq<Block>, SyncError>, polls: nat)
    requires g.Valid() && g.abs.known != map[] && Sane(g.c, messages) && OthersProper(g.c, others)
    modifies g
    ensures g.Valid() && g.abs.known != map[] && Grows(old(g.abs.known), g.abs.known)
    ensures r.Success? ==> Descends(g.c, r.value, tip) && Attached(g.abs.known, r.value, tip)
    ensures r.Failure? ==> !r.error.ImportStoredOrphan? && !r.error.ImportRejected?
    ensures Serves(g.c, old(g.abs.known), tip, messages) ==> r.Success? && r.value <= BlocksOf(messages)
    ensures Sourced(old(g.abs.known), InPlay(old(g.abs), others, []), g.abs)
  {
    hide Inv, PoolOk, FieldsOk, Path, Proper, AllProper, Descends, Wants, Attached, Sane, OthersProper, Grows, Serves,
      OnTrack, Sourced, InPlay, BlocksOf, Run, Sorted;
    ghost var begin := g.abs;
    ghost var start := begin.known;
    StartInPlay(begin, others, []);
    TrackStarts(messages);
    var fetched: seq<Block> := [];
    var seen: set<Hash> := {};
    var current, at := tip, 0;
    polls := 0;
    NothingFetched(g.c, tip);
    GrowsSelf(start);
    while true
      invariant g.Valid() && g.abs.known != map[] && Grows(start, g.abs.known)
      invariant at <= |messages| && Descends(g.c, fetched, tip) && Wants(fetched, tip, current)
      invariant Serves(g.c, start, tip, messages) ==> OnTrack(messages, at, fetched, seen)
      invariant Sourced(start, InPlay(begin, others, []), g.abs)
      decreases |messages| - at
    {
      OthersAt(g.c, others, polls);
      ghost var before := g.abs;
      LetOthersRun(g, others(polls));
      GrowsOn(start, before.known, g.abs.known);
      OthersInPlay(g.c, g.w, begin, before, others, [], polls);
      polls := polls + 1;
      var known := g.BlockByHash(current);
      if known.Some? {
        MetKnown(g.abs.known, fetched, tip, current);
        TrackPrefix(messages, at, fetched, seen);
        return Success(fetched), polls;
      }
      ghost var serves := Serves(g.c, start, tip, messages);
      if serves {
        PeerHasNext(g.c, start, g.abs.known, tip, messages, at, fetched, seen, current);
        ServesPolite(g.c, start, tip, messages);
      }
      if current in seen {
        return Failure(LoopDetected(current)), polls;
      }
      seen := seen + {current};
      var received, next := ReceiveBlock(messages, at);
      match received {
        case Failure(e) => return Failure(e), polls;
        case Success(block) =>
          if block.Id() != current {
            return Failure(WrongBlock(current, block.Id())), polls;
          }
          if serves {
            TrackOn(messages, at, next, fetched, seen - {current}, block);
          }
          TrackPrefix(messages, next, fetched + [block], seen);
          SaneAt(g.c, messages, next - 1);
          DescendsOn(g.c, fetched, tip, current, block);
          if block.Height() == 0 {
            MetGenesis(g.abs.known, fetched, block, tip);
            return Success(fetched + [block]), polls;
          }
          fetched := fetched + [block];
          at := next;
          current := block.Parent();
      }
    }
  }

  lemma GrowsSelf(known: map<Hash, Block>)
    ensures Grows(known, known)
  {
  }

  lemma {:induction false} ReversedLength(s: seq<Block>)
    ensures |Reverse(s)| == |s|
  {
    if |s| > 0 {
      ReversedLength(s[..|s| - 1]);
    }
  }

  lemma {:induction false} ReversedAt(s: seq<Block>, i: nat)
    requires i < |s|
    ensures |Reverse(s)| == |s| && Reverse(s)[i] == s[|s| - 1 - i]
  {
    ReversedLength(s);
    if i > 0 {
      ReversedAt(s[..|s| - 1], i - 1);
    }
  }

  ghost predicate LinksUp(branch: seq<Block>, i: nat)
    requires 0 < i < |branch|
  {
    branch[i].Parent() == branch[i - 1].Id()
  }

  /** A branch in import order: linked upwards from genesis or a known block. */
  ghost predicate Importable(c: Crypto, known: map<Hash, Block>, branch: seq<Block>) {
    && (forall i | 0 <= i < |branch| :: Proper(c, branch[i]))
    && (forall i: nat {:trigger LinksUp(branch, i)} | 0 < i < |branch| :: LinksUp(branch, i))
    && (|branch| > 0 ==> branch[0].Height() == 0 || branch[0].Parent() in known)
  }

  /** Reversed, a fetched branch starts at genesis or on a known block, is
      linked throughout, and ends at the requested tip. */
  lemma FetchedImportable(c: Crypto, known: map<Hash, Block>, fetched: seq<Block>, tip: Hash)
    requires Descends(c, fetched, tip) && Attached(known, fetched, tip)
    ensures Importable(c, known, Reverse(fetched))
    ensures |Reverse(fetched)| == |fetched|
    ensures if |fetched| == 0 then tip in known else Reverse(fetched)[|fetched| - 1].Id() == tip
  {
    hide Proper, Reverse, LinksUp, Descends, Attached;
    ReversedLength(fetched);
    var r, n := Reverse(fetched), |fetched|;
    forall i: nat | i < n
      ensures Proper(c, r[i])
    {
      ReversedProper(c, fetched, tip, i);
    }
    forall i: nat | 0 < i < n
      ensures LinksUp(r, i)
    {
      ReversedLinks(c, fetched, tip, i);
    }
    ReversedEnds(c, known, fetched, tip);
  }

  lemma ReversedProper(c: Crypto, fetched: seq<Block>, tip: Hash, i: nat)
    requires Descends(c, fetched, tip) && i < |fetched|
    ensures |Reverse(fetched)| == |fetched| && Proper(c, Reverse(fetched)[i])
  {
    hide Proper, Reverse, StepsDown;
    ReversedAt(fetched, i);
  }

  lemma ReversedLinks(c: Crypto, fetched: seq<Block>, tip: Hash, i: nat)
    requires Descends(c, fetched, tip) && 0 < i < |fetched|
    ensures |Reverse(fetched)| == |fetched| && LinksUp(Reverse(fetched), i)
  {
    hide Proper, Reverse;
    var j: nat := |fetched| - i;
    ReversedAt(fetched, i);
    ReversedAt(fetched, i - 1);
    assert StepsDown(fetched, j);
  }

  lemma ReversedEnds(c: Crypto, known: map<Hash, Block>, fetched: seq<Block>, tip: Hash)
    requires Descends(c, fetched, tip) && Attached(known, fetched, tip)
    ensures |Reverse(fetched)| == |fetched|
    ensures |fetched| > 0 ==> Reverse(fetched)[0].Height() == 0 || Reverse(fetched)[0].Parent() in known
    ensures |Reverse(fetched)| == |fetched|
    ensures if |fetched| == 0 then tip in known else Reverse(fetched)[|fetched| - 1].Id() == tip
  {
    hide Proper, Reverse, StepsDown;
    ReversedLength(fetched);
    if |fetched| > 0 {
      ReversedAt(fetched, 0);
      ReversedAt(fetched, |fetched| - 1);
    }
  }

  /** The next block of a branch has its parent among the known ones. */
  lemma NextAttached(c: Crypto, known: map<Hash, Block>, now: map<Hash, Block>, branch: seq<Block>, i: nat)
    requires Importable(c, known, branch) && Grows(known, now) && i < |branch|
    requires forall j | 0 <= j < i :: branch[j].Id() in now
    ensures Proper(c, branch[i]) && (branch[i].Height() == 0 || branch[i].Parent() in now)
  {
    hide Proper;
    if i > 0 {
      assert LinksUp(branch, i) && branch[i - 1].Id() in now;
    }
  }

  /** Import one block whose parent is known, unless it is known itself. */
  method ImportOne(g: ChainState, block: Block, peer: string) returns (r: Result<nat, SyncError>)
    requires g.Valid() && g.abs.known != map[] && Proper(g.c, block)
    requires block.Height() == 0 || block.Parent() in g.abs.known
    modifies g
    ensures g.Valid() && g.abs.known != map[] && Grows(old(g.abs.known), g.abs.known)
    ensures r.Failure? ==> r.error.ImportRejected?
    ensures r.Success? ==> r.value <= 1 && block.Id() in g.abs.known
    ensures r.Success? <==> block.Id() in old(g.abs.known) || Acceptable(g.c, g.w, old(g.abs), block)
    ensures Sorted(old(g.abs.orphans.pool))
    ensures g.abs == if block.Id() in old(g.abs.known) then old(g.abs) else Apply(g.c, g.w, old(g.abs), block, peer).0
  {
    hide Inv, PoolOk, FieldsOk, Path, Proper, Apply, Trusted, ResolveBlock, Acceptable;
    ghost var s := g.abs;
    GrowsSelf(s.known);
    ImportStep(g, block, peer);
    var known := g.BlockByHash(block.Id());
    if known.Some? {
      return Success(0);
    }
    AcceptedExactly(g.c, g.w, s, block, peer);
    var result := ApplyBlock(g, block, peer);
    StillKnown(s.known, g.abs.known);
    match result {
      case CanonExtension(_) => return Success(1);
      case SideChain(_) => return Success(1);
      case StoredOrphan(h) => return Failure(ImportStoredOrphan(h));
      case Rejected(reason) => return Failure(ImportRejected(reason));
    }
  }

  lemma StillThere(known: map<Hash, Block>, later: map<Hash, Block>, branch: seq<Block>, n: nat)
    requires Grows(known, later) && n <= |branch| && forall j | 0 <= j < n :: branch[j].Id() in known
    ensures forall j | 0 <= j < n :: branch[j].Id() in later
  {
  }

  lemma ImportSourced(c: Crypto, w: World, s: Node, t: Node, others: nat -> seq<Input>, branch: seq<Block>, i: nat,
                      peer: string)
    requires Sorted(t.orphans.pool) && t.known != map[] && i < |branch|
    requires Sourced(s.known, InPlay(s, others, branch), t)
    ensures Sourced(s.known, InPlay(s, others, branch), Apply(c, w, t, branch[i], peer).0)
  {
    hide Sourced, Sorted, Apply;
    ApplySourced(c, w, t, branch[i], peer, s.known, InPlay(s, others, branch));
  }

  /** Import a branch in order, other blocks arriving before each one. It can be
      rejected by validation, but never ends up in the orphan pool, and when it
      succeeds every block of it is known. With prompt clocks and no failing write
      a valid branch always succeeds. */
  method ImportFetchedBlocks(g: ChainState, peer: string, branch: seq<Block>, others: nat -> seq<Input>, polled: nat)
    returns (r: Result<nat, SyncError>)
    requires g.Valid() && g.abs.known != map[] && OthersProper(g.c, others) && Importable(g.c, g.abs.known, branch)
    modifies g
    ensures g.Valid() && g.abs.known != map[] && Grows(old(g.abs.known), g.abs.known)
    ensures r.Failure? ==> r.error.ImportRejected?
    ensures r.Success? ==> r.value <= |branch| && forall i | 0 <= i < |branch| :: branch[i].Id() in g.abs.known
    ensures Servable(g.c, g.w, old(g.abs), InPlay(old(g.abs), others, branch), branch) ==> r.Success?
  {
    hide Inv, PoolOk, FieldsOk, Path, Proper, AllProper, Importable, Servable, InPlay, Sourced, Run, Sorted, Apply,
      Acceptable, Grows, Extends;
    ghost var s := g.abs;
    ghost var given := InPlay(s, others, branch);
    ghost var servable := Servable(g.c, g.w, s, given, branch);
    StartInPlay(s, others, branch);
    GrowsSelf(s.known);
    var imported: nat := 0;
    for i := 0 to |branch|
      invariant g.Valid() && g.abs.known != map[] && Grows(s.known, g.abs.known)
      invariant imported <= i
      invariant forall j | 0 <= j < i :: branch[j].Id() in g.abs.known
      invariant Sourced(s.known, given, g.abs)
    {
      ghost var before := g.abs;
      OthersAt(g.c, others, polled + i);
      LetOthersRun(g, others(polled + i));
      OthersInPlay(g.c, g.w, s, before, others, branch, polled + i);
      StillThere(before.known, g.abs.known, branch, i);
      GrowsOn(s.known, before.known, g.abs.known);
      NextAttached(g.c, s.known, g.abs.known, branch, i);
      ghost var t := g.abs;
      var one := ImportOne(g, branch[i], peer);
      if servable && branch[i].Id() !in t.known {
        NextAcceptable(g.c, g.w, s, t, given, branch, i);
      }
      ImportSourced(g.c, g.w, s, t, others, branch, i, peer);
      StillThere(t.known, g.abs.known, branch, i);
      GrowsOn(s.known, t.known, g.abs.known);
      match one {
        case Failure(e) => return Failure(e);
        case Success(n) => imported := imported + n;
      }
    }
    return Success(imported);
  }

  lemma ImportStep(g: ChainState, b: Block, peer: string)
    requires g.Valid() && g.abs.known != map[] && Proper(g.c, b) && (b.Height() == 0 || b.Parent() in g.abs.known)
    ensures Sorted(g.abs.orphans.pool) && Trusted(g.abs, b)
    ensures var (t, r) := Apply(g.c, g.w, g.abs, b, peer);
            && !r.StoredOrphan? && Grows(g.abs.known, t.known)
            && (!r.Rejected? ==> b.Id() in t.known)
  {
    hide FieldsOk, Path, Proper, Apply, PoolProper, Sorted, Inv, Work, Safe;
    ApplySafe(g.c, g.w, g.abs, b, peer);
    SafeInv(g.c, g.w, g.abs, Apply(g.c, g.w, g.abs, b, peer).0);
    ResultMeans(g.c, g.w, g.abs, b, peer);
    if b.Parent() in g.abs.known {
      NeverReorphaned(g.c, g.w, g.abs, b, peer);
    } else {
      GenesisNeverPooled(g.c, g.w, g.abs, b, peer);
    }
  }

  lemma GenesisNeverPooled(c: Crypto, w: World, s: Node, b: Block, peer: string)
    requires Sorted(s.orphans.pool) && b.Height() == 0
    ensures !Apply(c, w, s, b, peer).1.StoredOrphan?
  {
    hide Promote, Shape, PersistExtension;
    AdmitBasics(c, w, s, b, peer);
  }

  // --- The whole exchange ---

  /** A peer that serves a branch the node can take. */
  ghost predicate ServesBranch(c: Crypto, w: World, s: Node, tip: Hash, messages: seq<Message>,
                               others: nat -> seq<Input>) {
    var down := BlocksOf(messages);
    Serves(c, s.known, tip, messages) && Servable(c, w, s, InPlay(s, others, down), Reverse(down))
  }

  /** What has been fetched is then the upper part of the branch, and one that the
      node can take from where it has got to. */
  lemma FetchedServable(c: Crypto, w: World, s: Node, t: Node, tip: Hash, messages: seq<Message>,
                        others: nat -> seq<Input>, fetched: seq<Block>)
    requires ServesBranch(c, w, s, tip, messages, others) && fetched <= BlocksOf(messages)
    requires Inv(c, s) && Inv(c, t) && Grows(s.known, t.known) && Sourced(s.known, InPlay(s, others, []), t)
    requires Attached(t.known, fetched, tip)
    ensures Servable(c, w, t, InPlay(t, others, Reverse(fetched)), Reverse(fetched))
  {
    hide Inv, Serves, Servable, Sourced, InPlay, BlocksOf, Reverse, Grows, Attached;
    var down := BlocksOf(messages);
    var given, m := InPlay(s, others, down), |down| - |fetched|;
    ReversedPart(down, fetched);
    ReversedLength(down);
    MoreInPlay(s, t, others, down);
    if 0 < m < |down| {
      ReachedBelow(c, w, s, t, given, down, fetched, tip);
    }
    RestServable(c, w, s, t, given, Reverse(down), m);
    FewerInPlay(c, w, s, t, others, down, Reverse(fetched));
  }

  lemma ReversedPart(down: seq<Block>, fetched: seq<Block>)
    requires fetched <= down
    ensures |Reverse(down)| == |down| && Reverse(down)[|down| - |fetched|..] == Reverse(fetched)
  {
    hide Reverse;
    ReversedLength(down);
    ReversedLength(fetched);
    var m := |down| - |fetched|;
    forall i: nat | i < |fetched|
      ensures Reverse(down)[m + i] == Reverse(fetched)[i]
    {
      ReversedAt(down, m + i);
      ReversedAt(fetched, i);
    }
  }

  lemma MoreInPlay(s: Node, t: Node, others: nat -> seq<Input>, branch: seq<Block>)
    requires Sourced(s.known, InPlay(s, others, []), t)
    ensures Sourced(s.known, InPlay(s, others, branch), t)
  {
    hide Pooled;
    assert InPlay(s, others, []) <= InPlay(s, others, branch);
  }

  /** The block below the fetched part is known. */
  lemma ReachedBelow(c: Crypto, w: World, s: Node, t: Node, given: iset<Block>, down: seq<Block>, fetched: seq<Block>,
                     tip: Hash)
    requires Servable(c, w, s, given, Reverse(down)) && |Reverse(down)| == |down|
    requires 0 < |fetched| < |down| && fetched <= down && Attached(t.known, fetched, tip)
    ensures Reverse(down)[|down| - |fetched| - 1].Id() in t.known
  {
    hide Reverse, Servable;
    var m: nat := |down| - |fetched|;
    ReversedAt(down, m);
    ServableAt(c, w, s, given, Reverse(down), m);
  }

  lemma FewerInPlay(c: Crypto, w: World, s: Node, t: Node, others: nat -> seq<Input>, down: seq<Block>,
                    branch: seq<Block>)
    requires Servable(c, w, t, InPlay(s, others, down), branch) && Sourced(s.known, InPlay(s, others, down), t)
    ensures Servable(c, w, t, InPlay(t, others, branch), branch)
  {
    hide Pooled, Prompt, NoFailure, ValidBranch, Path;
    assert InPlay(t, others, branch) <= InPlay(s, others, down);
  }

  /** The whole exchange. Nothing fetched is ever left waiting for a parent; and from
      a peer that serves a valid branch it succeeds, whatever other tasks do. */
  method LiveSync(g: ChainState, peer: string, tip: Hash, messages: seq<Message>, others: nat -> seq<Input>)
    returns (r: Result<nat, SyncError>)
    requires g.Valid() && g.abs.known != map[] && Sane(g.c, messages) && OthersProper(g.c, others)
    modifies g
    ensures g.Valid() && g.abs.known != map[] && Grows(old(g.abs.known), g.abs.known)
    ensures r.Failure? ==> !r.error.ImportStoredOrphan?
    ensures r.Success? ==> tip in g.abs.known
    ensures ServesBranch(g.c, g.w, old(g.abs), tip, messages, others) ==> r.Success?
  {
    hide Inv, PoolOk, FieldsOk, Path, Proper, Descends, Importable, Attached, Reverse, Serves, Servable, InPlay,
      Sourced, BlocksOf;
    ghost var s := g.abs;
    var fetched, polls := FetchBackwards(g, tip, messages, others);
    match fetched {
      case Failure(e) => return Failure(e);
      case Success(blocks) =>
        if ServesBranch(g.c, g.w, s, tip, messages, others) {
          FetchedServable(g.c, g.w, s, g.abs, tip, messages, others, blocks);
        }
        FetchedImportable(g.c, g.abs.known, blocks, tip);
        var branch := Reverse(blocks);
        r := ImportFetchedBlocks(g, peer, branch, others, polls);
        assert r.Success? && |branch| > 0 ==> branch[|branch| - 1].Id() in g.abs.known;
    }
  }
}
