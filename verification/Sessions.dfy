/** Session generations: several transports of one durable peer come and go
    concurrently, and the peer must be shown connected exactly while one of
    them is up.
 */
module Sessions {
  import opened Base

  // --- The registry's and the peer table's operations on one peer ---

  datatype PeerSessions = PeerSessions(latest: nat, active: seq<nat>)

  datatype PeerState = KnownOnly | Connecting | Up | Disconnected

  datatype Peer = Peer(state: PeerState, generation: nat, height: nat, tipHash: Option<Hash>, work: nat)

  function Enrolled(entry: Option<PeerSessions>, generation: nat): PeerSessions {
    PeerSessions(generation, (if entry.Some? then entry.value.active else []) + [generation])
  }

  function Without(active: seq<nat>, generation: nat): seq<nat> {
    if |active| == 0 then []
    else Without(active[..|active| - 1], generation)
         + if active[|active| - 1] == generation then [] else [active[|active| - 1]]
  }

  /** The entry once a transport has left, and the latest generation if it was
      the last one. */
  function Left(entry: Option<PeerSessions>, generation: nat): (Option<PeerSessions>, Option<nat>) {
    match entry
    case None => (None, None)
    case Some(e) =>
      var rest := Without(e.active, generation);
      if |rest| == |e.active| || |rest| > 0 then (Some(e.(active := rest)), None) else (None, Some(e.latest))
  }

  function Joined(p: Peer, generation: nat): Peer {
    p.(generation := if generation > p.generation then generation else p.generation, state := Up)
  }

  function Dropped(p: Peer, generation: nat): Peer {
    if p.generation != generation then p
    else p.(state := Disconnected, height := 0, tipHash := None, work := 0)
  }

  // --- The protocol as interleaved steps ---

  /** Where a transport is: its generation is drawn, it is enrolled in the
      registry, it has marked the peer connected, it has left the registry and
      may still have to mark the peer disconnected, or it has finished. */
  datatype Phase = Drawn | Waiting | Connected | Leaving(latest: nat) | Done

  datatype Protocol = Protocol(next: nat, entry: Option<PeerSessions>, peer: Peer, transports: map<nat, Phase>)

  datatype Event = Elsewhere | Draw | Enrol(g: nat) | Connect(g: nat) | Unregister(g: nat) | Cleanup(g: nat)

  function Start(peer: Peer): Protocol {
    Protocol(1, None, peer, map[])
  }

  function PhaseOf(s: Protocol, g: nat): Option<Phase> {
    if g in s.transports then Some(s.transports[g]) else None
  }

  /** One atomic step; an event out of turn does nothing. */
  function Step(s: Protocol, e: Event): Protocol {
    match e
    case Elsewhere => s.(next := s.next + 1)
    case Draw => s.(next := s.next + 1, transports := s.transports[s.next := Drawn])
    case Enrol(g) =>
      if PhaseOf(s, g) != Some(Drawn) then s
      else s.(entry := Some(Enrolled(s.entry, g)), transports := s.transports[g := Waiting])
    case Connect(g) =>
      if PhaseOf(s, g) != Some(Waiting) then s
      else s.(peer := Joined(s.peer, g), transports := s.transports[g := Connected])
    case Unregister(g) =>
      if PhaseOf(s, g) != Some(Connected) then s
      else
        var (entry, latest) := Left(s.entry, g);
        s.(entry := entry, transports := s.transports[g := if latest.Some? then Leaving(latest.value) else Done])
    case Cleanup(g) =>
      if g !in s.transports || !s.transports[g].Leaving? then s
      else s.(peer := Dropped(s.peer, s.transports[g].latest), transports := s.transports[g := Done])
  }

  function Run(s: Protocol, events: seq<Event>): Protocol {
    if |events| == 0 then s else Step(Run(s, events[..|events| - 1]), events[|events| - 1])
  }

  /** A generation enters the registry only after every smaller one that was
      drawn for this peer has, as when drawing and entering are one step. */
  ghost predicate InTurn(s: Protocol, e: Event) {
    e.Enrol? ==> forall g | g in s.transports && s.transports[g] != Drawn :: g < e.g
  }

  ghost predicate AllInTurn(s: Protocol, events: seq<Event>) {
    forall i | 0 <= i < |events| :: InTurn(Run(s, events[..i]), events[i])
  }

  // --- The invariant ---

  predicate Live(p: Phase) {
    p.Waiting? || p.Connected?
  }

  predicate Met(p: Phase) {
    p.Connected? || p.Leaving? || p.Done?
  }

  ghost predicate Listed(s: Protocol) {
    match s.entry
    case None => forall g | g in s.transports :: !Live(s.transports[g])
    case Some(e) =>
      && |e.active| > 0
      && (forall g :: g in e.active <==> g in s.transports && Live(s.transports[g]))
      && e.latest in s.transports && s.transports[e.latest] != Drawn
      && (forall g | g in s.transports && s.transports[g] != Drawn :: g <= e.latest)
  }

  ghost predicate Generations(s: Protocol) {
    && s.next >= 1
    && (forall g | g in s.transports :: 1 <= g < s.next)
    && (forall g | g in s.transports && Met(s.transports[g]) :: g <= s.peer.generation)
    && (s.peer.generation == 0 || (s.peer.generation in s.transports && Met(s.transports[s.peer.generation])))
  }

  ghost predicate Leavers(s: Protocol) {
    && (forall g | g in s.transports && s.transports[g].Leaving? ::
          s.transports[g].latest in s.transports && Met(s.transports[s.transports[g].latest]))
    && (forall g, h | g in s.transports && s.transports[g].Leaving? && h in s.transports && Live(s.transports[h]) ::
          s.transports[g].latest < h)
  }

  /** A transport that keeps, or will still change, a connected mark. */
  ghost predicate Holds(s: Protocol, g: nat) {
    g in s.transports && (Live(s.transports[g]) || s.transports[g] == Leaving(s.peer.generation))
  }

  ghost predicate Marks(s: Protocol) {
    && (forall g | g in s.transports && s.transports[g].Connected? :: s.peer.state == Up)
    && (s.peer.state == Up ==> exists g :: Holds(s, g))
    && (forall g | g in s.transports && Met(s.transports[g]) :: s.peer.state == Up || s.peer.state == Disconnected)
  }

  ghost predicate Inv(s: Protocol) {
    Listed(s) && Generations(s) && Leavers(s) && Marks(s)
  }

  lemma {:induction false} WithoutMeans(active: seq<nat>, g: nat)
    ensures forall h :: h in Without(active, g) <==> h in active && h != g
    ensures |Without(active, g)| <= |active|
    ensures |Without(active, g)| == |active| <==> g !in active
  {
    if |active| > 0 {
      WithoutMeans(active[..|active| - 1], g);
      assert active == active[..|active| - 1] + [active[|active| - 1]];
    }
  }

  /** A peer that was never connected. */
  predicate Unmet(peer: Peer) {
    peer.state != Up && peer.generation == 0
  }

  lemma StartSound(peer: Peer)
    requires Unmet(peer)
    ensures Inv(Start(peer))
  {
  }

  lemma DrawKeeps(s: Protocol)
    requires Inv(s)
    ensures Inv(Step(s, Draw)) && Inv(Step(s, Elsewhere))
  {
    assert s.next !in s.transports;
    forall g | Holds(s, g)
      ensures Holds(Step(s, Draw), g) && Holds(Step(s, Elsewhere), g)
    {
    }
  }

  lemma EnrolKeeps(s: Protocol, g: nat)
    requires Inv(s) && InTurn(s, Enrol(g))
    ensures Inv(Step(s, Enrol(g)))
  {
    if PhaseOf(s, g) == Some(Drawn) {
      var t := Step(s, Enrol(g));
      assert Holds(t, g);
      var e := Enrolled(s.entry, g);
      assert e.active[|e.active| - 1] == g;
      if s.entry.Some? {
        assert forall h :: h in e.active <==> h in s.entry.value.active || h == g;
      }
    }
  }

  lemma ConnectKeeps(s: Protocol, g: nat)
    requires Inv(s)
    ensures Inv(Step(s, Connect(g)))
  {
    if PhaseOf(s, g) == Some(Waiting) {
      assert Holds(Step(s, Connect(g)), g);
    }
  }

  /** The last transport to leave is told the peer's own generation. */
  lemma LastOut(s: Protocol, g: nat)
    requires Inv(s) && PhaseOf(s, g) == Some(Connected)
    ensures s.entry.Some? && g in s.entry.value.active
    ensures var rest := Without(s.entry.value.active, g);
            if |rest| > 0 then
              Left(s.entry, g) == (Some(s.entry.value.(active := rest)), None)
              && rest[0] != g && rest[0] in s.transports && Live(s.transports[rest[0]])
            else
              Left(s.entry, g) == (None, Some(s.peer.generation))
              && (forall h | h in s.transports && Live(s.transports[h]) :: h == g)
    ensures forall h :: h in Without(s.entry.value.active, g) <==> h != g && h in s.transports && Live(s.transports[h])
  {
    hide Leavers, Marks, Without;
    WithoutMeans(s.entry.value.active, g);
    var rest := Without(s.entry.value.active, g);
    if |rest| > 0 {
      assert rest[0] in rest;
    } else {
      assert Met(s.transports[s.entry.value.latest]);
    }
  }

  lemma UnregisterLists(s: Protocol, g: nat)
    requires Inv(s) && PhaseOf(s, g) == Some(Connected)
    ensures Listed(Step(s, Unregister(g)))
  {
    hide Leavers, Marks, Without, Left, Generations;
    LastOut(s, g);
  }

  lemma UnregisterMoves(s: Protocol, g: nat)
    requires Inv(s) && PhaseOf(s, g) == Some(Connected)
    ensures Generations(Step(s, Unregister(g))) && Leavers(Step(s, Unregister(g)))
  {
    hide Marks, Without, Left, Listed;
    LastOut(s, g);
  }

  lemma UnregisterMarks(s: Protocol, g: nat)
    requires Inv(s) && PhaseOf(s, g) == Some(Connected)
    ensures Marks(Step(s, Unregister(g)))
  {
    hide Leavers, Without, Left, Listed, Generations;
    LastOut(s, g);
    var rest := Without(s.entry.value.active, g);
    assert Holds(Step(s, Unregister(g)), if |rest| > 0 then rest[0] else g);
  }

  lemma UnregisterKeeps(s: Protocol, g: nat)
    requires Inv(s)
    ensures Inv(Step(s, Unregister(g)))
  {
    hide Listed, Generations, Leavers, Marks, Left;
    if PhaseOf(s, g) == Some(Connected) {
      UnregisterLists(s, g);
      UnregisterMoves(s, g);
      UnregisterMarks(s, g);
    }
  }

  lemma CleanupMoves(s: Protocol, g: nat)
    requires Inv(s) && g in s.transports && s.transports[g].Leaving?
    ensures Listed(Step(s, Cleanup(g))) && Generations(Step(s, Cleanup(g)))
  {
    hide Marks, Leavers;
  }

  lemma CleanupLeaves(s: Protocol, g: nat)
    requires Inv(s) && g in s.transports && s.transports[g].Leaving?
    ensures Leavers(Step(s, Cleanup(g)))
  {
    hide Marks, Listed, Generations, Dropped;
  }

  /** A cleanup marks the peer only when no newer transport has come up. */
  lemma CleanupMarks(s: Protocol, g: nat)
    requires Inv(s) && g in s.transports && s.transports[g].Leaving?
    ensures Marks(Step(s, Cleanup(g)))
  {
    hide Listed;
    var t := Step(s, Cleanup(g));
    forall h | s.peer.generation != s.transports[g].latest && Holds(s, h)
      ensures Holds(t, h)
    {
    }
  }

  lemma CleanupKeeps(s: Protocol, g: nat)
    requires Inv(s)
    ensures Inv(Step(s, Cleanup(g)))
  {
    hide Listed, Generations, Leavers, Marks, Dropped;
    if g in s.transports && s.transports[g].Leaving? {
      CleanupMoves(s, g);
      CleanupLeaves(s, g);
      CleanupMarks(s, g);
    }
  }

  /** Every interleaved step keeps the invariant. */
  lemma StepKeeps(s: Protocol, e: Event)
    requires Inv(s) && InTurn(s, e)
    ensures Inv(Step(s, e))
  {
    hide Inv, InTurn, Step;
    match e {
      case Elsewhere => DrawKeeps(s);
      case Draw => DrawKeeps(s);
      case Enrol(g) => EnrolKeeps(s, g);
      case Connect(g) => ConnectKeeps(s, g);
      case Unregister(g) => UnregisterKeeps(s, g);
      case Cleanup(g) => CleanupKeeps(s, g);
    }
  }

  lemma {:induction false} RunKeeps(s: Protocol, events: seq<Event>)
    requires Inv(s) && AllInTurn(s, events)
    ensures Inv(Run(s, events))
  {
    hide Inv, InTurn, Step;
    if |events| > 0 {
      var init := events[..|events| - 1];
      forall i | 0 <= i < |init|
        ensures InTurn(Run(s, init[..i]), init[i])
      {
        assert init[..i] == events[..i];
      }
      RunKeeps(s, init);
      StepKeeps(Run(s, init), events[|events| - 1]);
    }
  }

  // --- What it guarantees ---

  /** Over all interleavings: while some transport is connected and has not left
      the registry, the peer is shown connected, whatever old cleanups run. */
  lemma ConnectedStaysUp(peer: Peer, events: seq<Event>, g: nat)
    requires Unmet(peer) && AllInTurn(Start(peer), events)
    requires PhaseOf(Run(Start(peer), events), g) == Some(Connected)
    ensures Run(Start(peer), events).peer.state == Up
  {
    hide Run, AllInTurn, Listed, Generations, Leavers;
    StartSound(peer);
    RunKeeps(Start(peer), events);
  }

  /** And once every transport has finished its cleanup, the peer is shown
      disconnected. */
  lemma FinishedIsDown(peer: Peer, events: seq<Event>)
    requires Unmet(peer) && AllInTurn(Start(peer), events)
    requires Run(Start(peer), events).transports != map[]
    requires forall g | g in Run(Start(peer), events).transports :: Run(Start(peer), events).transports[g] == Done
    ensures Run(Start(peer), events).peer.state == Disconnected
  {
    hide Run, AllInTurn, Listed, Generations, Leavers;
    StartSound(peer);
    RunKeeps(Start(peer), events);
    var s := Run(Start(peer), events);
    var g :| g in s.transports;
    assert s.transports[g] == Done;
  }

  /** What the peer table must show: connected while a transport is connected,
      and disconnected once every transport that came up has finished. */
  ghost predicate Guaranteed(s: Protocol) {
    && (forall g | g in s.transports && s.transports[g].Connected? :: s.peer.state == Up)
    && ((exists g :: g in s.transports && Met(s.transports[g]))
        && (forall g | g in s.transports :: s.transports[g].Drawn? || s.transports[g].Done?)
        ==> s.peer.state == Disconnected)
  }

  lemma InvGuarantees(s: Protocol)
    requires Inv(s)
    ensures Guaranteed(s)
  {
    hide Listed, Generations, Leavers;
    if s.peer.state == Up {
      var g :| Holds(s, g);
      assert !s.transports[g].Drawn? && !s.transports[g].Done?;
    }
  }

  // --- Out of turn, the guarantees fail ---

  /** A run that a late enrolment of g has spoiled: the registry will name g,
      while the peer has seen, or will see, a newer generation. */
  ghost predicate Spoiled(s: Protocol, g: nat, newer: nat) {
    && s.peer.state == Up && g < newer
    && g in s.transports && Met(s.transports[g])
    && (match s.entry
        case None => forall h | h in s.transports :: !Live(s.transports[h])
        case Some(e) => e.latest == g && forall h :: h in e.active <==> h in s.transports && Live(s.transports[h]))
    && (newer <= s.peer.generation || PhaseOf(s, newer) == Some(Waiting))
    && ((forall h | h in s.transports :: !s.transports[h].Waiting?) ==> newer <= s.peer.generation)
    && ((exists h :: h in s.transports && s.transports[h].Connected?)
        || forall h | h in s.transports && s.transports[h].Leaving? ::
             s.transports[h].latest == g && newer <= s.peer.generation)
  }

  ghost predicate Quiet(events: seq<Event>) {
    forall i | 0 <= i < |events| :: !events[i].Draw? && !events[i].Enrol?
  }

  function WaitingOnes(s: Protocol): set<nat> {
    set h | h in s.transports && s.transports[h].Waiting?
  }

  function ConnectedOnes(s: Protocol): set<nat> {
    set h | h in s.transports && s.transports[h].Connected?
  }

  function LeavingOnes(s: Protocol): set<nat> {
    set h | h in s.transports && s.transports[h].Leaving?
  }

  lemma RunPrepends(s: Protocol, e: Event, events: seq<Event>)
    ensures Run(s, [e] + events) == Run(Step(s, e), events)
  {
    hide Step;
    if |events| == 0 {
      assert [e] + events == [e] && [e][..0] == [];
    } else {
      var init, last := events[..|events| - 1], events[|events| - 1];
      RunPrepends(s, e, init);
      assert ([e] + events)[..|events|] == [e] + init;
    }
  }

  lemma SpoiledConnect(s: Protocol, g: nat, newer: nat, h: nat)
    requires Spoiled(s, g, newer) && PhaseOf(s, h) == Some(Waiting)
    ensures Spoiled(Step(s, Connect(h)), g, newer)
    ensures WaitingOnes(Step(s, Connect(h))) == WaitingOnes(s) - {h} && h in WaitingOnes(s)
  {
    assert Step(s, Connect(h)).transports[h].Connected?;
  }

  lemma SpoiledUnregister(s: Protocol, g: nat, newer: nat, h: nat)
    requires Spoiled(s, g, newer) && PhaseOf(s, h) == Some(Connected)
    requires WaitingOnes(s) == {} && LeavingOnes(s) == {}
    ensures Spoiled(Step(s, Unregister(h)), g, newer)
    ensures WaitingOnes(Step(s, Unregister(h))) == {}
    ensures ConnectedOnes(Step(s, Unregister(h))) == ConnectedOnes(s) - {h} && h in ConnectedOnes(s)
  {
    hide Without;
    WithoutMeans(s.entry.value.active, h);
    var t := Step(s, Unregister(h));
    var rest := Without(s.entry.value.active, h);
    assert forall k | k in s.transports :: k !in WaitingOnes(s) && k !in LeavingOnes(s);
    if |rest| > 0 {
      assert rest[0] in rest;
      assert t.transports[rest[0]].Connected?;
    }
  }

  lemma SpoiledCleanup(s: Protocol, g: nat, newer: nat, h: nat)
    requires Spoiled(s, g, newer) && h in s.transports && s.transports[h].Leaving? && WaitingOnes(s) == {}
    ensures Spoiled(Step(s, Cleanup(h)), g, newer) || !Guaranteed(Step(s, Cleanup(h)))
    ensures WaitingOnes(Step(s, Cleanup(h))) == {} && ConnectedOnes(Step(s, Cleanup(h))) == ConnectedOnes(s)
    ensures LeavingOnes(Step(s, Cleanup(h))) == LeavingOnes(s) - {h} && h in LeavingOnes(s)
  {
    var t := Step(s, Cleanup(h));
    assert forall k | k in s.transports :: k !in WaitingOnes(s);
    if k :| k in s.transports && s.transports[k].Connected? {
      assert t.transports[k].Connected?;
    }
  }

  lemma SpoiledEnd(s: Protocol, g: nat, newer: nat)
    requires Spoiled(s, g, newer) && WaitingOnes(s) == {} && ConnectedOnes(s) == {} && LeavingOnes(s) == {}
    ensures !Guaranteed(s)
  {
    assert forall k | k in s.transports :: k !in WaitingOnes(s) && k !in ConnectedOnes(s) && k !in LeavingOnes(s);
  }

  /** From a spoiled state, letting every transport finish breaks a guarantee
      somewhere on the way. */
  lemma {:induction false} SpoiledFails(s: Protocol, g: nat, newer: nat) returns (events: seq<Event>)
    requires Spoiled(s, g, newer)
    ensures Quiet(events) && !Guaranteed(Run(s, events))
    decreases |WaitingOnes(s)|, |ConnectedOnes(s)|, |LeavingOnes(s)|
  {
    hide Spoiled, Guaranteed, Step, WaitingOnes, ConnectedOnes, LeavingOnes;
    var e: Event;
    if WaitingOnes(s) != {} {
      var h :| h in WaitingOnes(s);
      InWaiting(s, h);
      SpoiledConnect(s, g, newer, h);
      e := Connect(h);
    } else if LeavingOnes(s) != {} {
      var h :| h in LeavingOnes(s);
      InLeaving(s, h);
      SpoiledCleanup(s, g, newer, h);
      e := Cleanup(h);
      if !Guaranteed(Step(s, e)) {
        RunPrepends(s, e, []);
        assert [e] + [] == [e];
        return [e];
      }
    } else if ConnectedOnes(s) != {} {
      var h :| h in ConnectedOnes(s);
      InConnected(s, h);
      SpoiledUnregister(s, g, newer, h);
      e := Unregister(h);
    } else {
      SpoiledEnd(s, g, newer);
      return [];
    }
    var rest := SpoiledFails(Step(s, e), g, newer);
    RunPrepends(s, e, rest);
    events := [e] + rest;
  }

  lemma InWaiting(s: Protocol, h: nat)
    requires h in WaitingOnes(s)
    ensures PhaseOf(s, h) == Some(Waiting)
  {
  }

  lemma InConnected(s: Protocol, h: nat)
    requires h in ConnectedOnes(s)
    ensures PhaseOf(s, h) == Some(Connected)
  {
  }

  lemma InLeaving(s: Protocol, h: nat)
    requires h in LeavingOnes(s)
    ensures h in s.transports && s.transports[h].Leaving?
  {
  }

  /** A drawn transport, enrolled and connected. */
  function Entered(s: Protocol, g: nat): Protocol {
    s.(entry := Some(Enrolled(s.entry, g)), peer := Joined(s.peer, g), transports := s.transports[g := Connected])
  }

  lemma EnteredIs(s: Protocol, g: nat)
    requires PhaseOf(s, g) == Some(Drawn)
    ensures Step(Step(s, Enrol(g)), Connect(g)) == Entered(s, g)
  {
    assert s.transports[g := Waiting][g := Connected] == s.transports[g := Connected];
  }

  /** The registry lists what it listed, and g. */
  lemma EnteredLists(s: Protocol, g: nat)
    requires Listed(s) && PhaseOf(s, g) == Some(Drawn)
    ensures var t := Entered(s, g);
            forall h :: h in t.entry.value.active <==> h in t.transports && Live(t.transports[h])
  {
    var e := Enrolled(s.entry, g);
    assert e.active[|e.active| - 1] == g;
    if s.entry.Some? {
      assert forall h :: h in e.active <==> h in s.entry.value.active || h == g;
    }
  }

  /** A generation enrolled before is below the peer's, or still waiting. */
  lemma EnteredBehind(s: Protocol, g: nat, newer: nat)
    requires Generations(s) && PhaseOf(s, g) == Some(Drawn)
    requires newer in s.transports && s.transports[newer] != Drawn
    ensures var t := Entered(s, g);
            && (newer <= t.peer.generation || PhaseOf(t, newer) == Some(Waiting))
            && ((forall h | h in t.transports :: !t.transports[h].Waiting?) ==> newer <= t.peer.generation)
  {
    var t := Entered(s, g);
    assert newer != g && newer in t.transports && t.transports[newer] == s.transports[newer];
  }

  /** Enrolling behind a newer generation and connecting spoils the run. */
  lemma LateSpoils(s: Protocol, g: nat)
    requires Inv(s) && PhaseOf(s, g) == Some(Drawn) && !InTurn(s, Enrol(g))
    ensures exists newer: nat :: Spoiled(Step(Step(s, Enrol(g)), Connect(g)), g, newer)
  {
    hide Listed, Generations, Leavers, Marks, Step, Enrolled;
    var newer: nat :| newer in s.transports && s.transports[newer] != Drawn && newer >= g;
    var t := Entered(s, g);
    EnteredIs(s, g);
    EnteredLists(s, g);
    EnteredBehind(s, g, newer);
    assert t.transports[g].Connected? && t.entry.value.latest == g by { EntersLast(s.entry, g); }
    assert Spoiled(t, g, newer);
  }

  lemma EntersLast(entry: Option<PeerSessions>, g: nat)
    ensures Enrolled(entry, g).latest == g
  {
  }

  /** Exactly when a drawn generation may enter the registry: both guarantees
      hold in every continuation that stays in turn if and only if no newer
      generation has entered before it. */
  lemma EnrolExactly(s: Protocol, g: nat)
    requires Inv(s) && PhaseOf(s, g) == Some(Drawn)
    ensures InTurn(s, Enrol(g)) <==>
            forall events | AllInTurn(Step(s, Enrol(g)), events) :: Guaranteed(Run(Step(s, Enrol(g)), events))
  {
    hide Inv, Guaranteed, Spoiled, Step, Run;
    var t := Step(s, Enrol(g));
    if InTurn(s, Enrol(g)) {
      EnrolKeeps(s, g);
      forall events | AllInTurn(t, events)
        ensures Guaranteed(Run(t, events))
      {
        RunKeeps(t, events);
        InvGuarantees(Run(t, events));
      }
    } else {
      LateSpoils(s, g);
      var newer: nat :| Spoiled(Step(t, Connect(g)), g, newer);
      var rest := SpoiledFails(Step(t, Connect(g)), g, newer);
      var events := [Connect(g)] + rest;
      RunPrepends(t, Connect(g), rest);
      QuietInTurn(t, events);
    }
  }

  lemma QuietInTurn(s: Protocol, events: seq<Event>)
    requires Quiet(events)
    ensures AllInTurn(s, events)
  {
    hide Run;
  }

  /** Two transports draw, and the second enrols and connects first. */
  function SecondFirst(peer: Peer): Protocol {
    Step(Step(Step(Step(Start(peer), Draw), Draw), Enrol(2)), Connect(2))
  }

  lemma SecondFirstIs(peer: Peer)
    requires Unmet(peer)
    ensures var s := SecondFirst(peer);
            && s.entry == Some(PeerSessions(2, [2])) && s.peer == peer.(state := Up, generation := 2)
            && s.transports.Keys == {1, 2} && s.transports[1] == Drawn && s.transports[2] == Connected
  {
    var s2 := Step(Step(Start(peer), Draw), Draw);
    assert s2.transports.Keys == {1, 2};
    assert [] + [2] == [2];
  }

  /** The second lives and leaves; then the first comes up, and the second's
      cleanup marks the peer disconnected under it. */
  lemma LateEnrolDropsConnected(peer: Peer)
    requires Unmet(peer)
    ensures var s5 := Step(SecondFirst(peer), Unregister(2));
            var s8 := Step(Step(Step(s5, Enrol(1)), Connect(1)), Cleanup(2));
            PhaseOf(s8, 1) == Some(Connected) && s8.peer.state == Disconnected
  {
    hide SecondFirst;
    SecondFirstIs(peer);
    TwoWithout();
    var s5 := Step(SecondFirst(peer), Unregister(2));
    assert s5.transports[2] == Leaving(2) && s5.transports[1] == Drawn && s5.entry == None;
  }

  /** Both live and leave, the first to draw enrolling and leaving last, and the
      peer is shown connected for ever. */
  lemma LateEnrolLeavesUp(peer: Peer)
    requires Unmet(peer)
    ensures var s6 := Step(Step(SecondFirst(peer), Enrol(1)), Connect(1));
            var s9 := Step(Step(Step(s6, Unregister(2)), Unregister(1)), Cleanup(1));
            s9.transports.Keys == {1, 2} && s9.transports[1] == s9.transports[2] == Done && s9.peer.state == Up
  {
    hide SecondFirst;
    SecondFirstIs(peer);
    TwoWithout();
    var s6 := Step(Step(SecondFirst(peer), Enrol(1)), Connect(1));
    assert [2] + [1] == [2, 1];
    assert s6.entry == Some(PeerSessions(1, [2, 1])) && s6.transports[1] == s6.transports[2] == Connected;
    var s7 := Step(s6, Unregister(2));
    assert s7.entry == Some(PeerSessions(1, [1])) && s7.transports[1] == Connected && s7.transports[2] == Done;
    var s8 := Step(s7, Unregister(1));
    assert s8.transports[1] == Leaving(1) && s8.transports[2] == Done;
  }

  lemma TwoWithout()
    ensures Without([2, 1], 2) == [1] && Without([1], 1) == [] && Without([2], 2) == []
  {
    assert [2, 1][..1] == [2];
    assert Without([2], 2) == [];
  }

  // --- The two shared objects ---

  function EntryOf(sessions: map<Address, PeerSessions>, a: Address): Option<PeerSessions> {
    if a in sessions then Some(sessions[a]) else None
  }

  class PeerSessionRegistry {
    var nextGeneration: nat
    var sessions: map<Address, PeerSessions>

    constructor ()
      ensures nextGeneration == 1 && sessions == map[]
    {
      nextGeneration, sessions := 1, map[];
    }

    /** Draw a generation and enrol it for a peer; other peers are untouched. */
    method Register(peer: Address) returns (generation: nat)
      modifies this
      ensures generation == old(nextGeneration) && nextGeneration == generation + 1
      ensures sessions == old(sessions)[peer := Enrolled(EntryOf(old(sessions), peer), generation)]
    {
      generation := nextGeneration;
      nextGeneration := nextGeneration + 1;
      if peer !in sessions {
        sessions := sessions[peer := PeerSessions(generation, [])];
      }
      var entry := sessions[peer];
      entry := entry.(latest := generation);
      entry := entry.(active := entry.active + [generation]);
      sessions := sessions[peer := entry];
    }

    /** Remove one transport; the latest generation is returned only when it was
        the last live one. */
    method Unregister(peer: Address, generation: nat) returns (latest: Option<nat>)
      modifies this`sessions
      ensures var (entry, result) := Left(EntryOf(old(sessions), peer), generation);
              latest == result && EntryOf(sessions, peer) == entry
      ensures forall a | a != peer :: EntryOf(sessions, a) == EntryOf(old(sessions), a)
    {
      if peer !in sessions {
        return None;
      }
      var entry := sessions[peer];
      var rest := [];
      assert entry.active[..0] == [];
      for i := 0 to |entry.active|
        invariant rest == Without(entry.active[..i], generation)
      {
        assert entry.active[..i + 1][..i] == entry.active[..i];
        if entry.active[i] != generation {
          rest := rest + [entry.active[i]];
        }
      }
      assert entry.active[..|entry.active|] == entry.active;
      sessions := sessions[peer := entry.(active := rest)];
      if |rest| == |entry.active| || |rest| > 0 {
        return None;
      }
      sessions := sessions - {peer};
      return Some(entry.latest);
    }
  }

  class PeerManager {
    var peers: map<Address, Peer>

    constructor ()
      ensures peers == map[]
    {
      peers := map[];
    }

    method Upsert(a: Address)
      modifies this
      ensures peers == if a in old(peers) then old(peers) else old(peers)[a := Peer(KnownOnly, 0, 0, None, 0)]
    {
      if a !in peers {
        peers := peers[a := Peer(KnownOnly, 0, 0, None, 0)];
      }
    }

    method ConnectSession(a: Address, generation: nat)
      modifies this
      ensures peers == if a in old(peers) then old(peers)[a := Joined(old(peers)[a], generation)] else old(peers)
    {
      if a in peers {
        var p := peers[a];
        p := p.(generation := if generation > p.generation then generation else p.generation);
        p := p.(state := Up);
        peers := peers[a := p];
      }
    }

    /** Mark the peer disconnected only if this is still its newest generation. */
    method DisconnectIfGeneration(a: Address, generation: nat) returns (done: bool)
      modifies this
      ensures done == (a in old(peers) && old(peers)[a].generation == generation)
      ensures peers == if a in old(peers) then old(peers)[a := Dropped(old(peers)[a], generation)] else old(peers)
    {
      if a !in peers {
        return false;
      }
      var p := peers[a];
      if p.generation != generation {
        return false;
      }
      peers := peers[a := p.(state := Disconnected, height := 0, tipHash := None, work := 0)];
      return true;
    }
  }
}
