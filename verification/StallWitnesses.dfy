/** Three short runs after which the manager never calls connect() again. */
module StallWitnesses {
  import opened Transport
  import opened SlotPool
  import opened Peers
  import opened ConnectionModel
  import opened ConnectionInvariant
  import opened ConnectionSteps
  import opened ConnectionRuns
  import opened SchedulerFates
  import opened PeerLifecycle
  import opened PeerLedger
  import opened InboundAccount
  import opened ConnectedAccount
  import opened SchedulerStall

  lemma DryAtRetries(cfg: Config, s: State)
    requires s.current == FailedSpot && s.empties == [true, true, false] && s.inbound < MAX_INBOUND_INFLIGHT
    requires s.retry == []
    ensures RoundRobin(cfg, s).0 == s.(empties := [true, true, true])
  {
    DryWakeUp(cfg, s);
    assert Flagged(s).empties == [true, true, true];
  }

  /** The rest of a wake-up that has served its first source and finds the other two empty. */
  lemma DryTail(cfg: Config, s: State)
    requires s.current == DisconnectedSpot && s.empties == [true, false, false] && s.inbound < MAX_INBOUND_INFLIGHT
    requires s.disconnects == [] && s.retry == []
    ensures RoundRobin(cfg, s).0 == s.(empties := [true, true, true], current := FailedSpot)
  {
    DryWakeUp(cfg, s);
    var t := s.(empties := [true, true, false], current := FailedSpot);
    assert Advanced(s) == t;
    DryAtRetries(cfg, t);
  }

  /** An empty pool and a scheduler standing at the retries. */
  lemma DesertedIsStuck(cfg: Config, s: State)
    requires s.pool.occupied == {} && AllEmpty(s.empties) && s.current == FailedSpot
    ensures Stuck(cfg, s)
  {
    StuckByCurrent(cfg, s);
  }

  // ---------------------------------------------------------------------------
  // The first connect() fails at once
  // ---------------------------------------------------------------------------

  lemma FirstAttemptFails(cfg: Config, slots: nat, address: Address)
    requires slots > 0 && (cfg.outcome(0).NoSocket? || cfg.outcome(0).Refused?)
    ensures var init := Initial(slots);
            var (t, fate) := TryDiscovered(cfg, init, address);
            && fate == Deleted && t.attempts == 1 && t.pool.occupied == {} && SameQueues(init, t) && t.inbound == 0
  {
    var init := Initial(slots);
    NewPoolValid(slots, Blank(NO_ERROR));
    DiscoveredEffect(cfg, init, address);
    TryDiscoveredFrame(cfg, init, address);
    AttemptShape(cfg, Enrol(init, address), slots - 1);
    var t := TryDiscovered(cfg, init, address).0;
    assert forall j: nat :: j != slots - 1 ==> SameElsewhere(init, t, j);
    assert t.pool.occupied == {};
  }

  lemma OneDiscovered(cfg: Config, s: State, b: Address, u: State)
    requires s.cache == [] && u == s.(cache := [b])
    ensures Step(cfg, s, Discoveries([b])) == u && WithoutNewest(u) == s && Newest(u) == b
  {
    DiscoveriesKeepNewest([], [b]);
    assert [] + [b] == [b];
  }

  lemma RefusedTurn(cfg: Config, s: State, u: State, address: Address, t: State)
    requires s.current == DiscoveredSpot && s.empties == [false, false, false] && s.inbound < MAX_INBOUND_INFLIGHT
    requires s.cache == [] && s.pool.free != [] && u == s.(cache := [address])
    requires TryDiscovered(cfg, s, address) == (t, Deleted) && SameQueues(s, t)
    ensures RoundRobin(cfg, u).0
         == RoundRobin(cfg, t.(empties := [true, false, false], current := DisconnectedSpot)).0
  {
    assert WithoutNewest(u) == s;
    assert DrainLoop(cfg, t, DiscoveredSpot) == Drained(t, false, []);
    assert Turn(cfg, u).state == t.(empties := [true, false, false]);
  }

  lemma RefusedWakeUp(cfg: Config, s: State, address: Address, t: State)
    requires s.current == DiscoveredSpot && s.empties == [false, false, false] && s.inbound < MAX_INBOUND_INFLIGHT
    requires s.cache == [] && s.disconnects == [] && s.retry == [] && s.pool.free != []
    requires TryDiscovered(cfg, s, address) == (t, Deleted)
    ensures Run(cfg, s, [Discoveries([address]), Schedule])
         == t.(empties := [true, true, true], current := FailedSpot)
  {
    var u := s.(cache := [address]);
    OneDiscovered(cfg, s, address, u);
    TryDiscoveredFrame(cfg, s, address);
    RefusedTurn(cfg, s, u, address, t);
    DryTail(cfg, t.(empties := [true, false, false], current := DisconnectedSpot));
    RunTwo(cfg, s, Discoveries([address]), Schedule);
  }

  /** One discovery whose connect() fails at once is the last one ever tried. */
  lemma FirstRefusalIsLast(cfg: Config, slots: nat, address: Address, more: seq<Event>)
    requires slots > 0 && (cfg.outcome(0).NoSocket? || cfg.outcome(0).Refused?)
    ensures var run := [Discoveries([address]), Schedule];
            Stuck(cfg, After(cfg, slots, run)) && After(cfg, slots, run + more).attempts == 1
  {
    var init, run := Initial(slots), [Discoveries([address]), Schedule];
    FirstAttemptFails(cfg, slots, address);
    RefusedWakeUp(cfg, init, address, TryDiscovered(cfg, init, address).0);
    DesertedIsStuck(cfg, After(cfg, slots, run));
    StuckForGood(cfg, slots, run, more);
  }

  // ---------------------------------------------------------------------------
  // An accepted peer comes and goes before anything is discovered
  // ---------------------------------------------------------------------------

  /** An accept, a whole handshake, the report of the lost session, and a wake-up. */
  function VisitRun(cfg: Config, slots: nat, address: Address, peerId: Digest, perrno: int): seq<Event>
    requires slots > 0
  {
    [Server([Incoming(address)]), Socket(slots - 1, ReadReady, WholeHandshake(cfg, peerId))]
    + Aftermath(slots, perrno)
  }

  /** The report is about an accepted peer, which is deleted. */
  lemma VisitorDeleted(cfg: Config, s: State, u: State, slots: nat, address: Address, perrno: int)
    requires OneConnected(cfg, s, slots, address) && u.pool == s.pool && u.peers == s.peers && u.connected == 1
    ensures var (t, fate) := TryDisconnected(cfg, u, Handle(slots - 1, 0));
            && fate == Deleted && t.pool.occupied == {} && SameQueues(u, t)
            && t.inbound == u.inbound && t.attempts == u.attempts
  {
    var i, h := slots - 1, Handle(slots - 1, 0);
    assert At(u, i) == At(s, i) && Generation(u, i) == Generation(s, i) && i in Registered(s, {});
    assert Answerable(u, h);
    DisconnectedEffect(cfg, u, h, perrno);
    TryDisconnectedFrame(cfg, u, h);
    var t := TryDisconnected(cfg, u, h).0;
    assert forall j: nat :: j != i ==> SameElsewhere(u, t, j);
    assert t.pool.occupied == {};
  }

  /** A wake-up that finds one report and nothing else, and deletes its peer. */
  lemma DeletingWakeUp(cfg: Config, s: State, u: State, h: Handle, t: State)
    requires s.current == DiscoveredSpot && s.empties == [false, false, false] && s.inbound < MAX_INBOUND_INFLIGHT
    requires s.cache == [] && s.retry == [] && |s.disconnects| == 1 && s.disconnects[0].handle == h
    requires u == s.(disconnects := [], empties := [true, false, false], current := DisconnectedSpot)
    requires TryDisconnected(cfg, u, h) == (t, Deleted) && SameQueues(u, t) && t.inbound < MAX_INBOUND_INFLIGHT
    ensures RoundRobin(cfg, s).0 == t.(empties := [true, true, true], current := FailedSpot)
  {
    var v := s.(empties := [true, false, false], current := DisconnectedSpot);
    DryToReports(cfg, s, v);
    DeletingTurn(cfg, v, u, t);
    DryAtRetries(cfg, t.(empties := [true, true, false], current := FailedSpot));
  }

  lemma DryToReports(cfg: Config, s: State, v: State)
    requires s.current == DiscoveredSpot && s.empties == [false, false, false] && s.inbound < MAX_INBOUND_INFLIGHT
    requires s.cache == [] && v == s.(empties := [true, false, false], current := DisconnectedSpot)
    ensures RoundRobin(cfg, s).0 == RoundRobin(cfg, v).0
  {
    DryWakeUp(cfg, s);
    assert Advanced(s) == v;
  }

  lemma DeletingTurn(cfg: Config, s: State, u: State, t: State)
    requires s.current == DisconnectedSpot && s.empties == [true, false, false] && s.inbound < MAX_INBOUND_INFLIGHT
    requires |s.disconnects| == 1 && u == s.(disconnects := [])
    requires TryDisconnected(cfg, u, s.disconnects[0].handle) == (t, Deleted) && SameQueues(u, t)
    ensures RoundRobin(cfg, s).0 == RoundRobin(cfg, t.(empties := [true, true, false], current := FailedSpot)).0
  {
    assert WithoutReport(s) == u;
    assert DrainLoop(cfg, t, DisconnectedSpot) == Drained(t, false, []);
    assert Turn(cfg, s).state == t.(empties := [true, true, false]);
  }

  lemma VisitEnds(cfg: Config, s: State, slots: nat, address: Address, perrno: int)
    requires OneConnected(cfg, s, slots, address)
    ensures var t := Run(cfg, s, Aftermath(slots, perrno));
            t.pool.occupied == {} && AllEmpty(t.empties) && t.current == FailedSpot && t.attempts == 0
  {
    var h := Handle(slots - 1, 0);
    var t := s.(connects := [], sessions := multiset{h});
    assert Step(cfg, s, TransferTakes) == t;
    var u := s.(connects := [], disconnects := [Update(h, perrno)]);
    assert multiset{h} - multiset{h} == multiset{};
    assert Step(cfg, t, TransferReports(h, perrno)) == u;
    var v := u.(disconnects := [], empties := [true, false, false], current := DisconnectedSpot);
    VisitorDeleted(cfg, s, v, slots, address, perrno);
    DeletingWakeUp(cfg, u, v, h, TryDisconnected(cfg, v, h).0);
    RunThree(cfg, s, TransferTakes, TransferReports(h, perrno), Schedule);
  }

  /** A manager whose first visitor has left before anything was discovered discovers in vain. */
  lemma FirstVisitorIsLast(cfg: Config, slots: nat, address: Address, peerId: Digest, perrno: int, more: seq<Event>)
    requires slots > 1
    ensures var run := VisitRun(cfg, slots, address, peerId, perrno);
            Stuck(cfg, After(cfg, slots, run)) && After(cfg, slots, run + more).attempts == 0
  {
    var init, run := Initial(slots), VisitRun(cfg, slots, address, peerId, perrno);
    var e, f := Server([Incoming(address)]), Socket(slots - 1, ReadReady, WholeHandshake(cfg, peerId));
    FirstConnects(cfg, slots, address, peerId);
    RunTwo(cfg, init, e, f);
    VisitEnds(cfg, Run(cfg, init, [e, f]), slots, address, perrno);
    RunAppends(cfg, init, [e, f], Aftermath(slots, perrno));
    DesertedIsStuck(cfg, After(cfg, slots, run));
    StuckForGood(cfg, slots, run, more);
  }

  // ---------------------------------------------------------------------------
  // Every slot holds a peer that waits for a retry
  // ---------------------------------------------------------------------------

  lemma {:induction false} NobodyAccepted(s: State, arrivals: seq<AcceptOutcome>)
    requires s.pool.free == []
    ensures ServerReady(s, arrivals) == s
    decreases |arrivals|
  {
    if arrivals != [] && !QuotaMet(s) && s.outbound < MAX_OUTBOUND_INFLIGHT && Accept(s, arrivals[0]).1 {
      NobodyAccepted(s, arrivals[1..]);
    }
  }

  /** Stuck at the discoveries: no slot is free, and none can be given up. */
  ghost predicate Jammed(cfg: Config, s: State) {
    AllEmpty(s.empties) && s.current == DiscoveredSpot && !DiscoveryHope(cfg, s, false)
  }

  lemma HandledJammed(cfg: Config, s: State, t: State, i: nat, turnout: Turnout)
    requires Handled(cfg, s, t, i, turnout) && KnownSources(s) && Jammed(cfg, s)
    ensures Jammed(cfg, t) && t.pool.occupied == s.pool.occupied && t.attempts == s.attempts
  {
    HandledDiscovery(cfg, s, t, i, turnout, false);
    HandledStays(cfg, s, t, i, turnout);
    SameOccupied(s, t, i);
  }

  lemma WatcherJammed(cfg: Config, s: State, e: Event)
    requires Sound(cfg, s) && Jammed(cfg, s) && Enabled(s, e) && (e.Socket? || e.Timer?)
    ensures var t := Apply(cfg, s, e);
            Jammed(cfg, t) && t.pool.occupied == s.pool.occupied && t.attempts == s.attempts
  {
    SourcesKnown(cfg, s);
    match e
    case Socket(i, ready, io) =>
      var t, turnout := SocketReady(cfg, s, i, ready, io), SocketTurnout(cfg, QuotaMet(s), At(s, i), ready, io);
      ArmedOpened(cfg, s, i);
      SocketEffect(cfg, s, i, ready, io);
      SocketHandled(cfg, s, t, i, ready, io, turnout);
      HandledJammed(cfg, s, t, i, turnout);
    case Timer(i) =>
      ArmedOpened(cfg, s, i);
      TimerEffect(cfg, s, i);
      SoundListed(cfg, s, i);
      HandledJammed(cfg, s, TimerExpired(s, i), i, TimerTurnout(At(s, i)));
  }

  lemma StepJammed(cfg: Config, s: State, e: Event)
    requires Sound(cfg, s) && Jammed(cfg, s)
    ensures var t := Step(cfg, s, e);
            Jammed(cfg, t) && t.pool.occupied == s.pool.occupied && t.attempts == s.attempts
  {
    if Enabled(s, e) {
      if e.Socket? || e.Timer? {
        WatcherJammed(cfg, s, e);
      } else if e.Server? {
        NobodyAccepted(s, e.arrivals);
      } else if e.Schedule? {
        JammedWakeUp(cfg, s);
      } else {
        QueueJammed(cfg, s, e);
      }
    }
  }

  lemma JammedWakeUp(cfg: Config, s: State)
    requires Jammed(cfg, s)
    ensures RoundRobin(cfg, s).0 == s
  {
    if s.inbound < MAX_INBOUND_INFLIGHT {
      DryWakeUp(cfg, s);
      assert Flagged(s).empties == s.empties;
    }
  }

  lemma QueueJammed(cfg: Config, s: State, e: Event)
    requires Jammed(cfg, s) && (e.Discoveries? || e.TransferTakes? || e.TransferReports?)
    ensures var t := Apply(cfg, s, e);
            Jammed(cfg, t) && t.pool.occupied == s.pool.occupied && t.attempts == s.attempts
  {
    assert forall i: nat :: At(Apply(cfg, s, e), i) == At(s, i);
    SamePeers(cfg, s, Apply(cfg, s, e));
  }

  lemma {:induction false} RunJammed(cfg: Config, s: State, events: seq<Event>)
    requires Sound(cfg, s) && Jammed(cfg, s)
    ensures var t := Run(cfg, s, events);
            Jammed(cfg, t) && t.pool.occupied == s.pool.occupied && t.attempts == s.attempts
    decreases |events|
  {
    if events != [] {
      StepJammed(cfg, s, events[0]);
      SoundStep(cfg, s, events[0]);
      RunJammed(cfg, Step(cfg, s, events[0]), events[1..]);
    }
  }

  /** Once jammed, the manager gives up no peer, accepts nobody and dials nobody, whatever follows. */
  lemma JammedForGood(cfg: Config, slots: nat, events: seq<Event>, more: seq<Event>)
    requires Jammed(cfg, After(cfg, slots, events))
    ensures var s, t := After(cfg, slots, events), After(cfg, slots, events + more);
            Jammed(cfg, t) && t.pool.occupied == s.pool.occupied && t.attempts == s.attempts
  {
    SoundAfter(cfg, slots, events);
    RunAppends(cfg, Initial(slots), events, more);
    RunJammed(cfg, After(cfg, slots, events), more);
  }

  // A run that jams it: as many peers as slots are dialled and refuse, and their timers expire.

  /** Each address is discovered, dialled and refuses, from the last slot down. */
  function RefusedRun(slots: nat, addresses: seq<Address>): seq<Event>
    requires |addresses| <= slots
    decreases |addresses|
  {
    if addresses == [] then []
    else RefusedOnce(slots - 1, addresses[0]) + RefusedRun(slots - 1, addresses[1..])
  }

  function Timeouts(n: nat): seq<Event> {
    if n == 0 then [] else Timeouts(n - 1) + [Timer(n - 1)]
  }

  predicate Unretried(p: Peer) {
    p.state == Failed && p.interest == Quiet && p.timer && p.source == Tracker
  }

  /** The first n slots are free, the others hold peers that failed and wait. */
  ghost predicate Filling(s: State, n: nat) {
    && s.current == DiscoveredSpot && s.cache == [] && s.disconnects == [] && s.retry == []
    && s.inbound == 0 && s.connected == 0
    && |s.pool.free| == n && (forall k :: 0 <= k < n ==> s.pool.free[k] == k && At(s, k) == Blank(NO_ERROR))
    && (forall i :: i in s.pool.occupied ==> Unretried(At(s, i)))
  }

  predicate Strangers(s: State, addresses: seq<Address>) {
    && (forall a :: a in addresses ==> a !in s.peers)
    && (forall j, k :: 0 <= j < k < |addresses| ==> addresses[j] != addresses[k])
  }

  /** The keys of the registry after a callback that leaves its peer in place. */
  lemma SameKeys(cfg: Config, s: State, t: State, i: nat)
    requires Inv(cfg, s) && Inv(cfg, t) && OnlySlot(s, t, i) && StillHeld(s, t, i)
    ensures t.peers.Keys <= s.peers.Keys
  {
    forall k | k in t.peers
      ensures k in s.peers
    {
      var j := t.peers[k];
      assert j in Registered(t, {}) && At(t, j).key == k;
      if j != i {
        assert SameElsewhere(s, t, j);
      }
      assert j in Registered(s, {});
    }
  }

  /** What the dial leaves: one peer under way, from slot n. */
  ghost predicate OneUnderway(cfg: Config, s: State, t: State, n: nat, address: Address) {
    && OnlySlot(s, t, n) && n in t.pool.occupied && At(t, n) == Dialled(address, InProgress)
    && s.pool.free == t.pool.free + [n] && t.peers == s.peers[address := n]
    && t == s.(pool := t.pool, peers := t.peers, attempts := s.attempts + 1, inbound := 1,
               empties := [true, true, true], current := DiscoveredSpot)
  }

  lemma FillingDials(cfg: Config, s: State, n: nat, address: Address)
    requires Inv(cfg, s) && Filling(s, n + 1) && address !in s.peers && cfg.outcome(s.attempts) == InProgress
    ensures OneUnderway(cfg, s, Run(cfg, s, [Discoveries([address]), Schedule]), n, address)
  {
    var t := TryDiscovered(cfg, s, address).0;
    DialOne(cfg, s, address);
    DialNew(cfg, s, address, t);
    Rested(cfg, s, t, Run(cfg, s, [Discoveries([address]), Schedule]), n, address);
  }

  lemma Rested(cfg: Config, s: State, t: State, u: State, n: nat, address: Address)
    requires OnlySlot(s, t, n) && n in t.pool.occupied && At(t, n) == Dialled(address, InProgress)
    requires |s.pool.free| == n + 1 && s.pool.free[n] == n && t.pool.free == s.pool.free[..n]
    requires t == s.(pool := t.pool, peers := s.peers[address := n], attempts := s.attempts + 1, inbound := 1)
    requires u == t.(empties := [true, true, true], current := DiscoveredSpot)
    ensures OneUnderway(cfg, s, u, n, address)
  {
    forall j: nat | j != n
      ensures SameElsewhere(s, u, j)
    {
      assert SameElsewhere(s, t, j);
    }
  }

  lemma FillingRefused(cfg: Config, s: State, t: State, n: nat, address: Address, u: State)
    requires Filling(s, n + 1) && OneUnderway(cfg, s, t, n, address) && Inv(cfg, t)
    requires u == Step(cfg, t, Socket(n, ErrorReady, QuietIo))
    ensures Filling(u, n) && u.peers.Keys <= s.peers.Keys + {address} && u.attempts == s.attempts + 1
    ensures AllEmpty(u.empties) && |u.pool.slots| == |s.pool.slots|
  {
    ErrorAfterDial(cfg, t, n, address);
    SameKeys(cfg, t, u, n);
    forall k | 0 <= k < n
      ensures u.pool.free[k] == k && At(u, k) == Blank(NO_ERROR)
    {
      assert SameElsewhere(s, t, k) && SameElsewhere(t, u, k);
    }
    forall i | i in u.pool.occupied
      ensures Unretried(At(u, i))
    {
      if i != n {
        assert SameElsewhere(s, t, i) && SameElsewhere(t, u, i);
      }
    }
  }

  /** Discovered, dialled and refused. */
  function RefusedOnce(n: nat, address: Address): seq<Event> {
    [Discoveries([address]), Schedule, Socket(n, ErrorReady, QuietIo)]
  }

  lemma FilledOne(cfg: Config, slots: nat, events: seq<Event>, n: nat, address: Address, s: State, u: State)
    requires s == After(cfg, slots, events) && u == After(cfg, slots, events + RefusedOnce(n, address))
    requires Filling(s, n + 1) && address !in s.peers && cfg.outcome(s.attempts) == InProgress
    ensures Filling(u, n) && u.peers.Keys <= s.peers.Keys + {address} && u.attempts == s.attempts + 1
    ensures AllEmpty(u.empties) && |u.pool.slots| == |s.pool.slots|
  {
    var e, f, g := Discoveries([address]), Schedule, Socket(n, ErrorReady, QuietIo);
    Reachable(cfg, slots, events);
    FillingDials(cfg, s, n, address);
    RunKeeps(cfg, s, [e, f]);
    RunTwo(cfg, s, e, f);
    RunThree(cfg, s, e, f, g);
    RunAppends(cfg, Initial(slots), events, [e, f, g]);
    FillingRefused(cfg, s, Run(cfg, s, [e, f]), n, address, u);
  }

  /** The first address is refused; the rest of the run is still to come. */
  lemma FilledFirst(cfg: Config, slots: nat, events: seq<Event>, addresses: seq<Address>, s: State)
      returns (next: seq<Event>)
    requires s == After(cfg, slots, events) && addresses != [] && (forall n :: cfg.outcome(n) == InProgress)
    requires Filling(s, |addresses|) && Strangers(s, addresses)
    ensures next + RefusedRun(|addresses| - 1, addresses[1..]) == events + RefusedRun(|addresses|, addresses)
    ensures var t := After(cfg, slots, next);
            && Filling(t, |addresses| - 1) && Strangers(t, addresses[1..]) && AllEmpty(t.empties)
            && t.attempts == s.attempts + 1 && |t.pool.slots| == |s.pool.slots|
  {
    next := events + RefusedOnce(|addresses| - 1, addresses[0]);
    FilledStep(cfg, slots, events, addresses, s, After(cfg, slots, next));
    RefusedFirst(events, addresses, next);
  }

  lemma FilledStep(cfg: Config, slots: nat, events: seq<Event>, addresses: seq<Address>, s: State, t: State)
    requires s == After(cfg, slots, events) && addresses != [] && (forall n :: cfg.outcome(n) == InProgress)
    requires Filling(s, |addresses|) && Strangers(s, addresses)
    requires t == After(cfg, slots, events + RefusedOnce(|addresses| - 1, addresses[0]))
    ensures Filling(t, |addresses| - 1) && Strangers(t, addresses[1..]) && AllEmpty(t.empties)
    ensures t.attempts == s.attempts + 1 && |t.pool.slots| == |s.pool.slots|
  {
    FilledOne(cfg, slots, events, |addresses| - 1, addresses[0], s, t);
    StillStrangers(s, t, addresses);
  }

  lemma RefusedFirst(events: seq<Event>, addresses: seq<Address>, next: seq<Event>)
    requires addresses != [] && next == events + RefusedOnce(|addresses| - 1, addresses[0])
    ensures next + RefusedRun(|addresses| - 1, addresses[1..]) == events + RefusedRun(|addresses|, addresses)
  {
    Regroup(events, RefusedOnce(|addresses| - 1, addresses[0]), RefusedRun(|addresses| - 1, addresses[1..]));
  }

  lemma {:induction false} FilledAll(cfg: Config, slots: nat, events: seq<Event>, addresses: seq<Address>, s: State)
    requires s == After(cfg, slots, events) && (forall n :: cfg.outcome(n) == InProgress)
    requires Filling(s, |addresses|) && Strangers(s, addresses) && (AllEmpty(s.empties) || addresses != [])
    ensures var t := After(cfg, slots, events + RefusedRun(|addresses|, addresses));
            Filling(t, 0) && AllEmpty(t.empties) && t.attempts == s.attempts + |addresses|
            && |t.pool.slots| == |s.pool.slots|
    decreases |addresses|
  {
    if addresses == [] {
      assert events + [] == events;
    } else {
      var next := FilledFirst(cfg, slots, events, addresses, s);
      FilledAll(cfg, slots, next, addresses[1..], After(cfg, slots, next));
    }
  }

  lemma StillStrangers(s: State, t: State, addresses: seq<Address>)
    requires addresses != [] && Strangers(s, addresses) && t.peers.Keys <= s.peers.Keys + {addresses[0]}
    ensures Strangers(t, addresses[1..])
  {
    forall k | 0 <= k < |addresses[1..]|
      ensures addresses[1..][k] !in t.peers.Keys
    {
      assert addresses[1..][k] == addresses[k + 1] && addresses[k + 1] in addresses;
    }
  }

  /** A failed peer whose timer is running, or has expired and put its handle into the retry queue. */
  ghost predicate WaitsAt(s: State, i: nat, expired: nat) {
    && At(s, i).state == Failed && At(s, i).interest == Quiet
    && (if i < expired then HandleOf(s, i) in s.retry else At(s, i).timer)
  }

  /** The scheduler stands at the discoveries of a full pool of such peers. */
  ghost predicate AllWait(s: State, expired: nat) {
    && AllEmpty(s.empties) && s.current == DiscoveredSpot && s.pool.free == [] && s.connected == 0
    && forall i: nat :: i < |s.pool.slots| ==> WaitsAt(s, i, expired)
  }

  lemma FilledWait(cfg: Config, s: State)
    requires Inv(cfg, s) && Filling(s, 0) && AllEmpty(s.empties)
    ensures AllWait(s, 0)
  {
    forall i: nat | i < |s.pool.slots|
      ensures WaitsAt(s, i, 0)
    {
      FreeIsVacant(s.pool, i);
      assert Unretried(At(s, i));
    }
  }

  lemma ExpiredWait(s: State, t: State, n: nat, i: nat, m: nat)
    requires Effect(s, t, n, Requeues) && WaitsAt(s, i, n) && m == n + 1
    ensures WaitsAt(t, i, m)
  {
    if i != n {
      assert SameElsewhere(s, t, i) && HandleOf(t, i) == HandleOf(s, i);
    } else {
      assert HandleOf(t, n) == HandleOf(s, n);
    }
  }

  lemma OneExpires(s: State, n: nat, t: State, m: nat)
    requires AllWait(s, n) && n < |s.pool.slots| && Effect(s, t, n, Requeues) && s.pool.Valid() && m == n + 1
    ensures AllWait(t, m) && |t.pool.slots| == |s.pool.slots|
  {
    SameOccupied(s, t, n);
    forall i: nat | i < |t.pool.slots|
      ensures WaitsAt(t, i, m)
    {
      ExpiredWait(s, t, n, i, m);
    }
  }

  lemma OneTimesOut(cfg: Config, slots: nat, events: seq<Event>, n: nat, m: nat)
    requires AllWait(After(cfg, slots, events), n) && n < |After(cfg, slots, events).pool.slots| && m == n + 1
    ensures var s, t := After(cfg, slots, events), After(cfg, slots, events + [Timer(n)]);
            AllWait(t, m) && |t.pool.slots| == |s.pool.slots|
  {
    var s := After(cfg, slots, events);
    Reachable(cfg, slots, events);
    assert WaitsAt(s, n, n);
    TimerEffect(cfg, s, n);
    OneExpires(s, n, TimerExpired(s, n), m);
    RunAppends(cfg, Initial(slots), events, [Timer(n)]);
    assert [Timer(n)][1..] == [];
  }

  lemma {:induction false} AllTimeOut(cfg: Config, slots: nat, events: seq<Event>, n: nat)
    requires AllWait(After(cfg, slots, events), 0) && n <= |After(cfg, slots, events).pool.slots|
    ensures var s, t := After(cfg, slots, events), After(cfg, slots, events + Timeouts(n));
            AllWait(t, n) && |t.pool.slots| == |s.pool.slots|
    decreases n
  {
    if n == 0 {
      assert events + [] == events;
    } else {
      AllTimeOut(cfg, slots, events, n - 1);
      OneTimesOut(cfg, slots, events + Timeouts(n - 1), n - 1, n);
      assert events + Timeouts(n - 1) + [Timer(n - 1)] == events + Timeouts(n);
    }
  }

  lemma WaitingIsJammed(cfg: Config, s: State, expired: nat)
    requires s.pool.Valid() && AllWait(s, expired)
    ensures Jammed(cfg, s) && Stuck(cfg, s)
  {
    forall i | i in s.pool.occupied
      ensures At(s, i).interest == Quiet
    {
      assert WaitsAt(s, i, expired);
    }
    assert Select(s, IsInFlight) == {};
    StuckByCurrent(cfg, s);
  }

  lemma AllRefused(cfg: Config, slots: nat, addresses: seq<Address>)
    requires slots == |addresses| > 0 && (forall n :: cfg.outcome(n) == InProgress)
    requires forall j, k :: 0 <= j < k < |addresses| ==> addresses[j] != addresses[k]
    ensures var s := After(cfg, slots, RefusedRun(slots, addresses));
            AllWait(s, 0) && s.attempts == slots && |s.pool.slots| == slots
  {
    var run := RefusedRun(slots, addresses);
    assert After(cfg, slots, []) == Initial(slots) && [] + run == run;
    FilledAll(cfg, slots, [], addresses, Initial(slots));
    Reachable(cfg, slots, run);
    FilledWait(cfg, After(cfg, slots, run));
  }

  lemma WaitsForever(cfg: Config, slots: nat, events: seq<Event>, expired: nat, more: seq<Event>)
    requires AllWait(After(cfg, slots, events), expired)
    ensures var s, t := After(cfg, slots, events), After(cfg, slots, events + more);
            Stuck(cfg, s) && t.pool.occupied == s.pool.occupied && t.attempts == s.attempts
  {
    Reachable(cfg, slots, events);
    WaitingIsJammed(cfg, After(cfg, slots, events), expired);
    JammedForGood(cfg, slots, events, more);
  }

  lemma AllQueued(cfg: Config, slots: nat, first: seq<Event>)
    requires AllWait(After(cfg, slots, first), 0) && |After(cfg, slots, first).pool.slots| == slots
    ensures var s := After(cfg, slots, first + Timeouts(slots));
            AllWait(s, slots) && |s.pool.slots| == slots && s.attempts == After(cfg, slots, first).attempts
  {
    WaitsForever(cfg, slots, first, 0, Timeouts(slots));
    AllTimeOut(cfg, slots, first, slots);
  }

  lemma QueuedAre(s: State, slots: nat)
    requires AllWait(s, slots) && |s.pool.slots| == slots
    ensures forall i: nat :: i < slots ==> At(s, i).state == Failed && HandleOf(s, i) in s.retry
  {
    forall i: nat | i < slots
      ensures At(s, i).state == Failed && HandleOf(s, i) in s.retry
    {
      assert WaitsAt(s, i, slots);
    }
  }

  /**
   * As many peers as there are slots are discovered, one after the other, and refuse; all their timers expire. Then
   * every slot holds a failed peer, every one of them is in the retry queue, and nobody comes back to any: nothing is
   * dialled, accepted or given up any more.
   */
  lemma RetriesNeverServed(cfg: Config, slots: nat, addresses: seq<Address>, more: seq<Event>)
    requires slots == |addresses| > 0 && (forall n :: cfg.outcome(n) == InProgress)
    requires forall j, k :: 0 <= j < k < |addresses| ==> addresses[j] != addresses[k]
    ensures var run := RefusedRun(slots, addresses) + Timeouts(slots);
            var s, t := After(cfg, slots, run), After(cfg, slots, run + more);
            && s.pool.free == [] && s.attempts == slots
            && (forall i: nat :: i < slots ==> At(s, i).state == Failed && HandleOf(s, i) in s.retry)
            && Stuck(cfg, s) && t.attempts == s.attempts && t.pool.occupied == s.pool.occupied
  {
    AllRefused(cfg, slots, addresses);
    AllQueued(cfg, slots, RefusedRun(slots, addresses));
    var run := RefusedRun(slots, addresses) + Timeouts(slots);
    QueuedAre(After(cfg, slots, run), slots);
    WaitsForever(cfg, slots, run, slots, more);
  }
}
