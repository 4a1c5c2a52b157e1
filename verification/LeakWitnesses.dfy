/** Runs in which an attempt of ours ends without being counted as over: one for each way, and one that uses up the
    limit. */
module LeakWitnesses {
  import opened Transport
  import opened Peers
  import opened ConnectionModel
  import opened ConnectionInvariant
  import opened ConnectionSteps
  import opened ConnectionRuns
  import opened SchedulerFates
  import opened PeerLifecycle
  import opened PeerLedger
  import opened InboundAccount
  import opened InboundLimit
  import opened OutboundAccount
  import opened ConnectedAccount
  import opened SchedulerStall
  import opened SchedulerRevival
  import opened StallWitnesses

  /** An event gives up an attempt while everything counted is under way: the run's first leak. */
  lemma FirstLeak(cfg: Config, slots: nat, events: seq<Event>, e: Event, s: State)
    requires s == After(cfg, slots, events) && WaitingReplaced(cfg, slots, events) == 0 && s.inbound <= InFlight(s)
    requires Enabled(s, e) && !e.Server? && Leaked(cfg, s, e) == 1
    ensures RunLeaks(cfg, Initial(slots), events + [e]) == 1
    ensures var t := After(cfg, slots, events + [e]); t.inbound == InFlight(t) + 1
  {
    var init := Initial(slots);
    InboundExactly(cfg, slots, events);
    LeaksAppend(cfg, init, events, [e]);
    TakeoversAppend(cfg, init, events, [e], TakesOverQuiet);
    assert [e][1..] == [];
    assert RunLeaks(cfg, s, [e]) == 1;
    TakeoversOfOne(cfg, s, e, TakesOverQuiet);
    InboundExactly(cfg, slots, events + [e]);
  }

  lemma {:induction false} NobodyAcceptedSoFar(cfg: Config, s: State, events: seq<Event>)
    requires forall e :: e in events ==> !e.Server?
    ensures RunTakeovers(cfg, s, events, TakesOverQuiet) == 0
    decreases |events|
  {
    if events != [] {
      NobodyAcceptedSoFar(cfg, Step(cfg, s, events[0]), events[1..]);
    }
  }

  /** The first attempt of a new manager is under way, from its last slot. */
  ghost predicate FirstUnderway(cfg: Config, s: State, slots: nat, address: Address) {
    slots > 0 && Inv(cfg, s) && OneUnderway(cfg, Initial(slots), s, slots - 1, address)
  }

  function Dialled1(address: Address): seq<Event> {
    [Discoveries([address]), Schedule]
  }

  lemma FirstIsUnderway(cfg: Config, slots: nat, address: Address)
    requires slots > 0 && cfg.outcome(0) == InProgress
    ensures FirstUnderway(cfg, After(cfg, slots, Dialled1(address)), slots, address)
  {
    InitialInv(cfg, slots);
    FillingDials(cfg, Initial(slots), slots - 1, address);
    Reachable(cfg, slots, Dialled1(address));
  }

  // ---------------------------------------------------------------------------
  // An invalid handshake
  // ---------------------------------------------------------------------------

  /** Nobody is in the pool, the scheduler stands at the discoveries, and so many attempts are counted. */
  ghost predicate Vacated(s: State, slots: nat, counted: nat) {
    && slots > 0 && |s.pool.slots| == slots && s.pool.occupied == {} && s.pool.free != []
    && s.pool.NextSlot() == slots - 1 && At(s, slots - 1) == Blank(NO_ERROR)
    && s.current == DiscoveredSpot && s.cache == [] && s.disconnects == [] && s.retry == []
    && s.inbound == counted && s.connected == 0
  }

  /** Discovered and dialled, the peer takes our handshake and answers with one for another torrent. */
  function ForeignDial(slots: nat, address: Address, io: Io): seq<Event>
    requires slots > 0
  {
    [Discoveries([address]), Schedule, Socket(slots - 1, WriteReady, Flowing([])), Socket(slots - 1, ReadReady, io)]
  }

  /** The discovery is dialled and is the only peer. */
  ghost predicate DialledAlone(s: State, slots: nat, counted: nat, address: Address) {
    && slots > 0 && |s.pool.slots| == slots && s.pool.occupied == {slots - 1}
    && At(s, slots - 1) == Dialled(address, InProgress)
    && s.cache == [] && s.disconnects == [] && s.retry == [] && s.inbound == counted && s.connected == 0
  }

  lemma AttemptAlone(cfg: Config, s: State, slots: nat, counted: nat, address: Address, t: State)
    requires Inv(cfg, s) && Vacated(s, slots, counted) && counted < MAX_INBOUND_INFLIGHT
    requires cfg.outcome(s.attempts) == InProgress && t == TryDiscovered(cfg, s, address).0
    ensures TryDiscovered(cfg, s, address).1 == Attempted && t.pool.free + [slots - 1] == s.pool.free
    ensures t.attempts == s.attempts + 1 && DialledAlone(t, slots, counted + 1, address)
  {
    NobodyRegistered(cfg, s, address);
    DialOne(cfg, s, address);
    OnlyOneHeld(s, t, slots - 1);
  }

  lemma OnlyOneHeld(s: State, t: State, i: nat)
    requires OnlySlot(s, t, i) && s.pool.occupied == {} && i in t.pool.occupied
    ensures t.pool.occupied == {i}
  {
    forall j: nat | j != i
      ensures j !in t.pool.occupied
    {
      assert SameElsewhere(s, t, j);
    }
  }

  lemma DialUpToLimit(cfg: Config, s: State, t: State)
    requires s.current == DiscoveredSpot && s.cache != [] && s.inbound + 1 == MAX_INBOUND_INFLIGHT && s.pool.free != []
    requires TryDiscovered(cfg, WithoutNewest(s), Newest(s)) == (t, Attempted)
    ensures RoundRobin(cfg, s).0 == t.(empties := s.empties[0 := false], current := DisconnectedSpot)
  {
    TryDiscoveredFrame(cfg, WithoutNewest(s), Newest(s));
    assert Turn(cfg, s).state == t.(empties := s.empties[0 := false]);
  }

  lemma DialLast(cfg: Config, s: State, address: Address, t: State)
    requires s.current == DiscoveredSpot && s.cache == [] && s.inbound + 1 == MAX_INBOUND_INFLIGHT && s.pool.free != []
    requires TryDiscovered(cfg, s, address) == (t, Attempted)
    ensures Run(cfg, s, [Discoveries([address]), Schedule])
         == t.(empties := s.empties[0 := false], current := DisconnectedSpot)
  {
    var u := s.(cache := [address]);
    OneDiscovered(cfg, s, address, u);
    DialUpToLimit(cfg, u, t);
    RunTwo(cfg, s, Discoveries([address]), Schedule);
  }

  lemma VacatedDials(cfg: Config, s: State, slots: nat, counted: nat, address: Address, u: State)
    requires Inv(cfg, s) && Vacated(s, slots, counted) && counted < MAX_INBOUND_INFLIGHT
    requires cfg.outcome(s.attempts) == InProgress && u == Run(cfg, s, [Discoveries([address]), Schedule])
    ensures DialledAlone(u, slots, counted + 1, address) && u.pool.free + [slots - 1] == s.pool.free
    ensures u.attempts == s.attempts + 1 && (counted + 1 < MAX_INBOUND_INFLIGHT ==> u.current == DiscoveredSpot)
  {
    var t := TryDiscovered(cfg, s, address).0;
    AttemptAlone(cfg, s, slots, counted, address, t);
    if counted + 1 < MAX_INBOUND_INFLIGHT {
      DialNew(cfg, s, address, t);
    } else {
      DialLast(cfg, s, address, t);
    }
  }

  lemma DialledGreets(cfg: Config, s: State, slots: nat, counted: nat, address: Address, t: State)
    requires Inv(cfg, s) && DialledAlone(s, slots, counted, address)
    requires t == Step(cfg, s, Socket(slots - 1, WriteReady, Flowing([])))
    ensures Visited(cfg, t, slots) && t.pool.free == s.pool.free && IsInFlight(At(t, slots - 1))
    ensures t == s.(pool := t.pool, faults := t.faults)
    ensures At(t, slots - 1).key == address && HandleOf(t, slots - 1) == HandleOf(s, slots - 1)
  {
    var i, e := slots - 1, Socket(slots - 1, WriteReady, Flowing([]));
    WriteShape(cfg, s, i);
    StepInv(cfg, s, e);
    SocketEffect(cfg, s, i, WriteReady, Flowing([]));
    WriteAll(cfg, s, i);
    SameOccupied(s, t, i);
    GreetKeepsStack(cfg, s, i, Flowing([]));
  }

  lemma GreetKeepsStack(cfg: Config, s: State, i: nat, io: Io)
    requires At(s, i).state == Discovered && !QuotaMet(s) && At(s, i).interest == Writable && !io.soError
    requires GreetPeer(cfg, At(s, i).(state := Handshaking), io.send).1
    ensures Step(cfg, s, Socket(i, WriteReady, io)).pool.free == s.pool.free
  {
  }

  lemma VacatedGreets(cfg: Config, s: State, slots: nat, counted: nat, address: Address, u: State)
    requires Inv(cfg, s) && Vacated(s, slots, counted) && counted < MAX_INBOUND_INFLIGHT
    requires cfg.outcome(s.attempts) == InProgress
    requires u == Step(cfg, Run(cfg, s, Dialled1(address)), Socket(slots - 1, WriteReady, Flowing([])))
    ensures Visited(cfg, u, slots) && IsInFlight(At(u, slots - 1)) && u.pool.free + [slots - 1] == s.pool.free
    ensures u.cache == [] && u.disconnects == [] && u.retry == [] && u.inbound == counted + 1
    ensures u.attempts == s.attempts + 1 && (counted + 1 < MAX_INBOUND_INFLIGHT ==> u.current == DiscoveredSpot)
  {
    var t := Run(cfg, s, Dialled1(address));
    RunKeeps(cfg, s, Dialled1(address));
    VacatedDials(cfg, s, slots, counted, address, t);
    DialledGreets(cfg, t, slots, counted + 1, address, u);
  }

  /** The answer is rejected, and the attempt that is over stays counted. */
  lemma ForeignForgotten(cfg: Config, s: State, slots: nat, torrent: Digest, peerId: Digest, t: State)
    requires Visited(cfg, s, slots) && IsInFlight(At(s, slots - 1)) && torrent != cfg.infoHash
    requires t == Step(cfg, s, Socket(slots - 1, ReadReady, Foreign(torrent, peerId)))
    ensures t == s.(pool := t.pool, peers := t.peers, faults := t.faults)
  {
    SocketEffect(cfg, s, slots - 1, ReadReady, Foreign(torrent, peerId));
    ForeignDrops(cfg, At(s, slots - 1), torrent, peerId);
  }

  lemma ForeignDrops(cfg: Config, p: Peer, torrent: Digest, peerId: Digest)
    requires p.state == Handshaking && p.recvBuf == [] && torrent != cfg.infoHash
    ensures SocketTurnout(cfg, false, p, ReadReady, Foreign(torrent, peerId)) == Drops
  {
    ForeignDecoded(cfg, p, torrent, peerId);
  }

  lemma GreetedVacates(cfg: Config, s: State, slots: nat, counted: nat, torrent: Digest, peerId: Digest, t: State)
    requires Visited(cfg, s, slots) && IsInFlight(At(s, slots - 1)) && torrent != cfg.infoHash
    requires s.current == DiscoveredSpot && s.cache == [] && s.disconnects == [] && s.retry == []
    requires s.inbound == counted
    requires t == Step(cfg, s, Socket(slots - 1, ReadReady, Foreign(torrent, peerId)))
    ensures Vacated(t, slots, counted) && t.pool.free == s.pool.free + [slots - 1] && t.attempts == s.attempts
  {
    ForeignForgotten(cfg, s, slots, torrent, peerId, t);
    ForeignDropped(cfg, s, slots, torrent, peerId);
  }

  lemma RunFour(cfg: Config, s: State, e: Event, f: Event, g: Event, h: Event)
    ensures Run(cfg, s, [e, f, g, h]) == Step(cfg, Step(cfg, Run(cfg, s, [e, f]), g), h)
  {
    assert [e, f, g, h] == [e, f] + [g, h];
    RunAppends(cfg, s, [e, f], [g, h]);
    RunTwo(cfg, Run(cfg, s, [e, f]), g, h);
  }

  /** One dial to a peer of another torrent: the pool is as before, the count one higher. */
  lemma ForeignDialled(cfg: Config, s: State, slots: nat, counted: nat, address: Address, torrent: Digest,
                       peerId: Digest, u: State)
    requires Inv(cfg, s) && Vacated(s, slots, counted) && counted < MAX_INBOUND_INFLIGHT && torrent != cfg.infoHash
    requires cfg.outcome(s.attempts) == InProgress
    requires u == Run(cfg, s, ForeignDial(slots, address, Foreign(torrent, peerId)))
    ensures u.pool.occupied == {} && u.inbound == counted + 1 && u.attempts == s.attempts + 1
    ensures counted + 1 < MAX_INBOUND_INFLIGHT ==> Vacated(u, slots, counted + 1)
  {
    var e, f := Discoveries([address]), Schedule;
    var g, h := Socket(slots - 1, WriteReady, Flowing([])), Socket(slots - 1, ReadReady, Foreign(torrent, peerId));
    RunFour(cfg, s, e, f, g, h);
    var v := Step(cfg, Run(cfg, s, [e, f]), g);
    VacatedGreets(cfg, s, slots, counted, address, v);
    if counted + 1 < MAX_INBOUND_INFLIGHT {
      GreetedVacates(cfg, v, slots, counted + 1, torrent, peerId, u);
    } else {
      ForeignForgotten(cfg, v, slots, torrent, peerId, u);
      ForeignDropped(cfg, v, slots, torrent, peerId);
    }
  }

  /** One after the other. */
  function ForeignDials(slots: nat, addresses: seq<Address>, io: Io): seq<Event>
    requires slots > 0
  {
    if addresses == [] then [] else ForeignDial(slots, addresses[0], io) + ForeignDials(slots, addresses[1..], io)
  }

  lemma {:induction false} ForeignDialsCount(cfg: Config, s: State, slots: nat, counted: nat, addresses: seq<Address>,
                                             torrent: Digest, peerId: Digest)
    requires Inv(cfg, s) && Vacated(s, slots, counted) && torrent != cfg.infoHash
    requires counted + |addresses| == MAX_INBOUND_INFLIGHT && addresses != []
    requires forall n :: cfg.outcome(n) == InProgress
    ensures var t := Run(cfg, s, ForeignDials(slots, addresses, Foreign(torrent, peerId)));
            t.pool.occupied == {} && t.inbound == MAX_INBOUND_INFLIGHT && t.attempts == s.attempts + |addresses|
    decreases |addresses|
  {
    var io, rest := Foreign(torrent, peerId), addresses[1..];
    var u := Run(cfg, s, ForeignDial(slots, addresses[0], io));
    ForeignDialled(cfg, s, slots, counted, addresses[0], torrent, peerId, u);
    RunAppends(cfg, s, ForeignDial(slots, addresses[0], io), ForeignDials(slots, rest, io));
    if rest == [] {
      assert ForeignDials(slots, rest, io) == [];
    } else {
      RunKeeps(cfg, s, ForeignDial(slots, addresses[0], io));
      ForeignDialsCount(cfg, u, slots, counted + 1, rest, torrent, peerId);
    }
  }

  lemma {:induction false} ForeignDialsAcceptNobody(slots: nat, addresses: seq<Address>, io: Io)
    requires slots > 0
    ensures forall e :: e in ForeignDials(slots, addresses, io) ==> !e.Server?
    decreases |addresses|
  {
    if addresses != [] {
      ForeignDialsAcceptNobody(slots, addresses[1..], io);
    }
  }

  /**
   * Thirty-five peers the tracker named turn out to serve another torrent: the limit is used up by attempts that are
   * over, the pool is empty, and nothing is ever dialled again.
   */
  lemma ForeignersUseUpTheLimit(cfg: Config, slots: nat, addresses: seq<Address>, torrent: Digest, peerId: Digest,
                                more: seq<Event>)
    requires slots > 0 && torrent != cfg.infoHash && |addresses| == 35
    requires forall n :: cfg.outcome(n) == InProgress
    ensures var run := ForeignDials(slots, addresses, Foreign(torrent, peerId));
            && UsedUp(cfg, slots, run) && After(cfg, slots, run).pool.occupied == {}
            && After(cfg, slots, run + more).attempts == After(cfg, slots, run).attempts == 35
  {
    var run, init := ForeignDials(slots, addresses, Foreign(torrent, peerId)), Initial(slots);
    InitialInv(cfg, slots);
    ForeignDialsCount(cfg, init, slots, 0, addresses, torrent, peerId);
    ForeignDialsAcceptNobody(slots, addresses, Foreign(torrent, peerId));
    NobodyAcceptedSoFar(cfg, init, run);
    InboundExactly(cfg, slots, run);
    var s := After(cfg, slots, run);
    assert Select(s, IsInFlight) == {} && Select(s, WaitsForRetry) == {};
    NothingDialledEver(cfg, slots, run, more);
  }

  /** Dialled and greeted, from a new manager. */
  function Greeted1(slots: nat, address: Address): seq<Event>
    requires slots > 0
  {
    Dialled1(address) + [Socket(slots - 1, WriteReady, Flowing([]))]
  }

  lemma FirstGreeted(cfg: Config, slots: nat, address: Address, v: State)
    requires slots > 0 && cfg.outcome(0) == InProgress && v == After(cfg, slots, Greeted1(slots, address))
    ensures Visited(cfg, v, slots) && IsInFlight(At(v, slots - 1)) && v.inbound == 1
  {
    var e := Socket(slots - 1, WriteReady, Flowing([]));
    InitialInv(cfg, slots);
    RunAppends(cfg, Initial(slots), Dialled1(address), [e]);
    RunOne(cfg, After(cfg, slots, Dialled1(address)), e);
    VacatedGreets(cfg, Initial(slots), slots, 0, address, v);
  }

  /** The first of these dials is a leak: an invalid handshake ends the attempt, which stays counted. */
  lemma InvalidHandshakeLeaks(cfg: Config, slots: nat, address: Address, torrent: Digest, peerId: Digest)
    requires slots > 0 && torrent != cfg.infoHash && cfg.outcome(0) == InProgress
    ensures var run := Greeted1(slots, address) + [Socket(slots - 1, ReadReady, Foreign(torrent, peerId))];
            var s := After(cfg, slots, run);
            RunLeaks(cfg, Initial(slots), run) == 1 && s.inbound == InFlight(s) + 1
  {
    var first := Greeted1(slots, address);
    FirstGreeted(cfg, slots, address, After(cfg, slots, first));
    GreetedAcceptsNobody(cfg, slots, address);
    GreetedLeaks(cfg, slots, first, torrent, peerId, After(cfg, slots, first));
  }

  lemma GreetedAcceptsNobody(cfg: Config, slots: nat, address: Address)
    requires slots > 0
    ensures WaitingReplaced(cfg, slots, Greeted1(slots, address)) == 0
  {
    NobodyAcceptedSoFar(cfg, Initial(slots), Greeted1(slots, address));
  }

  lemma GreetedLeaks(cfg: Config, slots: nat, first: seq<Event>, torrent: Digest, peerId: Digest, v: State)
    requires v == After(cfg, slots, first) && WaitingReplaced(cfg, slots, first) == 0 && torrent != cfg.infoHash
    requires Visited(cfg, v, slots) && IsInFlight(At(v, slots - 1)) && v.inbound == 1
    ensures var run := first + [Socket(slots - 1, ReadReady, Foreign(torrent, peerId))];
            var s := After(cfg, slots, run);
            RunLeaks(cfg, Initial(slots), run) == 1 && s.inbound == InFlight(s) + 1
  {
    GreetedLeaksOne(cfg, v, slots, torrent, peerId);
    FirstLeak(cfg, slots, first, Socket(slots - 1, ReadReady, Foreign(torrent, peerId)), v);
  }

  lemma GreetedLeaksOne(cfg: Config, v: State, slots: nat, torrent: Digest, peerId: Digest)
    requires Visited(cfg, v, slots) && IsInFlight(At(v, slots - 1)) && torrent != cfg.infoHash
    ensures var e := Socket(slots - 1, ReadReady, Foreign(torrent, peerId));
            Enabled(v, e) && Leaked(cfg, v, e) == 1 && InFlight(v) >= 1
  {
    ForeignDrops(cfg, At(v, slots - 1), torrent, peerId);
    Counted1(v, slots - 1);
    assert InFlight(v) >= 1;
  }

  // ---------------------------------------------------------------------------
  // A retry that times out while it connects
  // ---------------------------------------------------------------------------

  /** The rest of a wake-up after an attempt from one source, with nothing left in any. */
  lemma DryRound(cfg: Config, s: State, last: Spot)
    requires s.current == NextSpot(last) && !s.empties[Index(last)] && s.inbound < MAX_INBOUND_INFLIGHT
    requires s.cache == [] && s.disconnects == [] && s.retry == []
    ensures RoundRobin(cfg, s).0 == s.(empties := [true, true, true], current := last)
  {
    var t := Advanced(s);
    var u := Advanced(t);
    DryWakeUp(cfg, s);
    DryWakeUp(cfg, t);
    DryWakeUp(cfg, u);
    assert Flagged(u).empties == [true, true, true];
  }

  /** One peer has been dialled and has failed, and its retry is queued. */
  ghost predicate OneQueued(cfg: Config, s: State, i: nat, address: Address) {
    && Inv(cfg, s) && s.current == DiscoveredSpot && AllEmpty(s.empties) && s.cache == [] && s.disconnects == []
    && s.inbound == 0 && s.connected == 0 && s.attempts == 1 && s.pool.free != []
    && s.retry == [HandleOf(s, i)] && i in s.pool.occupied && s.peers.Keys <= {address}
    && At(s, i).state == Failed && At(s, i).source == Tracker && At(s, i).failures == 1 && At(s, i).key == address
  }

  lemma FailedQueued(s: State, t: State, i: nat)
    requires Effect(s, t, i, Requeues) && i in s.pool.occupied && s.pool.Valid() && s.pool.free != []
    ensures t.pool.free != [] && t.retry == s.retry + [HandleOf(t, i)] && i in t.pool.occupied
  {
    SameOccupied(s, t, i);
  }

  lemma FirstQueued(cfg: Config, slots: nat, address: Address, s: State, u: State, t: State)
    requires FirstUnderway(cfg, s, slots, address) && slots > 1
    requires u == Step(cfg, s, Socket(slots - 1, ErrorReady, QuietIo)) && t == Step(cfg, u, Timer(slots - 1))
    ensures OneQueued(cfg, t, slots - 1, address)
  {
    FirstRefused(cfg, slots, address, s, u);
    RefusedQueued(cfg, u, t, slots - 1, slots - 1, address);
  }

  lemma FirstRefused(cfg: Config, slots: nat, address: Address, s: State, u: State)
    requires FirstUnderway(cfg, s, slots, address) && u == Step(cfg, s, Socket(slots - 1, ErrorReady, QuietIo))
    ensures Inv(cfg, u) && Filling(u, slots - 1) && AllEmpty(u.empties) && u.attempts == 1
    ensures slots - 1 in u.pool.occupied && Unretried(At(u, slots - 1)) && u.peers.Keys <= {address}
    ensures At(u, slots - 1).failures == 1 && At(u, slots - 1).key == address
  {
    ErrorAfterDial(cfg, s, slots - 1, address);
    FillingRefused(cfg, Initial(slots), s, slots - 1, address, u);
  }

  lemma RefusedQueued(cfg: Config, u: State, t: State, i: nat, n: nat, address: Address)
    requires Inv(cfg, u) && Filling(u, n) && n > 0 && AllEmpty(u.empties) && u.attempts == 1
    requires i in u.pool.occupied && Unretried(At(u, i)) && u.peers.Keys <= {address} && t == Step(cfg, u, Timer(i))
    requires At(u, i).failures == 1 && At(u, i).key == address
    ensures OneQueued(cfg, t, i, address)
  {
    StepInv(cfg, u, Timer(i));
    TimerEffect(cfg, u, i);
    FailedQueued(u, t, i);
    SameKeys(cfg, u, t, i);
  }

  /** The retry is dialled again. */
  lemma RetryDialled(cfg: Config, s: State, u: State, i: nat)
    requires s.pool.Valid() && i in s.pool.occupied && At(s, i).state == Failed && At(s, i).source == Tracker
    requires s.retry == [HandleOf(s, i)] && u == s.(retry := []) && cfg.outcome(s.attempts) == InProgress
    ensures var (t, fate) := TryFailed(cfg, u, HandleOf(s, i));
            && fate == Attempted && OnlySlot(s, t, i) && i in t.pool.occupied && SameQueues(u, t)
            && At(t, i).state == Failed && At(t, i).timer && IsInFlight(At(t, i))
            && At(t, i).failures == At(s, i).failures && At(t, i).key == At(s, i).key && t.connected == s.connected
            && t.inbound == Up(s.inbound) && t.attempts == s.attempts + 1
  {
    assert Live(u, HandleOf(s, i)) && At(u, i) == At(s, i);
    AttemptShape(cfg, u, i);
    AttemptFrame(cfg, u, i);
    assert OnlySlot(s, u, i) by {
      assert forall j: nat :: SameElsewhere(s, u, j);
    }
    AttemptEffect(cfg, s, u, i);
    PutAt(u.(attempts := u.attempts + 1), i, Dial(At(u, i), InProgress).0);
  }

  /** A wake-up that dials a new discovery b and then the queued retry. */
  ghost predicate BothUnderway(s: State, i: nat, j: nat, a: Address) {
    && i != j && i in s.pool.occupied && j in s.pool.occupied && s.inbound == 2 && s.connected == 0 && s.attempts == 3
    && s.current == FailedSpot && AllEmpty(s.empties) && s.cache == [] && s.disconnects == [] && s.retry == []
    && At(s, i).failures == 1 && At(s, i).key == a
    && At(s, i).state == Failed && At(s, i).timer && IsInFlight(At(s, i)) && IsInFlight(At(s, j))
  }

  /** The discovery is dialled, the reports are found empty, and the retry is next. */
  lemma DiscoveryThenRetries(cfg: Config, s: State, b: Address, t: State)
    requires s.current == DiscoveredSpot && AllEmpty(s.empties) && s.cache == [] && s.disconnects == []
    requires s.inbound == 0 && s.pool.free != [] && TryDiscovered(cfg, s, b) == (t, Attempted) && SameQueues(s, t)
    requires t.inbound == 1
    ensures Run(cfg, s, [Discoveries([b]), Schedule])
         == RoundRobin(cfg, t.(empties := [false, true, true], current := FailedSpot)).0
  {
    DialDiscovery(cfg, s, b, t);
    DryReports(cfg, t.(empties := [false, true, true], current := DisconnectedSpot));
  }

  lemma DryReports(cfg: Config, s: State)
    requires s.current == DisconnectedSpot && s.empties == [false, true, true] && s.disconnects == []
    requires s.inbound < MAX_INBOUND_INFLIGHT
    ensures RoundRobin(cfg, s).0 == RoundRobin(cfg, s.(current := FailedSpot)).0
  {
    DryWakeUp(cfg, s);
    assert Advanced(s) == s.(current := FailedSpot);
  }

  /** The discovery is dialled, and the reports are next. */
  lemma DialDiscovery(cfg: Config, s: State, b: Address, t: State)
    requires s.current == DiscoveredSpot && AllEmpty(s.empties) && s.cache == [] && s.pool.free != []
    requires s.inbound == 0 && TryDiscovered(cfg, s, b) == (t, Attempted)
    ensures Run(cfg, s, [Discoveries([b]), Schedule])
         == RoundRobin(cfg, t.(empties := [false, true, true], current := DisconnectedSpot)).0
  {
    var u := s.(cache := [b]);
    OneDiscovered(cfg, s, b, u);
    DialFromAllEmpty(cfg, u, t);
    RunTwo(cfg, s, Discoveries([b]), Schedule);
  }

  lemma DialFromAllEmpty(cfg: Config, s: State, t: State)
    requires s.current == DiscoveredSpot && AllEmpty(s.empties) && s.cache != [] && s.pool.free != [] && s.inbound == 0
    requires TryDiscovered(cfg, WithoutNewest(s), Newest(s)) == (t, Attempted)
    ensures RoundRobin(cfg, s).0
         == RoundRobin(cfg, t.(empties := [false, true, true], current := DisconnectedSpot)).0
  {
    DialTurn(cfg, s, t);
    FirstUnset(s.empties);
  }

  lemma FirstUnset(empties: Flags)
    requires AllEmpty(empties)
    ensures empties[0 := false] == [false, true, true]
  {
  }

  lemma RetryTurn(cfg: Config, s: State, u: State, t: State)
    requires s.current == FailedSpot && s.inbound + 1 < MAX_INBOUND_INFLIGHT
    requires |s.retry| == 1 && u == s.(retry := []) && s.cache == [] && s.disconnects == []
    requires TryFailed(cfg, u, s.retry[0]) == (t, Attempted) && SameQueues(u, t) && t.inbound == s.inbound + 1
    ensures RoundRobin(cfg, s).0 == t.(empties := [true, true, true], current := FailedSpot)
  {
    assert WithoutRetry(s) == u;
    var v := t.(empties := s.empties[2 := false]);
    assert Turn(cfg, s).state == v;
    DryRound(cfg, v.(current := DiscoveredSpot), FailedSpot);
  }

  lemma RetryUnderway(cfg: Config, s: State, i: nat, a: Address, b: Address, t: State)
    requires OneQueued(cfg, s, i, a) && a != b && cfg.outcome(1) == cfg.outcome(2) == InProgress
    requires t == Run(cfg, s, [Discoveries([b]), Schedule])
    ensures BothUnderway(t, i, s.pool.NextSlot(), a)
  {
    var j, u := s.pool.NextSlot(), TryDiscovered(cfg, s, b).0;
    SecondDial(cfg, s, i, b, u);
    DiscoveryThenRetries(cfg, s, b, u);
    RetryFollows(cfg, s, u, u.(empties := [false, true, true], current := FailedSpot), i, j, a, t);
  }

  /** A second address is dialled, from another slot. */
  lemma SecondDial(cfg: Config, s: State, i: nat, b: Address, u: State)
    requires Inv(cfg, s) && s.pool.free != [] && b !in s.peers && cfg.outcome(s.attempts) == InProgress
    requires i in s.pool.occupied && u == TryDiscovered(cfg, s, b).0
    ensures var j := s.pool.NextSlot();
            && TryDiscovered(cfg, s, b).1 == Attempted && SameQueues(s, u)
            && i != j && SameElsewhere(s, u, i) && u.pool.Valid() && j in u.pool.occupied && IsInFlight(At(u, j))
            && u == s.(pool := u.pool, peers := s.peers[b := j], attempts := s.attempts + 1, inbound := Up(s.inbound))
  {
    var j := s.pool.NextSlot();
    assert j !in Registered(s, {}) && IsBlank(At(s, j));
    DialOne(cfg, s, b);
  }

  lemma RetryFollows(cfg: Config, s: State, u: State, v: State, i: nat, j: nat, a: Address, t: State)
    requires i != j && u.pool.Valid() && SameElsewhere(s, u, i) && i in s.pool.occupied && j in u.pool.occupied
    requires At(s, i).state == Failed && At(s, i).source == Tracker && IsInFlight(At(u, j))
    requires At(s, i).failures == 1 && At(s, i).key == a && u.connected == 0 && u.attempts == 2
    requires u.retry == [HandleOf(s, i)] && u.cache == [] && u.disconnects == [] && u.inbound == 1
    requires cfg.outcome(u.attempts) == InProgress
    requires v == u.(empties := [false, true, true], current := FailedSpot) && t == RoundRobin(cfg, v).0
    ensures BothUnderway(t, i, j, a)
  {
    var w := v.(retry := []);
    assert At(v, i) == At(s, i) && HandleOf(v, i) == HandleOf(s, i) && At(v, j) == At(u, j);
    RetryDialled(cfg, v, w, i);
    var x := TryFailed(cfg, w, HandleOf(s, i)).0;
    RetryTurn(cfg, v, w, x);
    assert SameElsewhere(v, x, j);
    assert At(t, i) == At(x, i) && At(t, j) == At(x, j);
  }

  /** A peer is dialled and refuses, and its retry is queued. */
  function QueuedRun(slots: nat, a: Address): seq<Event>
    requires slots > 0
  {
    Dialled1(a) + [Socket(slots - 1, ErrorReady, QuietIo), Timer(slots - 1)]
  }

  /** ... and a wake-up that dials a second peer dials it again. */
  function RetriedRun(slots: nat, a: Address, b: Address): seq<Event>
    requires slots > 0
  {
    QueuedRun(slots, a) + Dialled1(b)
  }

  lemma RetryQueued(cfg: Config, slots: nat, a: Address)
    requires slots > 1 && cfg.outcome(0) == InProgress
    ensures OneQueued(cfg, After(cfg, slots, QueuedRun(slots, a)), slots - 1, a)
  {
    var e, f := Socket(slots - 1, ErrorReady, QuietIo), Timer(slots - 1);
    var s := After(cfg, slots, Dialled1(a));
    FirstIsUnderway(cfg, slots, a);
    RunAppends(cfg, Initial(slots), Dialled1(a), [e, f]);
    RunTwo(cfg, s, e, f);
    FirstQueued(cfg, slots, a, s, Step(cfg, s, e), After(cfg, slots, QueuedRun(slots, a)));
  }

  lemma RetriedUnderway(cfg: Config, slots: nat, a: Address, b: Address) returns (j: nat)
    requires slots > 1 && a != b && cfg.outcome(0) == cfg.outcome(1) == cfg.outcome(2) == InProgress
    ensures BothUnderway(After(cfg, slots, RetriedRun(slots, a, b)), slots - 1, j, a)
  {
    var t := After(cfg, slots, QueuedRun(slots, a));
    RetryQueued(cfg, slots, a);
    RunAppends(cfg, Initial(slots), QueuedRun(slots, a), Dialled1(b));
    RetryUnderway(cfg, t, slots - 1, a, b, After(cfg, slots, RetriedRun(slots, a, b)));
    j := t.pool.NextSlot();
  }

  /** A retry that times out while it connects is queued again, and its attempt stays counted. */
  lemma RetryTimeoutLeaks(cfg: Config, slots: nat, a: Address, b: Address)
    requires slots > 1 && a != b && cfg.outcome(0) == cfg.outcome(1) == cfg.outcome(2) == InProgress
    ensures var run := RetriedRun(slots, a, b) + [Timer(slots - 1)];
            var s := After(cfg, slots, run);
            RunLeaks(cfg, Initial(slots), run) == 1 && s.inbound == InFlight(s) + 1
  {
    var first := RetriedRun(slots, a, b);
    var j := RetriedUnderway(cfg, slots, a, b);
    NobodyAcceptedSoFar(cfg, Initial(slots), first);
    TwoInFlight(After(cfg, slots, first), slots - 1, j);
    FirstLeak(cfg, slots, first, Timer(slots - 1), After(cfg, slots, first));
  }

  // ---------------------------------------------------------------------------
  // A quota met in the meantime
  // ---------------------------------------------------------------------------

  /** One attempt under way in slot i, the first n slots free and blank. */
  ghost predicate Crowding(s: State, n: nat, i: nat, a: Address) {
    && s.inbound == 1 && s.outbound == 0 && i in s.pool.occupied && At(s, i) == Dialled(a, InProgress)
    && |s.pool.free| == n && (forall k :: 0 <= k < n ==> s.pool.free[k] == k && At(s, k) == Blank(NO_ERROR))
  }

  /** An address connects to us from slot n, and its whole handshake arrives. */
  function Visit(cfg: Config, n: nat, address: Address, peerId: Digest): seq<Event> {
    [Server([Incoming(address)]), Socket(n, ReadReady, WholeHandshake(cfg, peerId))]
  }

  /** The accepted peer has the top slot, and the rest is as before. */
  ghost predicate VisitBegun(s: State, t: State, n: nat, address: Address) {
    && OnlySlot(s, t, n) && n in t.pool.occupied && At(t, n) == AcceptedPeer(address)
    && s.pool.free == t.pool.free + [n] && t.peers == s.peers[address := n]
    && t == s.(pool := t.pool, peers := t.peers, faults := t.faults, outbound := 1)
  }

  lemma VisitBegins(cfg: Config, s: State, n: nat, i: nat, a: Address, address: Address, t: State)
    requires Inv(cfg, s) && Crowding(s, n + 1, i, a) && address !in s.peers && !QuotaMet(s)
    requires t == Step(cfg, s, Server([Incoming(address)]))
    ensures Inv(cfg, t) && VisitBegun(s, t, n, address)
  {
    AcceptOne(cfg, s, address);
    AcceptedShape(s, n, address);
    assert forall j: nat :: j != n ==> SameElsewhere(s, t, j);
  }

  lemma VisitKeepsStack(cfg: Config, s: State, i: nat, address: Address, peerId: Digest)
    requires At(s, i) == AcceptedPeer(address) && !QuotaMet(s)
    ensures Step(cfg, s, Socket(i, ReadReady, WholeHandshake(cfg, peerId))).pool.free == s.pool.free
  {
    HandshakeConnects(cfg, address, peerId);
  }

  lemma VisitConnects(cfg: Config, s: State, t: State, n: nat, i: nat, a: Address, address: Address, peerId: Digest,
                      u: State)
    requires Inv(cfg, t) && Crowding(s, n + 1, i, a) && i != n && !QuotaMet(s) && VisitBegun(s, t, n, address)
    requires u == Step(cfg, t, Socket(n, ReadReady, WholeHandshake(cfg, peerId)))
    ensures Crowding(u, n, i, a) && u.connected == s.connected + 1 && u.peers.Keys <= s.peers.Keys + {address}
  {
    AcceptedConnects(cfg, t, n, address, peerId);
    VisitKeepsStack(cfg, t, n, address, peerId);
    SameKeys(cfg, t, u, n);
    assert SameElsewhere(s, t, i) && SameElsewhere(t, u, i);
    forall k | 0 <= k < n
      ensures u.pool.free[k] == k && At(u, k) == Blank(NO_ERROR)
    {
      assert SameElsewhere(s, t, k) && SameElsewhere(t, u, k);
    }
  }

  lemma VisitReplacesNobody(cfg: Config, s: State, n: nat, address: Address, peerId: Digest)
    requires address !in s.peers
    ensures RunTakeovers(cfg, s, Visit(cfg, n, address, peerId), TakesOverQuiet) == 0
  {
    var v := Visit(cfg, n, address, peerId);
    assert v[1..] == [v[1]] && [v[1]][1..] == [];
    OneArrivalReplaces(s, address);
    TakeoversOfOne(cfg, Step(cfg, s, v[0]), v[1], TakesOverQuiet);
  }

  lemma OneArrivalReplaces(s: State, address: Address)
    requires address !in s.peers
    ensures Takeovers(s, Server([Incoming(address)]), TakesOverQuiet) == 0
  {
    var arrivals := [Incoming(address)];
    assert arrivals[1..] == [];
    if !QuotaMet(s) && s.outbound < MAX_OUTBOUND_INFLIGHT && s.pool.free != [] {
      TakeOversNext(s, arrivals, TakesOverQuiet);
    }
  }

  /** One visitor after the other, each from the next free slot. */
  function Visits(cfg: Config, n: nat, addresses: seq<Address>, peerId: Digest): seq<Event>
    requires |addresses| <= n
    decreases |addresses|
  {
    if addresses == [] then []
    else Visit(cfg, n - 1, addresses[0], peerId) + Visits(cfg, n - 1, addresses[1..], peerId)
  }

  lemma OneVisit(cfg: Config, slots: nat, events: seq<Event>, n: nat, i: nat, a: Address, address: Address,
                 peerId: Digest, s: State, u: State)
    requires s == After(cfg, slots, events) && u == After(cfg, slots, events + Visit(cfg, n, address, peerId))
    requires Crowding(s, n + 1, i, a) && address !in s.peers && !QuotaMet(s)
    ensures Crowding(u, n, i, a) && u.connected == s.connected + 1 && u.peers.Keys <= s.peers.Keys + {address}
    ensures WaitingReplaced(cfg, slots, events + Visit(cfg, n, address, peerId)) == WaitingReplaced(cfg, slots, events)
  {
    var v := Visit(cfg, n, address, peerId);
    var t := Step(cfg, s, v[0]);
    Reachable(cfg, slots, events);
    HeldIsNotFree(s, i, n);
    VisitBegins(cfg, s, n, i, a, address, t);
    RunTwo(cfg, s, v[0], v[1]);
    RunAppends(cfg, Initial(slots), events, v);
    VisitConnects(cfg, s, t, n, i, a, address, peerId, u);
    VisitReplacesNobody(cfg, s, n, address, peerId);
    TakeoversAppend(cfg, Initial(slots), events, v, TakesOverQuiet);
  }

  lemma HeldIsNotFree(s: State, i: nat, n: nat)
    requires s.pool.Valid() && i in s.pool.occupied && |s.pool.free| == n + 1 && s.pool.free[n] == n
    ensures i != n
  {
  }

  lemma FirstVisit(cfg: Config, slots: nat, events: seq<Event>, n: nat, i: nat, a: Address, addresses: seq<Address>,
                   peerId: Digest, s: State) returns (next: seq<Event>)
    requires s == After(cfg, slots, events) && addresses != [] && |addresses| <= n
    requires Crowding(s, n, i, a) && Strangers(s, addresses) && !QuotaMet(s)
    ensures next + Visits(cfg, n - 1, addresses[1..], peerId) == events + Visits(cfg, n, addresses, peerId)
    ensures WaitingReplaced(cfg, slots, next) == WaitingReplaced(cfg, slots, events)
    ensures var t := After(cfg, slots, next);
            Crowding(t, n - 1, i, a) && Strangers(t, addresses[1..]) && t.connected == s.connected + 1
  {
    next := events + Visit(cfg, n - 1, addresses[0], peerId);
    OneVisit(cfg, slots, events, n - 1, i, a, addresses[0], peerId, s, After(cfg, slots, next));
    StillStrangers(s, After(cfg, slots, next), addresses);
  }

  lemma {:induction false} AllVisit(cfg: Config, slots: nat, events: seq<Event>, n: nat, i: nat, a: Address,
                                    addresses: seq<Address>, peerId: Digest, s: State)
    requires s == After(cfg, slots, events) && |addresses| <= n && s.connected + |addresses| <= HEALTHY_PEER_COUNT
    requires Crowding(s, n, i, a) && Strangers(s, addresses)
    ensures var run := events + Visits(cfg, n, addresses, peerId);
            var t := After(cfg, slots, run);
            && WaitingReplaced(cfg, slots, run) == WaitingReplaced(cfg, slots, events)
            && Crowding(t, n - |addresses|, i, a) && t.connected == s.connected + |addresses|
    decreases |addresses|
  {
    if addresses == [] {
      assert events + [] == events;
    } else {
      var next := FirstVisit(cfg, slots, events, n, i, a, addresses, peerId, s);
      AllVisit(cfg, slots, next, n - 1, i, a, addresses[1..], peerId, After(cfg, slots, next));
    }
  }

  /** A peer is dialled, and fifty others connect to us before it answers. */
  function CrowdedRun(cfg: Config, slots: nat, a: Address, addresses: seq<Address>, peerId: Digest): seq<Event>
    requires |addresses| < slots
  {
    Dialled1(a) + Visits(cfg, slots - 1, addresses, peerId)
  }

  lemma CrowdingBegins(cfg: Config, slots: nat, a: Address, addresses: seq<Address>)
    requires slots > 0 && cfg.outcome(0) == InProgress && a !in addresses
    requires forall j, k :: 0 <= j < k < |addresses| ==> addresses[j] != addresses[k]
    ensures var s := After(cfg, slots, Dialled1(a));
            Crowding(s, slots - 1, slots - 1, a) && Strangers(s, addresses) && s.connected == 0
  {
    var s := After(cfg, slots, Dialled1(a));
    FirstIsUnderway(cfg, slots, a);
    forall k | 0 <= k < slots - 1
      ensures s.pool.free[k] == k && At(s, k) == Blank(NO_ERROR)
    {
      assert SameElsewhere(Initial(slots), s, k) && (s.pool.free + [slots - 1])[k] == k;
    }
  }

  lemma Crowded(cfg: Config, slots: nat, a: Address, addresses: seq<Address>, peerId: Digest)
    requires |addresses| == 50 < slots && cfg.outcome(0) == InProgress && a !in addresses
    requires forall j, k :: 0 <= j < k < |addresses| ==> addresses[j] != addresses[k]
    ensures var run := CrowdedRun(cfg, slots, a, addresses, peerId);
            var s := After(cfg, slots, run);
            && WaitingReplaced(cfg, slots, run) == 0 && QuotaMet(s) && s.inbound == 1
            && slots - 1 in s.pool.occupied && At(s, slots - 1) == Dialled(a, InProgress)
  {
    CrowdingBegins(cfg, slots, a, addresses);
    NobodyAcceptedSoFar(cfg, Initial(slots), Dialled1(a));
    AllVisit(cfg, slots, Dialled1(a), slots - 1, slots - 1, a, addresses, peerId, After(cfg, slots, Dialled1(a)));
  }

  /** With the quota met by others, the attempt is given up at its next event, and stays counted. */
  lemma FullQuotaLeaks(cfg: Config, slots: nat, a: Address, addresses: seq<Address>, peerId: Digest, io: Io)
    requires |addresses| == 50 < slots && cfg.outcome(0) == InProgress && a !in addresses
    requires forall j, k :: 0 <= j < k < |addresses| ==> addresses[j] != addresses[k]
    ensures var run := CrowdedRun(cfg, slots, a, addresses, peerId) + [Socket(slots - 1, WriteReady, io)];
            var s := After(cfg, slots, run);
            RunLeaks(cfg, Initial(slots), run) == 1 && s.inbound == InFlight(s) + 1
  {
    var run := CrowdedRun(cfg, slots, a, addresses, peerId);
    Crowded(cfg, slots, a, addresses, peerId);
    DialledGivenUp(cfg, slots, run, slots - 1, a, io, After(cfg, slots, run));
  }

  lemma DialledGivenUp(cfg: Config, slots: nat, run: seq<Event>, i: nat, a: Address, io: Io, s: State)
    requires s == After(cfg, slots, run) && WaitingReplaced(cfg, slots, run) == 0 && QuotaMet(s) && s.inbound == 1
    requires i in s.pool.occupied && At(s, i) == Dialled(a, InProgress)
    ensures var t := After(cfg, slots, run + [Socket(i, WriteReady, io)]);
            RunLeaks(cfg, Initial(slots), run + [Socket(i, WriteReady, io)]) == 1 && t.inbound == InFlight(t) + 1
  {
    Counted1(s, i);
    FirstLeak(cfg, slots, run, Socket(i, WriteReady, io), s);
  }
}
