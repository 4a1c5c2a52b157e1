/** The connected count against the peers that are connected: its exact excess in every run, and a run that leaves it
    too high. */
module ConnectedAccount {
  import opened Handshake
  import opened Transport
  import opened SlotPool
  import opened Peers
  import opened ConnectionModel
  import opened ConnectionInvariant
  import opened ConnectionSteps
  import opened ConnectionRuns
  import opened SchedulerFates
  import opened PeerLifecycle
  import opened PeerLedger
  import opened InboundAccount

  /** How many of a run's accepts replaced a peer that was established. */
  ghost function ConnectedReplaced(cfg: Config, slots: nat, events: seq<Event>): nat {
    RunTakeovers(cfg, Initial(slots), events, TakesOverConnected)
  }

  /** The connected count is too high by exactly the number of established peers that accepts replaced. */
  lemma ConnectedExactly(cfg: Config, slots: nat, events: seq<Event>)
    ensures var s := After(cfg, slots, events);
            && s.connected == |ConnectedSlots(s)| + ConnectedReplaced(cfg, slots, events)
            && (s.connected == |ConnectedSlots(s)| <==> ConnectedReplaced(cfg, slots, events) == 0)
  {
    BooksAfter(cfg, slots, events);
    var s := After(cfg, slots, events);
    assert Select(s, IsConnected) == ConnectedSlots(s);
  }

  /** The excess is never paid back. */
  lemma ExcessStays(cfg: Config, slots: nat, events: seq<Event>, more: seq<Event>)
    ensures var s, t := After(cfg, slots, events), After(cfg, slots, events + more);
            t.connected - |ConnectedSlots(t)| >= s.connected - |ConnectedSlots(s)|
  {
    ConnectedExactly(cfg, slots, events);
    ConnectedExactly(cfg, slots, events + more);
    TakeoversAppend(cfg, Initial(slots), events, more, TakesOverConnected);
  }

  // ---------------------------------------------------------------------------
  // A run that leaves the count too high
  // ---------------------------------------------------------------------------

  function AcceptedPeer(address: Address): Peer {
    Armed(Initialized(Blank(NO_ERROR), address, TcpServer, Handshaking), Readable)
  }

  /** The peer's whole handshake arrives at once, and ours leaves at once. */
  function WholeHandshake(cfg: Config, peerId: Digest): Io {
    Io(false, Sent(LENGTH), Delivered(Message(cfg.infoHash, peerId)))
  }

  lemma FirstAccept(cfg: Config, slots: nat, address: Address)
    requires slots > 1
    ensures var s := Step(cfg, Initial(slots), Server([Incoming(address)]));
            && Inv(cfg, s) && s.pool.occupied == {slots - 1} && At(s, slots - 1) == AcceptedPeer(address)
            && HandleOf(s, slots - 1) == Handle(slots - 1, 0) && s.pool.free != [] && s.connected == 0
            && s.connects == []
            && s == Initial(slots).(pool := s.pool, peers := s.peers, faults := s.faults, outbound := 1)
  {
    var init := Initial(slots);
    InitialInv(cfg, slots);
    NewPoolValid(slots, Blank(NO_ERROR));
    AcceptOne(cfg, init, address);
    ReservingOnly(init);
    AdmitOnly(Reserving(init), slots - 1, address);
    var s := AcceptIncoming(init, address);
    assert s.pool.free == init.pool.free[..slots - 1];
  }

  lemma HandshakeConnects(cfg: Config, address: Address, peerId: Digest)
    ensures SocketTurnout(cfg, false, AcceptedPeer(address), ReadReady, WholeHandshake(cfg, peerId)) == Connects
  {
    var p, m := AcceptedPeer(address), Message(cfg.infoHash, peerId);
    var (q, ok) := RecvMessages(p, Delivered(m));
    assert [] + m == m && m[..LENGTH] == m && m + [] == m;
    MessageDecodes(cfg.infoHash, peerId, cfg.infoHash, p.peerId, []);
    var d := DecodeFrom(q.recvBuf, cfg.infoHash, q.peerId);
    WholeGreeting(cfg, DecodedPeer(q, d));
  }

  lemma WholeGreeting(cfg: Config, p: Peer)
    requires p.sendBuf == []
    ensures GreetTurnout(GreetPeer(cfg, p, Sent(LENGTH)), true) == Connects
  {
    assert [] + cfg.Greeting()[0..LENGTH] == cfg.Greeting();
    assert cfg.Greeting()[LENGTH..] == [];
  }

  lemma AcceptedConnects(cfg: Config, s: State, i: nat, address: Address, peerId: Digest)
    requires Inv(cfg, s) && i in s.pool.occupied && At(s, i) == AcceptedPeer(address) && !QuotaMet(s)
    ensures var t := Step(cfg, s, Socket(i, ReadReady, WholeHandshake(cfg, peerId)));
            && Inv(cfg, t) && OnlySlot(s, t, i) && StillHeld(s, t, i) && At(t, i).state == Connected
            && t.pool.occupied == s.pool.occupied
            && At(t, i).key == address
            && t == s.(pool := t.pool, faults := t.faults, outbound := Down(s.outbound), connected := s.connected + 1,
                       connects := s.connects + [HandleOf(s, i)])
  {
    var e := Socket(i, ReadReady, WholeHandshake(cfg, peerId));
    StepInv(cfg, s, e);
    SocketEffect(cfg, s, i, ReadReady, WholeHandshake(cfg, peerId));
    HandshakeConnects(cfg, address, peerId);
    AcceptedEffect(s, Step(cfg, s, e), i, address);
  }

  lemma AcceptedEffect(s: State, t: State, i: nat, address: Address)
    requires Effect(s, t, i, Connects) && i in s.pool.occupied && At(s, i) == AcceptedPeer(address) && !QuotaMet(s)
    ensures t.pool.occupied == s.pool.occupied && At(t, i).key == address
    ensures t == s.(pool := t.pool, faults := t.faults, outbound := Down(s.outbound), connected := s.connected + 1,
                    connects := s.connects + [HandleOf(s, i)])
  {
    SameOccupied(s, t, i);
  }

  lemma SameOccupied(s: State, t: State, i: nat)
    requires OnlySlot(s, t, i) && i in s.pool.occupied && i in t.pool.occupied
    ensures t.pool.occupied == s.pool.occupied
  {
    forall j: nat
      ensures j in t.pool.occupied <==> j in s.pool.occupied
    {
      if j != i {
        assert SameElsewhere(s, t, j);
      }
    }
  }

  /** An accept, a whole handshake, and a second accept from the same address. */
  function ReplacingRun(cfg: Config, slots: nat, address: Address, peerId: Digest): seq<Event>
    requires slots > 0
  {
    [Server([Incoming(address)]), Socket(slots - 1, ReadReady, WholeHandshake(cfg, peerId)),
     Server([Incoming(address)])]
  }

  /** What the second accept of the run meets. */
  ghost predicate OneConnected(cfg: Config, s: State, slots: nat, address: Address) {
    && slots > 1 && Inv(cfg, s) && s.pool.occupied == {slots - 1} && s.pool.free != []
    && At(s, slots - 1).source == TcpServer && HandleOf(s, slots - 1) == Handle(slots - 1, 0)
    && TakesOverConnected(s, address) && s.peers[address] == slots - 1
    && s == Initial(slots).(pool := s.pool, peers := s.peers, faults := s.faults, outbound := 0,
                            connected := 1, connects := [Handle(slots - 1, 0)])
  }

  lemma FirstConnects(cfg: Config, slots: nat, address: Address, peerId: Digest)
    requires slots > 1
    ensures var run := ReplacingRun(cfg, slots, address, peerId);
            OneConnected(cfg, Step(cfg, Step(cfg, Initial(slots), run[0]), run[1]), slots, address)
  {
    FirstAccept(cfg, slots, address);
    AcceptedIsConnected(cfg, Step(cfg, Initial(slots), Server([Incoming(address)])), slots, address, peerId);
  }

  lemma RegisteredUnder(cfg: Config, s: State, i: nat)
    requires Inv(cfg, s) && i in s.pool.occupied
    ensures At(s, i).key in s.peers && s.peers[At(s, i).key] == i
  {
    assert i in Registered(s, {});
  }

  lemma AcceptedIsConnected(cfg: Config, s: State, slots: nat, address: Address, peerId: Digest)
    requires slots > 1 && Inv(cfg, s) && s.pool.occupied == {slots - 1} && At(s, slots - 1) == AcceptedPeer(address)
    requires HandleOf(s, slots - 1) == Handle(slots - 1, 0) && s.pool.free != []
    requires s == Initial(slots).(pool := s.pool, peers := s.peers, faults := s.faults, outbound := 1)
    ensures OneConnected(cfg, Step(cfg, s, Socket(slots - 1, ReadReady, WholeHandshake(cfg, peerId))), slots, address)
  {
    var i := slots - 1;
    AcceptedConnects(cfg, s, i, address, peerId);
    var t := Step(cfg, s, Socket(i, ReadReady, WholeHandshake(cfg, peerId)));
    FreeRemains(s, t, i);
    RegisteredUnder(cfg, t, i);
    assert t.connects == [Handle(i, 0)];
  }

  lemma SecondAccept(cfg: Config, s: State, slots: nat, address: Address)
    requires OneConnected(cfg, s, slots, address)
    ensures var t := Step(cfg, s, Server([Incoming(address)]));
            && !Live(t, Handle(slots - 1, 0))
            && t == s.(pool := t.pool, peers := t.peers, faults := t.faults, outbound := t.outbound)
  {
    AcceptOne(cfg, s, address);
    var t := Step(cfg, s, Server([Incoming(address)]));
    UnheldIsStale(cfg, t, t.connects[0]);
  }

  /** After it one peer is counted as connected, and the only update about it can no longer be live. */
  lemma ReplacingRunEnds(cfg: Config, slots: nat, address: Address, peerId: Digest)
    requires slots > 1
    ensures var run := ReplacingRun(cfg, slots, address, peerId);
            var s := After(cfg, slots, run);
            && ConnectedReplaced(cfg, slots, run) == 1
            && s.connects == [Handle(slots - 1, 0)] && !Live(s, s.connects[0])
            && s == Initial(slots).(pool := s.pool, peers := s.peers, faults := s.faults, outbound := s.outbound,
                                    connected := 1, connects := s.connects)
  {
    var init, run := Initial(slots), ReplacingRun(cfg, slots, address, peerId);
    FirstConnects(cfg, slots, address, peerId);
    var s := Step(cfg, Step(cfg, init, run[0]), run[1]);
    SecondAccept(cfg, s, slots, address);
    RunThree(cfg, init, run[0], run[1], run[2]);
    OneTakeover(cfg, init, run[0], run[1], run[2], address, s);
  }

  lemma UnheldIsStale(cfg: Config, s: State, h: Handle)
    requires Inv(cfg, s) && h in s.connects && h.slot !in s.pool.occupied
    ensures !Live(s, h)
  {
    assert h in Unanswered(s) && HandleOk(s, {}, h);
  }

  lemma OneTakeover(cfg: Config, s: State, e: Event, f: Event, g: Event, address: Address, t: State)
    requires e == g == Server([Incoming(address)]) && f.Socket?
    requires address !in s.peers && t == Step(cfg, Step(cfg, s, e), f) && TakesOverConnected(t, address)
    requires !QuotaMet(t) && t.outbound < MAX_OUTBOUND_INFLIGHT && t.pool.free != []
    ensures RunTakeovers(cfg, s, [e, f, g], TakesOverConnected) == 1
  {
    var s1 := Step(cfg, s, e);
    var s2 := Step(cfg, s1, f);
    assert [e, f, g][1..] == [f, g] && [f, g][1..] == [g] && [g][1..] == [];
    assert RunTakeovers(cfg, s2, [g], TakesOverConnected) == Takeovers(s2, g, TakesOverConnected) + 0;
    assert RunTakeovers(cfg, s1, [f, g], TakesOverConnected) == 0 + RunTakeovers(cfg, s2, [g], TakesOverConnected);
    OneArrival(s, address);
    OneArrival(s2, address);
  }

  lemma OneArrival(s: State, address: Address)
    ensures Takeovers(s, Server([Incoming(address)]), TakesOverConnected) ==
              One(!QuotaMet(s) && s.outbound < MAX_OUTBOUND_INFLIGHT && s.pool.free != []
                  && TakesOverConnected(s, address))
  {
    var arrivals := [Incoming(address)];
    assert arrivals[1..] == [];
    if !QuotaMet(s) && s.outbound < MAX_OUTBOUND_INFLIGHT && s.pool.free != [] {
      TakeOversNext(s, arrivals, TakesOverConnected);
    }
  }

  // ---------------------------------------------------------------------------
  // ... for good
  // ---------------------------------------------------------------------------

  /** The transfer side reports the lost connection, and the scheduler wakes up. */
  function Aftermath(slots: nat, perrno: int): seq<Event>
    requires slots > 0
  {
    [TransferTakes, TransferReports(Handle(slots - 1, 0), perrno), Schedule]
  }

  /** A wake-up that finds one stale disconnect update and nothing else. */
  lemma StaleWakeUp(cfg: Config, s: State)
    requires s.current == DiscoveredSpot && s.empties == [false, false, false] && s.inbound < MAX_INBOUND_INFLIGHT
    requires s.cache == [] && s.retry == [] && |s.disconnects| == 1 && !Live(s, s.disconnects[0].handle)
    ensures RoundRobin(cfg, s).0 == s.(disconnects := [], empties := [true, true, true], current := FailedSpot)
  {
    DryWakeUp(cfg, s);
    var t := Advanced(s);
    assert t == s.(empties := [true, false, false], current := DisconnectedSpot);
    var u := t.(disconnects := []);
    assert WithoutReport(t) == u && TryDisconnected(cfg, u, t.disconnects[0].handle) == (u, Stale);
    assert DrainLoop(cfg, u, DisconnectedSpot) == Drained(u, false, []);
    assert Turn(cfg, t).state == u.(empties := [true, true, false]);
    var v := u.(empties := [true, true, false], current := FailedSpot);
    assert RoundRobin(cfg, t).0 == RoundRobin(cfg, v).0;
    DryWakeUp(cfg, v);
    assert Flagged(v).empties == [true, true, true];
  }

  lemma AftermathEnds(cfg: Config, s: State, slots: nat, perrno: int)
    requires slots > 0 && s.connects == [Handle(slots - 1, 0)] && !Live(s, s.connects[0]) && s.connected == 1
    requires s.current == DiscoveredSpot && s.empties == [false, false, false] && s.inbound == 0
    requires s.cache == [] && s.retry == [] && s.disconnects == [] && s.sessions == multiset{}
    ensures var t := Run(cfg, s, Aftermath(slots, perrno));
            t.connected == 1 && t.connects == [] && t.sessions == multiset{} && t.disconnects == []
    ensures RunTakeovers(cfg, s, Aftermath(slots, perrno), TakesOverConnected) == 0
  {
    var h := Handle(slots - 1, 0);
    var e, f, g := TransferTakes, TransferReports(h, perrno), Schedule;
    var t := s.(connects := [], sessions := multiset{h});
    assert Step(cfg, s, e) == t;
    var u := s.(connects := [], disconnects := [Update(h, perrno)]);
    assert multiset{h} - multiset{h} == multiset{};
    assert Step(cfg, t, f) == u;
    StaleWakeUp(cfg, u);
    RunThree(cfg, s, e, f, g);
    assert [e, f, g][1..] == [f, g] && [f, g][1..] == [g] && [g][1..] == [];
    assert RunTakeovers(cfg, u, [g], TakesOverConnected) == 0;
    assert RunTakeovers(cfg, t, [f, g], TakesOverConnected) == 0;
  }

  /**
   * A reachable excess: a peer connects, its address is accepted again, and its loss is reported and scheduled. One
   * peer stays counted, no slot is connected and no update is left; and whatever follows, the count stays too high.
   */
  lemma CountTooHighForGood(cfg: Config, slots: nat, address: Address, peerId: Digest, perrno: int,
                           more: seq<Event>)
    requires slots > 1
    ensures var run := ReplacingRun(cfg, slots, address, peerId) + Aftermath(slots, perrno);
            var s, t := After(cfg, slots, run), After(cfg, slots, run + more);
            && s.connected == 1 && ConnectedSlots(s) == {} && Unanswered(s) == multiset{}
            && t.connected > |ConnectedSlots(t)|
  {
    var init, first := Initial(slots), ReplacingRun(cfg, slots, address, peerId);
    var run := first + Aftermath(slots, perrno);
    ReplacingRunEnds(cfg, slots, address, peerId);
    AftermathEnds(cfg, After(cfg, slots, first), slots, perrno);
    RunAppends(cfg, init, first, Aftermath(slots, perrno));
    TakeoversAppend(cfg, init, first, Aftermath(slots, perrno), TakesOverConnected);
    ConnectedExactly(cfg, slots, run);
    ExcessStays(cfg, slots, run, more);
  }
}
