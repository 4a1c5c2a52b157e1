/** The outbound count against the accepted peers in their handshake: its exact excess in every run, and what becomes of
    a manager whose excess has reached the limit. */
module OutboundAccount {
  import opened Handshake
  import opened Transport
  import opened Peers
  import opened ConnectionModel
  import opened ConnectionInvariant
  import opened ConnectionSteps
  import opened ConnectionRuns
  import opened SchedulerFates
  import opened PeerLifecycle
  import opened PeerLedger
  import opened InboundAccount

  /** By how much `outbound` exceeds the accepted peers in their handshake. */
  ghost function Excess(s: State): int {
    s.outbound - |Select(s, Awaiting)|
  }

  lemma WaitingSelected(s: State)
    ensures Waiting(s, {}) == Select(s, Awaiting)
  {
  }

  // ---------------------------------------------------------------------------
  // One peer's callback
  // ---------------------------------------------------------------------------

  /** An accepted peer deleted in its handshake without `outbound` being decremented. */
  predicate Forgets(p: Peer, turnout: Turnout) {
    Awaiting(p) && turnout == Drops
  }

  lemma EffectExcess(s: State, t: State, i: nat, turnout: Turnout)
    requires Effect(s, t, i, turnout) && i in s.pool.occupied && |Select(s, Awaiting)| <= s.outbound
    requires At(s, i).source == Tracker || Awaiting(At(s, i))
    requires turnout == Requeues ==> At(s, i).source == Tracker
    ensures Excess(t) == Excess(s) + One(Forgets(At(s, i), turnout))
  {
    SelectMoved(s, t, i, Awaiting);
    if Awaiting(At(s, i)) {
      assert Select(s, Awaiting) == {i} + (Select(s, Awaiting) - {i});
    }
  }

  // ---------------------------------------------------------------------------
  // The scheduler and the accept loop
  // ---------------------------------------------------------------------------

  lemma TriedExcess(s: State, t: State, item: Item, fate: Fate, i: nat)
    requires Tried(s, t, item, fate, i) && (fate != Stale && i in s.pool.occupied ==> !Awaiting(At(s, i)))
    ensures Excess(t) == Excess(s)
  {
    SelectMoved(s, t, i, Awaiting);
  }

  lemma SamePoolExcess(s: State, t: State)
    requires t.pool == s.pool && t.outbound == s.outbound
    ensures Excess(t) == Excess(s)
  {
    assert Select(t, Awaiting) == Select(s, Awaiting);
  }

  lemma TryExcess(cfg: Config, s: State, spot: Spot)
    requires Inv(cfg, s) && Pending(s, spot) > 0 && (spot == DiscoveredSpot ==> s.pool.free != [])
    ensures var (s1, item) := Pop(s, spot); Excess(Try(cfg, s1, item).0) == Excess(s)
  {
    var (s1, item) := Pop(s, spot);
    var (t, fate) := Try(cfg, s1, item);
    TryEffect(cfg, s, spot);
    PoppedSlot(cfg, s, spot);
    SamePoolExcess(s, s1);
    var i := SlotOf(s1, item);
    if fate != Stale && i in s1.pool.occupied {
      assert At(s1, i) == At(s, i) && i in Registered(s, {});
    }
    TriedExcess(s1, t, item, fate, i);
  }

  lemma {:induction false} DrainExcess(cfg: Config, s: State, spot: Spot)
    requires Inv(cfg, s) && (spot == DiscoveredSpot ==> s.pool.free != [])
    ensures Excess(DrainLoop(cfg, s, spot).state) == Excess(s)
    decreases Pending(s, spot)
  {
    if Pending(s, spot) > 0 {
      var (s1, item) := Pop(s, spot);
      var (t, fate) := Try(cfg, s1, item);
      TryFrame(cfg, s1, item);
      TryKeeps(cfg, s, spot);
      TryExcess(cfg, s, spot);
      if fate != Attempted {
        if spot == DiscoveredSpot {
          InvFrame(cfg, s, s1);
          DiscoveryReturnsSlot(cfg, s1, item.address);
        }
        DrainExcess(cfg, t, spot);
      }
    }
  }

  lemma TurnExcess(cfg: Config, s: State)
    requires Inv(cfg, s)
    ensures Excess(Turn(cfg, s).state) == Excess(Turn(cfg, s).state.(current := NextSpot(s.current))) == Excess(s)
  {
    var d := DrainSpot(cfg, s, s.current).state;
    if s.current != DiscoveredSpot || s.pool.free != [] {
      DrainExcess(cfg, s, s.current);
    }
    var t := Turn(cfg, s).state;
    SamePoolExcess(d, t);
    SamePoolExcess(t, t.(current := NextSpot(s.current)));
  }

  lemma {:induction false} WakeUpExcess(cfg: Config, s: State)
    requires Inv(cfg, s)
    ensures Excess(RoundRobin(cfg, s).0) == Excess(s)
    decreases Room(s), UnsetFlags(s.empties), Distance(s.current, s.empties)
  {
    if s.inbound < MAX_INBOUND_INFLIGHT {
      TurnProgress(cfg, s);
      TurnKeeps(cfg, s);
      TurnExcess(cfg, s);
      var t := Turn(cfg, s).state;
      if !AllEmpty(t.empties) {
        WakeUpExcess(cfg, t.(current := NextSpot(s.current)));
      }
    }
  }

  /** A pending peer that came through the server is in its handshake. */
  ghost predicate PendingAwaits(s: State, address: Address) {
    address in s.peers ==>
      && s.peers[address] in s.pool.occupied
      && (ReplacesPending(s, address) && At(s, s.peers[address]).source == TcpServer
          <==> Awaiting(At(s, s.peers[address])))
  }

  lemma AllPendingAwait(cfg: Config, s: State, address: Address)
    requires Inv(cfg, s)
    ensures PendingAwaits(s, address)
  {
    if address in s.peers {
      assert s.peers[address] in Registered(s, {}) && PeerOk(cfg, At(s, s.peers[address]));
    }
  }

  /** The new peer of the address is counted, and an old one in its handshake is counted no longer. */
  lemma AdmittedExcess(s: State, t: State, address: Address, slot: nat)
    requires Admitted(s, t, address, slot) && PendingAwaits(s, address)
    ensures Excess(t) == Excess(s)
  {
    var gone := if address in s.peers && Awaiting(At(s, s.peers[address])) then {s.peers[address]} else {};
    AcceptedSelect(s, t, address, slot, Awaiting, gone, {slot});
  }

  lemma AcceptExcess(cfg: Config, s: State, address: Address)
    requires Inv(cfg, s) && s.pool.free != [] && s.outbound < MAX_OUTBOUND_INFLIGHT
    ensures Excess(AcceptIncoming(s, address)) == Excess(s)
  {
    AcceptEffect(cfg, s, address);
    AllPendingAwait(cfg, s, address);
    AdmittedExcess(s, AcceptIncoming(s, address), address, s.pool.NextSlot());
  }

  lemma {:induction false} ServerExcess(cfg: Config, s: State, arrivals: seq<AcceptOutcome>)
    requires Inv(cfg, s)
    ensures Excess(ServerReady(s, arrivals)) == Excess(s)
    decreases |arrivals|
  {
    if arrivals != [] && !QuotaMet(s) && s.outbound < MAX_OUTBOUND_INFLIGHT {
      if arrivals[0].Incoming? && s.pool.free != [] {
        IncomingKeeps(cfg, s, arrivals[0].address);
        AcceptExcess(cfg, s, arrivals[0].address);
        ServerExcess(cfg, AcceptIncoming(s, arrivals[0].address), arrivals[1..]);
      } else if Accept(s, arrivals[0]).1 {
        ServerExcess(cfg, s, arrivals[1..]);
      }
    }
  }

  // ---------------------------------------------------------------------------
  // Events and runs
  // ---------------------------------------------------------------------------

  /** Accepted peers the event deletes in their handshake without decrementing `outbound`. */
  function Forgotten(cfg: Config, s: State, e: Event): nat {
    match e
    case Socket(i, ready, io) =>
      One(Enabled(s, e) && |At(s, i).recvBuf| <= LENGTH
          && Forgets(At(s, i), SocketTurnout(cfg, QuotaMet(s), At(s, i), ready, io)))
    case _ => 0
  }

  lemma Armable(cfg: Config, s: State, i: nat)
    requires Inv(cfg, s) && (At(s, i).interest != Quiet || At(s, i).timer)
    ensures i in s.pool.occupied && |At(s, i).recvBuf| <= LENGTH && |Select(s, Awaiting)| <= s.outbound
    ensures At(s, i).source == Tracker || Awaiting(At(s, i))
  {
    ArmedOpened(cfg, s, i);
    WaitingSelected(s);
    assert i in Registered(s, {});
  }

  lemma StepExcess(cfg: Config, s: State, e: Event)
    requires Inv(cfg, s)
    ensures Excess(Step(cfg, s, e)) == Excess(s) + Forgotten(cfg, s, e)
  {
    if Enabled(s, e) {
      match e
      case Socket(i, ready, io) =>
        Armable(cfg, s, i);
        SocketEffect(cfg, s, i, ready, io);
        SocketNeverRequeues(cfg, QuotaMet(s), At(s, i), ready, io);
        EffectExcess(s, Step(cfg, s, e), i, SocketTurnout(cfg, QuotaMet(s), At(s, i), ready, io));
      case Timer(i) =>
        Armable(cfg, s, i);
        TimerEffect(cfg, s, i);
        EffectExcess(s, Step(cfg, s, e), i, TimerTurnout(At(s, i)));
      case Server(arrivals) => ServerExcess(cfg, s, arrivals);
      case Schedule => WakeUpExcess(cfg, s);
      case _ => SamePoolExcess(s, Apply(cfg, s, e));
    }
  }

  ghost function RunForgotten(cfg: Config, s: State, events: seq<Event>): nat
    decreases |events|
  {
    if events == [] then 0 else Forgotten(cfg, s, events[0]) + RunForgotten(cfg, Step(cfg, s, events[0]), events[1..])
  }

  lemma {:induction false} RunExcess(cfg: Config, s: State, events: seq<Event>)
    requires Inv(cfg, s)
    ensures Excess(Run(cfg, s, events)) == Excess(s) + RunForgotten(cfg, s, events)
    decreases |events|
  {
    if events != [] {
      StepInv(cfg, s, events[0]);
      StepExcess(cfg, s, events[0]);
      RunExcess(cfg, Step(cfg, s, events[0]), events[1..]);
    }
  }

  /**
   * After every run outbound_inflight is the number of accepted peers in their handshake plus the number of accepted
   * peers the run deleted in it, for an invalid handshake or because the quota was met.
   */
  lemma OutboundExactly(cfg: Config, slots: nat, events: seq<Event>)
    ensures var s, forgotten := After(cfg, slots, events), RunForgotten(cfg, Initial(slots), events);
            && s.outbound == |Waiting(s, {})| + forgotten && s.outbound <= 15
            && (s.outbound == |Waiting(s, {})| <==> forgotten == 0)
  {
    var init := Initial(slots);
    InitialInv(cfg, slots);
    assert Select(init, Awaiting) == {};
    RunExcess(cfg, init, events);
    Reachable(cfg, slots, events);
    WaitingSelected(After(cfg, slots, events));
  }

  // ---------------------------------------------------------------------------
  // Locked out
  // ---------------------------------------------------------------------------

  /** The excess never falls. */
  lemma ForgottenStays(cfg: Config, slots: nat, events: seq<Event>, more: seq<Event>)
    ensures RunForgotten(cfg, Initial(slots), events + more) >= RunForgotten(cfg, Initial(slots), events)
  {
    var init, s := Initial(slots), After(cfg, slots, events);
    OutboundExactly(cfg, slots, events);
    OutboundExactly(cfg, slots, events + more);
    Reachable(cfg, slots, events);
    RunExcess(cfg, s, more);
    RunAppends(cfg, init, events, more);
    WaitingSelected(s);
    WaitingSelected(After(cfg, slots, events + more));
  }

  /** No connection is accepted, and none will be. */
  ghost predicate LockedOut(cfg: Config, slots: nat, events: seq<Event>) {
    forall more :: After(cfg, slots, events + more).outbound == 15
  }

  lemma FullOfForgotten(cfg: Config, slots: nat, events: seq<Event>, more: seq<Event>)
    requires RunForgotten(cfg, Initial(slots), events) == MAX_OUTBOUND_INFLIGHT
    ensures After(cfg, slots, events + more).outbound == MAX_OUTBOUND_INFLIGHT
  {
    ForgottenStays(cfg, slots, events, more);
    OutboundExactly(cfg, slots, events + more);
  }

  /** While an accepted peer is in its handshake, its timeout gives a place back. */
  lemma TimeoutMakesRoom(cfg: Config, s: State, i: nat)
    requires Inv(cfg, s) && Listed(s, i) && Awaiting(At(s, i)) && s.outbound > 0
    ensures Step(cfg, s, Timer(i)).outbound == s.outbound - 1
  {
    TimerEffect(cfg, s, i);
    TimerSettles(s, TimerExpired(s, i), i);
  }

  lemma TimerSettles(s: State, t: State, i: nat)
    requires Effect(s, t, i, TimerTurnout(At(s, i))) && Awaiting(At(s, i)) && s.outbound > 0
    ensures t.outbound == s.outbound - 1
  {
  }

  lemma RoomWillCome(cfg: Config, slots: nat, events: seq<Event>) returns (more: seq<Event>)
    requires RunForgotten(cfg, Initial(slots), events) < MAX_OUTBOUND_INFLIGHT
    ensures After(cfg, slots, events + more).outbound < MAX_OUTBOUND_INFLIGHT
  {
    var s := After(cfg, slots, events);
    OutboundExactly(cfg, slots, events);
    more := [];
    assert events + [] == events;
    if s.outbound == MAX_OUTBOUND_INFLIGHT {
      assert Waiting(s, {}) != {};
      var i :| i in Waiting(s, {});
      Reachable(cfg, slots, events);
      BooksAfter(cfg, slots, events);
      assert Listed(s, i);
      TimeoutMakesRoom(cfg, s, i);
      more := [Timer(i)];
      assert more[1..] == [];
      RunAppends(cfg, Initial(slots), events, more);
    }
  }

  /**
   * Exactly when accepting is over: the limit is reached after every continuation if and only if fifteen accepted peers
   * were deleted in their handshake; then no peer is in its handshake, and no arrivals change anything.
   */
  lemma LockedOutExactly(cfg: Config, slots: nat, events: seq<Event>)
    ensures var s := After(cfg, slots, events);
            && (LockedOut(cfg, slots, events) <==>
                 RunForgotten(cfg, Initial(slots), events) == 15)
            && (LockedOut(cfg, slots, events) <==> s.outbound == 15 && Waiting(s, {}) == {})
            && (LockedOut(cfg, slots, events) ==>
                 forall more, arrivals :: ServerReady(After(cfg, slots, events + more), arrivals)
                                       == After(cfg, slots, events + more))
  {
    OutboundExactly(cfg, slots, events);
    if RunForgotten(cfg, Initial(slots), events) == MAX_OUTBOUND_INFLIGHT {
      forall more
        ensures After(cfg, slots, events + more).outbound == MAX_OUTBOUND_INFLIGHT
      {
        FullOfForgotten(cfg, slots, events, more);
      }
    } else {
      var more := RoomWillCome(cfg, slots, events);
      assert After(cfg, slots, events + more).outbound != MAX_OUTBOUND_INFLIGHT;
    }
  }

  // ---------------------------------------------------------------------------
  // Fifteen peers of another torrent
  // ---------------------------------------------------------------------------

  /** The peer's whole handshake arrives at once, for another torrent. */
  function Foreign(torrent: Digest, peerId: Digest): Io {
    Io(false, Sent(0), Delivered(Message(torrent, peerId)))
  }

  /** Each address connects to us and says hello, from the slot freed last. */
  function ForeignRun(slots: nat, addresses: seq<Address>, io: Io): seq<Event>
    requires slots > 0
  {
    if addresses == [] then []
    else [Server([Incoming(addresses[0])]), Socket(slots - 1, ReadReady, io)] + ForeignRun(slots, addresses[1..], io)
  }

  /** Nobody is in the pool, whose last slot is on top of the stack. */
  ghost predicate Deserted(cfg: Config, s: State, slots: nat) {
    && Inv(cfg, s) && slots > 0 && |s.pool.slots| == slots && s.pool.occupied == {} && s.connected == 0
    && s.pool.free != [] && s.pool.NextSlot() == slots - 1
  }

  lemma ForeignDecoded(cfg: Config, p: Peer, torrent: Digest, peerId: Digest)
    requires p.recvBuf == [] && torrent != cfg.infoHash
    ensures var (q, ok) := RecvMessages(p, Foreign(torrent, peerId).recv);
            var d := DecodeFrom(q.recvBuf, cfg.infoHash, q.peerId);
            ok && d.complete && !d.valid
  {
    var m := Message(torrent, peerId);
    assert [] + m == m && m[..LENGTH] == m && m + [] == m;
    MessageDecodes(torrent, peerId, cfg.infoHash, p.peerId, []);
    var (q, ok) := RecvMessages(p, Delivered(m));
    assert q.recvBuf == m && ok;
  }

  /** The visitor in the last slot has yet to say who it is. */
  ghost predicate Visited(cfg: Config, s: State, slots: nat) {
    && Inv(cfg, s) && slots > 0 && |s.pool.slots| == slots && s.pool.occupied == {slots - 1} && s.connected == 0
    && var p := At(s, slots - 1); p.state == Handshaking && p.interest == Readable && p.recvBuf == []
  }

  lemma NobodyRegistered(cfg: Config, s: State, address: Address)
    requires Inv(cfg, s) && s.pool.occupied == {}
    ensures address !in s.peers
  {
    assert forall k :: k in s.peers ==> s.peers[k] in Registered(s, {});
  }

  lemma ForeignAccepted(cfg: Config, s: State, slots: nat, address: Address)
    requires Deserted(cfg, s, slots) && s.outbound < MAX_OUTBOUND_INFLIGHT
    ensures var t := Step(cfg, s, Server([Incoming(address)]));
            Visited(cfg, t, slots) && t.outbound == s.outbound + 1 && t.pool.free + [slots - 1] == s.pool.free
  {
    NobodyRegistered(cfg, s, address);
    assert slots - 1 !in Registered(s, {}) && IsBlank(At(s, slots - 1));
    AcceptOne(cfg, s, address);
    AcceptedShape(s, slots - 1, address);
  }

  lemma AcceptedShape(s: State, n: nat, address: Address)
    requires s.pool.Valid() && s.pool.free != [] && s.pool.NextSlot() == n && address !in s.peers
    requires s.outbound < MAX_OUTBOUND_INFLIGHT
    ensures var t := AcceptIncoming(s, address);
            && At(t, n) == Armed(Initialized(At(s, n), address, TcpServer, Handshaking), Readable)
            && s.pool.free == t.pool.free + [n] && t.peers == s.peers[address := n] && t.outbound == s.outbound + 1
  {
    ReservingOnly(s);
    AdmitOnly(Reserving(s), n, address);
  }

  lemma ForeignDropped(cfg: Config, s: State, slots: nat, torrent: Digest, peerId: Digest)
    requires Visited(cfg, s, slots) && torrent != cfg.infoHash
    ensures var t := Step(cfg, s, Socket(slots - 1, ReadReady, Foreign(torrent, peerId)));
            && t.pool.free == s.pool.free + [slots - 1] && t.pool.occupied == {}
            && |t.pool.slots| == slots && t.outbound == s.outbound && t.connected == 0
            && At(t, slots - 1) == Blank(NO_ERROR)
  {
    ForeignDecoded(cfg, At(s, slots - 1), torrent, peerId);
  }

  lemma ForeignLeaves(cfg: Config, s: State, slots: nat, torrent: Digest, peerId: Digest)
    requires Visited(cfg, s, slots) && torrent != cfg.infoHash
    ensures var t := Step(cfg, s, Socket(slots - 1, ReadReady, Foreign(torrent, peerId)));
            Deserted(cfg, t, slots) && t.outbound == s.outbound
  {
    StepInv(cfg, s, Socket(slots - 1, ReadReady, Foreign(torrent, peerId)));
    ForeignDropped(cfg, s, slots, torrent, peerId);
  }

  lemma {:induction false} ForeignVisits(cfg: Config, s: State, slots: nat, addresses: seq<Address>, torrent: Digest,
                                         peerId: Digest)
    requires Deserted(cfg, s, slots) && s.outbound + |addresses| <= MAX_OUTBOUND_INFLIGHT && torrent != cfg.infoHash
    ensures var t := Run(cfg, s, ForeignRun(slots, addresses, Foreign(torrent, peerId)));
            Deserted(cfg, t, slots) && t.outbound == s.outbound + |addresses|
    decreases |addresses|
  {
    if addresses != [] {
      var io := Foreign(torrent, peerId);
      var e, f := Server([Incoming(addresses[0])]), Socket(slots - 1, ReadReady, io);
      ForeignAccepted(cfg, s, slots, addresses[0]);
      ForeignLeaves(cfg, Step(cfg, s, e), slots, torrent, peerId);
      RunTwo(cfg, s, e, f);
      ForeignVisits(cfg, Run(cfg, s, [e, f]), slots, addresses[1..], torrent, peerId);
      RunAppends(cfg, s, [e, f], ForeignRun(slots, addresses[1..], io));
    }
  }

  /** Fifteen visitors from another torrent, and no connection is accepted any more. */
  lemma ForeignersLockOut(cfg: Config, slots: nat, addresses: seq<Address>, torrent: Digest, peerId: Digest)
    requires slots > 0 && torrent != cfg.infoHash && |addresses| == 15
    ensures var run := ForeignRun(slots, addresses, Foreign(torrent, peerId));
            After(cfg, slots, run).pool.occupied == {} && LockedOut(cfg, slots, run)
  {
    var run := ForeignRun(slots, addresses, Foreign(torrent, peerId));
    InitialInv(cfg, slots);
    ForeignVisits(cfg, Initial(slots), slots, addresses, torrent, peerId);
    LockedOutExactly(cfg, slots, run);
  }
}
