/** A slot's generation over a run of the manager: what passing the generation test proves about the peer in it. */
module StaleHandles {
  import opened Handshake
  import opened Transport
  import opened Peers
  import opened ConnectionModel
  import opened ConnectionInvariant
  import opened ConnectionSteps
  import opened ConnectionRuns

  /** Generations only grow, and a slot held under an unchanged generation is still held by the same peer. */
  ghost predicate Holds(s: State, t: State) {
    && |t.pool.slots| == |s.pool.slots|
    && (forall i: nat :: i < |s.pool.slots| ==> Generation(s, i) <= Generation(t, i))
    && (forall i :: i in s.pool.occupied && Generation(t, i) == Generation(s, i) ==>
          i in t.pool.occupied && At(t, i).key == At(s, i).key && At(t, i).source == At(s, i).source)
  }

  lemma HoldsTransitive(s: State, t: State, u: State)
    requires s.pool.Valid() && Holds(s, t) && Holds(t, u)
    ensures Holds(s, u)
  {
  }

  lemma HoldsFrame(s: State, t: State)
    requires t.pool == s.pool
    ensures Holds(s, t)
  {
    assert forall i: nat :: At(t, i) == At(s, i) && Generation(t, i) == Generation(s, i);
  }

  lemma HoldsRetire(s: State, i: nat)
    requires s.pool.Valid() && i in s.pool.occupied
    ensures Holds(s, Retire(s, i))
  {
    RetireAt(s, i);
  }

  lemma HoldsAcquire(s: State)
    requires s.pool.Valid() && s.pool.free != []
    ensures Holds(s, s.(pool := s.pool.Acquired())) && Holds(s, Reserving(s))
  {
    AcquireAt(s);
    var t := s.(pool := s.pool.Acquired());
    assert forall i: nat :: At(Reserving(s), i) == At(t, i) && Generation(Reserving(s), i) == Generation(t, i);
  }

  lemma HoldsPutBack(cfg: Config, s: State)
    requires s.pool.Valid() && s.pool.free != []
    ensures Holds(s, PutBack(s))
  {
    PutBackAt(cfg, s);
  }

  // ---------------------------------------------------------------------------
  // Every callback
  // ---------------------------------------------------------------------------

  ghost predicate Moves(s: State, t: State) {
    t.pool.Valid() && Holds(s, t)
  }

  lemma ThenSame(s: State, t: State, u: State)
    requires s.pool.Valid() && Moves(s, t) && u.pool == t.pool
    ensures Moves(s, u)
  {
    HoldsFrame(t, u);
    HoldsTransitive(s, t, u);
  }

  lemma ThenPut(s: State, t: State, i: nat, p: Peer)
    requires s.pool.Valid() && Moves(s, t)
    requires i !in s.pool.occupied || (p.key == At(t, i).key && p.source == At(t, i).source)
    ensures Moves(s, Put(t, i, p)) && Put(t, i, p).pool.occupied == t.pool.occupied
  {
    if i < |t.pool.slots| {
      PutAt(t, i, p);
      assert Put(t, i, p).pool.Valid();
    }
  }

  lemma ThenRetire(s: State, t: State, i: nat)
    requires s.pool.Valid() && Moves(s, t) && i in t.pool.occupied
    ensures Moves(s, Retire(t, i))
  {
    HoldsRetire(t, i);
    RetireAt(t, i);
    HoldsTransitive(s, t, Retire(t, i));
  }

  lemma Stays(s: State)
    requires s.pool.Valid()
    ensures Moves(s, s)
  {
    HoldsFrame(s, s);
  }

  lemma AttemptMoves(cfg: Config, s: State, t: State, i: nat)
    requires s.pool.Valid() && Moves(s, t) && i in t.pool.occupied
    ensures Moves(s, AttemptOrDelete(cfg, t, i).0)
  {
    var u := Check(t, At(t, i).source == Tracker, WrongSource).(attempts := t.attempts + 1);
    var (p, ok) := Dial(At(t, i), cfg.outcome(t.attempts));
    AttemptForm(cfg, t, u, i, p, ok);
    ThenSame(s, t, u);
    assert At(t, i) == At(u, i);
    DialledMoves(s, u, i, p);
    if ok {
      ThenSame(s, Put(u, i, p), AttemptOrDelete(cfg, t, i).0);
    }
  }

  lemma AttemptForm(cfg: Config, t: State, u: State, i: nat, p: Peer, ok: bool)
    requires u == Check(t, At(t, i).source == Tracker, WrongSource).(attempts := t.attempts + 1)
    requires (p, ok) == Dial(At(t, i), cfg.outcome(t.attempts))
    ensures AttemptOrDelete(cfg, t, i).0 ==
              if ok then Put(u, i, p).(inbound := Up(Put(u, i, p).inbound)) else Retire(Put(u, i, p), i)
  {
    var c := Check(t, At(t, i).source == Tracker, WrongSource);
    assert At(c, i) == At(t, i);
  }

  lemma DialledMoves(s: State, t: State, i: nat, p: Peer)
    requires s.pool.Valid() && Moves(s, t) && i in t.pool.occupied
    requires p.key == At(t, i).key && p.source == At(t, i).source
    ensures Moves(s, Put(t, i, p)) && Moves(s, Retire(Put(t, i, p), i))
  {
    ThenPut(s, t, i, p);
    ThenRetire(s, Put(t, i, p), i);
  }

  lemma EnrolMoves(s: State, address: Address)
    requires s.pool.Valid() && s.pool.free != []
    ensures Moves(s, Enrol(s, address)) && s.pool.NextSlot() in Enrol(s, address).pool.occupied
  {
    HoldsAcquire(s);
    AcquireAt(s);
    var slot, t := s.pool.NextSlot(), s.(pool := s.pool.Acquired());
    var p := Initialized(At(t, slot), address, Tracker, Discovered);
    ThenPut(s, t, slot, p);
    ThenSame(s, Put(t, slot, p), Enrol(s, address));
  }

  lemma TryMoves(cfg: Config, s: State, item: Item)
    requires s.pool.Valid()
    requires !item.FromTracker? && Live(s, item.handle) ==> item.handle.slot in s.pool.occupied
    ensures Moves(s, Try(cfg, s, item).0)
  {
    Stays(s);
    match item
    case FromTracker(address) =>
      if s.pool.free != [] {
        if address in s.peers {
          HoldsPutBack(cfg, s);
          PutBackAt(cfg, s);
        } else {
          EnrolMoves(s, address);
          AttemptMoves(cfg, s, Enrol(s, address), s.pool.NextSlot());
        }
      } else {
        ThenSame(s, s, Check(s, false, AcquisitionFailed));
      }
    case FromTransfer(h, _) =>
      if Live(s, h) {
        DisconnectedMoves(cfg, s, h);
      }
    case FromRetry(h) =>
      if Live(s, h) {
        AttemptMoves(cfg, s, s, h.slot);
      }
  }

  lemma DisconnectedMoves(cfg: Config, s: State, h: Handle)
    requires s.pool.Valid() && Live(s, h) && h.slot in s.pool.occupied
    ensures Moves(s, TryDisconnected(cfg, s, h).0)
  {
    Stays(s);
    ThenSame(s, s, Uncounted(s));
    assert At(Uncounted(s), h.slot) == At(s, h.slot);
    ThenPut(s, Uncounted(s), h.slot, At(s, h.slot).(state := Disconnected));
    MarkedMoves(cfg, s, MarkDisconnected(s, h.slot), h.slot);
  }

  lemma MarkedMoves(cfg: Config, s: State, t: State, i: nat)
    requires s.pool.Valid() && Moves(s, t) && i in t.pool.occupied
    ensures Moves(s, Retire(t, i))
    ensures Moves(s, AttemptOrDelete(cfg, Put(t, i, OneMoreFailure(At(t, i))), i).0)
  {
    ThenRetire(s, t, i);
    var p := OneMoreFailure(At(t, i));
    ThenPut(s, t, i, p);
    AttemptMoves(cfg, s, Put(t, i, p), i);
  }

  lemma PoppedHandleHeld(cfg: Config, s: State, spot: Spot)
    requires Inv(cfg, s) && Pending(s, spot) > 0
    ensures var (s1, item) := Pop(s, spot);
            s1.pool == s.pool && (!item.FromTracker? && Live(s1, item.handle) ==> item.handle.slot in s.pool.occupied)
  {
    match spot
    case DiscoveredSpot =>
    case DisconnectedSpot => assert s.disconnects[0].handle in Unanswered(s);
    case FailedSpot => assert s.retry[0] in s.retry;
  }

  lemma {:induction false} DrainMoves(cfg: Config, s: State, spot: Spot)
    requires Inv(cfg, s) && (spot == DiscoveredSpot ==> s.pool.free != [])
    ensures Moves(s, DrainLoop(cfg, s, spot).state)
    decreases Pending(s, spot)
  {
    if Pending(s, spot) == 0 {
      Stays(s);
    } else {
      var (s1, item) := Pop(s, spot);
      var (s2, fate) := Try(cfg, s1, item);
      PoppedHandleHeld(cfg, s, spot);
      TryMoves(cfg, s1, item);
      HoldsFrame(s, s1);
      HoldsTransitive(s, s1, s2);
      TryFrame(cfg, s1, item);
      TryKeeps(cfg, s, spot);
      if fate != Attempted {
        if spot == DiscoveredSpot {
          InvFrame(cfg, s, s1);
          DiscoveryReturnsSlot(cfg, s1, item.address);
        }
        DrainMoves(cfg, s2, spot);
        HoldsTransitive(s, s2, DrainLoop(cfg, s2, spot).state);
      }
    }
  }

  lemma {:induction false} RoundRobinMoves(cfg: Config, s: State)
    requires Inv(cfg, s)
    ensures Moves(s, RoundRobin(cfg, s).0)
    decreases Room(s), UnsetFlags(s.empties), Distance(s.current, s.empties)
  {
    Stays(s);
    if s.inbound < MAX_INBOUND_INFLIGHT {
      TurnProgress(cfg, s);
      TurnKeeps(cfg, s);
      var t := Turn(cfg, s).state;
      if s.current != DiscoveredSpot || s.pool.free != [] {
        DrainMoves(cfg, s, s.current);
      }
      ThenSame(s, DrainSpot(cfg, s, s.current).state, t);
      if !AllEmpty(t.empties) {
        var u := t.(current := NextSpot(s.current));
        RoundRobinMoves(cfg, u);
        ThenSame(s, t, u);
        HoldsTransitive(s, u, RoundRobin(cfg, u).0);
      }
    }
  }

  lemma FailureMoves(s: State, t: State, i: nat)
    requires s.pool.Valid() && Moves(s, t) && i in t.pool.occupied
    ensures Moves(s, HandleFailure(t, i))
  {
    var p := FailedPeer(At(t, i));
    ThenPut(s, t, i, p);
    var u := Resolve(Put(t, i, p), p.source);
    ThenSame(s, Put(t, i, p), u);
    PutAt(t, i, p);
    assert At(u, i) == p;
    ThenRetire(s, u, i);
    ThenPut(s, u, i, AwaitingRetry(p));
  }

  lemma DispatchMoves(s: State, t: State, i: nat)
    requires s.pool.Valid() && Moves(s, t) && i in t.pool.occupied
    ensures Moves(s, Dispatch(t, i))
  {
    var p := Stopped(At(t, i).(state := Connected));
    ThenPut(s, t, i, p);
    ThenSame(s, Put(t, i, p), Dispatch(t, i));
  }

  lemma TimerMoves(s: State, i: nat)
    requires s.pool.Valid() && i in s.pool.occupied
    ensures Moves(s, TimerExpired(s, i))
  {
    Stays(s);
    var c := Check(s, At(s, i).state != Connected, EventOnConnected);
    ThenSame(s, s, c);
    assert At(c, i) == At(s, i);
    ThenPut(s, c, i, Stopped(At(s, i)));
    ThenSame(s, Put(c, i, Stopped(At(s, i))), Requeue(Put(c, i, Stopped(At(s, i))), i));
    ThenPut(s, c, i, At(s, i).(timer := false));
    FailureMoves(s, Put(c, i, At(s, i).(timer := false)), i);
  }

  lemma GreetIdentity(cfg: Config, p: Peer, o: SendOutcome)
    ensures GreetPeer(cfg, p, o).0.key == p.key && GreetPeer(cfg, p, o).0.source == p.source
  {
  }

  lemma TransportMoves(cfg: Config, s: State, t: State, i: nat, writable: bool, io: Io)
    requires s.pool.Valid() && Moves(s, t) && i in t.pool.occupied
    ensures Moves(s, TransportInitiation(cfg, t, i, writable, io))
  {
    FailureMoves(s, t, i);
    var p := At(t, i).(state := Handshaking);
    var (q, ok, exhausted) := GreetPeer(cfg, p, io.send);
    GreetIdentity(cfg, p, io.send);
    var u := CheckGreeting(cfg, t, p);
    ThenSame(s, t, u);
    assert At(u, i) == At(t, i);
    ThenPut(s, u, i, q);
    FailureMoves(s, Put(u, i, q), i);
    ThenPut(s, u, i, q.(interest := if exhausted then Readable else Writable));
  }

  lemma WritableMoves(s: State, t: State, i: nat, io: Io)
    requires s.pool.Valid() && Moves(s, t) && i in t.pool.occupied
    ensures Moves(s, HandshakeWritable(t, i, io))
  {
    var (p, ok, exhausted) := SendMessages(At(t, i), io.send);
    ThenPut(s, t, i, p);
    FailureMoves(s, Put(t, i, p), i);
    DispatchMoves(s, Put(t, i, p), i);
    ThenPut(s, t, i, p.(interest := Readable));
  }

  lemma AnswerMoves(cfg: Config, s: State, t: State, i: nat, p: Peer, io: Io)
    requires s.pool.Valid() && Moves(s, t) && i in t.pool.occupied && p.key == At(t, i).key
    requires p.source == At(t, i).source
    ensures Moves(s, Answer(cfg, t, i, p, io))
  {
    var (q, ok, exhausted) := GreetPeer(cfg, p, io.send);
    GreetIdentity(cfg, p, io.send);
    var u := CheckGreeting(cfg, t, p);
    ThenSame(s, t, u);
    assert At(u, i) == At(t, i);
    ThenPut(s, u, i, q);
    FailureMoves(s, Put(u, i, q), i);
    DispatchMoves(s, Put(u, i, q), i);
    ThenPut(s, u, i, q.(interest := Writable));
  }

  lemma ReadableMoves(cfg: Config, s: State, t: State, i: nat, io: Io)
    requires s.pool.Valid() && Moves(s, t) && i in t.pool.occupied
    ensures Moves(s, HandshakeReadable(cfg, t, i, io))
  {
    var u := Check(t, |At(t, i).recvBuf| < LENGTH, ReceiveOnFull);
    ThenSame(s, t, u);
    assert At(u, i) == At(t, i);
    if |At(t, i).recvBuf| <= LENGTH {
      var (p, ok) := RecvMessages(At(t, i), io.recv);
      ThenPut(s, u, i, p);
      FailureMoves(s, Put(u, i, p), i);
      if ok {
        SettleMoves(cfg, s, u, i, p, io);
      }
    }
  }

  lemma SettleMoves(cfg: Config, s: State, u: State, i: nat, p: Peer, io: Io)
    requires s.pool.Valid() && Moves(s, u) && i in u.pool.occupied && p.key == At(u, i).key
    requires p.source == At(u, i).source
    ensures Moves(s, Settle(cfg, u, i, p, io))
  {
    var q := DecodedPeer(p, DecodeFrom(p.recvBuf, cfg.infoHash, p.peerId));
    ThenPut(s, u, i, q);
    DispatchMoves(s, Put(u, i, q), i);
    ThenPut(s, u, i, q.(perrno := NO_ERROR));
    ThenRetire(s, Put(u, i, q.(perrno := NO_ERROR)), i);
    AnswerMoves(cfg, s, u, i, q, io);
  }

  lemma SocketMoves(cfg: Config, s: State, i: nat, ready: Ready, io: Io)
    requires s.pool.Valid() && i in s.pool.occupied
    ensures Moves(s, SocketReady(cfg, s, i, ready, io))
  {
    Stays(s);
    var t := Check(s, At(s, i).state != Connected, EventOnConnected);
    ThenSame(s, s, t);
    if QuotaMet(t) {
      ThenRetire(s, t, i);
    } else if ready == ErrorReady {
      FailureMoves(s, t, i);
    } else if At(s, i).state == Handshaking {
      if ready == WriteReady {
        WritableMoves(s, t, i, io);
      } else {
        ReadableMoves(cfg, s, t, i, io);
      }
    } else {
      ThenRetire(s, t, i);
      TransportMoves(cfg, s, t, i, ready == WriteReady, io);
    }
  }

  lemma SupersedeMoves(s: State, t: State, i: nat)
    requires s.pool.Valid() && Moves(s, t) && i in t.pool.occupied
    ensures Moves(s, Supersede(t, i))
  {
    var p := At(t, i).(perrno := NO_ERROR);
    ThenRetire(s, t, i);
    ThenPut(s, t, i, p);
    ThenSame(s, Put(t, i, p), Resolve(Put(t, i, p), p.source));
    ThenRetire(s, Resolve(Put(t, i, p), p.source), i);
  }

  lemma AcceptMoves(cfg: Config, s: State, o: AcceptOutcome)
    requires Inv(cfg, s)
    ensures Moves(s, Accept(s, o).0)
  {
    Stays(s);
    if o.Incoming? && s.pool.free != [] {
      HoldsAcquire(s);
      AcquireAt(s);
      var slot, t := s.pool.NextSlot(), Reserving(s);
      var u := if o.address in t.peers then Supersede(t, t.peers[o.address]) else t;
      if o.address in t.peers {
        assert t.peers[o.address] in Registered(s, {});
        SupersedeMoves(s, t, t.peers[o.address]);
      }
      var p := Armed(Initialized(At(u, slot), o.address, TcpServer, Handshaking), Readable);
      ThenPut(s, u, slot, p);
      ThenSame(s, Put(u, slot, p), Admit(u, slot, o.address));
    }
  }

  lemma {:induction false} ServerMoves(cfg: Config, s: State, arrivals: seq<AcceptOutcome>)
    requires Inv(cfg, s)
    ensures Moves(s, ServerReady(s, arrivals))
    decreases |arrivals|
  {
    Stays(s);
    if arrivals != [] && !QuotaMet(s) && s.outbound < MAX_OUTBOUND_INFLIGHT {
      AcceptMoves(cfg, s, arrivals[0]);
      AcceptKeeps(cfg, s, arrivals[0]);
      var (s1, again) := Accept(s, arrivals[0]);
      if again {
        ServerMoves(cfg, s1, arrivals[1..]);
        HoldsTransitive(s, s1, ServerReady(s1, arrivals[1..]));
      }
    }
  }

  lemma StepHolds(cfg: Config, s: State, e: Event)
    requires Inv(cfg, s)
    ensures Holds(s, Step(cfg, s, e))
  {
    Stays(s);
    if Enabled(s, e) {
      match e
      case Discoveries(addresses) => ThenSame(s, s, s.(cache := CacheAll(s.cache, addresses)));
      case Schedule => RoundRobinMoves(cfg, s);
      case Server(arrivals) => ServerMoves(cfg, s, arrivals);
      case Socket(i, ready, io) =>
        ArmedHeld(cfg, s, i);
        SocketMoves(cfg, s, i, ready, io);
      case Timer(i) =>
        ArmedHeld(cfg, s, i);
        TimerMoves(s, i);
      case TransferTakes => ThenSame(s, s, Take(s));
      case TransferReports(h, perrno) => ThenSame(s, s, Report(s, h, perrno));
    }
  }

  lemma {:induction false} RunHolds(cfg: Config, s: State, events: seq<Event>)
    requires Inv(cfg, s)
    ensures Holds(s, Run(cfg, s, events))
    decreases |events|
  {
    if events == [] {
      Stays(s);
    } else {
      var t := Step(cfg, s, events[0]);
      StepHolds(cfg, s, events[0]);
      StepInv(cfg, s, events[0]);
      RunHolds(cfg, t, events[1..]);
      HoldsTransitive(s, t, Run(cfg, t, events[1..]));
    }
  }

  /**
   * A handle taken from an occupied slot at any point of any run: if it passes the generation test after any
   * further events, the slot was occupied by the same peer, under the same key, after every one of them.
   */
  lemma LiveHandleMeansSamePeer(cfg: Config, slots: nat, before: seq<Event>, events: seq<Event>, i: nat, k: nat)
    requires k <= |events|
    ensures var s := After(cfg, slots, before);
            var u := After(cfg, slots, before + events[..k]);
            var t := After(cfg, slots, before + events);
            i in s.pool.occupied && Live(t, HandleOf(s, i)) ==>
              && i in u.pool.occupied && Generation(u, i) == Generation(s, i)
              && At(u, i).key == At(s, i).key && At(u, i).source == At(s, i).source
  {
    Reachable(cfg, slots, before);
    var s := After(cfg, slots, before);
    RunAppends(cfg, Initial(slots), before, events[..k]);
    RunAppends(cfg, Initial(slots), before, events);
    RunAppends(cfg, s, events[..k], events[k..]);
    assert events == events[..k] + events[k..];
    RunHolds(cfg, s, events[..k]);
    RunKeeps(cfg, s, events[..k]);
    RunHolds(cfg, Run(cfg, s, events[..k]), events[k..]);
  }
}
