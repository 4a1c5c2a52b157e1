/** The manager object: callbacks that update counters, registry, pool and queues in place. */
module ConnectionManager {
  import opened Handshake
  import opened Transport
  import opened SlotPool
  import opened Peers
  import opened ConnectionModel
  import opened ConnectionInvariant
  import opened ConnectionSteps
  import opened SchedulerFates
  import opened PeerLifecycle

  class PeerConnectionManager {
    const cfg: Config
    const connectionPool: SlotRecyclingPool<Peer>
    var connectedPeers: nat
    var inboundInflight: nat
    var outboundInflight: nat
    var ipv4Peers: map<Address, nat>
    var cache: seq<Address>
    var retryQueue: seq<Handle>
    var connects: seq<Handle>
    var disconnects: seq<Update>
    var current: Spot
    var empties: Flags
    var attempts: nat
    ghost var sessions: multiset<Handle>
    ghost var faults: set<Fault>

    ghost function State(): ConnectionModel.State
      reads this, connectionPool, connectionPool.pool
    {
      ConnectionModel.State(
        connectedPeers, inboundInflight, outboundInflight, connectionPool.State(), ipv4Peers, cache, retryQueue,
        connects, sessions, disconnects, current, empties, attempts, faults)
    }

    ghost predicate Valid()
      reads this, connectionPool, connectionPool.pool
    {
      connectionPool.Valid()
    }

    ghost predicate Holds(i: nat)
      reads this, connectionPool, connectionPool.pool
    {
      Valid() && i in connectionPool.occupied
    }

    constructor (cfg: Config, slots: nat)
      requires slots > 0
      ensures Valid() && this.cfg == cfg && State() == Initial(slots) && Inv(cfg, State())
      ensures fresh(connectionPool) && fresh(connectionPool.pool)
      ensures connectionPool.pool.Length == slots && forall i :: 0 <= i < slots ==> PeerAt(i).perrno == -1
    {
      this.cfg := cfg;
      connectionPool := new SlotRecyclingPool(slots, Blank(NO_ERROR));
      connectedPeers, inboundInflight, outboundInflight := 0, 0, 0;
      ipv4Peers, cache, retryQueue, connects, disconnects := map[], [], [], [], [];
      current, empties, attempts := DiscoveredSpot, [false, false, false], 0;
      sessions, faults := multiset{}, {};
      new;
      InitialInv(cfg, slots);
    }

    function PeerAt(i: nat): Peer
      requires i < connectionPool.pool.Length
      reads connectionPool, connectionPool.pool
    {
      connectionPool.pool[i].value
    }

    function HandleAt(i: nat): Handle
      requires i < connectionPool.pool.Length
      reads connectionPool, connectionPool.pool
    {
      Handle(i, connectionPool.pool[i].generation)
    }

    /** Writing through a peer reference. */
    method Store(i: nat, p: Peer)
      requires Holds(i)
      modifies connectionPool.pool
      ensures Holds(i) && State() == Put(old(State()), i, p)
    {
      connectionPool.Store(i, p);
    }

    method DeletePeerConnection(i: nat)
      requires Holds(i)
      modifies `ipv4Peers, connectionPool, connectionPool.pool
      ensures Valid() && State() == Retire(old(State()), i)
      ensures Effect(old(State()), State(), i, Drops)
    {
      Untouched(State(), i);
      DropEffect(State(), State(), i);
      var p := PeerAt(i);
      ipv4Peers := ipv4Peers - {p.key};
      connectionPool.Store(i, Blank(p.perrno));
      connectionPool.Release(i);
    }

    ghost method Assert(ok: bool, fault: Fault)
      modifies `faults
      ensures State() == Check(old(State()), ok, fault)
    {
      if !ok {
        faults := faults + {fault};
      }
    }

    method SingleResolved(source: Source)
      modifies `inboundInflight, `outboundInflight, `faults
      ensures State() == Resolve(old(State()), source)
    {
      if source == TcpServer {
        Assert(outboundInflight > 0, OutboundUnderflow);
        outboundInflight := Down(outboundInflight);
      } else {
        inboundInflight := Down(inboundInflight);
      }
    }

    method ConnectPeer(i: nat) returns (ok: bool)
      requires Holds(i)
      modifies `attempts, connectionPool.pool
      ensures Holds(i) && (State(), ok) == Connect(cfg, old(State()), i)
      ensures ok <==> cfg.outcome(old(attempts)).InProgress? || cfg.outcome(old(attempts)).Immediate?
      ensures ok ==> PeerAt(i).interest == Writable && PeerAt(i).timer
      ensures PeerAt(i).perrno == match cfg.outcome(old(attempts)) {
                                    case NoSocket(e) => e
                                    case InProgress => 115
                                    case _ => -1
                                  }
      ensures OnlySlot(old(State()), State(), i) && StillHeld(old(State()), State(), i)
    {
      ghost var s := State();
      var outcome := cfg.outcome(attempts);
      attempts := attempts + 1;
      var p := PeerAt(i);
      match outcome {
        case NoSocket(e) =>
          p := p.(perrno := e);
          ok := false;
        case Refused =>
          p := p.(perrno := NO_ERROR);
          ok := false;
        case InProgress =>
          p := Armed(p, Writable);
          p := p.(perrno := EINPROGRESS, attempt := Attempt([], [], false));
          ok := true;
        case Immediate =>
          p := Armed(p, Writable);
          p := p.(perrno := NO_ERROR, failures := 0, state := Handshaking, attempt := Attempt([], [], true));
          ok := true;
      }
      PutOnly(s, s.(attempts := attempts), i, p);
      Store(i, p);
    }

    method InitiateConnect(i: nat) returns (ok: bool)
      requires Holds(i)
      modifies `attempts, `inboundInflight, `faults, connectionPool.pool
      ensures Holds(i) && (State(), ok) == Initiate(cfg, old(State()), i)
    {
      Assert(PeerAt(i).source == Tracker, WrongSource);
      ok := ConnectPeer(i);
      if ok {
        inboundInflight := Up(inboundInflight);
      }
    }

    /** `handle_peer_failure`. */
    method HandlePeerFailure(i: nat)
      requires Holds(i)
      modifies `inboundInflight, `outboundInflight, `faults, `ipv4Peers, connectionPool, connectionPool.pool
      ensures Valid() && State() == HandleFailure(old(State()), i)
      ensures Effect(old(State()), State(), i, Fails)
    {
      ghost var s := State();
      SettleFailure(i);
      Untouched(s, i);
      FailureEffect(s, s, i);
    }

    /** Counts the failure, settles the attempt, and deletes the peer or arms its retry timer. */
    method SettleFailure(i: nat)
      requires Holds(i)
      modifies `inboundInflight, `outboundInflight, `faults, `ipv4Peers, connectionPool, connectionPool.pool
      ensures Valid() && State() == HandleFailure(old(State()), i)
    {
      var p := PeerAt(i);
      p := p.(state := Failed, failures := p.failures + 1);
      p := p.(perrno := NO_ERROR);
      ghost var failed := p;
      Store(i, p);
      SingleResolved(p.source);
      assert failed == FailedPeer(At(old(State()), i));
      assert State() == Resolve(Put(old(State()), i, failed), failed.source);
      if p.failures >= MAX_RETRIES || p.source == TcpServer {
        DeletePeerConnection(i);
        return;
      }
      p := p.(interest := Quiet, timer := false);
      p := p.(cursor := 0, recvBuf := [], sendBuf := []);
      assert p.(timer := true) == AwaitingRetry(failed);
      Store(i, p.(timer := true));
    }

    /** `handle_peer_connection_and_dispatch`. */
    method HandlePeerConnectionAndDispatch(i: nat)
      requires Holds(i)
      modifies this, connectionPool.pool
      ensures Holds(i) && State() == Dispatch(old(State()), i)
      ensures |old(connects)| < UPDATE_QUEUE_SIZE ==> Effect(old(State()), State(), i, Connects)
    {
      if |connects| < UPDATE_QUEUE_SIZE {
        Untouched(State(), i);
        DispatchEffect(State(), State(), i);
      }
      var p := Stopped(PeerAt(i).(state := Connected));
      Store(i, p);
      if |connects| < UPDATE_QUEUE_SIZE {
        connects := connects + [HandleAt(i)];
      } else {
        Assert(false, DispatchDropped);
      }
      connectedPeers := Up(connectedPeers);
      SingleResolved(p.source);
    }

    // -------------------------------------------------------------------------
    // The scheduler
    // -------------------------------------------------------------------------

    method AttemptConnect(i: nat) returns (fate: Fate)
      requires Holds(i)
      modifies this, connectionPool, connectionPool.pool
      ensures Valid() && (State(), fate) == AttemptOrDelete(cfg, old(State()), i)
    {
      var ok := InitiateConnect(i);
      if ok {
        return Attempted;
      }
      DeletePeerConnection(i);
      fate := Deleted;
    }

    /** One address off the discovery cache: acquire a slot, register, connect. */
    method ScheduleDiscovered(address: Address) returns (fate: Fate)
      requires Valid() && connectionPool.availableSlots != []
      modifies this, connectionPool, connectionPool.pool
      ensures Valid() && (State(), fate) == TryDiscovered(cfg, old(State()), address)
    {
      var acquired, slot := connectionPool.Acquire();
      if address in ipv4Peers {
        connectionPool.Release(slot);
        return Duplicate;
      }
      Store(slot, Initialized(PeerAt(slot), address, Tracker, Discovered));
      ipv4Peers := ipv4Peers[address := slot];
      assert State() == Enrol(old(State()), address);
      fate := AttemptConnect(slot);
    }

    method ScheduleDisconnected(h: Handle) returns (fate: Fate)
      requires Valid() && (Live(State(), h) ==> h.slot in connectionPool.occupied)
      modifies this, connectionPool, connectionPool.pool
      ensures Valid() && (State(), fate) == TryDisconnected(cfg, old(State()), h)
    {
      if h.slot >= connectionPool.pool.Length || connectionPool.pool[h.slot].generation != h.generation {
        return Stale;
      }
      Store(h.slot, PeerAt(h.slot).(state := Disconnected));
      connectedPeers := if connectedPeers == 0 then 0 else connectedPeers - 1;
      assert State() == MarkDisconnected(old(State()), h.slot);
      var p := PeerAt(h.slot);
      if p.perrno == PEER_SHUTDOWN || p.source == TcpServer {
        DeletePeerConnection(h.slot);
        return Deleted;
      }
      Store(h.slot, OneMoreFailure(p));
      fate := AttemptConnect(h.slot);
    }

    method ScheduleFailed(h: Handle) returns (fate: Fate)
      requires Valid() && (Live(State(), h) ==> h.slot in connectionPool.occupied)
      modifies this, connectionPool, connectionPool.pool
      ensures Valid() && (State(), fate) == TryFailed(cfg, old(State()), h)
    {
      if h.slot >= connectionPool.pool.Length || connectionPool.pool[h.slot].generation != h.generation {
        return Stale;
      }
      fate := AttemptConnect(h.slot);
    }

    /** The items a loop has dealt with, followed by what the specification still has to do. */
    ghost function After(done: seq<(Item, Fate)>, spot: Spot): Drained
      reads this, connectionPool, connectionPool.pool
    {
      Prefixed(done, DrainLoop(cfg, State(), spot))
    }

    static ghost function Prefixed(done: seq<(Item, Fate)>, d: Drained): Drained {
      d.(fates := done + d.fates)
    }

    method DiscoveredPeerScheduler() returns (started: bool, ghost fates: seq<(Item, Fate)>)
      requires Valid() && Inv(cfg, State())
      modifies this, connectionPool, connectionPool.pool
      ensures Valid() && Drained(State(), started, fates) == DrainSpot(cfg, old(State()), DiscoveredSpot)
    {
      started, fates := false, [];
      if |connectionPool.availableSlots| == 0 {
        return;
      }
      ghost var whole := DrainLoop(cfg, State(), DiscoveredSpot);
      while cache != []
        invariant Valid() && Inv(cfg, State()) && connectionPool.availableSlots != [] && !started
        invariant After(fates, DiscoveredSpot) == whole
        decreases |cache|
      {
        ghost var s := State();
        var address, fate := TakeDiscovered();
        LoopStep(s, fates, DiscoveredSpot, State(), (FromTracker(address), fate));
        fates := fates + [(FromTracker(address), fate)];
        if fate == Attempted {
          return true, fates;
        }
      }
    }

    /** Pops the newest discovery and deals with it; a slot is still free unless it was used. */
    method TakeDiscovered() returns (address: Address, fate: Fate)
      requires Valid() && Inv(cfg, State()) && cache != [] && connectionPool.availableSlots != []
      modifies this, connectionPool, connectionPool.pool
      ensures Valid() && Inv(cfg, State()) && cache == old(cache)[..|old(cache)| - 1]
      ensures address == old(cache)[|old(cache)| - 1]
      ensures (State(), fate) == TryDiscovered(cfg, WithoutNewest(old(State())), address)
      ensures fate != Attempted ==> connectionPool.availableSlots != []
    {
      ghost var s := State();
      address := cache[|cache| - 1];
      cache := cache[..|cache| - 1];
      DiscoverySpotKeeps(cfg, s);
      TryDiscoveredFrame(cfg, State(), address);
      InvFrame(cfg, s, State());
      if TryDiscovered(cfg, State(), address).1 != Attempted {
        DiscoveryReturnsSlot(cfg, State(), address);
      }
      fate := ScheduleDiscovered(address);
    }

    /** One round of a source's loop, in terms of the specification. */
    lemma LoopStep(s: ConnectionModel.State, done: seq<(Item, Fate)>, spot: Spot, t: ConnectionModel.State,
                   x: (Item, Fate))
      requires Pending(s, spot) > 0
      requires Pop(s, spot).1 == x.0 && Try(cfg, Pop(s, spot).0, x.0) == (t, x.1)
      ensures x.1 == Attempted ==> Prefixed(done, DrainLoop(cfg, s, spot)) == Drained(t, true, done + [x])
      ensures x.1 != Attempted ==>
                Prefixed(done, DrainLoop(cfg, s, spot)) == Prefixed(done + [x], DrainLoop(cfg, t, spot))
    {
      TryFrame(cfg, Pop(s, spot).0, x.0);
      if x.1 != Attempted {
        Regroup(done, [x], DrainLoop(cfg, t, spot).fates);
      }
    }

    lemma QueuedHandleHeld(s: ConnectionModel.State, h: Handle)
      requires Inv(cfg, s) && (h in Handles(s.disconnects) || h in s.retry) && Live(s, h)
      ensures h.slot in s.pool.occupied
    {
      assert h in Unanswered(s) || h in s.retry;
    }

    /** Pops the oldest disconnect update and deals with it. */
    method TakeDisconnected() returns (u: Update, fate: Fate)
      requires Valid() && Inv(cfg, State()) && disconnects != []
      modifies this, connectionPool, connectionPool.pool
      ensures Valid() && Inv(cfg, State()) && u == old(disconnects)[0] && disconnects == old(disconnects)[1..]
      ensures (State(), fate) == TryDisconnected(cfg, WithoutReport(old(State())), u.handle)
    {
      ghost var s := State();
      u := disconnects[0];
      if Live(s, u.handle) {
        assert u.handle == Handles(s.disconnects)[0];
        QueuedHandleHeld(s, u.handle);
      }
      disconnects := disconnects[1..];
      DisconnectedKeeps(cfg, s);
      TryDisconnectedFrame(cfg, WithoutReport(s), u.handle);
      fate := ScheduleDisconnected(u.handle);
    }

    /** Pops the oldest retry and deals with it. */
    method TakeFailed() returns (h: Handle, fate: Fate)
      requires Valid() && Inv(cfg, State()) && retryQueue != []
      modifies this, connectionPool, connectionPool.pool
      ensures Valid() && Inv(cfg, State()) && h == old(retryQueue)[0] && retryQueue == old(retryQueue)[1..]
      ensures (State(), fate) == TryFailed(cfg, WithoutRetry(old(State())), h)
    {
      ghost var s := State();
      h := retryQueue[0];
      if Live(s, h) {
        QueuedHandleHeld(s, h);
      }
      retryQueue := retryQueue[1..];
      FailedKeeps(cfg, s);
      AttemptFrame(cfg, WithoutRetry(s), h.slot);
      fate := ScheduleFailed(h);
    }

    method DisconnectedPeerScheduler() returns (started: bool, ghost fates: seq<(Item, Fate)>)
      requires Valid() && Inv(cfg, State())
      modifies this, connectionPool, connectionPool.pool
      ensures Valid() && Drained(State(), started, fates) == DrainSpot(cfg, old(State()), DisconnectedSpot)
    {
      started, fates := false, [];
      ghost var whole := DrainLoop(cfg, State(), DisconnectedSpot);
      while disconnects != []
        invariant Valid() && Inv(cfg, State()) && !started
        invariant After(fates, DisconnectedSpot) == whole
        decreases |disconnects|
      {
        ghost var s := State();
        var u, fate := TakeDisconnected();
        LoopStep(s, fates, DisconnectedSpot, State(), (FromTransfer(u.handle, u.perrno), fate));
        fates := fates + [(FromTransfer(u.handle, u.perrno), fate)];
        if fate == Attempted {
          return true, fates;
        }
      }
    }

    method FailedPeerScheduler() returns (started: bool, ghost fates: seq<(Item, Fate)>)
      requires Valid() && Inv(cfg, State())
      modifies this, connectionPool, connectionPool.pool
      ensures Valid() && Drained(State(), started, fates) == DrainSpot(cfg, old(State()), FailedSpot)
    {
      started, fates := false, [];
      ghost var whole := DrainLoop(cfg, State(), FailedSpot);
      while retryQueue != []
        invariant Valid() && Inv(cfg, State()) && !started
        invariant After(fates, FailedSpot) == whole
        decreases |retryQueue|
      {
        ghost var s := State();
        var h, fate := TakeFailed();
        LoopStep(s, fates, FailedSpot, State(), (FromRetry(h), fate));
        fates := fates + [(FromRetry(h), fate)];
        if fate == Attempted {
          return true, fates;
        }
      }
    }

    /** One turn of the load balancer: serve the current source and set its flag. */
    method ServeCurrent() returns (ghost fates: seq<(Item, Fate)>)
      requires Valid() && Inv(cfg, State())
      modifies this, connectionPool, connectionPool.pool
      ensures Valid() && Inv(cfg, State())
      ensures State() == Turn(cfg, old(State())).state && fates == Turn(cfg, old(State())).fates
    {
      ghost var s := State();
      TurnKeeps(cfg, s);
      DrainFrame(cfg, s, current);
      var started;
      match current {
        case DiscoveredSpot => started, fates := DiscoveredPeerScheduler();
        case DisconnectedSpot => started, fates := DisconnectedPeerScheduler();
        case FailedSpot => started, fates := FailedPeerScheduler();
      }
      TurnIs(s, State(), started, fates);
      empties := empties[Index(current) := !started];
    }

    lemma TurnIs(s: ConnectionModel.State, t: ConnectionModel.State, started: bool, fates: seq<(Item, Fate)>)
      requires Drained(t, started, fates) == DrainSpot(cfg, s, s.current)
      ensures Turn(cfg, s) == Drained(t.(empties := s.empties[Index(s.current) := !started]), started, fates)
    {
    }

    /** What is still to be done by a drain that has dealt with some items. */
    ghost function Remaining(done: seq<(Item, Fate)>): (ConnectionModel.State, seq<(Item, Fate)>)
      reads this, connectionPool, connectionPool.pool
    {
      var (t, fates) := RoundRobin(cfg, State());
      (t, done + fates)
    }

    method RoundRobinEstablisherScheduler() returns (ghost fates: seq<(Item, Fate)>)
      requires Valid() && Inv(cfg, State())
      modifies this, connectionPool, connectionPool.pool
      ensures Valid() && Inv(cfg, State())
      ensures (State(), fates) == RoundRobin(cfg, old(State()))
    {
      fates := [];
      ghost var whole := RoundRobin(cfg, State());
      assert [] + whole.1 == whole.1;
      while inboundInflight < MAX_INBOUND_INFLIGHT
        invariant Valid() && Inv(cfg, State())
        invariant Remaining(fates) == whole
        decreases Room(State()), UnsetFlags(empties), Distance(current, empties)
      {
        ghost var s := State();
        TurnProgress(cfg, s);
        RobinStep(s, fates);
        ghost var taken := ServeCurrent();
        fates := fates + taken;
        if AllEmpty(empties) {
          return;
        }
        PlusMaskCurrent();
      }
      assert fates + [] == fates;
    }

    /** `plus_mask_current`. */
    method PlusMaskCurrent()
      requires Valid() && Inv(cfg, State())
      modifies `current
      ensures Valid() && Inv(cfg, State()) && State() == old(State()).(current := NextSpot(old(current)))
    {
      ghost var s := State();
      current := NextSpot(current);
      InvFrame(cfg, s, State());
    }

    /** One round of the drain, in terms of the specification. */
    lemma RobinStep(s: ConnectionModel.State, done: seq<(Item, Fate)>)
      requires s.inbound < MAX_INBOUND_INFLIGHT
      ensures var d := Turn(cfg, s);
              var (t, fates) := RoundRobin(cfg, s);
              if AllEmpty(d.state.empties) then (t, done + fates) == (d.state, done + d.fates)
              else
                var (u, rest) := RoundRobin(cfg, d.state.(current := NextSpot(s.current)));
                (t, done + fates) == (u, (done + d.fates) + rest)
    {
      var d := Turn(cfg, s);
      TurnProgress(cfg, s);
      if !AllEmpty(d.state.empties) {
        var rest := RoundRobin(cfg, d.state.(current := NextSpot(s.current)));
        assert RoundRobin(cfg, s) == (rest.0, d.fates + rest.1);
        Regroup(done, d.fates, rest.1);
      } else {
        assert RoundRobin(cfg, s) == (d.state, d.fates);
      }
    }

    // -------------------------------------------------------------------------
    // Watcher callbacks
    // -------------------------------------------------------------------------

    /** All waiting addresses are cached; the scheduler is notified unless the quota is met or no slot is free. */
    method DrainDiscovered(addresses: seq<Address>) returns (notify: bool)
      requires Valid()
      modifies `cache
      ensures State() == old(State()).(cache := CacheAll(old(cache), addresses))
      ensures notify <==> !QuotaMet(State()) && State().pool.Available() > 0
    {
      var i := 0;
      while i < |addresses|
        invariant 0 <= i <= |addresses|
        invariant CacheAll(cache, addresses[i..]) == CacheAll(old(cache), addresses)
        invariant State() == old(State()).(cache := cache)
      {
        assert addresses[i..][0] == addresses[i] && addresses[i..][1..] == addresses[i + 1..];
        cache := CachePush(cache, addresses[i]);
        i := i + 1;
      }
      notify := connectedPeers < HEALTHY_PEER_COUNT && |connectionPool.availableSlots| > 0;
    }

    /** The timer of a peer has expired. */
    method PeerTimerCallback(i: nat)
      requires Valid() && Inv(cfg, State()) && Enabled(State(), Timer(i))
      modifies this, connectionPool, connectionPool.pool
      ensures Valid() && Inv(cfg, State()) && State() == Apply(cfg, old(State()), Timer(i))
    {
      ArmedHeld(cfg, State(), i);
      TimerKeeps(cfg, State(), i);
      ExpireTimer(i);
    }

    /** `peer_timer_callback`. */
    method ExpireTimer(i: nat)
      requires Holds(i)
      modifies this, connectionPool, connectionPool.pool
      ensures Valid() && State() == TimerExpired(old(State()), i)
    {
      var p := PeerAt(i);
      Assert(p.state != Connected, EventOnConnected);
      if p.state == Failed {
        Store(i, Stopped(p));
        retryQueue := retryQueue + [HandleAt(i)];
        return;
      }
      Store(i, p.(timer := false));
      HandlePeerFailure(i);
    }

    /** `handle_peer_transport_level_initiations`. */
    method TransportLevelInitiations(i: nat, writable: bool, io: Io)
      requires Holds(i)
      modifies this, connectionPool, connectionPool.pool
      ensures Valid() && State() == TransportInitiation(cfg, old(State()), i, writable, io)
    {
      if !writable {
        return;
      }
      if io.soError {
        HandlePeerFailure(i);
        return;
      }
      var p := PeerAt(i).(state := Handshaking);
      var ok, exhausted;
      p, ok, exhausted := SendGreeting(p, io.send);
      if !ok {
        Store(i, p);
        HandlePeerFailure(i);
        return;
      }
      Store(i, p.(interest := if exhausted then Readable else Writable));
    }

    /** Encode from a fresh cursor, with the assertions around it, and send what the socket takes. */
    method SendGreeting(p: Peer, o: SendOutcome) returns (q: Peer, ok: bool, exhausted: bool)
      modifies `faults
      ensures (q, ok, exhausted) == GreetPeer(cfg, p, o)
      ensures State() == CheckGreeting(cfg, old(State()), p)
    {
      var (encoded, complete) := EncodeHandshake(cfg, p);
      Assert(p.sendBuf == [], SendBufferNotEmpty);
      Assert(complete, EncodeIncomplete);
      var (sent, transportOk, empty) := SendMessages(encoded, o);
      q, ok, exhausted := sent, transportOk, empty;
    }

    /** `handle_peer_application_level_handshake` on a writable socket. */
    method ApplicationLevelSend(i: nat, io: Io)
      requires Holds(i)
      modifies this, connectionPool, connectionPool.pool
      ensures Valid() && State() == HandshakeWritable(old(State()), i, io)
    {
      var (p, ok, exhausted) := SendMessages(PeerAt(i), io.send);
      Store(i, p);
      if !ok {
        HandlePeerFailure(i);
        return;
      }
      if exhausted {
        if p.source == TcpServer {
          HandlePeerConnectionAndDispatch(i);
        } else if p.source == Tracker {
          Rearm(i, p, Readable);
        }
      }
    }

    /** `modify_peer_socket_w_event`. */
    method Rearm(i: nat, p: Peer, interest: Interest)
      requires Holds(i) && PeerAt(i) == p
      modifies connectionPool.pool
      ensures Holds(i) && State() == Put(old(State()), i, p.(interest := interest))
      ensures forall s :: old(State()) == Put(s, i, p) ==> State() == Put(s, i, p.(interest := interest))
    {
      Store(i, p.(interest := interest));
      ghost var q := p.(interest := interest);
      forall s | old(State()) == Put(s, i, p)
        ensures State() == Put(s, i, q)
      {
        PutTwice(s, i, p, q);
      }
    }

    lemma PutTwice(s: ConnectionModel.State, i: nat, p: Peer, q: Peer)
      ensures Put(Put(s, i, p), i, q) == Put(s, i, q)
    {
      if i < |s.pool.slots| {
        assert Put(Put(s, i, p), i, q).pool.slots == Put(s, i, q).pool.slots;
      }
    }

    /** `handle_peer_application_level_handshake` on a readable socket. */
    method ApplicationLevelReceive(i: nat, io: Io)
      requires Holds(i) && |PeerAt(i).recvBuf| <= LENGTH
      modifies this, connectionPool, connectionPool.pool
      ensures Valid() && State() == HandshakeReadable(cfg, old(State()), i, io)
    {
      Assert(|PeerAt(i).recvBuf| < LENGTH, ReceiveOnFull);
      var (p, ok) := RecvMessages(PeerAt(i), io.recv);
      if !ok {
        Store(i, p);
        HandlePeerFailure(i);
        return;
      }
      SettleHandshake(i, p, io);
    }

    method SettleHandshake(i: nat, p: Peer, io: Io)
      requires Holds(i)
      modifies this, connectionPool, connectionPool.pool
      ensures Valid() && State() == Settle(cfg, old(State()), i, p, io)
    {
      var d := DecodeFrom(p.recvBuf, cfg.infoHash, p.peerId);
      var q := p.(recvBuf := d.contents, peerId := d.peerId);
      if !d.complete {
        Store(i, q);
        return;
      }
      if !d.valid {
        Store(i, q.(perrno := NO_ERROR));
        DeletePeerConnection(i);
        return;
      }
      if q.source == Tracker {
        Store(i, q);
        HandlePeerConnectionAndDispatch(i);
      } else if q.source == TcpServer {
        AnswerHandshake(i, q, io);
      } else {
        Store(i, q);
      }
    }

    method AnswerHandshake(i: nat, p: Peer, io: Io)
      requires Holds(i)
      modifies this, connectionPool, connectionPool.pool
      ensures Valid() && State() == Answer(cfg, old(State()), i, p, io)
    {
      var q, ok, exhausted := SendGreeting(p, io.send);
      if !ok {
        Store(i, q);
        HandlePeerFailure(i);
        return;
      }
      if !exhausted {
        Store(i, q.(interest := Writable));
        return;
      }
      Store(i, q);
      HandlePeerConnectionAndDispatch(i);
    }

    /** The socket watcher of a peer has fired: the manager's invariant survives whatever the kernel answers. */
    method PeerSocketCallback(i: nat, ready: Ready, io: Io)
      requires Valid() && Inv(cfg, State()) && Enabled(State(), Socket(i, ready, io))
      modifies this, connectionPool, connectionPool.pool
      ensures Valid() && Inv(cfg, State()) && State() == Apply(cfg, old(State()), Socket(i, ready, io))
    {
      ArmedHeld(cfg, State(), i);
      SocketKeeps(cfg, State(), i, ready, io);
      RouteSocketEvent(i, ready, io);
    }

    /** `peer_socket_callback`. */
    method RouteSocketEvent(i: nat, ready: Ready, io: Io)
      requires Holds(i) && |PeerAt(i).recvBuf| <= LENGTH
      modifies this, connectionPool, connectionPool.pool
      ensures Valid() && State() == ConnectionModel.SocketReady(cfg, old(State()), i, ready, io)
    {
      var p := PeerAt(i);
      Assert(p.state != Connected, EventOnConnected);
      if connectedPeers >= HEALTHY_PEER_COUNT {
        DeletePeerConnection(i);
        return;
      }
      if ready == ErrorReady {
        HandlePeerFailure(i);
        return;
      }
      match p.state
      case Discovered | Disconnected | Failed => TransportLevelInitiations(i, ready == WriteReady, io);
      case Handshaking =>
        if ready == WriteReady {
          ApplicationLevelSend(i, io);
        } else {
          ApplicationLevelReceive(i, io);
        }
      case Connected | Unset => DeletePeerConnection(i);
    }

    // -------------------------------------------------------------------------
    // Accepting
    // -------------------------------------------------------------------------

    method SupersedePeer(i: nat)
      requires Holds(i)
      modifies this, connectionPool, connectionPool.pool
      ensures Valid() && State() == Supersede(old(State()), i)
      ensures connectionPool.occupied == old(connectionPool.occupied) - {i}
    {
      var p := PeerAt(i);
      if p.state != Connected {
        Store(i, p.(perrno := NO_ERROR));
        SingleResolved(p.source);
      }
      DeletePeerConnection(i);
    }

    /** An arrived connection takes a free slot, and replaces whatever its address was registered for. */
    method AdmitPeer(address: Address)
      requires Valid() && Inv(cfg, State()) && connectionPool.availableSlots != []
      modifies this, connectionPool, connectionPool.pool
      ensures Valid() && State() == AcceptIncoming(old(State()), address)
    {
      ghost var s := State();
      AcquireAt(s);
      RegisteredHeld(s, address);
      outboundInflight := Up(outboundInflight);
      var acquired, slot := connectionPool.Acquire();
      assert State() == Reserving(s);
      if address in ipv4Peers {
        SupersedePeer(ipv4Peers[address]);
      }
      RegisterAccepted(slot, address);
    }

    /** The accepted peer's slot is filled in and registered. */
    method RegisterAccepted(slot: nat, address: Address)
      requires Holds(slot)
      modifies `ipv4Peers, connectionPool.pool
      ensures Valid() && State() == Admit(old(State()), slot, address)
    {
      Store(slot, Armed(Initialized(PeerAt(slot), address, TcpServer, Handshaking), Readable));
      ipv4Peers := ipv4Peers[address := slot];
    }

    lemma RegisteredHeld(s: ConnectionModel.State, address: Address)
      requires Inv(cfg, s)
      ensures address in s.peers ==> s.peers[address] in s.pool.occupied
    {
      assert address in s.peers ==> s.peers[address] in Registered(s, {});
    }

    /** `accept_peer_connection`. */
    method AcceptPeerConnection(o: AcceptOutcome) returns (again: bool)
      requires Valid() && Inv(cfg, State())
      modifies this, connectionPool, connectionPool.pool
      ensures Valid() && (State(), again) == Accept(old(State()), o)
      ensures o.Incoming? && again && old(outboundInflight) < MAX_OUTBOUND_INFLIGHT ==>
                Admitted(old(State()), State(), o.address, old(State()).pool.NextSlot())
    {
      if o.Incoming? && connectionPool.availableSlots != [] && outboundInflight < MAX_OUTBOUND_INFLIGHT {
        AcceptEffect(cfg, State(), o.address);
      }
      match o
      case AcceptErrno(e) => again := e == EINTR || e == ECONNABORTED;
      case Incoming(address) =>
        again := |connectionPool.availableSlots| > 0;
        if again {
          AdmitPeer(address);
        }
    }

    /** `server_socket_callback`; `arrivals` is what successive accept4 calls return. */
    method ServerSocketCallback(arrivals: seq<AcceptOutcome>)
      requires Valid() && Inv(cfg, State())
      modifies this, connectionPool, connectionPool.pool
      ensures Valid() && Inv(cfg, State()) && State() == ConnectionModel.ServerReady(old(State()), arrivals)
    {
      var i, pending := 0, true;
      while i < |arrivals| && connectedPeers < HEALTHY_PEER_COUNT && outboundInflight < MAX_OUTBOUND_INFLIGHT && pending
        invariant 0 <= i <= |arrivals| && Valid() && Inv(cfg, State())
        invariant ConnectionModel.ServerReady(old(State()), arrivals) ==
                    if pending then ConnectionModel.ServerReady(State(), arrivals[i..]) else State()
      {
        AcceptKeeps(cfg, State(), arrivals[i]);
        assert arrivals[i..][0] == arrivals[i] && arrivals[i..][1..] == arrivals[i + 1..];
        pending := AcceptPeerConnection(arrivals[i]);
        i := i + 1;
      }
    }
  }
}
