/** Every callback keeps the invariant. */
module ConnectionSteps {
  import opened Handshake
  import opened Transport
  import opened SlotPool
  import opened Peers
  import opened ConnectionModel
  import opened ConnectionInvariant

  /** The counters bound what they count, and no fault has been met. */
  ghost predicate Counted(s: State, open: set<nat>) {
    && |Waiting(s, open)| <= s.outbound <= MAX_OUTBOUND_INFLIGHT
    && |Unanswered(s)| <= s.connected <= HEALTHY_PEER_COUNT
    && s.faults == {}
  }

  /** The manager's invariant between callbacks. */
  ghost predicate Inv(cfg: Config, s: State) {
    Core(cfg, s, {}, {}) && Counted(s, {})
  }

  /** Slot i is being rewritten, and its handle is in no queue. */
  ghost predicate Opened(cfg: Config, s: State, i: nat) {
    && Core(cfg, s, {}, {i}) && Counted(s, {i}) && i in Registered(s, {})
    && HandleOf(s, i) !in s.retry && HandleOf(s, i) !in Unanswered(s)
  }

  /** An accepted peer in slot i is still paid for in the outbound count. */
  ghost predicate Owed(s: State, i: nat) {
    At(s, i).source == TcpServer ==> |Waiting(s, {i})| < s.outbound
  }

  // ---------------------------------------------------------------------------
  // connect()
  // ---------------------------------------------------------------------------

  lemma RewriteOpened(cfg: Config, s: State, i: nat, p: Peer)
    requires Opened(cfg, s, i) && p.key == At(s, i).key && p.source == At(s, i).source
    ensures i < |s.pool.slots| && Opened(cfg, Put(s, i, p), i) && At(Put(s, i, p), i) == p
    ensures Unanswered(Put(s, i, p)) == Unanswered(s)
    ensures Owed(s, i) ==> Owed(Put(s, i, p), i)
  {
    Rewrite(cfg, s, {}, i, p);
    PutAt(s, i, p);
  }

  lemma CloseOpened(cfg: Config, s: State, i: nat)
    requires Opened(cfg, s, i) && Owed(s, i) && PeerOk(cfg, At(s, i)) && At(s, i).state != Connected
    ensures Inv(cfg, s)
  {
    Close(cfg, s, {}, i);
    assert |Waiting(s, {})| <= |Waiting(s, {i})| + 1;
  }

  lemma RetireOpened(cfg: Config, s: State, i: nat)
    requires Opened(cfg, s, i) && At(s, i).perrno != PEER_SHUTDOWN
    ensures Inv(cfg, Retire(s, i))
  {
    RetireKeeps(cfg, s, {}, i);
    assert i < |s.pool.slots|;
  }

  /** A peer about to connect: idle buffers, known to the tracker. */
  predicate Connectable(p: Peer) {
    && p.source == Tracker && (p.state == Discovered || p.state == Disconnected || p.state == Failed)
    && p.sendBuf == [] && p.recvBuf == []
  }

  lemma DialKeeps(cfg: Config, p: Peer, outcome: ConnectOutcome)
    requires PeerOk(cfg, p) && Connectable(p)
    ensures var (q, ok) := Dial(p, outcome);
            && q.key == p.key && q.source == p.source && q.perrno != PEER_SHUTDOWN
            && (ok ==> PeerOk(cfg, q) && q.state != Connected)
  {
  }

  /** Everything but attempt numbers, the inbound count, the cache and the round-robin position. */
  ghost predicate Alike(s: State, t: State) {
    && t.pool == s.pool && t.peers == s.peers && t.retry == s.retry
    && t.connects == s.connects && t.sessions == s.sessions && t.disconnects == s.disconnects
    && t.connected == s.connected && t.outbound == s.outbound && t.faults == s.faults
  }

  lemma InvFrame(cfg: Config, s: State, t: State)
    requires Inv(cfg, s) && Alike(s, t)
    ensures Inv(cfg, t)
  {
    CoreFrame(cfg, s, t, {}, {});
  }

  lemma OpenedFrame(cfg: Config, s: State, t: State, i: nat)
    requires Opened(cfg, s, i) && Alike(s, t)
    ensures Opened(cfg, t, i)
  {
    CoreFrame(cfg, s, t, {}, {i});
  }

  lemma AttemptShape(cfg: Config, s: State, i: nat)
    requires At(s, i).source == Tracker
    ensures var (p, ok) := Dial(At(s, i), cfg.outcome(s.attempts));
            var t := Put(s.(attempts := s.attempts + 1), i, p);
            AttemptOrDelete(cfg, s, i) ==
              if ok then (t.(inbound := Up(t.inbound)), Attempted) else (Retire(t, i), Deleted)
  {
  }

  lemma AttemptKeeps(cfg: Config, s: State, i: nat)
    requires Opened(cfg, s, i) && Connectable(At(s, i)) && PeerOk(cfg, At(s, i))
    ensures Inv(cfg, AttemptOrDelete(cfg, s, i).0)
  {
    AttemptShape(cfg, s, i);
    var s1 := s.(attempts := s.attempts + 1);
    OpenedFrame(cfg, s, s1, i);
    var (p, ok) := Dial(At(s, i), cfg.outcome(s.attempts));
    DialKeeps(cfg, At(s, i), cfg.outcome(s.attempts));
    RewriteOpened(cfg, s1, i, p);
    var s2 := Put(s1, i, p);
    if ok {
      CloseOpened(cfg, s2, i);
      InvFrame(cfg, s2, s2.(inbound := Up(s2.inbound)));
    } else {
      RetireOpened(cfg, s2, i);
    }
  }

  // ---------------------------------------------------------------------------
  // The three sources
  // ---------------------------------------------------------------------------

  lemma OpenUnheld(cfg: Config, s: State, i: nat)
    requires Inv(cfg, s) && i in Registered(s, {})
    requires HandleOf(s, i) !in s.retry && At(s, i).state != Connected
    ensures Opened(cfg, s, i) && Owed(s, i) && PeerOk(cfg, At(s, i))
  {
    Open(cfg, s, {}, i);
    if At(s, i).source == TcpServer {
      assert Awaiting(At(s, i));
      assert |Waiting(s, {})| == |Waiting(s, {i})| + 1;
    } else {
      assert Waiting(s, {}) == Waiting(s, {i});
    }
  }

  lemma DiscoveredKeeps(cfg: Config, s: State, address: Address)
    requires Inv(cfg, s) && s.pool.free != []
    ensures Inv(cfg, TryDiscovered(cfg, s, address).0)
  {
    if address in s.peers {
      PutBackKeeps(cfg, s);
      assert Unanswered(PutBack(s)) == Unanswered(s);
    } else {
      Reserve(cfg, s);
      var slot, r := s.pool.NextSlot(), s.(pool := s.pool.Acquired());
      var p := Initialized(At(r, slot), address, Tracker, Discovered);
      Fill(cfg, r, slot, p);
      var t := Enrol(s, address);
      assert t == Registering(r, slot, p);
      assert Unanswered(t) == Unanswered(s);
      OpenUnheld(cfg, t, slot);
      AttemptKeeps(cfg, t, slot);
    }
  }

  lemma {:induction false} UnansweredMinus(s: State, t: State)
    requires s.disconnects != [] && t == WithoutReport(s)
    ensures Unanswered(s) == Unanswered(t) + multiset{s.disconnects[0].handle}
    ensures |Unanswered(s)| == |Unanswered(t)| + 1
  {
    assert Handles(s.disconnects) == [s.disconnects[0].handle] + Handles(s.disconnects[1..]);
  }

  /** Removing one handle from the unanswered ones, each of which occurs once. */
  lemma SessionsMinus(s: State, t: State, h: Handle)
    requires SessionsOk(s, {}, {}) && t.pool == s.pool && Unanswered(s) == Unanswered(t) + multiset{h}
    ensures h !in Unanswered(t) && HandleOk(s, {}, h)
    ensures Live(s, h) ==> h.slot in Registered(s, {}) && At(s, h.slot).state == Connected
    ensures Live(s, h) ==> SessionsOk(t, {}, {h.slot})
    ensures !Live(s, h) ==> SessionsOk(t, {}, {})
  {
    assert h in Unanswered(s) && Unanswered(s)[h] == Unanswered(t)[h] + 1;
    SessionsSubset(s, t);
    if Live(s, h) {
      assert HandleOf(s, h.slot) == h;
    }
    forall i | i in Registered(t, {}) && HandleOf(s, i) != h
      ensures At(t, i).state == Connected <==> HandleOf(t, i) in Unanswered(t)
    {
      SessionUnchanged(s, t, h, i);
    }
  }

  lemma SessionUnchanged(s: State, t: State, h: Handle, i: nat)
    requires SessionsOk(s, {}, {}) && t.pool == s.pool && Unanswered(s) == Unanswered(t) + multiset{h}
    requires i in Registered(s, {}) && HandleOf(s, i) != h
    ensures At(t, i).state == Connected <==> HandleOf(t, i) in Unanswered(t)
  {
    assert At(t, i) == At(s, i) && HandleOf(t, i) == HandleOf(s, i);
  }

  lemma SessionsSubset(s: State, t: State)
    requires SessionsOk(s, {}, {}) && t.pool == s.pool && Unanswered(t) <= Unanswered(s)
    ensures forall x :: x in Unanswered(t) ==> HandleOk(t, {}, x) && Unanswered(t)[x] == 1
  {
    forall x | x in Unanswered(t)
      ensures HandleOk(t, {}, x) && Unanswered(t)[x] == 1
    {
      assert x in Unanswered(s) && HandleOk(s, {}, x);
    }
  }

  ghost predicate OpenedConnected(cfg: Config, s: State, i: nat) {
    Opened(cfg, s, i) && PeerOk(cfg, At(s, i)) && At(s, i).state == Connected
  }

  /** Taking a disconnect update: a live one opens its peer, a stale one changes nothing else. */
  lemma PopDisconnect(cfg: Config, s: State)
    requires Inv(cfg, s) && s.disconnects != []
    ensures var h, t := s.disconnects[0].handle, WithoutReport(s);
            if Live(s, h) then
              Live(t, h) && OpenedConnected(cfg, Uncounted(t), h.slot)
            else Inv(cfg, t) && !Live(t, h)
  {
    var h, t := s.disconnects[0].handle, WithoutReport(s);
    UnansweredMinus(s, t);
    SessionsMinus(s, t, h);
    if Live(s, h) {
      PopLive(cfg, s, t, h);
    } else {
      PoolFrame(cfg, s, t, {}, {});
    }
  }

  lemma PopLive(cfg: Config, s: State, t: State, h: Handle)
    requires Core(cfg, s, {}, {}) && Counted(s, {}) && t == s.(disconnects := t.disconnects)
    requires Live(s, h) && h.slot in Registered(s, {}) && At(s, h.slot).state == Connected
    requires SessionsOk(t, {}, {h.slot}) && h !in Unanswered(t) && |Unanswered(t)| < |Unanswered(s)|
    ensures OpenedConnected(cfg, Uncounted(t), h.slot)
  {
    Open(cfg, s, {}, h.slot);
    var u := Uncounted(t);
    assert h == HandleOf(s, h.slot) == HandleOf(u, h.slot);
    PoolFrame(cfg, s, u, {}, {h.slot});
    SessionsFrame(t, u, {}, {h.slot});
    assert At(u, h.slot) == At(s, h.slot);
  }

  lemma DisconnectedShape(cfg: Config, t: State, h: Handle, u: State)
    requires Live(t, h) && u == Uncounted(t)
    ensures var q := At(u, h.slot).(state := Disconnected);
            TryDisconnected(cfg, t, h) ==
              if q.perrno == PEER_SHUTDOWN || q.source == TcpServer then (Retire(Put(u, h.slot, q), h.slot), Deleted)
              else AttemptOrDelete(cfg, Put(u, h.slot, OneMoreFailure(q)), h.slot)
  {
    var q := At(u, h.slot).(state := Disconnected);
    var v := Put(u, h.slot, q);
    assert v == MarkDisconnected(t, h.slot) && At(v, h.slot) == q;
    var r := OneMoreFailure(q);
    assert Put(v, h.slot, r).pool.slots == Put(u, h.slot, r).pool.slots;
    assert Put(v, h.slot, r) == Put(u, h.slot, r);
  }

  lemma DisconnectedAttempt(cfg: Config, u: State, i: nat, r: Peer)
    requires OpenedConnected(cfg, u, i) && At(u, i).source != TcpServer
    requires r == At(u, i).(state := Disconnected, failures := At(u, i).failures + 1)
    ensures Inv(cfg, AttemptOrDelete(cfg, Put(u, i, r), i).0)
  {
    RewriteOpened(cfg, u, i, r);
    AttemptKeeps(cfg, Put(u, i, r), i);
  }

  lemma DisconnectedKeeps(cfg: Config, s: State)
    requires Inv(cfg, s) && s.disconnects != []
    ensures Inv(cfg, TryDisconnected(cfg, WithoutReport(s), s.disconnects[0].handle).0)
  {
    var h, t := s.disconnects[0].handle, WithoutReport(s);
    PopDisconnect(cfg, s);
    if Live(t, h) {
      DisconnectedAfterPop(cfg, t, h);
    }
  }

  lemma DisconnectedAfterPop(cfg: Config, t: State, h: Handle)
    requires Live(t, h) && OpenedConnected(cfg, Uncounted(t), h.slot)
    ensures Inv(cfg, TryDisconnected(cfg, t, h).0)
  {
    var u := Uncounted(t);
    DisconnectedShape(cfg, t, h, u);
    var q := At(u, h.slot).(state := Disconnected);
    if q.source == TcpServer {
      DisconnectedDeleted(cfg, u, h.slot, q);
    } else {
      DisconnectedAttempt(cfg, u, h.slot, OneMoreFailure(q));
    }
  }

  lemma DisconnectedDeleted(cfg: Config, u: State, i: nat, q: Peer)
    requires OpenedConnected(cfg, u, i) && q == At(u, i).(state := Disconnected)
    ensures Inv(cfg, Retire(Put(u, i, q), i))
  {
    RewriteOpened(cfg, u, i, q);
    RetireOpened(cfg, Put(u, i, q), i);
  }

  /** Taking a retry: a live one opens a failed peer nothing else is watching. */
  lemma PopRetry(cfg: Config, s: State)
    requires Inv(cfg, s) && s.retry != []
    ensures var h, t := s.retry[0], WithoutRetry(s);
            if Live(s, h) then Opened(cfg, t, h.slot) && Idle(At(t, h.slot)) && PeerOk(cfg, At(t, h.slot))
            else Inv(cfg, t)
  {
    var h, t := s.retry[0], WithoutRetry(s);
    if Live(s, h) {
      PopLiveRetry(cfg, s, t, h);
    } else {
      RetryTail(s, t, h, {});
      SlotsFrame(cfg, s, t, {});
    }
  }

  lemma PopLiveRetry(cfg: Config, s: State, t: State, h: Handle)
    requires Inv(cfg, s) && s.retry != [] && h == s.retry[0] && Live(s, h) && t == WithoutRetry(s)
    ensures Opened(cfg, t, h.slot) && Idle(At(t, h.slot)) && PeerOk(cfg, At(t, h.slot))
  {
    assert h == HandleOf(s, h.slot) == HandleOf(t, h.slot) && HandleOk(s, {}, h);
    Open(cfg, s, {}, h.slot);
    RetryTail(s, t, h, {h.slot});
    SlotsFrame(cfg, s, t, {h.slot});
    assert At(t, h.slot) == At(s, h.slot);
  }

  lemma RetryTail(s: State, t: State, h: Handle, open: set<nat>)
    requires s.retry != [] && s.retry[0] == h && t == WithoutRetry(s) && RetryOk(s, {}, open)
    ensures RetryOk(t, {}, open) && h !in t.retry
  {
    assert forall i: nat :: At(t, i) == At(s, i) && Generation(t, i) == Generation(s, i);
    assert forall x :: x in t.retry ==> x in s.retry;
    assert forall x :: HandleOk(s, {}, x) ==> HandleOk(t, {}, x);
    assert forall k :: 0 <= k < |t.retry| ==> t.retry[k] == s.retry[k + 1];
  }

  lemma SlotsFrame(cfg: Config, s: State, t: State, open: set<nat>)
    requires SlotsOk(cfg, s, {}, open) && MapOk(s, {}) && SessionsOk(s, {}, open)
    requires t.pool == s.pool && t.peers == s.peers && Unanswered(t) == Unanswered(s)
    ensures SlotsOk(cfg, t, {}, open) && MapOk(t, {}) && SessionsOk(t, {}, open)
    ensures Waiting(t, open) == Waiting(s, open)
  {
    assert forall i: nat :: At(t, i) == At(s, i) && Generation(t, i) == Generation(s, i);
    SessionsFrame(s, t, {}, open);
  }

  lemma FailedKeeps(cfg: Config, s: State)
    requires Inv(cfg, s) && s.retry != []
    ensures Inv(cfg, TryFailed(cfg, WithoutRetry(s), s.retry[0]).0)
  {
    var h, t := s.retry[0], WithoutRetry(s);
    PopRetry(cfg, s);
    assert Live(t, h) <==> Live(s, h);
    if Live(s, h) {
      AttemptKeeps(cfg, t, h.slot);
    }
  }

  lemma DiscoverySpotKeeps(cfg: Config, s: State)
    requires Inv(cfg, s) && s.cache != [] && s.pool.free != []
    ensures Inv(cfg, TryDiscovered(cfg, WithoutNewest(s), Newest(s)).0)
  {
    var t := WithoutNewest(s);
    InvFrame(cfg, s, t);
    DiscoveredKeeps(cfg, t, Newest(s));
  }

  lemma TryKeeps(cfg: Config, s: State, spot: Spot)
    requires Inv(cfg, s) && Pending(s, spot) > 0 && (spot == DiscoveredSpot ==> s.pool.free != [])
    ensures var (s1, item) := Pop(s, spot); Inv(cfg, Try(cfg, s1, item).0)
  {
    TryShape(cfg, s, spot);
    match spot
    case DiscoveredSpot => DiscoverySpotKeeps(cfg, s);
    case DisconnectedSpot => DisconnectedKeeps(cfg, s);
    case FailedSpot => FailedKeeps(cfg, s);
  }

  lemma TryShape(cfg: Config, s: State, spot: Spot)
    requires Pending(s, spot) > 0
    ensures var (s1, item) := Pop(s, spot);
            Try(cfg, s1, item) ==
              match spot {
                case DiscoveredSpot => TryDiscovered(cfg, WithoutNewest(s), Newest(s))
                case DisconnectedSpot => TryDisconnected(cfg, WithoutReport(s), s.disconnects[0].handle)
                case FailedSpot => TryFailed(cfg, WithoutRetry(s), s.retry[0])
              }
  {
  }

  /** An unsuccessful discovery gives its slot back, so the next one finds the pool as open as the first. */
  lemma DiscoveryReturnsSlot(cfg: Config, s: State, address: Address)
    requires Inv(cfg, s) && s.pool.free != [] && TryDiscovered(cfg, s, address).1 != Attempted
    ensures TryDiscovered(cfg, s, address).0.pool.free != []
  {
    if address in s.peers {
      s.pool.AcquiredValid();
    } else {
      AttemptShape(cfg, Enrol(s, address), s.pool.NextSlot());
    }
  }

  lemma {:induction false} DrainKeeps(cfg: Config, s: State, spot: Spot)
    requires Inv(cfg, s) && (spot == DiscoveredSpot ==> s.pool.free != [])
    ensures Inv(cfg, DrainLoop(cfg, s, spot).state)
    decreases Pending(s, spot)
  {
    if Pending(s, spot) > 0 {
      var (s1, item) := Pop(s, spot);
      TryFrame(cfg, s1, item);
      TryKeeps(cfg, s, spot);
      var (s2, fate) := Try(cfg, s1, item);
      if fate != Attempted {
        if spot == DiscoveredSpot {
          InvFrame(cfg, s, s1);
          DiscoveryReturnsSlot(cfg, s1, item.address);
        }
        DrainKeeps(cfg, s2, spot);
      }
    }
  }

  lemma TurnKeeps(cfg: Config, s: State)
    requires Inv(cfg, s)
    ensures Inv(cfg, Turn(cfg, s).state)
    ensures Inv(cfg, Turn(cfg, s).state.(current := NextSpot(s.current)))
  {
    var d := DrainSpot(cfg, s, s.current);
    DrainFrame(cfg, s, s.current);
    if s.current != DiscoveredSpot || s.pool.free != [] {
      DrainKeeps(cfg, s, s.current);
    }
    var t := Turn(cfg, s).state;
    InvFrame(cfg, d.state, t);
    InvFrame(cfg, t, t.(current := NextSpot(s.current)));
  }

  lemma {:induction false} RoundRobinKeeps(cfg: Config, s: State)
    requires Inv(cfg, s)
    ensures Inv(cfg, RoundRobin(cfg, s).0)
    decreases Room(s), UnsetFlags(s.empties), Distance(s.current, s.empties)
  {
    if s.inbound < MAX_INBOUND_INFLIGHT {
      TurnProgress(cfg, s);
      TurnKeeps(cfg, s);
      var t := Turn(cfg, s).state;
      if !AllEmpty(t.empties) {
        RoundRobinKeeps(cfg, t.(current := NextSpot(s.current)));
      }
    }
  }

  // ---------------------------------------------------------------------------
  // Failure, timers, dispatch
  // ---------------------------------------------------------------------------

  /** Settling an open peer pays back its share of the outbound count. */
  lemma ResolveOpened(cfg: Config, s: State, i: nat)
    requires Opened(cfg, s, i) && Owed(s, i)
    ensures Opened(cfg, Resolve(s, At(s, i).source), i)
    ensures At(Resolve(s, At(s, i).source), i) == At(s, i)
  {
    var t := Resolve(s, At(s, i).source);
    CoreFrame(cfg, s, t, {}, {i});
  }

  /** Closing a tracker peer, which is never counted as outbound. */
  lemma CloseTracker(cfg: Config, s: State, i: nat)
    requires Opened(cfg, s, i) && PeerOk(cfg, At(s, i)) && At(s, i).state != Connected && At(s, i).source == Tracker
    ensures Inv(cfg, s)
  {
    CloseOpened(cfg, s, i);
  }

  lemma FailureResolved(cfg: Config, s: State, i: nat, p: Peer, r: State)
    requires Opened(cfg, s, i) && Owed(s, i) && p == FailedPeer(At(s, i)) && r == Resolve(Put(s, i, p), p.source)
    ensures Opened(cfg, r, i) && At(r, i) == p
  {
    RewriteOpened(cfg, s, i, p);
    ResolveOpened(cfg, Put(s, i, p), i);
  }

  lemma HandleFailureKeeps(cfg: Config, s: State, i: nat)
    requires Opened(cfg, s, i) && Owed(s, i) && At(s, i).source != Unknown
    ensures Inv(cfg, HandleFailure(s, i))
  {
    var p := FailedPeer(At(s, i));
    var r := Resolve(Put(s, i, p), p.source);
    FailureResolved(cfg, s, i, p, r);
    AfterResolve(cfg, r, i);
  }

  lemma AfterResolve(cfg: Config, s: State, i: nat)
    requires Opened(cfg, s, i) && At(s, i).state == Failed && At(s, i).source != Unknown && At(s, i).perrno == NO_ERROR
    ensures Inv(cfg, Retire(s, i))
    ensures At(s, i).source != TcpServer ==> Inv(cfg, Put(s, i, AwaitingRetry(At(s, i))))
  {
    var p := At(s, i);
    RetireOpened(cfg, s, i);
    if p.source != TcpServer {
      var r := AwaitingRetry(p);
      RewriteOpened(cfg, s, i, r);
      CloseTracker(cfg, Put(s, i, r), i);
    }
  }

  /** What a peer must look like to be handed over. */
  predicate HandedOver(cfg: Config, p: Peer) {
    && p.source != Unknown && p.perrno != PEER_SHUTDOWN
    && p.sendBuf == [] && p.recvBuf == []
    && p.attempt.sent == (if p.attempt.immediate then [] else cfg.Greeting())
    && Recognised(cfg, p)
  }

  lemma {:induction false} UnansweredPlus(s: State, t: State, h: Handle)
    requires t.connects == s.connects + [h] && t.sessions == s.sessions && t.disconnects == s.disconnects
    ensures Unanswered(t) == Unanswered(s) + multiset{h}
    ensures |Unanswered(t)| == |Unanswered(s)| + 1
  {
  }

  lemma SessionsPlus(s: State, t: State, i: nat)
    requires SessionsOk(s, {}, {i}) && s.pool.Valid() && i in Registered(s, {}) && HandleOf(s, i) !in Unanswered(s)
    requires t.pool == s.pool && Unanswered(t) == Unanswered(s) + multiset{HandleOf(s, i)}
    ensures SessionsOk(t, {}, {i}) && HandleOf(t, i) in Unanswered(t)
  {
    var h := HandleOf(s, i);
    assert HandleOk(t, {}, h);
    assert forall x :: HandleOk(s, {}, x) ==> HandleOk(t, {}, x);
    assert forall x :: x in Unanswered(t) ==> Unanswered(t)[x] == if x == h then 1 else Unanswered(s)[x];
    assert forall j: nat :: At(t, j) == At(s, j) && HandleOf(t, j) == HandleOf(s, j);
  }

  /** Handing an open peer over: its handle becomes the one unanswered update for its slot. */
  lemma HandOver(cfg: Config, s: State, t: State, i: nat)
    requires Opened(cfg, s, i) && HandedOver(cfg, At(s, i))
    requires At(s, i).state == Connected && At(s, i).interest == Quiet && !At(s, i).timer
    requires t.pool == s.pool && t.peers == s.peers && t.retry == s.retry
    requires Unanswered(t) == Unanswered(s) + multiset{HandleOf(s, i)}
    ensures Core(cfg, t, {}, {})
    ensures Waiting(t, {}) == Waiting(s, {i})
  {
    PoolFrame(cfg, s, t, {}, {i});
    SessionsPlus(s, t, i);
    assert At(t, i) == At(s, i) && HandleOf(t, i) == HandleOf(s, i);
    Close(cfg, t, {}, i);
  }

  /** Below the quota the connect queue has room: its updates are among the unanswered ones, and those are counted. */
  lemma AnnounceKeeps(cfg: Config, s: State, i: nat)
    requires Opened(cfg, s, i) && HandedOver(cfg, At(s, i)) && !QuotaMet(s)
    requires At(s, i).state == Connected && At(s, i).interest == Quiet && !At(s, i).timer
    ensures var t := Announce(s, i);
            && Core(cfg, t, {}, {}) && Waiting(t, {}) == Waiting(s, {i})
            && |Unanswered(t)| <= t.connected <= HEALTHY_PEER_COUNT && t.faults == {}
  {
    assert |s.connects| <= |Unanswered(s)|;
    UnansweredPlus(s, Announce(s, i), HandleOf(s, i));
    HandOver(cfg, s, Announce(s, i), i);
  }

  lemma DispatchKeeps(cfg: Config, s: State, i: nat)
    requires Opened(cfg, s, i) && Owed(s, i) && HandedOver(cfg, At(s, i)) && !QuotaMet(s)
    ensures Inv(cfg, Dispatch(s, i))
  {
    var p := Stopped(At(s, i).(state := Connected));
    RewriteOpened(cfg, s, i, p);
    var s1 := Put(s, i, p);
    AnnounceKeeps(cfg, s1, i);
    var s2 := Announce(s1, i);
    CoreFrame(cfg, s2, Resolve(s2, p.source), {}, {});
  }

  lemma ArmedHeld(cfg: Config, s: State, i: nat)
    requires Inv(cfg, s) && (At(s, i).timer || At(s, i).interest != Quiet)
    ensures i in s.pool.occupied
  {
    assert i in Registered(s, {});
  }

  /** A peer with an armed watcher is registered, not connected, and in no queue; opening it is safe. */
  lemma ArmedOpened(cfg: Config, s: State, i: nat)
    requires Inv(cfg, s) && (At(s, i).timer || At(s, i).interest != Quiet)
    ensures Opened(cfg, s, i) && Owed(s, i) && PeerOk(cfg, At(s, i)) && At(s, i).state != Connected
  {
    assert i in Registered(s, {});
    Open(cfg, s, {}, i);
    OpenUnheld(cfg, s, i);
  }

  lemma TimerKeeps(cfg: Config, s: State, i: nat)
    requires Inv(cfg, s) && At(s, i).timer
    ensures Inv(cfg, TimerExpired(s, i))
  {
    ArmedOpened(cfg, s, i);
    if At(s, i).state == Failed {
      RequeueOpened(cfg, s, i);
    } else {
      var p := At(s, i).(timer := false);
      RewriteOpened(cfg, s, i, p);
      HandleFailureKeeps(cfg, Put(s, i, p), i);
    }
  }

  lemma RequeueOpened(cfg: Config, s: State, i: nat)
    requires Opened(cfg, s, i) && PeerOk(cfg, At(s, i)) && At(s, i).state == Failed
    ensures Inv(cfg, Requeue(Put(s, i, Stopped(At(s, i))), i))
  {
    var p := Stopped(At(s, i));
    RewriteOpened(cfg, s, i, p);
    CloseTracker(cfg, Put(s, i, p), i);
    QueueRetry(cfg, Put(s, i, p), i);
  }

  lemma RetryPlus(s: State, i: nat)
    requires RetryOk(s, {}, {}) && i in Registered(s, {}) && s.pool.Valid() && Idle(At(s, i))
    requires HandleOf(s, i) !in s.retry
    ensures RetryOk(Requeue(s, i), {}, {})
  {
    var t := Requeue(s, i);
    assert HandleOk(t, {}, HandleOf(s, i));
    assert forall j: nat :: At(t, j) == At(s, j) && Generation(t, j) == Generation(s, j);
    assert forall x :: x in t.retry <==> x in s.retry || x == HandleOf(s, i);
    assert forall x :: HandleOk(s, {}, x) ==> HandleOk(t, {}, x);
  }

  lemma QueueRetry(cfg: Config, s: State, i: nat)
    requires Inv(cfg, s) && i in Registered(s, {}) && Idle(At(s, i)) && HandleOf(s, i) !in s.retry
    ensures Inv(cfg, Requeue(s, i))
  {
    SlotsFrame(cfg, s, Requeue(s, i), {});
    RetryPlus(s, i);
  }

  // ---------------------------------------------------------------------------
  // The handshake, peer by peer
  // ---------------------------------------------------------------------------

  lemma SendKeeps(p: Peer, o: SendOutcome)
    ensures var (q, ok, exhausted) := SendMessages(p, o);
            && q == p.(sendBuf := q.sendBuf, perrno := q.perrno, attempt := p.attempt.(sent := q.attempt.sent))
            && q.attempt.sent + q.sendBuf == p.attempt.sent + p.sendBuf
            && q.perrno != PEER_SHUTDOWN
            && (exhausted <==> q.sendBuf == [])
  {
    var t := SendFrom(p.sendBuf, o);
    assert t.moved + t.contents == p.sendBuf;
    assert p.attempt.sent + t.moved + t.contents == p.attempt.sent + (t.moved + t.contents);
  }

  /** Greeting from an empty buffer: the assertions hold, and sent and buffered bytes together are the handshake. */
  lemma GreetKeeps(cfg: Config, s: State, p: Peer, o: SendOutcome)
    requires p.sendBuf == [] && p.attempt.sent == []
    ensures var (q, ok, exhausted) := GreetPeer(cfg, p, o);
            && CheckGreeting(cfg, s, p) == s
            && q == p.(sendBuf := q.sendBuf, cursor := LENGTH, perrno := q.perrno,
                       attempt := p.attempt.(sent := q.attempt.sent))
            && q.attempt.sent + q.sendBuf == cfg.Greeting()
            && q.perrno != PEER_SHUTDOWN
            && (exhausted <==> q.sendBuf == [])
            && (exhausted ==> q.attempt.sent == cfg.Greeting())
  {
    var e := EncodeHandshake(cfg, p).0;
    assert [] + cfg.Greeting()[0..LENGTH] == cfg.Greeting();
    SendKeeps(e, o);
    assert [] + cfg.Greeting() == cfg.Greeting();
    var q := GreetPeer(cfg, p, o).0;
    assert q.sendBuf == [] ==> q.attempt.sent + q.sendBuf == q.attempt.sent;
  }

  lemma TransportKeeps(cfg: Config, s: State, i: nat, io: Io)
    requires Opened(cfg, s, i) && Owed(s, i) && PeerOk(cfg, At(s, i)) && At(s, i).interest == Writable
    requires At(s, i).state == Discovered || At(s, i).state == Disconnected || At(s, i).state == Failed
    ensures Inv(cfg, TransportInitiation(cfg, s, i, true, io))
  {
    if io.soError {
      HandleFailureKeeps(cfg, s, i);
    } else {
      var p := At(s, i).(state := Handshaking);
      GreetKeeps(cfg, s, p, io.send);
      var (q, ok, exhausted) := GreetPeer(cfg, p, io.send);
      if !ok {
        RewriteOpened(cfg, s, i, q);
        HandleFailureKeeps(cfg, Put(s, i, q), i);
      } else {
        var r := q.(interest := if exhausted then Readable else Writable);
        RewriteOpened(cfg, s, i, r);
        CloseTracker(cfg, Put(s, i, r), i);
      }
    }
  }

  lemma WritableKeeps(cfg: Config, s: State, i: nat, io: Io)
    requires Opened(cfg, s, i) && Owed(s, i) && PeerOk(cfg, At(s, i)) && !QuotaMet(s)
    requires At(s, i).state == Handshaking && At(s, i).interest == Writable
    ensures Inv(cfg, HandshakeWritable(s, i, io))
  {
    var (p, ok, exhausted) := SendMessages(At(s, i), io.send);
    SendKeeps(At(s, i), io.send);
    RewriteOpened(cfg, s, i, p);
    if !ok {
      HandleFailureKeeps(cfg, Put(s, i, p), i);
    } else if !exhausted {
      CloseOpened(cfg, Put(s, i, p), i);
    } else {
      assert p.attempt.sent + p.sendBuf == p.attempt.sent;
      if p.source == TcpServer {
        DispatchKeeps(cfg, Put(s, i, p), i);
      } else {
        RewriteOpened(cfg, s, i, p.(interest := Readable));
        CloseTracker(cfg, Put(s, i, p.(interest := Readable)), i);
      }
    }
  }

  lemma AnswerKeeps(cfg: Config, s: State, i: nat, p: Peer, io: Io)
    requires Opened(cfg, s, i) && Owed(s, i) && !QuotaMet(s)
    requires p.key == At(s, i).key && p.source == At(s, i).source == TcpServer && p.state == Handshaking
    requires p.sendBuf == [] && p.recvBuf == [] && p.attempt.sent == [] && !p.attempt.immediate && Recognised(cfg, p)
    ensures Inv(cfg, Answer(cfg, s, i, p, io))
  {
    GreetKeeps(cfg, s, p, io.send);
    var (q, ok, exhausted) := GreetPeer(cfg, p, io.send);
    RewriteOpened(cfg, s, i, q);
    if !ok {
      HandleFailureKeeps(cfg, Put(s, i, q), i);
    } else if !exhausted {
      var r := q.(interest := Writable);
      RewriteOpened(cfg, s, i, r);
      CloseOpened(cfg, Put(s, i, r), i);
    } else {
      DispatchKeeps(cfg, Put(s, i, q), i);
    }
  }

  /** Receiving from a listening peer: the bytes received in this attempt stay the buffered ones, and fit. */
  lemma ReceiveKeeps(p: Peer, o: RecvOutcome)
    requires |p.recvBuf| < LENGTH && p.attempt.received == p.recvBuf && p.perrno != PEER_SHUTDOWN
    ensures var (q, ok) := RecvMessages(p, o);
            && q == p.(recvBuf := q.recvBuf, perrno := q.perrno, attempt := p.attempt.(received := q.attempt.received))
            && q.attempt.received == q.recvBuf && |q.recvBuf| <= LENGTH
            && (ok ==> q.perrno != PEER_SHUTDOWN)
  {
  }

  /** A listening peer that has not settled its handshake yet. */
  predicate Listening(p: Peer) {
    p.state == Handshaking && p.interest == Readable
  }

  lemma DecodeKeeps(cfg: Config, p: Peer)
    requires |p.recvBuf| <= LENGTH && p.attempt.received == p.recvBuf
    ensures var d := DecodeFrom(p.recvBuf, cfg.infoHash, p.peerId);
            && (d.complete <==> |p.recvBuf| == LENGTH)
            && (!d.complete ==> DecodedPeer(p, d) == p)
            && (d.valid ==> DecodedPeer(p, d).recvBuf == [] && Recognised(cfg, DecodedPeer(p, d)))
  {
    if |p.recvBuf| == LENGTH {
      assert p.recvBuf[..LENGTH] == p.recvBuf;
    }
  }

  lemma ReadableKeeps(cfg: Config, s: State, i: nat, io: Io)
    requires Opened(cfg, s, i) && Owed(s, i) && PeerOk(cfg, At(s, i)) && !QuotaMet(s) && Listening(At(s, i))
    ensures Inv(cfg, HandshakeReadable(cfg, s, i, io))
  {
    ReceiveKeeps(At(s, i), io.recv);
    var (p, ok) := RecvMessages(At(s, i), io.recv);
    if !ok {
      ReceiveFails(cfg, s, i, p);
    } else {
      AfterReceive(cfg, s, i, p, io);
    }
  }

  lemma ReceiveFails(cfg: Config, s: State, i: nat, p: Peer)
    requires Opened(cfg, s, i) && Owed(s, i) && PeerOk(cfg, At(s, i)) && Listening(At(s, i))
    requires p == At(s, i).(perrno := p.perrno)
    ensures Inv(cfg, HandleFailure(Put(s, i, p), i))
  {
    RewriteOpened(cfg, s, i, p);
    HandleFailureKeeps(cfg, Put(s, i, p), i);
  }

  lemma AfterReceive(cfg: Config, s: State, i: nat, p: Peer, io: Io)
    requires Opened(cfg, s, i) && Owed(s, i) && PeerOk(cfg, At(s, i)) && !QuotaMet(s) && Listening(At(s, i))
    requires RecvMessages(At(s, i), io.recv) == (p, true)
    ensures Inv(cfg, Settle(cfg, s, i, p, io))
  {
    ReceiveKeeps(At(s, i), io.recv);
    DecodeKeeps(cfg, p);
    var d := DecodeFrom(p.recvBuf, cfg.infoHash, p.peerId);
    var q := DecodedPeer(p, d);
    RewriteOpened(cfg, s, i, q);
    if !d.complete {
      CloseOpened(cfg, Put(s, i, q), i);
    } else if !d.valid {
      RewriteOpened(cfg, s, i, q.(perrno := NO_ERROR));
      RetireOpened(cfg, Put(s, i, q.(perrno := NO_ERROR)), i);
    } else if q.source == Tracker {
      assert q.attempt.sent + q.sendBuf == q.attempt.sent;
      DispatchKeeps(cfg, Put(s, i, q), i);
    } else {
      AnswerKeeps(cfg, s, i, q, io);
    }
  }

  lemma SocketKeeps(cfg: Config, s: State, i: nat, ready: Ready, io: Io)
    requires Inv(cfg, s) && Enabled(s, Socket(i, ready, io))
    ensures Inv(cfg, SocketReady(cfg, s, i, ready, io))
  {
    ArmedOpened(cfg, s, i);
    var p := At(s, i);
    if QuotaMet(s) {
      RetireOpened(cfg, s, i);
    } else if ready == ErrorReady {
      HandleFailureKeeps(cfg, s, i);
    } else if p.state == Handshaking {
      if ready == WriteReady {
        WritableKeeps(cfg, s, i, io);
      } else {
        ReadableKeeps(cfg, s, i, io);
      }
    } else {
      TransportKeeps(cfg, s, i, io);
    }
  }

  // ---------------------------------------------------------------------------
  // Accepting
  // ---------------------------------------------------------------------------

  /** The invariant in the middle of an accept: a slot is reserved, and its place in the outbound count taken. */
  ghost predicate Accepting(cfg: Config, s: State, slot: nat) {
    && Core(cfg, s, {slot}, {}) && slot in s.pool.occupied
    && |Waiting(s, {})| < s.outbound <= MAX_OUTBOUND_INFLIGHT
    && |Unanswered(s)| <= s.connected <= HEALTHY_PEER_COUNT && s.faults == {}
  }

  lemma AcceptReserves(cfg: Config, s: State)
    requires Inv(cfg, s) && s.pool.free != [] && s.outbound < MAX_OUTBOUND_INFLIGHT
    ensures var slot, t := s.pool.NextSlot(), Reserving(s);
            && Accepting(cfg, t, slot) && IsBlank(At(t, slot)) && Registered(t, {slot}) == Registered(s, {})
            && forall j: nat :: At(t, j) == At(s, j)
  {
    Reserve(cfg, s);
    var slot, r := s.pool.NextSlot(), s.(pool := s.pool.Acquired());
    CoreFrame(cfg, r, Reserving(s), {slot}, {});
  }

  /** Deleting the superseded peer, pending or connected. */
  lemma SupersedeKeeps(cfg: Config, s: State, slot: nat, i: nat)
    requires Accepting(cfg, s, slot) && i in Registered(s, {slot})
    ensures var t := Supersede(s, i);
            Accepting(cfg, t, slot) && t.peers == s.peers - {At(s, i).key} && At(t, slot) == At(s, slot)
  {
    Open(cfg, s, {slot}, i);
    var p := At(s, i);
    if p.state == Connected {
      RetireKeeps(cfg, s, {slot}, i);
      RetireAt(s, i);
    } else {
      var q := p.(perrno := NO_ERROR);
      Rewrite(cfg, s, {slot}, i, q);
      PutAt(s, i, q);
      SupersedePending(cfg, Put(s, i, q), slot, i);
    }
  }

  lemma SupersedePending(cfg: Config, s: State, slot: nat, i: nat)
    requires Core(cfg, s, {slot}, {i}) && slot in s.pool.occupied && i in Registered(s, {slot})
    requires |Waiting(s, {i})| + (if At(s, i).source == TcpServer then 1 else 0) < s.outbound <= MAX_OUTBOUND_INFLIGHT
    requires |Unanswered(s)| <= s.connected <= HEALTHY_PEER_COUNT && s.faults == {}
    requires At(s, i).perrno == NO_ERROR
    ensures var t := Retire(Resolve(s, At(s, i).source), i);
            Accepting(cfg, t, slot) && t.peers == s.peers - {At(s, i).key} && At(t, slot) == At(s, slot)
  {
    var r := Resolve(s, At(s, i).source);
    CoreFrame(cfg, s, r, {slot}, {i});
    assert At(r, i) == At(s, i) && At(r, slot) == At(s, slot);
    RetireKeeps(cfg, r, {slot}, i);
    RetireAt(r, i);
  }

  lemma AcceptFills(cfg: Config, s: State, slot: nat, address: Address)
    requires Accepting(cfg, s, slot) && IsBlank(At(s, slot)) && address !in s.peers
    ensures Inv(cfg, Admit(s, slot, address))
  {
    var p := Armed(Initialized(At(s, slot), address, TcpServer, Handshaking), Readable);
    Fill(cfg, s, slot, p);
    var t := Registering(s, slot, p);
    assert Unanswered(t) == Unanswered(s);
  }

  lemma AcceptSuperseding(cfg: Config, s: State, slot: nat, address: Address)
    requires Accepting(cfg, s, slot) && IsBlank(At(s, slot)) && address in s.peers
    ensures var t := Supersede(s, s.peers[address]);
            Accepting(cfg, t, slot) && IsBlank(At(t, slot)) && address !in t.peers
  {
    var i := s.peers[address];
    assert i in Registered(s, {slot}) && At(s, i).key == address;
    SupersedeKeeps(cfg, s, slot, i);
  }

  lemma IncomingKeeps(cfg: Config, s: State, address: Address)
    requires Inv(cfg, s) && s.pool.free != [] && s.outbound < MAX_OUTBOUND_INFLIGHT
    ensures Inv(cfg, AcceptIncoming(s, address))
  {
    AcceptReserves(cfg, s);
    var slot, t := s.pool.NextSlot(), Reserving(s);
    if address in t.peers {
      AcceptSuperseding(cfg, t, slot, address);
      AcceptFills(cfg, Supersede(t, t.peers[address]), slot, address);
    } else {
      AcceptFills(cfg, t, slot, address);
    }
  }

  lemma AcceptKeeps(cfg: Config, s: State, o: AcceptOutcome)
    requires Inv(cfg, s) && s.outbound < MAX_OUTBOUND_INFLIGHT
    ensures Inv(cfg, Accept(s, o).0)
  {
    if o.Incoming? && s.pool.free != [] {
      IncomingKeeps(cfg, s, o.address);
    }
  }

  lemma {:induction false} ServerKeeps(cfg: Config, s: State, arrivals: seq<AcceptOutcome>)
    requires Inv(cfg, s)
    ensures Inv(cfg, ServerReady(s, arrivals))
    decreases |arrivals|
  {
    if arrivals != [] && !QuotaMet(s) && s.outbound < MAX_OUTBOUND_INFLIGHT {
      AcceptKeeps(cfg, s, arrivals[0]);
      var (s1, again) := Accept(s, arrivals[0]);
      if again {
        ServerKeeps(cfg, s1, arrivals[1..]);
      }
    }
  }

  // ---------------------------------------------------------------------------
  // The transfer side, and all events together
  // ---------------------------------------------------------------------------

  lemma {:induction false} MoveTaken(queue: seq<Handle>, taken: multiset<Handle>, rest: multiset<Handle>)
    requires queue != []
    ensures multiset(queue[1..]) + (taken + multiset{queue[0]}) + rest == multiset(queue) + taken + rest
  {
    assert queue == [queue[0]] + queue[1..];
  }

  lemma {:induction false} MoveReported(queue: seq<Handle>, taken: multiset<Handle>, reports: seq<Handle>, h: Handle)
    requires h in taken
    ensures multiset(queue) + (taken - multiset{h}) + multiset(reports + [h])
         == multiset(queue) + taken + multiset(reports)
    ensures |multiset(queue) + taken + multiset(reports)| > |reports|
  {
    assert |taken| == |taken - multiset{h}| + 1;
  }

  /** Moving unanswered updates between the queues and the transfer side. */
  lemma MovedKeeps(cfg: Config, s: State, t: State)
    requires Inv(cfg, s) && Unanswered(t) == Unanswered(s)
    requires t == s.(connects := t.connects, sessions := t.sessions, disconnects := t.disconnects)
    ensures Inv(cfg, t)
  {
    CoreFrame(cfg, s, t, {}, {});
  }

  lemma TransferTakesKeeps(cfg: Config, s: State)
    requires Inv(cfg, s) && s.connects != []
    ensures Inv(cfg, Take(s))
  {
    MoveTaken(s.connects, s.sessions, multiset(Handles(s.disconnects)));
    MovedKeeps(cfg, s, Take(s));
  }

  lemma ReportedUnanswered(s: State, h: Handle, perrno: int)
    requires h in s.sessions && Counted(s, {})
    ensures Unanswered(Reported(s, h, perrno)) == Unanswered(s) && |s.disconnects| < UPDATE_QUEUE_SIZE
  {
    HandlesAppend(s.disconnects, [Update(h, perrno)]);
    MoveReported(s.connects, s.sessions, Handles(s.disconnects), h);
  }

  /** The report queue has room: its entries are among the unanswered updates, of which this one is not queued yet. */
  lemma TransferReportsKeeps(cfg: Config, s: State, h: Handle, perrno: int)
    requires Inv(cfg, s) && h in s.sessions
    ensures Inv(cfg, Report(s, h, perrno))
  {
    ReportedUnanswered(s, h, perrno);
    MovedKeeps(cfg, s, Reported(s, h, perrno));
  }

  lemma ApplyKeeps(cfg: Config, s: State, e: Event)
    requires Inv(cfg, s) && Enabled(s, e)
    ensures Inv(cfg, Apply(cfg, s, e))
  {
    match e
    case Discoveries(addresses) => InvFrame(cfg, s, s.(cache := CacheAll(s.cache, addresses)));
    case Schedule => RoundRobinKeeps(cfg, s);
    case Server(arrivals) => ServerKeeps(cfg, s, arrivals);
    case Socket(i, ready, io) => SocketKeeps(cfg, s, i, ready, io);
    case Timer(i) => TimerKeeps(cfg, s, i);
    case TransferTakes => TransferTakesKeeps(cfg, s);
    case TransferReports(h, perrno) => TransferReportsKeeps(cfg, s, h, perrno);
  }

  lemma InitialInv(cfg: Config, slots: nat)
    ensures Inv(cfg, Initial(slots))
  {
    NewPoolValid(slots, Blank(NO_ERROR));
    assert forall i: nat :: At(Initial(slots), i) == Blank(NO_ERROR);
    assert Unanswered(Initial(slots)) == multiset{};
    assert Waiting(Initial(slots), {}) == {};
  }
}
