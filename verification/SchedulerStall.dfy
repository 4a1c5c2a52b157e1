/**
 * When the manager will never call connect() again. The scheduler's flags outlive its wake-ups, so a wake-up may serve
 * fewer than three sources; what matters is which ones, and whether any peer can still be brought to them.
 */
module SchedulerStall {
  import opened RingBuffer
  import opened Handshake
  import opened Peers
  import opened ConnectionModel
  import opened ConnectionInvariant
  import opened ConnectionSteps
  import opened ConnectionRuns
  import opened SchedulerFates
  import opened PeerLifecycle
  import opened PeerLedger

  // ---------------------------------------------------------------------------
  // Which sources a wake-up serves if it starts nothing
  // ---------------------------------------------------------------------------

  function SecondSpot(s: State): Spot {
    NextSpot(s.current)
  }

  function ThirdSpot(s: State): Spot {
    NextSpot(NextSpot(s.current))
  }

  predicate ServesThird(s: State) {
    !s.empties[Index(ThirdSpot(s))]
  }

  predicate ServesSecond(s: State) {
    !s.empties[Index(SecondSpot(s))] || ServesThird(s)
  }

  predicate Serves(s: State, spot: Spot) {
    spot == s.current || (spot == SecondSpot(s) && ServesSecond(s)) || (spot == ThirdSpot(s) && ServesThird(s))
  }

  /** The source such a wake-up ends with; every later one starts and ends with it. */
  function LastServed(s: State): Spot {
    if ServesThird(s) then ThirdSpot(s) else if ServesSecond(s) then SecondSpot(s) else s.current
  }

  /** Whether reports are served ahead of discoveries: the sources follow each other in a fixed order. */
  predicate ReportsFirst(s: State) {
    s.current == DisconnectedSpot
  }

  // ---------------------------------------------------------------------------
  // What can still become of a peer
  // ---------------------------------------------------------------------------

  /** The bytes received so far can begin a valid handshake. */
  predicate Acceptable(infoHash: seq<byte>, b: seq<byte>)
    requires |infoHash| == 20
  {
    (|b| > 0 ==> b[0] == 0x13) && forall k :: 28 <= k < 48 && k < |b| ==> b[k] == infoHash[k - 28]
  }

  /** ... and nothing that follows can make it invalid any more. */
  predicate Committed(infoHash: seq<byte>, b: seq<byte>)
    requires |infoHash| == 20
  {
    |b| >= 48 && Acceptable(infoHash, b)
  }

  /** Its timer, expiring once or twice, brings the peer to the retry queue, unless it is there already. */
  predicate CanRetry(p: Peer) {
    && p.source == Tracker
    && if p.interest == Quiet then p.state == Failed else p.state == Failed || p.failures + 1 < MAX_RETRIES
  }

  /** An attempt of ours that can still end CONNECTED. */
  predicate CanConnect(cfg: Config, p: Peer) {
    IsInFlight(p) && Acceptable(cfg.infoHash, p.recvBuf)
  }

  /** An armed peer that can still be deleted. */
  predicate CanFree(cfg: Config, quotaMet: bool, p: Peer) {
    p.interest != Quiet && (p.source == TcpServer || quotaMet || LastFailure(p) || !Committed(cfg.infoHash, p.recvBuf))
  }

  predicate IsOurs(p: Peer) {
    p.state == Connected && p.source == Tracker
  }

  ghost predicate Any(s: State, f: Peer -> bool) {
    exists i :: i in s.pool.occupied && f(At(s, i))
  }

  ghost predicate AnyConnectable(cfg: Config, s: State) {
    exists i :: i in s.pool.occupied && CanConnect(cfg, At(s, i))
  }

  ghost predicate AnyFreeable(cfg: Config, s: State) {
    exists i :: i in s.pool.occupied && CanFree(cfg, QuotaMet(s), At(s, i))
  }

  /** The retry queue can still hold a live handle when it is served. */
  ghost predicate RetryHope(s: State) {
    Any(s, CanRetry)
  }

  /**
   * A peer the tracker named can still be reported lost when the reports are served; `again` if they are served by
   * every later wake-up too, so that a first one may bring the manager below its quota.
   */
  ghost predicate ReportHope(cfg: Config, s: State, again: bool) {
    Any(s, IsOurs) || (AnyConnectable(cfg, s) && (!QuotaMet(s) || (again && Any(s, IsConnected))))
  }

  /**
   * There can still be a free slot when the discoveries are served: one is free, a peer can be deleted, enough attempts
   * can connect to meet the quota and have another one deleted, or a lost session is reported `before`.
   */
  ghost predicate DiscoveryHope(cfg: Config, s: State, before: bool) {
    || s.pool.free != [] || AnyFreeable(cfg, s)
    || s.connected + InFlight(s) > HEALTHY_PEER_COUNT
    || (before && Any(s, IsConnected))
  }

  /** No source that will be served can offer anything. */
  ghost predicate Stuck(cfg: Config, s: State) {
    && (Serves(s, FailedSpot) ==> !RetryHope(s))
    && (Serves(s, DisconnectedSpot) ==> !ReportHope(cfg, s, LastServed(s) == DisconnectedSpot))
    && (Serves(s, DiscoveredSpot) ==> !DiscoveryHope(cfg, s, ReportsFirst(s)))
  }

  /** Once all flags are set, only the current source counts. */
  lemma StuckByCurrent(cfg: Config, s: State)
    requires AllEmpty(s.empties)
    ensures Stuck(cfg, s) <==>
              match s.current {
                case FailedSpot => !RetryHope(s)
                case DisconnectedSpot => !ReportHope(cfg, s, true)
                case DiscoveredSpot => !DiscoveryHope(cfg, s, false)
              }
  {
  }

  // ---------------------------------------------------------------------------
  // States with sound books
  // ---------------------------------------------------------------------------

  ghost predicate Sound(cfg: Config, s: State) {
    Inv(cfg, s) && exists x: int, y: int :: Books(s, x, y)
  }

  lemma SoundAfter(cfg: Config, slots: nat, events: seq<Event>)
    ensures Sound(cfg, After(cfg, slots, events))
  {
    Reachable(cfg, slots, events);
    BooksAfter(cfg, slots, events);
  }

  lemma SoundStep(cfg: Config, s: State, e: Event)
    requires Sound(cfg, s)
    ensures Sound(cfg, Step(cfg, s, e))
  {
    var x: int, y: int :| Books(s, x, y);
    StepInv(cfg, s, e);
    StepBooks(cfg, s, e, x, y, x + NetInbound(cfg, s, e), y + Takeovers(s, e, TakesOverConnected));
  }

  lemma SoundListed(cfg: Config, s: State, i: nat)
    requires Sound(cfg, s) && i in s.pool.occupied
    ensures Listed(s, i) && PeerOk(cfg, At(s, i)) && i < |s.pool.slots|
  {
    var x: int, y: int :| Books(s, x, y);
    assert i in Registered(s, {});
  }

  // ---------------------------------------------------------------------------
  // A wake-up of a stuck manager
  // ---------------------------------------------------------------------------

  /** Sessions may have been shed; everything else about the peers is as before. */
  ghost predicate Shed(s: State, t: State) {
    && t.pool.Valid() && |t.pool.slots| == |s.pool.slots| && t.pool.occupied <= s.pool.occupied
    && (forall i :: i in t.pool.occupied ==> At(t, i) == At(s, i))
    && (forall i :: i in s.pool.occupied && i !in t.pool.occupied ==> At(s, i).state == Connected)
    && t.attempts == s.attempts && t.inbound == s.inbound && t.connected <= s.connected
    && (Any(s, IsConnected) || (t.pool.occupied == s.pool.occupied && t.connected == s.connected))
  }

  lemma ShedRefl(s: State)
    requires s.pool.Valid()
    ensures Shed(s, s)
  {
  }

  lemma ShedTransitive(s: State, t: State, u: State)
    requires Shed(s, t) && Shed(t, u)
    ensures Shed(s, u)
  {
    if Any(t, IsConnected) {
      var i :| i in t.pool.occupied && IsConnected(At(t, i));
      assert IsConnected(At(s, i));
    }
  }

  lemma ShedSame(s: State, t: State, u: State)
    requires Shed(s, t) && u.pool == t.pool && u.attempts == t.attempts && u.inbound == t.inbound
    requires u.connected == t.connected
    ensures Shed(s, u)
  {
    assert forall i: nat :: At(u, i) == At(t, i);
  }

  /** One report of a stuck manager: stale, or about a session that came through the server. */
  lemma ReportSheds(cfg: Config, s: State)
    requires Inv(cfg, s) && s.disconnects != [] && !Any(s, IsOurs)
    ensures var (s1, item) := Pop(s, DisconnectedSpot);
            var (t, fate) := Try(cfg, s1, item);
            fate != Attempted && Shed(s, t)
  {
    var (s1, item) := Pop(s, DisconnectedSpot);
    var (t, fate) := Try(cfg, s1, item);
    var i := item.handle.slot;
    TryEffect(cfg, s, DisconnectedSpot);
    PoppedSlot(cfg, s, DisconnectedSpot);
    assert forall j: nat :: At(s1, j) == At(s, j);
    ShedRefl(s);
    if fate == Stale {
      ShedSame(s, s, t);
    } else {
      assert IsConnected(At(s, i)) && !IsOurs(At(s, i));
      ReportDeleted(cfg, s, s1, t, item, fate, i);
    }
  }

  lemma ReportDeleted(cfg: Config, s: State, s1: State, t: State, item: Item, fate: Fate, i: nat)
    requires Tried(s1, t, item, fate, i) && fate != Stale && fate != Duplicate && item.FromTransfer? && s1.connected > 0
    requires s1.pool == s.pool && s1.attempts == s.attempts && s1.inbound == s.inbound && s1.connected == s.connected
    requires i in s.pool.occupied && At(s, i).state == Connected && At(s, i).source != Tracker
    ensures fate == Deleted && Shed(s, t)
  {
    assert IsConnected(At(s, i));
    forall j: nat | j != i
      ensures At(t, j) == At(s, j) && (j in t.pool.occupied <==> j in s.pool.occupied)
    {
      assert SameElsewhere(s1, t, j) && At(s1, j) == At(s, j);
    }
  }

  lemma ShedHopes(cfg: Config, s: State, t: State, f: Peer -> bool)
    requires Shed(s, t) && Any(t, f)
    ensures Any(s, f)
  {
    var i :| i in t.pool.occupied && f(At(t, i));
    assert f(At(s, i));
  }

  lemma {:induction false} ReportsShed(cfg: Config, s: State)
    requires Inv(cfg, s) && !Any(s, IsOurs)
    ensures var d := DrainLoop(cfg, s, DisconnectedSpot); !d.started && Shed(s, d.state)
    decreases Pending(s, DisconnectedSpot)
  {
    if Pending(s, DisconnectedSpot) == 0 {
      ShedRefl(s);
    } else {
      var (s1, item) := Pop(s, DisconnectedSpot);
      var (t, fate) := Try(cfg, s1, item);
      ReportSheds(cfg, s);
      TryFrame(cfg, s1, item);
      TryKeeps(cfg, s, DisconnectedSpot);
      if Any(t, IsOurs) {
        ShedHopes(cfg, s, t, IsOurs);
      }
      ReportsShed(cfg, t);
      ShedTransitive(s, t, DrainLoop(cfg, t, DisconnectedSpot).state);
    }
  }

  /** Without hope, the retry queue holds stale handles only. */
  lemma {:induction false} RetriesAreStale(cfg: Config, s: State)
    requires Inv(cfg, s) && !RetryHope(s)
    ensures var d := DrainLoop(cfg, s, FailedSpot);
            !d.started && d.state == s.(retry := [])
    decreases Pending(s, FailedSpot)
  {
    if s.retry != [] {
      var h, t := s.retry[0], WithoutRetry(s);
      PoppedRetry(cfg, s);
      assert At(t, h.slot) == At(s, h.slot);
      assert Live(t, h) ==> CanRetry(At(s, h.slot));
      assert TryFailed(cfg, t, h) == (t, Stale);
      FailedKeeps(cfg, s);
      assert forall i: nat :: At(t, i) == At(s, i);
      RetriesAreStale(cfg, t);
    } else {
      assert s == s.(retry := []);
    }
  }

  /** Serving the current source of a stuck manager starts nothing, and at most sheds sessions. */
  lemma StuckDrain(cfg: Config, s: State)
    requires Inv(cfg, s) && Stuck(cfg, s)
    ensures var d := DrainSpot(cfg, s, s.current);
            && !d.started && Shed(s, d.state)
            && (s.current != DisconnectedSpot ==> d.state.pool == s.pool && d.state.connected == s.connected)
  {
    ShedRefl(s);
    match s.current
    case DiscoveredSpot =>
    case DisconnectedSpot => ReportsShed(cfg, s);
    case FailedSpot =>
      RetriesAreStale(cfg, s);
      ShedSame(s, s, s.(retry := []));
  }

  lemma SamePeers(cfg: Config, s: State, t: State)
    requires t.pool.occupied == s.pool.occupied && t.connected == s.connected && t.pool.free == s.pool.free
    requires forall i :: i in s.pool.occupied ==> At(t, i) == At(s, i)
    ensures RetryHope(t) <==> RetryHope(s)
    ensures forall b :: ReportHope(cfg, t, b) <==> ReportHope(cfg, s, b)
    ensures forall b :: DiscoveryHope(cfg, t, b) <==> DiscoveryHope(cfg, s, b)
  {
    assert Select(t, IsInFlight) == Select(s, IsInFlight);
  }

  /** What is hopeless before sessions are shed is hopeless after. */
  lemma ShedKeepsHopeless(cfg: Config, s: State, t: State)
    requires Shed(s, t)
    ensures RetryHope(t) ==> RetryHope(s)
    ensures ReportHope(cfg, t, true) ==> ReportHope(cfg, s, true)
  {
    if RetryHope(t) {
      ShedHopes(cfg, s, t, CanRetry);
    }
    if ReportHope(cfg, t, true) {
      if Any(t, IsOurs) {
        ShedHopes(cfg, s, t, IsOurs);
      } else {
        var i :| i in t.pool.occupied && CanConnect(cfg, At(t, i));
        assert CanConnect(cfg, At(s, i));
      }
    }
  }

  /** With no session to shed, nothing changes for the discoveries either. */
  lemma NothingShed(cfg: Config, s: State, t: State)
    requires Shed(s, t) && s.pool.Valid() && !Any(s, IsConnected)
    ensures DiscoveryHope(cfg, t, false) ==> DiscoveryHope(cfg, s, false)
  {
    if s.pool.free == [] && t.pool.free != [] {
      assert false;
    }
    if s.pool.free == [] {
      SamePeers(cfg, s, t);
    }
  }

  /** Where the next turn stands: the source just served is done with. */
  lemma NextTurn(s: State, d: State, u: State)
    requires d.current == s.current && d.empties == s.empties[Index(s.current) := true]
    requires u.current == NextSpot(s.current) && u.empties == d.empties
    ensures AllEmpty(d.empties) ==>
              && LastServed(d) == LastServed(s) == s.current
              && forall spot :: (Serves(d, spot) <==> spot == s.current) && (Serves(s, spot) <==> spot == s.current)
    ensures !AllEmpty(d.empties) ==>
              && LastServed(u) == LastServed(s)
              && (forall spot :: Serves(u, spot) <==> Serves(s, spot) && spot != s.current)
              && (Serves(u, DiscoveredSpot) ==> !ReportsFirst(u))
  {
  }

  /** A turn of a stuck manager starts nothing and leaves it stuck. */
  lemma TurnStuck(cfg: Config, s: State)
    requires Inv(cfg, s) && Stuck(cfg, s)
    ensures var d := Turn(cfg, s);
            && !d.started && d.state.attempts == s.attempts && d.state.inbound == s.inbound
            && if AllEmpty(d.state.empties) then Stuck(cfg, d.state)
               else Stuck(cfg, d.state.(current := NextSpot(s.current)))
  {
    StuckDrain(cfg, s);
    DrainFrame(cfg, s, s.current);
    var t := DrainSpot(cfg, s, s.current).state;
    var d := Turn(cfg, s).state;
    var u := d.(current := NextSpot(s.current));
    NextTurn(s, d, u);
    SamePeers(cfg, t, d);
    SamePeers(cfg, t, u);
    if s.current == DisconnectedSpot {
      ReportsServed(cfg, s, t, d, u);
    } else {
      assert forall i: nat :: At(t, i) == At(s, i);
      SamePeers(cfg, s, t);
    }
  }

  lemma ReportsServed(cfg: Config, s: State, t: State, d: State, u: State)
    requires s.pool.Valid() && Stuck(cfg, s) && s.current == DisconnectedSpot && Shed(s, t)
    requires d.current == s.current && d.empties == s.empties[1 := true] && u == d.(current := FailedSpot)
    requires d == t.(current := d.current, empties := d.empties)
    ensures if AllEmpty(d.empties) then Stuck(cfg, d) else Stuck(cfg, u)
  {
    NextTurn(s, d, u);
    ShedKeepsHopeless(cfg, s, t);
    assert forall i: nat :: At(d, i) == At(t, i) && At(u, i) == At(t, i);
    SamePeers(cfg, t, d);
    SamePeers(cfg, t, u);
    if Serves(s, DiscoveredSpot) {
      NothingShed(cfg, s, t);
    }
  }

  lemma {:induction false} WakeUpStuck(cfg: Config, s: State)
    requires Inv(cfg, s) && Stuck(cfg, s)
    ensures var t := RoundRobin(cfg, s).0; t.attempts == s.attempts && Stuck(cfg, t)
    decreases Room(s), UnsetFlags(s.empties), Distance(s.current, s.empties)
  {
    if s.inbound < MAX_INBOUND_INFLIGHT {
      var d := Turn(cfg, s);
      TurnProgress(cfg, s);
      TurnKeeps(cfg, s);
      TurnStuck(cfg, s);
      if !AllEmpty(d.state.empties) {
        WakeUpStuck(cfg, d.state.(current := NextSpot(s.current)));
      }
    }
  }

  // ---------------------------------------------------------------------------
  // A watcher callback of a stuck manager
  // ---------------------------------------------------------------------------

  lemma AcceptsPrefix(infoHash: seq<byte>, b: seq<byte>, c: seq<byte>)
    requires |infoHash| == 20 && b <= c && |c| >= LENGTH
    ensures Accepts(infoHash, c[..LENGTH]) ==> Acceptable(infoHash, b)
    ensures Committed(infoHash, b) ==> Accepts(infoHash, c[..LENGTH])
  {
    var m := c[..LENGTH];
    if Accepts(infoHash, m) {
      forall k | 28 <= k < 48 && k < |b|
        ensures b[k] == infoHash[k - 28]
      {
        assert m[28..48][k - 28] == m[k] == b[k];
      }
    }
    if Committed(infoHash, b) {
      forall k | 0 <= k < 20
        ensures m[28..48][k] == infoHash[k]
      {
        assert m[28..48][k] == b[k + 28];
      }
      assert m[28..48] == infoHash;
    }
  }

  lemma ConnectsOnlyAcceptable(cfg: Config, quotaMet: bool, p: Peer, ready: Ready, io: Io)
    requires |p.recvBuf| < LENGTH && p.source == Tracker && p.interest != Quiet
    requires SocketTurnout(cfg, quotaMet, p, ready, io) == Connects
    ensures CanConnect(cfg, p) && !quotaMet
  {
    var (q, ok) := RecvMessages(p, io.recv);
    assert p.recvBuf <= q.recvBuf;
    AcceptsPrefix(cfg.infoHash, p.recvBuf, q.recvBuf);
  }

  lemma DropsOnlyFreeable(cfg: Config, quotaMet: bool, p: Peer, ready: Ready, io: Io)
    requires |p.recvBuf| < LENGTH && (p.source == Tracker || p.source == TcpServer) && p.interest != Quiet
    requires SocketTurnout(cfg, quotaMet, p, ready, io) == Drops
    ensures CanFree(cfg, quotaMet, p)
  {
    if !quotaMet {
      var (q, ok) := RecvMessages(p, io.recv);
      assert p.recvBuf <= q.recvBuf;
      AcceptsPrefix(cfg.infoHash, p.recvBuf, q.recvBuf);
    }
  }

  /** The callback, its turnout, and what the turnout says about the peer it found. */
  ghost predicate Handled(cfg: Config, s: State, t: State, i: nat, turnout: Turnout) {
    && Effect(s, t, i, turnout) && i in s.pool.occupied && s.pool.Valid() && s.connected <= HEALTHY_PEER_COUNT
    && t.current == s.current && t.empties == s.empties && t.attempts == s.attempts
    && var p := At(s, i);
    && (p.source == Tracker || p.source == TcpServer) && p.state != Connected
    && (turnout != Requeues ==> p.interest != Quiet)
    && (turnout == Requeues ==> p.source == Tracker && p.state == Failed)
    && (turnout == Connects && p.source == Tracker ==> CanConnect(cfg, p))
    && (turnout == Connects ==> !QuotaMet(s))
    && (turnout == Drops ==> CanFree(cfg, QuotaMet(s), p))
  }

  /** The other peers are as they were. */
  lemma HandledElsewhere(cfg: Config, s: State, t: State, i: nat, turnout: Turnout, j: nat)
    requires Handled(cfg, s, t, i, turnout) && j != i
    ensures At(t, j) == At(s, j) && (j in t.pool.occupied <==> j in s.pool.occupied)
  {
    assert SameElsewhere(s, t, j);
  }

  lemma HandledRetry(cfg: Config, s: State, t: State, i: nat, turnout: Turnout)
    requires Handled(cfg, s, t, i, turnout) && RetryHope(t)
    ensures RetryHope(s)
  {
    var j :| j in t.pool.occupied && CanRetry(At(t, j));
    if j != i {
      HandledElsewhere(cfg, s, t, i, turnout, j);
    }
    assert CanRetry(At(s, j));
  }

  lemma HandledOurs(cfg: Config, s: State, t: State, i: nat, turnout: Turnout)
    requires Handled(cfg, s, t, i, turnout) && Any(t, IsOurs)
    ensures Any(s, IsOurs) || (AnyConnectable(cfg, s) && !QuotaMet(s))
  {
    var j :| j in t.pool.occupied && IsOurs(At(t, j));
    if j != i {
      HandledElsewhere(cfg, s, t, i, turnout, j);
      assert IsOurs(At(s, j));
    } else {
      assert CanConnect(cfg, At(s, i));
    }
  }

  lemma HandledConnectable(cfg: Config, s: State, t: State, i: nat, turnout: Turnout)
    requires Handled(cfg, s, t, i, turnout) && AnyConnectable(cfg, t)
    ensures AnyConnectable(cfg, s)
  {
    var j :| j in t.pool.occupied && CanConnect(cfg, At(t, j));
    if j != i {
      HandledElsewhere(cfg, s, t, i, turnout, j);
    }
    assert CanConnect(cfg, At(s, j));
  }

  lemma HandledReport(cfg: Config, s: State, t: State, i: nat, turnout: Turnout, again: bool)
    requires Handled(cfg, s, t, i, turnout) && ReportHope(cfg, t, again)
    ensures ReportHope(cfg, s, again)
  {
    if Any(t, IsOurs) {
      HandledOurs(cfg, s, t, i, turnout);
    } else {
      HandledConnectable(cfg, s, t, i, turnout);
      if QuotaMet(s) {
        var j :| j in t.pool.occupied && IsConnected(At(t, j));
        if j != i {
          HandledElsewhere(cfg, s, t, i, turnout, j);
        }
        assert IsConnected(At(s, j));
      }
    }
  }

  // Discoveries: a full pool stays full

  ghost predicate KnownSources(s: State) {
    forall j :: j in s.pool.occupied ==> At(s, j).source == Tracker || At(s, j).source == TcpServer
  }

  lemma HandledStays(cfg: Config, s: State, t: State, i: nat, turnout: Turnout)
    requires Handled(cfg, s, t, i, turnout) && !AnyFreeable(cfg, s) && s.pool.free == []
    ensures turnout != Drops && i in t.pool.occupied && t.pool.free == []
    ensures turnout == Fails || turnout == Connects ==> At(s, i).source == Tracker && At(s, i).interest != Quiet
  {
    assert !CanFree(cfg, QuotaMet(s), At(s, i));
    forall j: nat
      ensures j in t.pool.occupied <==> j in s.pool.occupied
    {
      if j != i {
        HandledElsewhere(cfg, s, t, i, turnout, j);
      }
    }
    assert t.pool.occupied == s.pool.occupied;
  }

  lemma HandledCount(cfg: Config, s: State, t: State, i: nat, turnout: Turnout)
    requires Handled(cfg, s, t, i, turnout) && !AnyFreeable(cfg, s) && s.pool.free == []
    ensures t.connected + InFlight(t) <= s.connected + InFlight(s)
  {
    HandledStays(cfg, s, t, i, turnout);
    SelectMoved(s, t, i, IsInFlight);
  }

  /** Two attempts under way and the quota still ahead of both. */
  lemma TwoInFlight(s: State, i: nat, j: nat)
    requires i != j && i in s.pool.occupied && j in s.pool.occupied && IsInFlight(At(s, i)) && IsInFlight(At(s, j))
    ensures InFlight(s) >= 2
  {
    assert {i, j} <= Select(s, IsInFlight);
    assert |Select(s, IsInFlight)| == |{i, j}| + |Select(s, IsInFlight) - {i, j}|;
  }

  lemma HandledFreeable(cfg: Config, s: State, t: State, i: nat, turnout: Turnout)
    requires Handled(cfg, s, t, i, turnout) && KnownSources(s) && s.pool.free == []
    requires !AnyFreeable(cfg, s) && s.connected + InFlight(s) <= HEALTHY_PEER_COUNT
    ensures !AnyFreeable(cfg, t)
  {
    HandledStays(cfg, s, t, i, turnout);
    forall j | j in t.pool.occupied
      ensures !CanFree(cfg, QuotaMet(t), At(t, j))
    {
      if j != i {
        HandledElsewhere(cfg, s, t, i, turnout, j);
        assert !CanFree(cfg, QuotaMet(s), At(s, j));
        if turnout == Connects && At(s, j).interest != Quiet {
          TwoInFlight(s, i, j);
        }
      } else {
        assert !CanFree(cfg, QuotaMet(s), At(s, i));
        if turnout == Waits {
          CommittedGrows(cfg.infoHash, At(s, i).recvBuf, At(t, i).recvBuf);
        }
      }
    }
  }

  lemma CommittedGrows(infoHash: seq<byte>, b: seq<byte>, c: seq<byte>)
    requires |infoHash| == 20 && b <= c && Committed(infoHash, b)
    ensures Committed(infoHash, c)
  {
  }

  lemma HandledDiscovery(cfg: Config, s: State, t: State, i: nat, turnout: Turnout, before: bool)
    requires Handled(cfg, s, t, i, turnout) && KnownSources(s) && !DiscoveryHope(cfg, s, before)
    ensures DiscoveryHope(cfg, t, before) ==> before && AnyConnectable(cfg, s) && !QuotaMet(s)
  {
    HandledStays(cfg, s, t, i, turnout);
    HandledCount(cfg, s, t, i, turnout);
    HandledFreeable(cfg, s, t, i, turnout);
    if before && Any(t, IsConnected) {
      var j :| j in t.pool.occupied && IsConnected(At(t, j));
      if j != i {
        HandledElsewhere(cfg, s, t, i, turnout, j);
        assert IsConnected(At(s, j));
      }
      assert CanConnect(cfg, At(s, i));
    }
  }

  lemma HandledStuck(cfg: Config, s: State, t: State, i: nat, turnout: Turnout)
    requires Handled(cfg, s, t, i, turnout) && KnownSources(s) && Stuck(cfg, s)
    ensures Stuck(cfg, t)
  {
    if RetryHope(t) {
      HandledRetry(cfg, s, t, i, turnout);
    }
    var again := LastServed(s) == DisconnectedSpot;
    if ReportHope(cfg, t, again) {
      HandledReport(cfg, s, t, i, turnout, again);
    }
    var before := ReportsFirst(s);
    if Serves(s, DiscoveredSpot) {
      HandledDiscovery(cfg, s, t, i, turnout, before);
    }
  }

  // ---------------------------------------------------------------------------
  // Every event, and every run
  // ---------------------------------------------------------------------------

  lemma SourcesKnown(cfg: Config, s: State)
    requires Inv(cfg, s)
    ensures KnownSources(s)
  {
    assert forall j :: j in s.pool.occupied ==> j in Registered(s, {});
  }

  lemma SocketStuck(cfg: Config, s: State, i: nat, ready: Ready, io: Io)
    requires Sound(cfg, s) && Stuck(cfg, s) && Enabled(s, Socket(i, ready, io))
    ensures Stuck(cfg, SocketReady(cfg, s, i, ready, io))
    ensures SocketReady(cfg, s, i, ready, io).attempts == s.attempts
  {
    ArmedOpened(cfg, s, i);
    SocketEffect(cfg, s, i, ready, io);
    SourcesKnown(cfg, s);
    var t, turnout := SocketReady(cfg, s, i, ready, io), SocketTurnout(cfg, QuotaMet(s), At(s, i), ready, io);
    SocketHandled(cfg, s, t, i, ready, io, turnout);
    HandledStuck(cfg, s, t, i, turnout);
  }

  lemma SocketHandled(cfg: Config, s: State, t: State, i: nat, ready: Ready, io: Io, turnout: Turnout)
    requires Inv(cfg, s) && At(s, i).interest != Quiet && |At(s, i).recvBuf| <= LENGTH
    requires Effect(s, t, i, turnout) && turnout == SocketTurnout(cfg, QuotaMet(s), At(s, i), ready, io)
    ensures Handled(cfg, s, t, i, turnout)
  {
    ArmedOpened(cfg, s, i);
    SocketNeverRequeues(cfg, QuotaMet(s), At(s, i), ready, io);
    if turnout == Connects && At(s, i).source == Tracker {
      ConnectsOnlyAcceptable(cfg, QuotaMet(s), At(s, i), ready, io);
    }
    if turnout == Drops {
      DropsOnlyFreeable(cfg, QuotaMet(s), At(s, i), ready, io);
    }
  }

  lemma TimerStuck(cfg: Config, s: State, i: nat)
    requires Sound(cfg, s) && Stuck(cfg, s) && At(s, i).timer
    ensures Stuck(cfg, TimerExpired(s, i)) && TimerExpired(s, i).attempts == s.attempts
  {
    ArmedOpened(cfg, s, i);
    TimerEffect(cfg, s, i);
    SourcesKnown(cfg, s);
    SoundListed(cfg, s, i);
    HandledStuck(cfg, s, TimerExpired(s, i), i, TimerTurnout(At(s, i)));
  }

  /** An accepted peer offers the scheduler nothing, and one that is replaced offers less. */
  lemma AdmittedStuck(cfg: Config, s: State, t: State, address: Address, slot: nat)
    requires Admitted(s, t, address, slot) && Stuck(cfg, s) && s.pool.free != [] && !QuotaMet(s)
    ensures Stuck(cfg, t) && t.attempts == s.attempts
  {
    if RetryHope(t) {
      AdmittedAny(s, t, address, slot, CanRetry);
    }
    if Any(t, IsOurs) {
      AdmittedAny(s, t, address, slot, IsOurs);
    }
    if AnyConnectable(cfg, t) {
      AdmittedConnectable(cfg, s, t, address, slot);
    }
    LessHopeStuck(cfg, s, t);
  }

  /** With a free slot to begin with, the discoveries are not among the sources served. */
  lemma LessHopeStuck(cfg: Config, s: State, t: State)
    requires Stuck(cfg, s) && s.pool.free != [] && !QuotaMet(s)
    requires t.current == s.current && t.empties == s.empties && t.connected == s.connected
    requires (RetryHope(t) ==> RetryHope(s)) && (Any(t, IsOurs) ==> Any(s, IsOurs))
    requires AnyConnectable(cfg, t) ==> AnyConnectable(cfg, s)
    ensures Stuck(cfg, t)
  {
    assert DiscoveryHope(cfg, s, ReportsFirst(s));
  }

  lemma AdmittedAny(s: State, t: State, address: Address, slot: nat, f: Peer -> bool)
    requires Admitted(s, t, address, slot) && Any(t, f) && !f(At(t, slot))
    ensures Any(s, f)
  {
    var j :| j in t.pool.occupied && f(At(t, j));
    assert SameElsewhere(s, t, j);
    assert f(At(s, j));
  }

  lemma AdmittedConnectable(cfg: Config, s: State, t: State, address: Address, slot: nat)
    requires Admitted(s, t, address, slot) && AnyConnectable(cfg, t)
    ensures AnyConnectable(cfg, s)
  {
    var j :| j in t.pool.occupied && CanConnect(cfg, At(t, j));
    assert SameElsewhere(s, t, j);
    assert CanConnect(cfg, At(s, j));
  }

  lemma {:induction false} ServerStuck(cfg: Config, s: State, arrivals: seq<AcceptOutcome>)
    requires Inv(cfg, s) && Stuck(cfg, s)
    ensures Stuck(cfg, ServerReady(s, arrivals)) && ServerReady(s, arrivals).attempts == s.attempts
    decreases |arrivals|
  {
    if arrivals != [] && !QuotaMet(s) && s.outbound < MAX_OUTBOUND_INFLIGHT {
      if arrivals[0].Incoming? && s.pool.free != [] {
        var address := arrivals[0].address;
        IncomingKeeps(cfg, s, address);
        AcceptEffect(cfg, s, address);
        AdmittedStuck(cfg, s, AcceptIncoming(s, address), address, s.pool.NextSlot());
        ServerStuck(cfg, AcceptIncoming(s, address), arrivals[1..]);
      } else if Accept(s, arrivals[0]).1 {
        ServerStuck(cfg, s, arrivals[1..]);
      }
    }
  }

  lemma QueueStuck(cfg: Config, s: State, e: Event)
    requires Stuck(cfg, s) && (e.Discoveries? || e.TransferTakes? || e.TransferReports?)
    ensures Stuck(cfg, Apply(cfg, s, e)) && Apply(cfg, s, e).attempts == s.attempts
  {
    assert forall i: nat :: At(Apply(cfg, s, e), i) == At(s, i);
    SamePeers(cfg, s, Apply(cfg, s, e));
  }

  lemma StepStuck(cfg: Config, s: State, e: Event)
    requires Sound(cfg, s) && Stuck(cfg, s)
    ensures Stuck(cfg, Step(cfg, s, e)) && Step(cfg, s, e).attempts == s.attempts
  {
    if Enabled(s, e) {
      if e.Socket? {
        SocketStuck(cfg, s, e.slot, e.ready, e.io);
      } else if e.Timer? {
        TimerStuck(cfg, s, e.at);
      } else if e.Server? {
        ServerStuck(cfg, s, e.arrivals);
      } else if e.Schedule? {
        WakeUpStuck(cfg, s);
      } else {
        QueueStuck(cfg, s, e);
      }
    }
  }

  lemma {:induction false} RunStuck(cfg: Config, s: State, events: seq<Event>)
    requires Sound(cfg, s) && Stuck(cfg, s)
    ensures Stuck(cfg, Run(cfg, s, events)) && Run(cfg, s, events).attempts == s.attempts
    decreases |events|
  {
    if events != [] {
      StepStuck(cfg, s, events[0]);
      SoundStep(cfg, s, events[0]);
      RunStuck(cfg, Step(cfg, s, events[0]), events[1..]);
    }
  }

  /** Once stuck, the manager never calls connect() again, whatever follows. */
  lemma StuckForGood(cfg: Config, slots: nat, events: seq<Event>, more: seq<Event>)
    requires Stuck(cfg, After(cfg, slots, events))
    ensures After(cfg, slots, events + more).attempts == After(cfg, slots, events).attempts
    ensures Stuck(cfg, After(cfg, slots, events + more))
  {
    SoundAfter(cfg, slots, events);
    RunAppends(cfg, Initial(slots), events, more);
    RunStuck(cfg, After(cfg, slots, events), more);
  }

  // ---------------------------------------------------------------------------
  // Instances
  // ---------------------------------------------------------------------------

  /** With all flags set, a wake-up that starts nothing from the current source looks at no other one. */
  lemma OnlyCurrentSourceRevives(cfg: Config, s: State)
    requires s.empties == [true, true, true] && s.inbound < MAX_INBOUND_INFLIGHT
    ensures !Turn(cfg, s).started ==>
              && RoundRobin(cfg, s) == (DrainSpot(cfg, s, s.current).state, DrainSpot(cfg, s, s.current).fates)
              && RoundRobin(cfg, s).0.current == s.current && RoundRobin(cfg, s).0.empties == s.empties
  {
    DrainFrame(cfg, s, s.current);
    assert s.empties[Index(s.current) := true] == s.empties;
  }

  /** A wake-up that finds nothing at all sticks the manager at its retry queue. */
  lemma NeverConnectsAfterIdleWakeUp(cfg: Config, slots: nat, events: seq<Event>)
    ensures After(cfg, slots, [Schedule] + events).attempts == 0
  {
    var init := Initial(slots);
    IdleWakeUp(cfg, init);
    assert [Schedule][1..] == [];
    var s := After(cfg, slots, [Schedule]);
    assert s == init.(empties := [true, true, true], current := FailedSpot);
    assert init.pool.occupied == {};
    StuckForGood(cfg, slots, [Schedule], events);
  }
}
