/** A run in which a tracker peer is reported lost with PEER_SHUTDOWN: the report waits for a wake-up that dials another
    address, and then the peer is dialled again. */
module ReportWitness {
  import opened Handshake
  import opened Transport
  import opened Peers
  import opened ConnectionModel
  import opened ConnectionInvariant
  import opened ConnectionSteps
  import opened ConnectionRuns
  import opened SchedulerFates
  import opened PeerLifecycle
  import opened PeerLedger
  import opened InboundAccount
  import opened OutboundAccount
  import opened ConnectedAccount
  import opened SchedulerRevival
  import opened LeakWitnesses

  /** The whole answer arrives at a peer that listens. */
  lemma GreetedConnects(cfg: Config, p: Peer, peerId: Digest)
    requires p.recvBuf == [] && p.source == Tracker && p.state == Handshaking
    ensures SocketTurnout(cfg, false, p, ReadReady, WholeHandshake(cfg, peerId)) == Connects
  {
    var m := Message(cfg.infoHash, peerId);
    assert m[|p.recvBuf|..] == m && m[28..48] == cfg.infoHash;
    ReadTurns(cfg, p, m);
  }

  /** One established peer that the tracker named, nothing else, and the scheduler at the discoveries. */
  ghost predicate OneSession(cfg: Config, s: State, i: nat, a: Address) {
    && Inv(cfg, s) && s.pool.Valid() && i in s.pool.occupied && s.pool.free != []
    && At(s, i).state == Connected && At(s, i).source == Tracker && At(s, i).key == a
    && s.current == DiscoveredSpot && AllEmpty(s.empties) && s.cache == [] && s.retry == [] && s.sessions == multiset{}
    && s.inbound == 0 && s.connected == 1 && s.attempts == 1 && s.peers.Keys <= {a}
  }

  lemma AnsweredConnects(cfg: Config, s: State, slots: nat, a: Address, peerId: Digest, t: State)
    requires Visited(cfg, s, slots) && IsInFlight(At(s, slots - 1)) && slots > 1 && At(s, slots - 1).key == a
    requires s.current == DiscoveredSpot && AllEmpty(s.empties) && s.cache == [] && s.retry == [] && s.inbound == 1
    requires s.disconnects == [] && s.connects == [] && s.sessions == multiset{} && s.attempts == 1
    requires t == Step(cfg, s, Socket(slots - 1, ReadReady, WholeHandshake(cfg, peerId)))
    ensures OneSession(cfg, t, slots - 1, a) && t.connects == [HandleOf(t, slots - 1)] && t.disconnects == []
    ensures HandleOf(t, slots - 1) == HandleOf(s, slots - 1)
  {
    var i, e := slots - 1, Socket(slots - 1, ReadReady, WholeHandshake(cfg, peerId));
    StepInv(cfg, s, e);
    SocketEffect(cfg, s, i, ReadReady, WholeHandshake(cfg, peerId));
    GreetedConnects(cfg, At(s, i), peerId);
    SameOccupied(s, t, i);
    OnlyKey(cfg, t, i, a);
  }

  lemma OnlyKey(cfg: Config, s: State, i: nat, a: Address)
    requires Inv(cfg, s) && s.pool.occupied == {i} && At(s, i).key == a
    ensures s.peers.Keys <= {a}
  {
    assert forall k :: k in s.peers ==> s.peers[k] in Registered(s, {});
  }

  lemma FirstGeneration(cfg: Config, slots: nat, a: Address)
    requires slots > 0 && cfg.outcome(0) == InProgress
    ensures HandleOf(After(cfg, slots, Dialled1(a)), slots - 1) == Handle(slots - 1, 0)
  {
    var init := Initial(slots);
    FirstAttempt(cfg, slots, a);
    var t := TryDiscovered(cfg, init, a).0;
    DialNew(cfg, init, a, t);
    AttemptShape(cfg, Enrol(init, a), slots - 1);
    assert Generation(t, slots - 1) == Generation(init, slots - 1);
  }

  lemma GreetedShape(cfg: Config, slots: nat, a: Address, s: State)
    requires slots > 0 && cfg.outcome(0) == InProgress && s == After(cfg, slots, Greeted1(slots, a))
    ensures Visited(cfg, s, slots) && IsInFlight(At(s, slots - 1)) && At(s, slots - 1).key == a
    ensures HandleOf(s, slots - 1) == Handle(slots - 1, 0)
    ensures s == Initial(slots).(pool := s.pool, peers := s.peers, faults := s.faults, attempts := 1, inbound := 1,
                                 empties := [true, true, true], current := DiscoveredSpot)
  {
    var e := Socket(slots - 1, WriteReady, Flowing([]));
    var t := After(cfg, slots, Dialled1(a));
    FirstIsUnderway(cfg, slots, a);
    FirstAlone(cfg, slots, a, t);
    FirstGeneration(cfg, slots, a);
    RunAppends(cfg, Initial(slots), Dialled1(a), [e]);
    RunOne(cfg, t, e);
    DialledGreets(cfg, t, slots, 1, a, s);
  }

  lemma FirstAlone(cfg: Config, slots: nat, a: Address, t: State)
    requires slots > 0 && cfg.outcome(0) == InProgress && t == After(cfg, slots, Dialled1(a))
    ensures DialledAlone(t, slots, 1, a)
  {
    InitialInv(cfg, slots);
    VacatedDials(cfg, Initial(slots), slots, 0, a, t);
  }

  /** A peer the tracker named is dialled and answers; its session is reported lost. */
  function LostRun(cfg: Config, slots: nat, a: Address, peerId: Digest, perrno: int): seq<Event>
    requires slots > 0
  {
    Greeted1(slots, a) + [Socket(slots - 1, ReadReady, WholeHandshake(cfg, peerId)), TransferTakes,
                          TransferReports(Handle(slots - 1, 0), perrno)]
  }

  lemma SessionReported(cfg: Config, s: State, i: nat, a: Address, perrno: int, t: State)
    requires OneSession(cfg, s, i, a) && s.connects == [HandleOf(s, i)] && s.disconnects == []
    requires t == Step(cfg, Step(cfg, s, TransferTakes), TransferReports(HandleOf(s, i), perrno))
    ensures OneSession(cfg, t, i, a) && t.disconnects == [Update(HandleOf(t, i), perrno)]
  {
    var u := Step(cfg, s, TransferTakes);
    StepInv(cfg, s, TransferTakes);
    StepInv(cfg, u, TransferReports(HandleOf(s, i), perrno));
    TakenAndReported(cfg, s, HandleOf(s, i), perrno, t);
    assert At(t, i) == At(s, i) && HandleOf(t, i) == HandleOf(s, i);
  }

  lemma TakenAndReported(cfg: Config, s: State, h: Handle, perrno: int, t: State)
    requires s.connects == [h] && s.disconnects == [] && s.sessions == multiset{}
    requires t == Step(cfg, Step(cfg, s, TransferTakes), TransferReports(h, perrno))
    ensures t == s.(connects := [], disconnects := [Update(h, perrno)])
  {
    var u := s.(connects := [], sessions := multiset{h});
    assert Step(cfg, s, TransferTakes) == u;
    assert multiset{h} - multiset{h} == multiset{};
  }

  lemma SessionLost(cfg: Config, slots: nat, a: Address, peerId: Digest, perrno: int, t: State)
    requires slots > 1 && cfg.outcome(0) == InProgress && t == After(cfg, slots, LostRun(cfg, slots, a, peerId, perrno))
    ensures OneSession(cfg, t, slots - 1, a) && t.disconnects == [Update(HandleOf(t, slots - 1), perrno)]
  {
    var s := After(cfg, slots, Greeted1(slots, a));
    GreetedShape(cfg, slots, a, s);
    var e := Socket(slots - 1, ReadReady, WholeHandshake(cfg, peerId));
    var f, g := TransferTakes, TransferReports(Handle(slots - 1, 0), perrno);
    RunThree(cfg, s, e, f, g);
    RunAppends(cfg, Initial(slots), Greeted1(slots, a), [e, f, g]);
    GreetedLost(cfg, s, Step(cfg, s, e), slots, a, peerId, perrno, t);
  }

  lemma GreetedLost(cfg: Config, s: State, u: State, slots: nat, a: Address, peerId: Digest, perrno: int, t: State)
    requires Visited(cfg, s, slots) && IsInFlight(At(s, slots - 1)) && slots > 1 && At(s, slots - 1).key == a
    requires HandleOf(s, slots - 1) == Handle(slots - 1, 0)
    requires s == Initial(slots).(pool := s.pool, peers := s.peers, faults := s.faults, attempts := 1, inbound := 1,
                                  empties := [true, true, true], current := DiscoveredSpot)
    requires u == Step(cfg, s, Socket(slots - 1, ReadReady, WholeHandshake(cfg, peerId)))
    requires t == Step(cfg, Step(cfg, u, TransferTakes), TransferReports(Handle(slots - 1, 0), perrno))
    ensures OneSession(cfg, t, slots - 1, a) && t.disconnects == [Update(HandleOf(t, slots - 1), perrno)]
  {
    AnsweredConnects(cfg, s, slots, a, peerId, u);
    SessionReported(cfg, u, slots - 1, a, perrno, t);
  }

  // ---------------------------------------------------------------------------
  // The report is found
  // ---------------------------------------------------------------------------

  /** A wake-up that finds no discovery leaves the report unread. */
  lemma ReportUnread(cfg: Config, s: State, i: nat, a: Address)
    requires OneSession(cfg, s, i, a)
    ensures Step(cfg, s, Schedule) == s
  {
    DryWakeUp(cfg, s);
    assert Flagged(s).empties == s.empties;
  }

  /** The report is live, and its peer is dialled again. */
  lemma ReportDialled(cfg: Config, s: State, u: State, i: nat, perrno: int)
    requires s.pool.Valid() && i in s.pool.occupied && At(s, i).source == Tracker && At(s, i).state == Connected
    requires At(s, i).perrno != PEER_SHUTDOWN && s.connected == 1 && cfg.outcome(s.attempts) == InProgress
    requires At(s, i).key in s.peers && s.peers[At(s, i).key] == i
    requires s.disconnects == [Update(HandleOf(s, i), perrno)] && u == s.(disconnects := [])
    ensures var (t, fate) := TryDisconnected(cfg, u, HandleOf(s, i));
            && fate == Attempted && SameQueues(u, t) && t.inbound == Up(s.inbound) && t.connected == 0
            && t.attempts == s.attempts + 1 && i in t.pool.occupied && Dialling(At(t, i), At(s, i).key)
  {
    var h := HandleOf(s, i);
    assert At(u, i) == At(s, i) && Live(u, h) && Answerable(u, h);
    DisconnectedEffect(cfg, u, h, perrno);
    TryDisconnectedFrame(cfg, u, h);
    var v := MarkDisconnected(u, i);
    AttemptShape(cfg, Put(v, i, OneMoreFailure(At(v, i))), i);
  }

  lemma ReportTurn(cfg: Config, s: State, u: State, t: State)
    requires s.current == DisconnectedSpot && s.empties == [false, true, true] && s.inbound + 1 < MAX_INBOUND_INFLIGHT
    requires |s.disconnects| == 1 && u == s.(disconnects := []) && s.cache == [] && s.retry == []
    requires TryDisconnected(cfg, u, s.disconnects[0].handle) == (t, Attempted) && SameQueues(u, t)
    requires t.inbound == s.inbound + 1
    ensures RoundRobin(cfg, s).0 == t.(empties := [true, true, true], current := DisconnectedSpot)
  {
    assert WithoutReport(s) == u;
    var v := t.(empties := [false, false, true]);
    assert Turn(cfg, s).state == v;
    DryRound(cfg, v.(current := FailedSpot), DisconnectedSpot);
  }

  /** The discovery of a wake-up is dialled first, then the report is popped and its peer dialled. */
  ghost predicate Redialled(s: State, i: nat, a: Address) {
    && s.disconnects == [] && s.connected == 0 && s.inbound == 2 && s.attempts == 3
    && i in s.pool.occupied && Dialling(At(s, i), a)
  }

  lemma ReportFollows(cfg: Config, s: State, u: State, v: State, i: nat, a: Address, perrno: int, t: State)
    requires u.pool.Valid() && SameElsewhere(s, u, i) && i in s.pool.occupied
    requires At(s, i).state == Connected && At(s, i).source == Tracker && At(s, i).key == a
    requires At(s, i).perrno != PEER_SHUTDOWN && a in u.peers && u.peers[a] == i
    requires u.disconnects == [Update(HandleOf(s, i), perrno)] && u.cache == [] && u.retry == []
    requires u.inbound == 1 && u.connected == 1 && u.attempts == 2 && cfg.outcome(2) == InProgress
    requires v == u.(empties := [false, true, true], current := DisconnectedSpot) && t == RoundRobin(cfg, v).0
    ensures Redialled(t, i, a)
  {
    var w := v.(disconnects := []);
    assert At(v, i) == At(s, i) && HandleOf(v, i) == HandleOf(s, i);
    ReportDialled(cfg, v, w, i, perrno);
    var x := TryDisconnected(cfg, w, HandleOf(s, i)).0;
    ReportTurn(cfg, v, w, x);
    assert At(t, i) == At(x, i);
  }

  lemma SessionKnown(cfg: Config, s: State, i: nat, a: Address)
    requires OneSession(cfg, s, i, a)
    ensures At(s, i).perrno != PEER_SHUTDOWN && a in s.peers && s.peers[a] == i
  {
    assert i in Registered(s, {});
  }

  lemma ReportServedNext(cfg: Config, s: State, i: nat, a: Address, b: Address, perrno: int, t: State)
    requires OneSession(cfg, s, i, a) && s.disconnects == [Update(HandleOf(s, i), perrno)] && a != b
    requires cfg.outcome(1) == cfg.outcome(2) == InProgress && t == Run(cfg, s, Dialled1(b))
    ensures Redialled(t, i, a)
  {
    var u := TryDiscovered(cfg, s, b).0;
    SessionKnown(cfg, s, i, a);
    SecondDial(cfg, s, i, b, u);
    DialDiscovery(cfg, s, b, u);
    ReportFollows(cfg, s, u, u.(empties := [false, true, true], current := DisconnectedSpot), i, a, perrno, t);
  }

  /**
   * A peer the tracker named is reported lost with PEER_SHUTDOWN. A wake-up that finds no discovery leaves the report
   * unread; the next one that does pops it, and the peer is dialled again.
   */
  lemma ShutdownReportedAndRedialled(cfg: Config, slots: nat, a: Address, b: Address, peerId: Digest)
    requires slots > 1 && a != b && cfg.outcome(0) == cfg.outcome(1) == cfg.outcome(2) == InProgress
    ensures var run := LostRun(cfg, slots, a, peerId, PEER_SHUTDOWN);
            var s := After(cfg, slots, run);
            && s.disconnects == [Update(HandleOf(s, slots - 1), PEER_SHUTDOWN)]
            && After(cfg, slots, run + [Schedule]) == s
            && Redialled(After(cfg, slots, run + Dialled1(b)), slots - 1, a)
  {
    var run := LostRun(cfg, slots, a, peerId, PEER_SHUTDOWN);
    var s := After(cfg, slots, run);
    SessionLost(cfg, slots, a, peerId, PEER_SHUTDOWN, s);
    ReportUnread(cfg, s, slots - 1, a);
    RunOne(cfg, s, Schedule);
    RunAppends(cfg, Initial(slots), run, [Schedule]);
    ReportServedNext(cfg, s, slots - 1, a, b, PEER_SHUTDOWN, Run(cfg, s, Dialled1(b)));
    RunAppends(cfg, Initial(slots), run, Dialled1(b));
  }
}
