/** Where the inbound count goes wrong, and where a connection skips its own greeting: exact conditions and
    witnesses. */
module InboundAccount {
  import opened Handshake
  import opened Transport
  import opened SlotPool
  import opened Peers
  import opened ConnectionModel
  import opened ConnectionInvariant
  import opened ConnectionSteps
  import opened ConnectionRuns
  import opened SchedulerFates
  import opened PeerLifecycle
  import opened PeerLedger

  /** An accepted endpoint that the tracker had named, and whose connection is not established. */
  predicate SupersedesTracker(s: State, address: Address) {
    address in s.peers && At(s, s.peers[address]).state != Connected && At(s, s.peers[address]).source == Tracker
  }

  /**
   * Accepting keeps the inbound count in range except in one case: the endpoint supersedes a tracker peer that is
   * waiting rather than in flight, while nothing is in flight. Then the count wraps around.
   */
  lemma AcceptKeepsInboundExactly(cfg: Config, s: State, address: Address)
    requires Inv(cfg, s) && s.pool.free != [] && s.inbound <= MAX_INBOUND_INFLIGHT
    ensures AcceptIncoming(s, address).inbound <= MAX_INBOUND_INFLIGHT <==>
              !(SupersedesTracker(s, address) && s.inbound == 0)
    ensures SupersedesTracker(s, address) && s.inbound == 0 ==> AcceptIncoming(s, address).inbound == SIZE_MAX
  {
    AcquireAt(s);
    var t := Reserving(s);
    if address in s.peers {
      var i := s.peers[address];
      assert i in Registered(s, {}) && PeerOk(cfg, At(s, i));
      assert At(t, i) == At(s, i);
      SupersedeInbound(t, i);
    }
  }

  lemma SupersedeInbound(s: State, i: nat)
    ensures Supersede(s, i).inbound ==
              if At(s, i).state != Connected && At(s, i).source != TcpServer then Down(s.inbound) else s.inbound
  {
  }

  // ---------------------------------------------------------------------------
  // The account over every run
  // ---------------------------------------------------------------------------

  /** How many of a run's accepts replaced a tracker peer that was waiting for its retry. */
  ghost function WaitingReplaced(cfg: Config, slots: nat, events: seq<Event>): nat {
    RunTakeovers(cfg, Initial(slots), events, TakesOverQuiet)
  }

  /** What the inbound count would be if it were an unbounded integer. */
  ghost function Ledger(cfg: Config, slots: nat, events: seq<Event>): int {
    InFlight(After(cfg, slots, events)) + RunLeaks(cfg, Initial(slots), events) - WaitingReplaced(cfg, slots, events)
  }

  lemma LedgerOwes(cfg: Config, slots: nat, events: seq<Event>)
    ensures SizeT(After(cfg, slots, events).inbound, Ledger(cfg, slots, events))
    ensures Ledger(cfg, slots, events) <= MAX_INBOUND_INFLIGHT
  {
    BooksAfter(cfg, slots, events);
  }

  /**
   * After every run inbound_inflight is, modulo 2^64, the attempts under way, plus the attempts given up uncounted,
   * minus the waiting tracker peers replaced; so it has wrapped around exactly when that number is negative.
   */
  lemma InboundExactly(cfg: Config, slots: nat, events: seq<Event>)
    ensures var n, ledger := After(cfg, slots, events).inbound, Ledger(cfg, slots, events);
            n == ledger % WRAP && ledger <= 35 && (n == ledger <==> ledger >= 0)
  {
    LedgerOwes(cfg, slots, events);
    SizeTIsRemainder(After(cfg, slots, events).inbound, Ledger(cfg, slots, events));
  }

  /** Unless a waiting tracker peer was replaced, the count covers the attempts under way and stays within its limit. */
  lemma InboundCovers(cfg: Config, slots: nat, events: seq<Event>)
    requires WaitingReplaced(cfg, slots, events) == 0
    ensures var s := After(cfg, slots, events);
            && InFlight(s) <= s.inbound <= 35
            && s.inbound == InFlight(s) + RunLeaks(cfg, Initial(slots), events)
  {
    InboundExactly(cfg, slots, events);
  }

  ghost predicate InRange(s: State) {
    InFlight(s) <= s.inbound <= 35
  }

  /**
   * The guard is exact. From any reachable state in range, any event leads to one in range if and only if its accepts
   * replace no more waiting tracker peers than the count has to spare.
   */
  lemma InRangeExactly(cfg: Config, slots: nat, events: seq<Event>, e: Event)
    requires InRange(After(cfg, slots, events))
    ensures var s := After(cfg, slots, events);
            InRange(Step(cfg, s, e)) <==> Takeovers(s, e, TakesOverQuiet) <= s.inbound - InFlight(s)
  {
    var s := After(cfg, slots, events);
    var x := s.inbound - InFlight(s);
    Reachable(cfg, slots, events);
    BooksAfter(cfg, slots, events);
    assert WrapsTo(s.inbound, InFlight(s) + x, 0);
    var y := s.connected - Established(s);
    assert Books(s, x, y);
    var x' := x + NetInbound(cfg, s, e);
    StepBooks(cfg, s, e, x, y, x', y + Takeovers(s, e, TakesOverConnected));
    TakeoversBounded(cfg, s, e);
    OwedInRange(Step(cfg, s, e), x');
  }

  /** Shortly below zero, a size_t is far out of range. */
  lemma OwedInRange(t: State, x: int)
    requires InboundOwes(t, x) && x + MAX_OUTBOUND_INFLIGHT >= 0
    ensures InRange(t) <==> x >= 0
  {
    var m: int :| WrapsTo(t.inbound, InFlight(t) + x, m);
  }

  lemma TakeoversBounded(cfg: Config, s: State, e: Event)
    requires Inv(cfg, s)
    ensures Takeovers(s, e, TakesOverQuiet) <= MAX_OUTBOUND_INFLIGHT
    ensures Takeovers(s, e, TakesOverQuiet) > 0 ==> NetInbound(cfg, s, e) + Takeovers(s, e, TakesOverQuiet) == 0
  {
    if e.Server? {
      ArrivalsBounded(cfg, s, e.arrivals);
    }
  }

  /** Each of these accepts takes one of the outbound places. */
  lemma {:induction false} ArrivalsBounded(cfg: Config, s: State, arrivals: seq<AcceptOutcome>)
    requires Inv(cfg, s)
    ensures TakeOvers(s, arrivals, TakesOverQuiet) + s.outbound <= MAX_OUTBOUND_INFLIGHT
    decreases |arrivals|
  {
    if arrivals != [] && !QuotaMet(s) && s.outbound < MAX_OUTBOUND_INFLIGHT {
      if arrivals[0].Incoming? && s.pool.free != [] {
        var address := arrivals[0].address;
        IncomingKeeps(cfg, s, address);
        AcceptEffect(cfg, s, address);
        TakeOversNext(s, arrivals, TakesOverQuiet);
        ArrivalsBounded(cfg, AcceptIncoming(s, address), arrivals[1..]);
      } else {
        TakeOversSkip(s, arrivals, TakesOverQuiet);
        ArrivalsBounded(cfg, s, arrivals[1..]);
      }
    }
  }

  // ---------------------------------------------------------------------------
  // Two concrete runs from a new manager
  // ---------------------------------------------------------------------------

  /** The one peer of a manager that has just discovered and dialled it. */
  function Dialled(address: Address, outcome: ConnectOutcome): Peer {
    Dial(Initialized(Blank(NO_ERROR), address, Tracker, Discovered), outcome).0
  }

  lemma DialTurn(cfg: Config, s: State, t: State)
    requires s.current == DiscoveredSpot && s.cache != [] && s.inbound + 1 < MAX_INBOUND_INFLIGHT && s.pool.free != []
    requires TryDiscovered(cfg, WithoutNewest(s), Newest(s)) == (t, Attempted)
    ensures t.inbound == s.inbound + 1 && t.disconnects == s.disconnects && t.retry == s.retry
    ensures RoundRobin(cfg, s).0
         == RoundRobin(cfg, t.(empties := s.empties[0 := false], current := DisconnectedSpot)).0
  {
    TryDiscoveredFrame(cfg, WithoutNewest(s), Newest(s));
    assert Turn(cfg, s).state == t.(empties := s.empties[0 := false]);
  }

  lemma DryPair(cfg: Config, s: State)
    requires s.current == DisconnectedSpot && !s.empties[0] && s.disconnects == [] && s.retry == []
    requires s.inbound < MAX_INBOUND_INFLIGHT
    ensures RoundRobin(cfg, s).0 == RoundRobin(cfg, s.(empties := [false, true, true], current := DiscoveredSpot)).0
  {
    DryWakeUp(cfg, s);
    DryWakeUp(cfg, Advanced(s));
    assert s.empties[1 := true][2 := true] == [false, true, true];
  }

  lemma DryEnd(cfg: Config, s: State)
    requires s.cache == [] && s.inbound < MAX_INBOUND_INFLIGHT
    ensures RoundRobin(cfg, s.(empties := [false, true, true], current := DiscoveredSpot)).0
         == s.(empties := [true, true, true], current := DiscoveredSpot)
  {
    DryWakeUp(cfg, s.(empties := [false, true, true], current := DiscoveredSpot));
  }

  /** A wake-up whose newest discovery is dialled comes round to the discoveries again. */
  lemma DialRound(cfg: Config, s: State, t: State)
    requires s.current == DiscoveredSpot && s.cache != [] && s.disconnects == [] && s.retry == []
    requires s.inbound + 1 < MAX_INBOUND_INFLIGHT && s.pool.free != []
    requires TryDiscovered(cfg, WithoutNewest(s), Newest(s)) == (t, Attempted)
    ensures t.inbound == s.inbound + 1
    ensures RoundRobin(cfg, s).0 == RoundRobin(cfg, t.(empties := [false, true, true], current := DiscoveredSpot)).0
  {
    DialTurn(cfg, s, t);
    DryPair(cfg, t.(empties := s.empties[0 := false], current := DisconnectedSpot));
  }

  /** A discovery, and a wake-up that dials it and finds nothing else. */
  lemma DialNew(cfg: Config, s: State, address: Address, t: State)
    requires s.current == DiscoveredSpot && s.cache == [] && s.disconnects == [] && s.retry == []
    requires s.inbound + 1 < MAX_INBOUND_INFLIGHT && s.pool.free != []
    requires TryDiscovered(cfg, s, address) == (t, Attempted)
    ensures Run(cfg, s, [Discoveries([address]), Schedule])
         == t.(empties := [true, true, true], current := DiscoveredSpot)
  {
    var u := s.(cache := [address]);
    DiscoveriesKeepNewest([], [address]);
    assert [] + [address] == [address];
    assert WithoutNewest(u) == s;
    TryDiscoveredFrame(cfg, s, address);
    DialRound(cfg, u, t);
    DryEnd(cfg, t);
    RunTwo(cfg, s, Discoveries([address]), Schedule);
  }

  /** One discovery and one wake-up: the address is dialled from the last slot. */
  lemma FirstDial(cfg: Config, slots: nat, address: Address)
    requires slots > 0 && (cfg.outcome(0) == InProgress || cfg.outcome(0) == Immediate)
    ensures var s := After(cfg, slots, [Discoveries([address]), Schedule]);
            && At(s, slots - 1) == Dialled(address, cfg.outcome(0))
            && s.peers == map[address := slots - 1]
            && s.inbound == 1 && s.outbound == 0 && s.connected == 0
            && |s.pool.slots| == slots && |s.pool.free| == slots - 1
  {
    var init := Initial(slots);
    FirstAttempt(cfg, slots, address);
    DialNew(cfg, init, address, TryDiscovered(cfg, init, address).0);
  }

  lemma FirstAttempt(cfg: Config, slots: nat, address: Address)
    requires slots > 0 && (cfg.outcome(0) == InProgress || cfg.outcome(0) == Immediate)
    ensures var init := Initial(slots);
            var (x, fate) := TryDiscovered(cfg, init, address);
            && fate == Attempted
            && At(x, slots - 1) == Dialled(address, cfg.outcome(0))
            && x.peers == map[address := slots - 1]
            && x.inbound == 1 && x.outbound == 0 && x.connected == 0
            && |x.pool.slots| == slots && |x.pool.free| == slots - 1
            && x.cache == [] && x.disconnects == [] && x.retry == []
            && x.empties == [false, false, false] && x.current == DiscoveredSpot
  {
    var init := Initial(slots);
    var e := Enrol(init, address);
    assert init.pool.NextSlot() == slots - 1;
    assert At(e, slots - 1) == Initialized(Blank(NO_ERROR), address, Tracker, Discovered);
    AttemptShape(cfg, e, slots - 1);
  }

  const QuietIo: Io := Io(false, SendErrno(EAGAIN), RecvErrno(EAGAIN))

  lemma FailedFirstDial(s: State, i: nat, address: Address)
    requires i < |s.pool.slots| && At(s, i) == Dialled(address, InProgress) && s.inbound == 1
    ensures var t := HandleFailure(s, i);
            && t.inbound == 0 && t.outbound == s.outbound && t.connected == s.connected
            && t.pool.free == s.pool.free && t.peers == s.peers
            && At(t, i).state == Failed && At(t, i).source == Tracker
  {
  }

  lemma AcceptedOnce(cfg: Config, s: State, address: Address)
    requires Inv(cfg, s) && s.pool.free != [] && s.outbound == 0 && s.connected == 0
    requires SupersedesTracker(s, address) && s.inbound == 0
    ensures Step(cfg, s, Server([Incoming(address)])).inbound == SIZE_MAX
  {
    AcceptKeepsInboundExactly(cfg, s, address);
    var arrivals := [Incoming(address)];
    assert arrivals[1..] == [];
    var t := AcceptIncoming(s, address);
    assert Accept(s, arrivals[0]) == (t, true);
    assert ServerReady(t, []) == t;
    assert ServerReady(s, arrivals) == t;
  }

  /** A reachable underflow: a dialled peer fails, waits for its retry, and then connects to us. */
  lemma InboundUnderflowReachable(cfg: Config, slots: nat, address: Address)
    requires slots > 1 && cfg.outcome(0) == InProgress
    ensures After(cfg, slots, [Discoveries([address]), Schedule] +
                              [Socket(slots - 1, ErrorReady, QuietIo), Server([Incoming(address)])]).inbound == SIZE_MAX
  {
    var first := [Discoveries([address]), Schedule];
    var e, f := Socket(slots - 1, ErrorReady, QuietIo), Server([Incoming(address)]);
    FirstDial(cfg, slots, address);
    Reachable(cfg, slots, first);
    var s := After(cfg, slots, first);
    FailedFirstDial(s, slots - 1, address);
    var t := HandleFailure(s, slots - 1);
    assert Step(cfg, s, e) == t;
    StepInv(cfg, s, e);
    AcceptedOnce(cfg, t, address);
    RunTwo(cfg, s, e, f);
    RunAppends(cfg, Initial(slots), first, [e, f]);
  }

  // ---------------------------------------------------------------------------
  // The wrap-around may come later than the accept that causes it
  // ---------------------------------------------------------------------------

  /** One discovered address dialled while the kernel answers EINPROGRESS. */
  lemma DialOne(cfg: Config, s: State, address: Address)
    requires s.pool.Valid() && s.pool.free != [] && address !in s.peers && cfg.outcome(s.attempts) == InProgress
    requires At(s, s.pool.NextSlot()) == Blank(At(s, s.pool.NextSlot()).perrno)
    ensures var (t, fate) := TryDiscovered(cfg, s, address);
            var i := s.pool.NextSlot();
            && fate == Attempted && OnlySlot(s, t, i) && i in t.pool.occupied
            && At(t, i) == Dialled(address, InProgress)
            && t.pool.free == s.pool.free[..|s.pool.free| - 1]
            && t == s.(pool := t.pool, peers := s.peers[address := i],
                       attempts := s.attempts + 1, inbound := Up(s.inbound))
  {
    var i, e := s.pool.NextSlot(), Enrol(s, address);
    EnrolOnly(cfg, s, address);
    AttemptShape(cfg, e, i);
    AttemptEffect(cfg, s, e, i);
    PutAt(e.(attempts := e.attempts + 1), i, Dialled(address, InProgress));
  }

  /** One of two addresses is dialled, the other one still cached. */
  ghost predicate OneDialled(slots: nat, t: State, a: Address, b: Address) {
    && slots > 2 && a != b && t.attempts == 1
    && t.pool.Valid() && |t.pool.slots| == slots && slots - 1 in t.pool.occupied && slots - 2 !in t.pool.occupied
    && |t.pool.free| == slots - 1 && t.pool.NextSlot() == slots - 2
    && At(t, slots - 1) == Dialled(b, InProgress) && At(t, slots - 2) == Blank(NO_ERROR)
    && t.peers == map[b := slots - 1] && t.cache == [a] && t.disconnects == [] && t.retry == []
    && t.inbound == 1 && t.outbound == 0 && t.connected == 0
    && t.current == DiscoveredSpot && t.empties == [false, true, true]
  }

  ghost predicate BothDialled(slots: nat, s: State, a: Address, b: Address) {
    && slots > 2 && At(s, slots - 1) == Dialled(b, InProgress) && At(s, slots - 2) == Dialled(a, InProgress)
    && slots - 1 in s.pool.occupied && slots - 2 in s.pool.occupied && s.pool.free != []
    && s.inbound == 2 && s.outbound == 0 && s.connected == 0
  }

  lemma NewerDialled(cfg: Config, slots: nat, s: State, t: State, a: Address, b: Address)
    requires slots > 2 && a != b && cfg.outcome(0) == InProgress && s == Initial(slots).(cache := [a, b])
    requires t == TryDiscovered(cfg, WithoutNewest(s), b).0
    ensures TryDiscovered(cfg, WithoutNewest(s), b).1 == Attempted
    ensures OneDialled(slots, t.(empties := [false, true, true], current := DiscoveredSpot), a, b)
  {
    NewPoolValid(slots, Blank(NO_ERROR));
    var w := WithoutNewest(s);
    DialOne(cfg, w, b);
    assert SameElsewhere(w, t, slots - 2);
    assert s.pool.free[..slots - 1][slots - 2] == slots - 2;
  }

  lemma OlderDialled(cfg: Config, slots: nat, t: State, u: State, a: Address, b: Address)
    requires OneDialled(slots, t, a, b) && cfg.outcome(1) == InProgress
    requires u == TryDiscovered(cfg, WithoutNewest(t), a).0
    ensures TryDiscovered(cfg, WithoutNewest(t), a).1 == Attempted && BothDialled(slots, u, a, b) && u.cache == []
  {
    var w := WithoutNewest(t);
    DialOne(cfg, w, a);
    assert SameElsewhere(w, u, slots - 1);
  }

  /** Two discoveries in one wake-up: the newer is dialled from the last slot, the older from the one before. */
  lemma TwoDials(cfg: Config, slots: nat, a: Address, b: Address)
    requires slots > 2 && a != b && cfg.outcome(0) == cfg.outcome(1) == InProgress
    ensures BothDialled(slots, After(cfg, slots, [Discoveries([a, b]), Schedule]), a, b)
  {
    var init := Initial(slots);
    var s := init.(cache := [a, b]);
    DiscoveriesKeepNewest([], [a, b]);
    assert [] + [a, b] == [a, b];
    DialBoth(cfg, slots, s, a, b);
    RunTwo(cfg, init, Discoveries([a, b]), Schedule);
  }

  lemma DialBoth(cfg: Config, slots: nat, s: State, a: Address, b: Address)
    requires slots > 2 && a != b && cfg.outcome(0) == cfg.outcome(1) == InProgress
    requires s == Initial(slots).(cache := [a, b])
    ensures BothDialled(slots, RoundRobin(cfg, s).0, a, b)
  {
    var t := TryDiscovered(cfg, WithoutNewest(s), b).0;
    NewerDialled(cfg, slots, s, t, a, b);
    DialRound(cfg, s, t);
    SecondRound(cfg, slots, t.(empties := [false, true, true], current := DiscoveredSpot), a, b);
  }

  lemma SecondRound(cfg: Config, slots: nat, t: State, a: Address, b: Address)
    requires OneDialled(slots, t, a, b) && cfg.outcome(1) == InProgress
    ensures BothDialled(slots, RoundRobin(cfg, t).0, a, b)
  {
    var u := TryDiscovered(cfg, WithoutNewest(t), a).0;
    OlderDialled(cfg, slots, t, u, a, b);
    DialRound(cfg, t, u);
    DryEnd(cfg, u);
  }

  /** A dialled peer that reports an error is put on its retry timer. */
  lemma ErrorAfterDial(cfg: Config, s: State, i: nat, address: Address)
    requires Inv(cfg, s) && i in s.pool.occupied && At(s, i) == Dialled(address, InProgress) && !QuotaMet(s)
    ensures var t := Step(cfg, s, Socket(i, ErrorReady, QuietIo));
            && Inv(cfg, t) && OnlySlot(s, t, i) && StillHeld(s, t, i) && At(t, i).state == Failed
            && At(t, i).interest == Quiet && At(t, i).timer && At(t, i).failures == 1 && At(t, i).key == address
            && t == s.(pool := t.pool, peers := t.peers, faults := t.faults,
                       outbound := t.outbound, inbound := Down(s.inbound))
  {
    StepInv(cfg, s, Socket(i, ErrorReady, QuietIo));
    SocketEffect(cfg, s, i, ErrorReady, QuietIo);
  }

  lemma AcceptOne(cfg: Config, s: State, address: Address)
    requires Inv(cfg, s) && s.pool.free != [] && s.outbound < MAX_OUTBOUND_INFLIGHT && !QuotaMet(s)
    ensures var t := Step(cfg, s, Server([Incoming(address)]));
            Inv(cfg, t) && t == AcceptIncoming(s, address) && Admitted(s, t, address, s.pool.NextSlot())
  {
    var arrivals := [Incoming(address)];
    assert arrivals[1..] == [];
    IncomingKeeps(cfg, s, address);
    AcceptEffect(cfg, s, address);
    TakeOversNext(s, arrivals, TakesOverQuiet);
    assert Apply(cfg, s, Server(arrivals)) == ServerReady(AcceptIncoming(s, address), []);
  }

  /**
   * The second peer's failure wraps the count, long after the accept: two peers are dialled, one fails and then
   * connects to us, which takes the count below the attempts under way; then the other one fails too.
   */
  lemma LateUnderflowReachable(cfg: Config, slots: nat, a: Address, b: Address)
    requires slots > 2 && a != b && cfg.outcome(0) == cfg.outcome(1) == InProgress
    ensures var first := [Discoveries([a, b]), Schedule];
            var middle := [Socket(slots - 1, ErrorReady, QuietIo), Server([Incoming(b)])];
            && After(cfg, slots, first + middle).inbound == 0
            && After(cfg, slots, first + (middle + [Socket(slots - 2, ErrorReady, QuietIo)])).inbound == SIZE_MAX
  {
    var first := [Discoveries([a, b]), Schedule];
    var e1, e2 := Socket(slots - 1, ErrorReady, QuietIo), Server([Incoming(b)]);
    var e3 := Socket(slots - 2, ErrorReady, QuietIo);
    TwoDials(cfg, slots, a, b);
    Reachable(cfg, slots, first);
    var s := After(cfg, slots, first);
    LateSteps(cfg, s, slots, a, b);
    RunTwo(cfg, s, e1, e2);
    RunThree(cfg, s, e1, e2, e3);
    assert [e1, e2] + [e3] == [e1, e2, e3];
    RunAppends(cfg, Initial(slots), first, [e1, e2]);
    RunAppends(cfg, Initial(slots), first, [e1, e2, e3]);
  }

  lemma LateSteps(cfg: Config, s: State, slots: nat, a: Address, b: Address)
    requires Inv(cfg, s) && BothDialled(slots, s, a, b)
    ensures var t := Step(cfg, s, Socket(slots - 1, ErrorReady, QuietIo));
            var u := Step(cfg, t, Server([Incoming(b)]));
            u.inbound == 0 && Step(cfg, u, Socket(slots - 2, ErrorReady, QuietIo)).inbound == SIZE_MAX
  {
    ErrorAfterDial(cfg, s, slots - 1, b);
    var t := Step(cfg, s, Socket(slots - 1, ErrorReady, QuietIo));
    assert SameElsewhere(s, t, slots - 2);
    assert slots - 1 in Registered(t, {}) && At(t, slots - 1).key == b;
    FreeRemains(s, t, slots - 1);
    AcceptOne(cfg, t, b);
    var u := Step(cfg, t, Server([Incoming(b)]));
    assert slots - 2 != t.pool.NextSlot() && SameElsewhere(t, u, slots - 2);
    ErrorAfterDial(cfg, u, slots - 2, a);
  }

  lemma FreeRemains(s: State, t: State, i: nat)
    requires s.pool.Valid() && s.pool.free != [] && OnlySlot(s, t, i) && StillHeld(s, t, i)
    ensures t.pool.free != []
  {
    AcquireAt(s);
    var j := s.pool.NextSlot();
    assert SameElsewhere(s, t, j);
    FreeIsVacant(t.pool, j);
  }

  /** What sendmsg answers when it is given no bytes. */
  const NothingSent: Io := Io(false, Sent(0), RecvErrno(EAGAIN))

  /** With an immediate connect() the first writable event finds an empty buffer and goes straight to listening. */
  lemma ImmediateListens(cfg: Config, s: State, i: nat, address: Address)
    requires i < |s.pool.slots| && At(s, i) == Dialled(address, Immediate) && s.connected == 0
    ensures var t := SocketReady(cfg, s, i, WriteReady, NothingSent);
            && |t.pool.slots| == |s.pool.slots| && t.connected == 0
            && At(t, i) == At(s, i).(interest := Readable)
  {
    var p := At(s, i);
    WritableHandshake(cfg, s, i, NothingSent);
    ListensAfterNothing(s, i, NothingSent);
    PutAt(s, i, p.(interest := Readable));
  }

  lemma WritableHandshake(cfg: Config, s: State, i: nat, io: Io)
    requires At(s, i).state == Handshaking && !QuotaMet(s)
    ensures SocketReady(cfg, s, i, WriteReady, io) == HandshakeWritable(s, i, io)
  {
  }

  lemma ListensAfterNothing(s: State, i: nat, io: Io)
    requires At(s, i).sendBuf == [] && At(s, i).source == Tracker && At(s, i).perrno == NO_ERROR && io.send == Sent(0)
    ensures HandshakeWritable(s, i, io) == Put(s, i, At(s, i).(interest := Readable))
  {
    EmptySend(At(s, i));
  }

  lemma EmptySend(p: Peer)
    requires p.sendBuf == []
    ensures SendMessages(p, Sent(0)) == (p.(perrno := NO_ERROR), true, true)
  {
    assert p.attempt.sent + [] == p.attempt.sent;
  }

  lemma ListeningConnects(cfg: Config, s: State, i: nat, address: Address, peerId: Digest)
    requires i < |s.pool.slots| && s.connected == 0
    requires At(s, i) == Dialled(address, Immediate).(interest := Readable)
    ensures var io := Io(false, SendErrno(EAGAIN), Delivered(Message(cfg.infoHash, peerId)));
            var p := At(SocketReady(cfg, s, i, ReadReady, io), i);
            p.state == Connected && p.peerId == peerId && p.attempt.sent == []
  {
    var m := Message(cfg.infoHash, peerId);
    assert [] + m == m && m[..LENGTH] == m && m + [] == m;
    MessageDecodes(cfg.infoHash, peerId, cfg.infoHash, At(s, i).peerId, []);
    var (q, ok) := RecvMessages(At(s, i), Delivered(m));
    assert q.recvBuf == m && ok;
  }

  /** The greeting really is skipped: a run in which a peer is connected and was never sent a byte. */
  lemma ImmediateConnectSkipsGreeting(cfg: Config, slots: nat, address: Address, peerId: Digest)
    requires slots > 0 && cfg.outcome(0) == Immediate
    ensures var io := Io(false, SendErrno(EAGAIN), Delivered(Message(cfg.infoHash, peerId)));
            var p := At(After(cfg, slots, [Discoveries([address]), Schedule] +
                                          [Socket(slots - 1, WriteReady, NothingSent),
                                           Socket(slots - 1, ReadReady, io)]), slots - 1);
            p.state == Connected && p.peerId == peerId && p.attempt.sent == []
  {
    var io := Io(false, SendErrno(EAGAIN), Delivered(Message(cfg.infoHash, peerId)));
    var first := [Discoveries([address]), Schedule];
    var e, f := Socket(slots - 1, WriteReady, NothingSent), Socket(slots - 1, ReadReady, io);
    FirstDial(cfg, slots, address);
    var s := After(cfg, slots, first);
    ImmediateListens(cfg, s, slots - 1, address);
    var t := SocketReady(cfg, s, slots - 1, WriteReady, NothingSent);
    assert Step(cfg, s, e) == t;
    ListeningConnects(cfg, t, slots - 1, address, peerId);
    assert Step(cfg, t, f) == SocketReady(cfg, t, slots - 1, ReadReady, io);
    RunTwo(cfg, s, e, f);
    RunAppends(cfg, Initial(slots), first, [e, f]);
  }
}
