/** A manager with room that is not stuck can still call connect(): the events that bring it there. */
module SchedulerRevival {
  import opened RingBuffer
  import opened Handshake
  import opened Transport
  import opened Peers
  import opened SlotPool
  import opened ConnectionModel
  import opened ConnectionInvariant
  import opened ConnectionSteps
  import opened ConnectionRuns
  import opened SchedulerFates
  import opened PeerLifecycle
  import opened PeerLedger
  import opened InboundAccount
  import opened SchedulerStall
  import opened SchedulerReach

  /** Events that leave the scheduler's position alone, call no connect() and take up no room. */
  ghost predicate Prepared(cfg: Config, s: State, t: State) {
    && Sound(cfg, t) && t.current == s.current && t.empties == s.empties && t.attempts == s.attempts
    && t.inbound <= s.inbound
  }

  lemma PreparedTransitive(cfg: Config, s: State, t: State, u: State)
    requires Prepared(cfg, s, t) && Prepared(cfg, t, u)
    ensures Prepared(cfg, s, u)
  {
  }

  lemma RunOne(cfg: Config, s: State, e: Event)
    ensures Run(cfg, s, [e]) == Step(cfg, s, e)
  {
    assert [e][1..] == [];
  }

  lemma PositionKept(s: State, spot: Spot, t: State)
    requires t.current == s.current && t.empties == s.empties
    ensures Serves(t, spot) <==> Serves(s, spot)
    ensures LastServed(t) == LastServed(s)
  {
  }

  /** An attempt under way is counted. */
  lemma Counted1(s: State, i: nat)
    requires i in s.pool.occupied && IsInFlight(At(s, i))
    ensures InFlight(s) > 0
  {
    assert i in Select(s, IsInFlight);
  }

  // ---------------------------------------------------------------------------
  // To the retry queue
  // ---------------------------------------------------------------------------

  lemma RequeueShape(cfg: Config, s: State, i: nat)
    requires Inv(cfg, s) && i in s.pool.occupied && At(s, i).state == Failed && At(s, i).timer
    ensures var t := Step(cfg, s, Timer(i));
            && t.current == s.current && t.empties == s.empties && t.attempts == s.attempts && t.inbound == s.inbound
            && RetryOffer(t)
  {
    TimerEffect(cfg, s, i);
    var t := Step(cfg, s, Timer(i));
    assert HandleOf(t, i) in t.retry && Live(t, HandleOf(t, i));
  }

  /** The timer of a failed peer. */
  lemma TimerRequeues(cfg: Config, s: State, i: nat)
    requires Sound(cfg, s) && i in s.pool.occupied && At(s, i).state == Failed && At(s, i).timer
    ensures var t := Step(cfg, s, Timer(i)); Prepared(cfg, s, t) && RetryOffer(t)
  {
    SoundStep(cfg, s, Timer(i));
    RequeueShape(cfg, s, i);
  }

  lemma FailShape(cfg: Config, s: State, i: nat)
    requires Inv(cfg, s) && i in s.pool.occupied && IsInFlight(At(s, i)) && At(s, i).state != Failed && s.inbound > 0
    requires At(s, i).failures + 1 < MAX_RETRIES && At(s, i).timer
    ensures var t := Step(cfg, s, Timer(i));
            && t.current == s.current && t.empties == s.empties && t.attempts == s.attempts && t.inbound < s.inbound
            && i in t.pool.occupied && At(t, i).state == Failed && At(t, i).timer
  {
    TimerEffect(cfg, s, i);
  }

  /** The timer of an attempt that is not its peer's last. */
  lemma TimerFails(cfg: Config, s: State, i: nat)
    requires Sound(cfg, s) && i in s.pool.occupied && IsInFlight(At(s, i)) && At(s, i).state != Failed && s.inbound > 0
    requires At(s, i).failures + 1 < MAX_RETRIES
    ensures var t := Step(cfg, s, Timer(i));
            Prepared(cfg, s, t) && i in t.pool.occupied && At(t, i).state == Failed && At(t, i).timer
  {
    SoundStep(cfg, s, Timer(i));
    SoundListed(cfg, s, i);
    FailShape(cfg, s, i);
  }

  lemma PrepareRetry(cfg: Config, s: State, i: nat) returns (p: seq<Event>)
    requires Sound(cfg, s) && InFlight(s) <= s.inbound && i in s.pool.occupied && CanRetry(At(s, i))
    ensures var t := Run(cfg, s, p); Prepared(cfg, s, t) && RetryOffer(t)
  {
    SoundListed(cfg, s, i);
    if At(s, i).state == Failed {
      if At(s, i).timer {
        TimerRequeues(cfg, s, i);
        RunOne(cfg, s, Timer(i));
        p := [Timer(i)];
      } else {
        p := [];
        assert HandleOf(s, i) in s.retry && Live(s, HandleOf(s, i));
      }
    } else {
      Counted1(s, i);
      TimerFails(cfg, s, i);
      var t := Step(cfg, s, Timer(i));
      TimerRequeues(cfg, t, i);
      RunTwo(cfg, s, Timer(i), Timer(i));
      PreparedTransitive(cfg, s, t, Step(cfg, t, Timer(i)));
      p := [Timer(i), Timer(i)];
    }
  }

  // ---------------------------------------------------------------------------
  // To the report queue
  // ---------------------------------------------------------------------------

  /** Only the queues between the two threads have moved. */
  ghost predicate Relayed(cfg: Config, s: State, t: State) {
    Sound(cfg, t) && OnlyQueues(s, t)
  }

  ghost predicate OnlyQueues(s: State, t: State) {
    t == s.(connects := t.connects, sessions := t.sessions, disconnects := t.disconnects)
  }

  lemma TakeShape(cfg: Config, s: State, h: Handle)
    requires h in s.connects
    ensures var t := Step(cfg, s, TransferTakes);
            && OnlyQueues(s, t) && |t.connects| < |s.connects|
            && (if h == s.connects[0] then h in t.sessions else h in t.connects)
  {
    assert Step(cfg, s, TransferTakes) == Take(s);
  }

  lemma TakeRelays(cfg: Config, s: State, h: Handle)
    requires Sound(cfg, s) && h in s.connects
    ensures var t := Step(cfg, s, TransferTakes);
            && Relayed(cfg, s, t) && |t.connects| < |s.connects|
            && (if h == s.connects[0] then h in t.sessions else h in t.connects)
  {
    SoundStep(cfg, s, TransferTakes);
    TakeShape(cfg, s, h);
  }

  lemma ReportShape(cfg: Config, s: State, h: Handle)
    requires h in s.sessions && |s.disconnects| < UPDATE_QUEUE_SIZE
    ensures var t := Step(cfg, s, TransferReports(h, NO_ERROR)); OnlyQueues(s, t) && h in Handles(t.disconnects)
  {
    assert Step(cfg, s, TransferReports(h, NO_ERROR)) == Reported(s, h, NO_ERROR);
    HandlesAppend(s.disconnects, [Update(h, NO_ERROR)]);
    assert Handles([Update(h, NO_ERROR)]) == [h];
  }

  lemma ReportRoom(cfg: Config, s: State, h: Handle)
    requires Inv(cfg, s) && h in s.sessions
    ensures |s.disconnects| < UPDATE_QUEUE_SIZE
  {
    ReportedUnanswered(s, h, NO_ERROR);
  }

  lemma ReportRelays(cfg: Config, s: State, h: Handle)
    requires Sound(cfg, s) && h in s.sessions
    ensures var t := Step(cfg, s, TransferReports(h, NO_ERROR));
            Relayed(cfg, s, t) && h in Handles(t.disconnects)
  {
    SoundStep(cfg, s, TransferReports(h, NO_ERROR));
    ReportRoom(cfg, s, h);
    ReportShape(cfg, s, h);
  }

  lemma {:induction false} RelayReport(cfg: Config, s: State, h: Handle) returns (p: seq<Event>)
    requires Sound(cfg, s) && h in Unanswered(s)
    ensures var t := Run(cfg, s, p); Relayed(cfg, s, t) && h in Handles(t.disconnects)
    decreases |s.connects|
  {
    if h in Handles(s.disconnects) {
      p := [];
    } else if h in s.sessions {
      ReportRelays(cfg, s, h);
      p := [TransferReports(h, NO_ERROR)];
      RunOne(cfg, s, p[0]);
    } else {
      TakeRelays(cfg, s, h);
      var t := Step(cfg, s, TransferTakes);
      var rest := RelayReport(cfg, t, h);
      p := [TransferTakes] + rest;
      assert p[1..] == rest;
    }
  }

  lemma PrepareReport(cfg: Config, s: State, i: nat) returns (p: seq<Event>)
    requires Sound(cfg, s) && i in s.pool.occupied && At(s, i).state == Connected
    ensures var t := Run(cfg, s, p);
            Relayed(cfg, s, t) && Prepared(cfg, s, t) && ReportedLost(t, i) && At(t, i) == At(s, i)
  {
    assert i in Registered(s, {});
    p := RelayReport(cfg, s, HandleOf(s, i));
    var t := Run(cfg, s, p);
    assert HandleOf(t, i) == HandleOf(s, i);
  }

  // ---------------------------------------------------------------------------
  // Through the handshake
  // ---------------------------------------------------------------------------

  /** Everything offered to the kernel is sent, and what it has received is handed over. */
  function Flowing(data: seq<byte>): Io {
    Io(false, Sent(LENGTH), Delivered(data))
  }

  lemma SendsAll(p: Peer)
    requires |p.sendBuf| <= LENGTH
    ensures var (q, ok, exhausted) := SendMessages(p, Sent(LENGTH));
            && ok && exhausted && q.recvBuf == p.recvBuf && q.state == p.state && q.source == p.source
  {
    var t := SendFrom(p.sendBuf, Sent(LENGTH));
    assert t.contents == [];
  }

  /** An attempt whose socket is writable sends its greeting and listens. */
  lemma WriteAll(cfg: Config, s: State, i: nat)
    requires Inv(cfg, s) && i in s.pool.occupied && IsInFlight(At(s, i)) && At(s, i).interest == Writable
    requires !QuotaMet(s)
    ensures var t := SocketReady(cfg, s, i, WriteReady, Flowing([]));
            && At(t, i).interest == Readable && At(t, i).state == Handshaking && At(t, i).recvBuf == At(s, i).recvBuf
            && SocketTurnout(cfg, false, At(s, i), WriteReady, Flowing([])) == Waits
  {
    ArmedOpened(cfg, s, i);
    var p := At(s, i);
    if p.state == Handshaking {
      assert |p.attempt.sent + p.sendBuf| <= LENGTH;
      SendsAll(p);
      PutAt(s, i, SendMessages(p, Sent(LENGTH)).0.(interest := Readable));
    } else {
      GreetsAll(cfg, s, i);
    }
  }

  lemma GreetsAll(cfg: Config, s: State, i: nat)
    requires Inv(cfg, s) && i in s.pool.occupied && IsInFlight(At(s, i)) && At(s, i).interest == Writable
    requires !QuotaMet(s)
    requires At(s, i).state != Handshaking
    ensures var t := SocketReady(cfg, s, i, WriteReady, Flowing([]));
            && At(t, i).interest == Readable && At(t, i).state == Handshaking && At(t, i).recvBuf == At(s, i).recvBuf
            && SocketTurnout(cfg, false, At(s, i), WriteReady, Flowing([])) == Waits
  {
    ArmedOpened(cfg, s, i);
    var p := At(s, i).(state := Handshaking);
    GreetKeeps(cfg, s, p, Sent(LENGTH));
    var e := EncodeHandshake(cfg, p).0;
    assert |e.sendBuf| <= LENGTH;
    SendsAll(e);
    var q := GreetPeer(cfg, p, Sent(LENGTH)).0;
    PutAt(s, i, q.(interest := Readable));
  }

  /** What one socket event on an attempt may leave alone. */
  ghost predicate Driven(cfg: Config, s: State, t: State, i: nat) {
    Prepared(cfg, s, t) && OnlySlot(s, t, i) && i in s.pool.occupied
  }

  /** ... an attempt that listens, nothing else being different. */
  ghost predicate Listens(s: State, t: State, i: nat) {
    && i in t.pool.occupied && IsInFlight(At(t, i)) && At(t, i).state == Handshaking && At(t, i).interest == Readable
    && At(t, i).recvBuf == At(s, i).recvBuf && t.inbound == s.inbound && t.connected == s.connected
  }

  lemma WriteShape(cfg: Config, s: State, i: nat)
    requires Inv(cfg, s) && i in s.pool.occupied && IsInFlight(At(s, i)) && At(s, i).interest == Writable
    requires !QuotaMet(s)
    ensures var t := Step(cfg, s, Socket(i, WriteReady, Flowing([])));
            && OnlySlot(s, t, i) && Listens(s, t, i)
            && t.current == s.current && t.empties == s.empties && t.attempts == s.attempts
  {
    SocketEffect(cfg, s, i, WriteReady, Flowing([]));
    WriteAll(cfg, s, i);
  }

  lemma PrepareListening(cfg: Config, s: State, i: nat) returns (p: seq<Event>)
    requires Sound(cfg, s) && i in s.pool.occupied && IsInFlight(At(s, i)) && !QuotaMet(s)
    ensures var t := Run(cfg, s, p); Driven(cfg, s, t, i) && Listens(s, t, i)
  {
    SoundListed(cfg, s, i);
    if At(s, i).interest == Writable {
      p := [Socket(i, WriteReady, Flowing([]))];
      SoundStep(cfg, s, p[0]);
      WriteShape(cfg, s, i);
      RunOne(cfg, s, p[0]);
    } else {
      p := [];
      OnlySlotRefl(cfg, s, i);
    }
  }

  lemma OnlySlotRefl(cfg: Config, s: State, i: nat)
    requires s.pool.Valid()
    ensures OnlySlot(s, s, i)
  {
  }

  /** The rest of a 68-byte message arrives at once. */
  lemma ReadTurns(cfg: Config, p: Peer, m: seq<byte>)
    requires |m| == LENGTH && |p.recvBuf| < LENGTH && p.recvBuf <= m && p.source == Tracker && p.state == Handshaking
    ensures SocketTurnout(cfg, false, p, ReadReady, Flowing(m[|p.recvBuf|..]))
         == if Accepts(cfg.infoHash, m) then Connects else Drops
  {
    var data := m[|p.recvBuf|..];
    assert p.recvBuf + data == m && data[..|data|] == data && m[..LENGTH] == m;
    var (q, ok) := RecvMessages(p, Delivered(data));
    assert ok && q.recvBuf == m;
  }

  /** A message that begins with the bytes received: ours, up to the byte at 47 if it is to be rejected. */
  function Completed(cfg: Config, b: seq<byte>, good: bool): (m: seq<byte>)
    requires |b| < LENGTH
    ensures |m| == LENGTH && b <= m
  {
    var g := cfg.Greeting();
    var other: byte := if g[47] == 0 then 1 else 0;
    b + (if good then g else g[47 := other])[|b|..]
  }

  lemma GreetingBytes(cfg: Config)
    ensures var g := cfg.Greeting();
            |g| == LENGTH && g[0] == 0x13 && forall k :: 28 <= k < 48 ==> g[k] == cfg.infoHash[k - 28]
  {
    var g := cfg.Greeting();
    assert g[28..48] == cfg.infoHash;
    assert forall k :: 28 <= k < 48 ==> g[k] == g[28..48][k - 28];
  }

  lemma CompletedAccepted(cfg: Config, b: seq<byte>)
    requires |b| < LENGTH && Acceptable(cfg.infoHash, b)
    ensures Accepts(cfg.infoHash, Completed(cfg, b, true))
  {
    GreetingBytes(cfg);
    var m := Completed(cfg, b, true);
    forall k | 0 <= k < 20
      ensures m[28..48][k] == cfg.infoHash[k]
    {
    }
    assert m[28..48] == cfg.infoHash;
  }

  lemma CompletedRejected(cfg: Config, b: seq<byte>)
    requires |b| < LENGTH && !Committed(cfg.infoHash, b)
    ensures !Accepts(cfg.infoHash, Completed(cfg, b, false))
  {
    GreetingBytes(cfg);
    var m := Completed(cfg, b, false);
    assert m[..LENGTH] == m;
    AcceptsPrefix(cfg.infoHash, b, m);
    if Acceptable(cfg.infoHash, b) {
      assert m[28..48][19] == m[47] != cfg.infoHash[19];
    }
  }

  /** An attempt that has connected. */
  ghost predicate NowConnected(s: State, t: State, i: nat) {
    && i in t.pool.occupied && At(t, i).state == Connected && At(t, i).source == Tracker
    && t.connected == s.connected + 1 && t.inbound == s.inbound - 1
  }

  lemma ConnectShape(cfg: Config, s: State, i: nat)
    requires Inv(cfg, s) && i in s.pool.occupied && IsInFlight(At(s, i)) && !QuotaMet(s) && s.inbound > 0
    requires At(s, i).state == Handshaking && At(s, i).interest == Readable
    requires Acceptable(cfg.infoHash, At(s, i).recvBuf)
    requires |At(s, i).recvBuf| < LENGTH
    ensures var e := Socket(i, ReadReady, Flowing(Completed(cfg, At(s, i).recvBuf, true)[|At(s, i).recvBuf|..]));
            var t := Step(cfg, s, e);
            && OnlySlot(s, t, i) && NowConnected(s, t, i)
            && t.current == s.current && t.empties == s.empties && t.attempts == s.attempts
  {
    var b := At(s, i).recvBuf;
    var m := Completed(cfg, b, true);
    CompletedAccepted(cfg, b);
    ReadTurns(cfg, At(s, i), m);
    SocketEffect(cfg, s, i, ReadReady, Flowing(m[|b|..]));
  }

  lemma PrepareConnect(cfg: Config, s: State, i: nat) returns (p: seq<Event>)
    requires Sound(cfg, s) && i in s.pool.occupied && CanConnect(cfg, At(s, i)) && !QuotaMet(s) && s.inbound > 0
    ensures var t := Run(cfg, s, p); Driven(cfg, s, t, i) && NowConnected(s, t, i)
  {
    var first := PrepareListening(cfg, s, i);
    var t := Run(cfg, s, first);
    SoundListed(cfg, t, i);
    var b := At(t, i).recvBuf;
    var e := Socket(i, ReadReady, Flowing(Completed(cfg, b, true)[|b|..]));
    ConnectShape(cfg, t, i);
    SoundStep(cfg, t, e);
    RunOne(cfg, t, e);
    RunAppends(cfg, s, first, [e]);
    p := first + [e];
    DrivenOn(cfg, s, t, Step(cfg, t, e), i);
  }

  lemma DrivenOn(cfg: Config, s: State, t: State, u: State, i: nat)
    requires Driven(cfg, s, t, i) && Prepared(cfg, t, u) && OnlySlot(t, u, i)
    ensures Driven(cfg, s, u, i)
  {
    forall j: nat | j != i
      ensures SameElsewhere(s, u, j)
    {
      assert SameElsewhere(s, t, j) && SameElsewhere(t, u, j);
    }
  }

  // ---------------------------------------------------------------------------
  // To a free slot
  // ---------------------------------------------------------------------------

  lemma VacatedIsFree(s: State, t: State, i: nat)
    requires s.pool.Valid() && OnlySlot(s, t, i) && i in s.pool.occupied && i !in t.pool.occupied
    ensures t.pool.free != []
  {
    assert i < |t.pool.slots|;
    FreeIsVacant(t.pool, i);
  }

  lemma RejectShape(cfg: Config, s: State, i: nat)
    requires Inv(cfg, s) && i in s.pool.occupied && IsInFlight(At(s, i)) && !QuotaMet(s)
    requires At(s, i).state == Handshaking && At(s, i).interest == Readable
    requires !Committed(cfg.infoHash, At(s, i).recvBuf)
    requires |At(s, i).recvBuf| < LENGTH
    ensures var e := Socket(i, ReadReady, Flowing(Completed(cfg, At(s, i).recvBuf, false)[|At(s, i).recvBuf|..]));
            var t := Step(cfg, s, e);
            && OnlySlot(s, t, i) && i !in t.pool.occupied && t.inbound == s.inbound
            && t.current == s.current && t.empties == s.empties && t.attempts == s.attempts
  {
    var b := At(s, i).recvBuf;
    var m := Completed(cfg, b, false);
    CompletedRejected(cfg, b);
    ReadTurns(cfg, At(s, i), m);
    SocketEffect(cfg, s, i, ReadReady, Flowing(m[|b|..]));
  }

  lemma ErrorShape(cfg: Config, s: State, i: nat)
    requires Inv(cfg, s) && i in s.pool.occupied && At(s, i).interest != Quiet
    requires (IsInFlight(At(s, i)) ==> s.inbound > 0)
    requires QuotaMet(s) || LastFailure(At(s, i))
    ensures var t := Step(cfg, s, Socket(i, ErrorReady, QuietIo));
            && OnlySlot(s, t, i) && i !in t.pool.occupied && t.inbound <= s.inbound
            && t.current == s.current && t.empties == s.empties && t.attempts == s.attempts
  {
    SocketEffect(cfg, s, i, ErrorReady, QuietIo);
    ArmedOpened(cfg, s, i);
  }

  /** One peer that can be deleted is. */
  lemma PrepareDeletion(cfg: Config, s: State, i: nat) returns (p: seq<Event>)
    requires Sound(cfg, s) && InFlight(s) <= s.inbound && i in s.pool.occupied && CanFree(cfg, QuotaMet(s), At(s, i))
    ensures var t := Run(cfg, s, p); Prepared(cfg, s, t) && t.pool.free != []
  {
    SoundListed(cfg, s, i);
    if IsInFlight(At(s, i)) {
      Counted1(s, i);
    }
    if QuotaMet(s) || LastFailure(At(s, i)) {
      var e := Socket(i, ErrorReady, QuietIo);
      ErrorShape(cfg, s, i);
      SoundStep(cfg, s, e);
      VacatedIsFree(s, Step(cfg, s, e), i);
      RunOne(cfg, s, e);
      p := [e];
    } else {
      p := PrepareRejection(cfg, s, i);
    }
  }

  lemma PrepareRejection(cfg: Config, s: State, i: nat) returns (p: seq<Event>)
    requires Sound(cfg, s) && i in s.pool.occupied && IsInFlight(At(s, i)) && !QuotaMet(s)
    requires !Committed(cfg.infoHash, At(s, i).recvBuf)
    ensures var t := Run(cfg, s, p); Prepared(cfg, s, t) && t.pool.free != []
  {
    var first := PrepareListening(cfg, s, i);
    var t := Run(cfg, s, first);
    SoundListed(cfg, t, i);
    var b := At(t, i).recvBuf;
    var e := Socket(i, ReadReady, Flowing(Completed(cfg, b, false)[|b|..]));
    RejectShape(cfg, t, i);
    SoundStep(cfg, t, e);
    RunOne(cfg, t, e);
    RunAppends(cfg, s, first, [e]);
    p := first + [e];
    VacatedIsFree(t, Step(cfg, t, e), i);
    PreparedTransitive(cfg, s, t, Step(cfg, t, e));
  }

  lemma NotInFlight(cfg: Config, s: State, i: nat)
    requires Sound(cfg, s) && i in s.pool.occupied && At(s, i).state == Connected
    ensures !IsInFlight(At(s, i))
  {
    SoundListed(cfg, s, i);
  }

  /** Connecting one attempt: the count of the connected and of those under way together stays the same. */
  lemma ConnectedSum(cfg: Config, s: State, t: State, i: nat)
    requires Driven(cfg, s, t, i) && NowConnected(s, t, i) && IsInFlight(At(s, i))
    ensures t.connected + InFlight(t) == s.connected + InFlight(s) && InFlight(t) - t.inbound == InFlight(s) - s.inbound
  {
    SelectMoved(s, t, i, IsInFlight);
    NotInFlight(cfg, t, i);
    assert i in Select(s, IsInFlight) && i !in Select(t, IsInFlight);
  }

  /** In a pool where nothing can be deleted, an attempt under way is committed. */
  lemma SomeCommitted(cfg: Config, s: State) returns (i: nat)
    requires Inv(cfg, s) && !AnyFreeable(cfg, s) && s.connected + InFlight(s) > HEALTHY_PEER_COUNT
    ensures i in s.pool.occupied && CanConnect(cfg, At(s, i)) && !QuotaMet(s)
  {
    assert Select(s, IsInFlight) != {};
    i :| i in Select(s, IsInFlight);
    assert !CanFree(cfg, QuotaMet(s), At(s, i));
  }

  lemma {:induction false} PrepareFree(cfg: Config, s: State) returns (p: seq<Event>)
    requires Sound(cfg, s) && InFlight(s) <= s.inbound
    requires s.pool.free != [] || AnyFreeable(cfg, s) || s.connected + InFlight(s) > HEALTHY_PEER_COUNT
    ensures var t := Run(cfg, s, p); Prepared(cfg, s, t) && t.pool.free != []
    decreases HEALTHY_PEER_COUNT - s.connected
  {
    if s.pool.free != [] {
      p := [];
    } else if AnyFreeable(cfg, s) {
      var i :| i in s.pool.occupied && CanFree(cfg, QuotaMet(s), At(s, i));
      p := PrepareDeletion(cfg, s, i);
    } else {
      var i := SomeCommitted(cfg, s);
      Counted1(s, i);
      var first := PrepareConnect(cfg, s, i);
      var t := Run(cfg, s, first);
      ConnectedSum(cfg, s, t, i);
      var rest := PrepareFree(cfg, t);
      RunAppends(cfg, s, first, rest);
      PreparedTransitive(cfg, s, t, Run(cfg, t, rest));
      p := first + rest;
    }
  }

  // ---------------------------------------------------------------------------
  // The wake-up that calls connect()
  // ---------------------------------------------------------------------------

  lemma Finish(cfg: Config, s: State, p: seq<Event>, t: State, spot: Spot)
    requires t == Run(cfg, s, p) && Prepared(cfg, s, t) && s.inbound < MAX_INBOUND_INFLIGHT
    requires Serves(s, spot) && Offer(t, spot)
    ensures Run(cfg, s, p + [Schedule]).attempts > s.attempts
  {
    PositionKept(s, spot, t);
    OfferReached(cfg, t, spot);
    RunOne(cfg, t, Schedule);
    RunAppends(cfg, s, p, [Schedule]);
  }

  lemma {:induction false} HostsBelow(keys: set<Address>) returns (n: nat)
    ensures forall k :: k in keys ==> k.host < n
    decreases |keys|
  {
    n := 0;
    if keys != {} {
      var k :| k in keys;
      var m := HostsBelow(keys - {k});
      n := if m > k.host then m else k.host + 1;
    }
  }

  lemma DiscoverShape(cfg: Config, s: State, a: Address)
    ensures var t := Step(cfg, s, Discoveries([a]));
            && t == s.(cache := t.cache) && t.cache != [] && Newest(t) == a
  {
    assert [a][1..] == [];
    assert CacheAll(s.cache, [a]) == CachePush(s.cache, a);
    var all := s.cache + [a];
    assert all[|all| - 1] == a;
  }

  /** An address nobody has is discovered. */
  lemma PrepareDiscovery(cfg: Config, s: State) returns (e: Event)
    requires Sound(cfg, s)
    ensures var t := Step(cfg, s, e);
            && Prepared(cfg, s, t) && t == s.(cache := t.cache) && t.cache != [] && Newest(t) !in t.peers
  {
    var n := HostsBelow(s.peers.Keys);
    var a := Address(n, 0);
    assert a !in s.peers.Keys;
    e := Discoveries([a]);
    SoundStep(cfg, s, e);
    DiscoverShape(cfg, s, a);
  }

  lemma ReviveDiscovery(cfg: Config, s: State, p: seq<Event>, t: State) returns (q: seq<Event>)
    requires t == Run(cfg, s, p) && Prepared(cfg, s, t) && s.inbound < MAX_INBOUND_INFLIGHT
    requires Serves(s, DiscoveredSpot) && t.pool.free != []
    ensures Run(cfg, s, q).attempts > s.attempts
  {
    var e := PrepareDiscovery(cfg, t);
    var u := Step(cfg, t, e);
    RunOne(cfg, t, e);
    RunAppends(cfg, s, p, [e]);
    PreparedTransitive(cfg, s, t, u);
    Finish(cfg, s, p + [e], u, DiscoveredSpot);
    q := p + [e] + [Schedule];
  }

  lemma ReviveReport(cfg: Config, s: State, p: seq<Event>, t: State, i: nat) returns (q: seq<Event>)
    requires t == Run(cfg, s, p) && Prepared(cfg, s, t) && s.inbound < MAX_INBOUND_INFLIGHT
    requires Serves(s, DisconnectedSpot) && i in t.pool.occupied && IsOurs(At(t, i))
    ensures Run(cfg, s, q).attempts > s.attempts
  {
    var r := PrepareReport(cfg, t, i);
    var u := Run(cfg, t, r);
    RunAppends(cfg, s, p, r);
    PreparedTransitive(cfg, s, t, u);
    assert Live(u, HandleOf(u, i));
    Finish(cfg, s, p + r, u, DisconnectedSpot);
    q := p + r + [Schedule];
  }

  lemma ReviveConnect(cfg: Config, s: State, i: nat) returns (q: seq<Event>)
    requires Sound(cfg, s) && 0 < s.inbound < MAX_INBOUND_INFLIGHT && Serves(s, DisconnectedSpot)
    requires i in s.pool.occupied && CanConnect(cfg, At(s, i)) && !QuotaMet(s)
    ensures Run(cfg, s, q).attempts > s.attempts
  {
    var p := PrepareConnect(cfg, s, i);
    q := ReviveReport(cfg, s, p, Run(cfg, s, p), i);
  }

  /** A first report brings the manager below its quota, a second one brings the peer of an attempt back. */
  lemma ReviveLowered(cfg: Config, s: State, i: nat, j: nat) returns (q: seq<Event>)
    requires Sound(cfg, s) && 0 < s.inbound < MAX_INBOUND_INFLIGHT && LastServed(s) == DisconnectedSpot
    requires i in s.pool.occupied && CanConnect(cfg, At(s, i)) && j in s.pool.occupied && At(s, j).state == Connected
    ensures Run(cfg, s, q).attempts > s.attempts
  {
    var p := PrepareReport(cfg, s, j);
    PositionKept(s, DisconnectedSpot, Run(cfg, s, p));
    q := ReviveReported(cfg, s, i, j, p, Run(cfg, s, p));
  }

  lemma ReviveReported(cfg: Config, s: State, i: nat, j: nat, p: seq<Event>, t: State) returns (q: seq<Event>)
    requires Sound(cfg, s) && 0 < s.inbound < MAX_INBOUND_INFLIGHT && t == Run(cfg, s, p)
    requires Sound(cfg, t) && OnlyQueues(s, t) && ReportedLost(t, j) && LastServed(t) == DisconnectedSpot
    requires i in s.pool.occupied && CanConnect(cfg, At(s, i))
    ensures Run(cfg, s, q).attempts > s.attempts
  {
    var u := Step(cfg, t, Schedule);
    OneMore(cfg, s, p, Schedule);
    LoweredReached(cfg, t, j);
    q := p + [Schedule];
    if u.attempts == s.attempts {
      q := ReviveLost(cfg, s, i, q, t, u);
    }
  }

  lemma ReviveLost(cfg: Config, s: State, i: nat, p: seq<Event>, t: State, u: State) returns (q: seq<Event>)
    requires Sound(cfg, s) && 0 < s.inbound < MAX_INBOUND_INFLIGHT && Sound(cfg, t) && OnlyQueues(s, t)
    requires u == Step(cfg, t, Schedule) && u == Run(cfg, s, p) && u.attempts == s.attempts
    requires Lesser(t, u) && u.connected < t.connected && u.current == DisconnectedSpot
    requires i in s.pool.occupied && CanConnect(cfg, At(s, i))
    ensures Run(cfg, s, q).attempts > s.attempts
  {
    SoundStep(cfg, t, Schedule);
    StillThere(cfg, s, t, u, i);
    q := ReviveAfter(cfg, s, p, u, i);
  }

  lemma OneMore(cfg: Config, s: State, p: seq<Event>, e: Event)
    ensures Run(cfg, s, p + [e]) == Step(cfg, Run(cfg, s, p), e)
  {
    RunAppends(cfg, s, p, [e]);
    RunOne(cfg, Run(cfg, s, p), e);
  }

  lemma ReviveAfter(cfg: Config, s: State, p: seq<Event>, u: State, i: nat) returns (q: seq<Event>)
    requires u == Run(cfg, s, p) && u.attempts == s.attempts
    requires Sound(cfg, u) && 0 < u.inbound < MAX_INBOUND_INFLIGHT && Serves(u, DisconnectedSpot)
    requires i in u.pool.occupied && CanConnect(cfg, At(u, i)) && !QuotaMet(u)
    ensures Run(cfg, s, q).attempts > s.attempts
  {
    var r := ReviveConnect(cfg, u, i);
    RunAppends(cfg, s, p, r);
    q := p + r;
  }

  lemma StillThere(cfg: Config, s: State, t: State, u: State, i: nat)
    requires Sound(cfg, s) && OnlyQueues(s, t) && Lesser(t, u) && u.connected < t.connected
    requires u.current == DisconnectedSpot
    requires i in s.pool.occupied && CanConnect(cfg, At(s, i))
    ensures i in u.pool.occupied && CanConnect(cfg, At(u, i)) && !QuotaMet(u) && Serves(u, DisconnectedSpot)
    ensures u.inbound == s.inbound && u.attempts == s.attempts
  {
    assert At(t, i) == At(s, i);
    SoundListed(cfg, s, i);
  }

  /** A lost session gives its slot to a discovery served behind the reports. */
  lemma ReviveFreed(cfg: Config, s: State, j: nat) returns (q: seq<Event>)
    requires Sound(cfg, s) && s.inbound < MAX_INBOUND_INFLIGHT && ReportsFirst(s) && Serves(s, DiscoveredSpot)
    requires j in s.pool.occupied && At(s, j).state == Connected
    ensures Run(cfg, s, q).attempts > s.attempts
  {
    var p := PrepareReport(cfg, s, j);
    var t := Run(cfg, s, p);
    PositionKept(s, DiscoveredSpot, t);
    var e := ReviveVacated(cfg, t, j);
    RunAppends(cfg, s, p, [e, Schedule]);
    q := p + [e, Schedule];
  }

  lemma ReviveVacated(cfg: Config, t: State, j: nat) returns (e: Event)
    requires Sound(cfg, t) && t.inbound < MAX_INBOUND_INFLIGHT && ReportsFirst(t) && Serves(t, DiscoveredSpot)
    requires ReportedLost(t, j)
    ensures Run(cfg, t, [e, Schedule]).attempts > t.attempts
  {
    e := PrepareDiscovery(cfg, t);
    var u := Step(cfg, t, e);
    assert HandleOf(u, j) == HandleOf(t, j);
    PositionKept(t, DiscoveredSpot, u);
    FreedReached(cfg, u, j);
    RunTwo(cfg, t, e, Schedule);
  }

  lemma ReviveByReport(cfg: Config, s: State) returns (q: seq<Event>)
    requires Sound(cfg, s) && InFlight(s) <= s.inbound < MAX_INBOUND_INFLIGHT
    requires Serves(s, DisconnectedSpot) && ReportHope(cfg, s, LastServed(s) == DisconnectedSpot)
    ensures Run(cfg, s, q).attempts > s.attempts
  {
    if Any(s, IsOurs) {
      var i :| i in s.pool.occupied && IsOurs(At(s, i));
      q := ReviveReport(cfg, s, [], s, i);
    } else {
      var i :| i in s.pool.occupied && CanConnect(cfg, At(s, i));
      Counted1(s, i);
      if !QuotaMet(s) {
        q := ReviveConnect(cfg, s, i);
      } else {
        var j :| j in s.pool.occupied && IsConnected(At(s, j));
        q := ReviveLowered(cfg, s, i, j);
      }
    }
  }

  lemma ReviveByDiscovery(cfg: Config, s: State) returns (q: seq<Event>)
    requires Sound(cfg, s) && InFlight(s) <= s.inbound < MAX_INBOUND_INFLIGHT
    requires Serves(s, DiscoveredSpot) && DiscoveryHope(cfg, s, ReportsFirst(s))
    ensures Run(cfg, s, q).attempts > s.attempts
  {
    if s.pool.free != [] || AnyFreeable(cfg, s) || s.connected + InFlight(s) > HEALTHY_PEER_COUNT {
      var p := PrepareFree(cfg, s);
      q := ReviveDiscovery(cfg, s, p, Run(cfg, s, p));
    } else {
      var j :| j in s.pool.occupied && IsConnected(At(s, j));
      q := ReviveFreed(cfg, s, j);
    }
  }

  /** With room and without being stuck, some continuation calls connect(). */
  lemma Revive(cfg: Config, s: State) returns (q: seq<Event>)
    requires Sound(cfg, s) && InFlight(s) <= s.inbound < MAX_INBOUND_INFLIGHT && !Stuck(cfg, s)
    ensures Run(cfg, s, q).attempts > s.attempts
  {
    if Serves(s, FailedSpot) && RetryHope(s) {
      var i :| i in s.pool.occupied && CanRetry(At(s, i));
      var p := PrepareRetry(cfg, s, i);
      Finish(cfg, s, p, Run(cfg, s, p), FailedSpot);
      q := p + [Schedule];
    } else if Serves(s, DisconnectedSpot) && ReportHope(cfg, s, LastServed(s) == DisconnectedSpot) {
      q := ReviveByReport(cfg, s);
    } else {
      q := ReviveByDiscovery(cfg, s);
    }
  }

  /**
   * Exactly when connecting is over. In any reachable state with room, the count covering the attempts under way: no
   * continuation ever calls connect() again if and only if the manager is stuck.
   */
  lemma StuckExactly(cfg: Config, slots: nat, events: seq<Event>)
    requires InRange(After(cfg, slots, events)) && After(cfg, slots, events).inbound < 35
    ensures var s := After(cfg, slots, events);
            Stuck(cfg, s) <==> forall more :: After(cfg, slots, events + more).attempts == s.attempts
  {
    var s := After(cfg, slots, events);
    SoundAfter(cfg, slots, events);
    if Stuck(cfg, s) {
      forall more
        ensures After(cfg, slots, events + more).attempts == s.attempts
      {
        StuckForGood(cfg, slots, events, more);
      }
    } else {
      var q := Revive(cfg, s);
      RunAppends(cfg, Initial(slots), events, q);
      assert After(cfg, slots, events + q).attempts != s.attempts;
    }
  }
}
