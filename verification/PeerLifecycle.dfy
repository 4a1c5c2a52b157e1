/** What one callback does to one peer: it goes on waiting, fails, connects, is dropped, or is queued for a retry. */
module PeerLifecycle {
  import opened Transport
  import opened Handshake
  import opened Peers
  import opened ConnectionModel
  import opened ConnectionInvariant
  import opened ConnectionSteps

  /** How a watcher callback leaves its peer. */
  datatype Turnout =
    | Waits      // still shaking hands, its watchers armed
    | Fails      // counted as settled; deleted or put on its retry timer
    | Connects   // counted as settled and as connected, and handed over
    | Drops      // deleted without being counted as settled
    | Requeues   // its handle joins the retry queue

  function GreetTurnout(greeted: (Peer, bool, bool), connects: bool): Turnout {
    if !greeted.1 then Fails else if greeted.2 && connects then Connects else Waits
  }

  function ReadTurnout(cfg: Config, p: Peer, io: Io): Turnout
    requires |p.recvBuf| <= LENGTH
  {
    var (q, ok) := RecvMessages(p, io.recv);
    var d := DecodeFrom(q.recvBuf, cfg.infoHash, q.peerId);
    if !ok then Fails
    else if !d.complete then Waits
    else if !d.valid then Drops
    else if p.source == Tracker then Connects
    else GreetTurnout(GreetPeer(cfg, DecodedPeer(q, d), io.send), true)
  }

  /** The turnout of a socket event, from the peer and the kernel's answers. */
  function SocketTurnout(cfg: Config, quotaMet: bool, p: Peer, ready: Ready, io: Io): Turnout
    requires |p.recvBuf| <= LENGTH
  {
    if quotaMet then Drops
    else if ready == ErrorReady then Fails
    else if p.state != Handshaking then
      if io.soError then Fails else GreetTurnout(GreetPeer(cfg, p.(state := Handshaking), io.send), false)
    else if ready == WriteReady then GreetTurnout(SendMessages(p, io.send), p.source == TcpServer)
    else ReadTurnout(cfg, p, io)
  }

  lemma SocketNeverRequeues(cfg: Config, quotaMet: bool, p: Peer, ready: Ready, io: Io)
    requires |p.recvBuf| <= LENGTH
    ensures SocketTurnout(cfg, quotaMet, p, ready, io) != Requeues
  {
  }

  /** A retrying peer is still FAILED while it connects, so its timeout queues it as well. */
  function TimerTurnout(p: Peer): Turnout {
    if p.state == Failed then Requeues else Fails
  }

  // ---------------------------------------------------------------------------
  // One slot changes
  // ---------------------------------------------------------------------------

  ghost predicate SameElsewhere(s: State, t: State, j: nat) {
    && At(t, j) == At(s, j) && Generation(t, j) == Generation(s, j)
    && (j in t.pool.occupied <==> j in s.pool.occupied)
  }

  ghost predicate OnlySlot(s: State, t: State, i: nat) {
    && t.pool.Valid() && |t.pool.slots| == |s.pool.slots|
    && forall j: nat :: j != i ==> SameElsewhere(s, t, j)
  }

  ghost predicate StillHeld(s: State, t: State, i: nat) {
    && i in s.pool.occupied && i in t.pool.occupied && Generation(t, i) == Generation(s, i)
    && At(t, i).key == At(s, i).key && At(t, i).source == At(s, i).source
  }

  function Settled(inbound: nat, source: Source): nat {
    if source == TcpServer then inbound else Down(inbound)
  }

  function SettledOut(outbound: nat, source: Source): nat {
    if source == TcpServer then Down(outbound) else outbound
  }

  /** A third failure is the last one, and so is the first one of an accepted peer. */
  predicate LastFailure(p: Peer) {
    p.failures >= 2 || p.source == TcpServer
  }

  /** The state after a callback on slot i with the given turnout. */
  ghost predicate Effect(s: State, t: State, i: nat, turnout: Turnout) {
    var p, q := At(s, i), At(t, i);
    && OnlySlot(s, t, i)
    && match turnout {
      case Waits =>
        && t == s.(pool := t.pool, faults := t.faults) && StillHeld(s, t, i)
        && q.state == Handshaking && q.interest != Quiet && q.timer == p.timer
        && q.failures == p.failures && (p.source == Tracker ==> p.recvBuf <= q.recvBuf)
      case Fails =>
        && t == s.(pool := t.pool, peers := t.peers, faults := t.faults,
                   outbound := SettledOut(s.outbound, p.source), inbound := Settled(s.inbound, p.source))
        && q.perrno == -1
        && if LastFailure(p) then i !in t.pool.occupied
           else
             && StillHeld(s, t, i) && q.state == Failed && q.interest == Quiet && q.timer
             && q.failures == p.failures + 1 && q.recvBuf == [] && q.sendBuf == [] && q.cursor == 0
      case Connects =>
        && t == s.(pool := t.pool, faults := t.faults,
                   outbound := SettledOut(s.outbound, p.source), inbound := Settled(s.inbound, p.source),
                   connected := Up(s.connected), connects := s.connects + [HandleOf(s, i)])
        && StillHeld(s, t, i) && q.state == Connected && q.interest == Quiet && !q.timer && q.failures == p.failures
      case Drops =>
        t == s.(pool := t.pool, peers := t.peers, faults := t.faults) && i !in t.pool.occupied
      case Requeues =>
        && t == s.(pool := t.pool, faults := t.faults, retry := s.retry + [HandleOf(s, i)])
        && StillHeld(s, t, i) && q == Stopped(p)
    }
  }

  /** On the way: the peer may have changed, but not who it is. */
  ghost predicate Touched(s: State, t: State, i: nat) {
    && OnlySlot(s, t, i) && t == s.(pool := t.pool, faults := t.faults) && StillHeld(s, t, i)
    && At(t, i).failures == At(s, i).failures
  }

  predicate SamePeer(p: Peer, q: Peer) {
    q.key == p.key && q.source == p.source && q.failures == p.failures
  }

  lemma Untouched(s: State, i: nat)
    requires s.pool.Valid() && i in s.pool.occupied
    ensures Touched(s, s, i)
  {
  }

  lemma TouchChecked(s: State, t: State, i: nat, ok: bool, fault: Fault)
    requires Touched(s, t, i)
    ensures Touched(s, Check(t, ok, fault), i) && At(Check(t, ok, fault), i) == At(t, i)
  {
    SameOnly(s, t, Check(t, ok, fault), i);
  }

  lemma PutOnly(s: State, t: State, i: nat, p: Peer)
    requires OnlySlot(s, t, i) && i < |t.pool.slots|
    ensures OnlySlot(s, Put(t, i, p), i) && At(Put(t, i, p), i) == p
    ensures Generation(Put(t, i, p), i) == Generation(t, i) && Put(t, i, p).pool.occupied == t.pool.occupied
  {
    PutAt(t, i, p);
    var u := Put(t, i, p);
    assert u.pool.Valid();
    forall j: nat | j != i
      ensures SameElsewhere(s, u, j)
    {
      assert SameElsewhere(s, t, j);
    }
  }

  lemma TouchPut(s: State, t: State, i: nat, p: Peer)
    requires Touched(s, t, i) && SamePeer(At(t, i), p)
    ensures Touched(s, Put(t, i, p), i) && At(Put(t, i, p), i) == p
  {
    assert i < |t.pool.slots|;
    PutOnly(s, t, i, p);
  }

  lemma RetireOnly(s: State, t: State, i: nat)
    requires OnlySlot(s, t, i) && i in t.pool.occupied
    ensures OnlySlot(s, Retire(t, i), i) && i !in Retire(t, i).pool.occupied
    ensures At(Retire(t, i), i).perrno == At(t, i).perrno
  {
    RetireAt(t, i);
    var u := Retire(t, i);
    forall j: nat | j != i
      ensures SameElsewhere(s, u, j)
    {
      assert SameElsewhere(s, t, j);
    }
  }

  lemma SameOnly(s: State, t: State, u: State, i: nat)
    requires OnlySlot(s, t, i) && u.pool == t.pool
    ensures OnlySlot(s, u, i) && At(u, i) == At(t, i) && Generation(u, i) == Generation(t, i)
  {
    forall j: nat | j != i
      ensures SameElsewhere(s, u, j)
    {
      assert SameElsewhere(s, t, j);
    }
  }

  // ---------------------------------------------------------------------------
  // The leaves
  // ---------------------------------------------------------------------------

  lemma FailureEffect(s: State, t: State, i: nat)
    requires Touched(s, t, i)
    ensures Effect(s, HandleFailure(t, i), i, Fails)
  {
    var p := FailedPeer(At(t, i));
    assert i < |t.pool.slots|;
    PutOnly(s, t, i, p);
    var u := Put(t, i, p);
    var v := Resolve(u, p.source);
    SameOnly(s, u, v, i);
    if LastFailure(At(s, i)) {
      RetireOnly(s, v, i);
    } else {
      PutOnly(s, v, i, AwaitingRetry(p));
    }
  }

  lemma DispatchEffect(s: State, t: State, i: nat)
    requires Touched(s, t, i) && |s.connects| < UPDATE_QUEUE_SIZE
    ensures Effect(s, Dispatch(t, i), i, Connects)
  {
    var p := Stopped(At(t, i).(state := Connected));
    assert i < |t.pool.slots|;
    PutOnly(s, t, i, p);
    var u := Put(t, i, p);
    assert HandleOf(u, i) == HandleOf(s, i);
    SameOnly(s, u, Dispatch(t, i), i);
  }

  lemma DropEffect(s: State, t: State, i: nat)
    requires Touched(s, t, i)
    ensures Effect(s, Retire(t, i), i, Drops)
  {
    RetireOnly(s, t, i);
  }

  lemma WaitEffect(s: State, t: State, i: nat, p: Peer)
    requires Touched(s, t, i) && SamePeer(At(t, i), p)
    requires p.state == Handshaking && p.interest != Quiet && p.timer == At(s, i).timer
    requires p.source == Tracker ==> At(s, i).recvBuf <= p.recvBuf
    ensures Effect(s, Put(t, i, p), i, Waits)
  {
    TouchPut(s, t, i, p);
  }

  /** Below the quota the connect queue has room. */
  lemma QueueHasRoom(cfg: Config, s: State)
    requires Inv(cfg, s) && !QuotaMet(s)
    ensures |s.connects| < UPDATE_QUEUE_SIZE
  {
    assert |s.connects| <= |Unanswered(s)|;
  }

  // ---------------------------------------------------------------------------
  // The callbacks
  // ---------------------------------------------------------------------------

  /** An armed peer below the quota, as the handlers find it. */
  ghost predicate Handling(cfg: Config, s: State, i: nat) {
    && s.pool.Valid() && i in s.pool.occupied && |s.connects| < UPDATE_QUEUE_SIZE
    && (At(s, i).source == Tracker || At(s, i).source == TcpServer) && At(s, i).interest != Quiet
    && |At(s, i).recvBuf| < LENGTH
  }

  lemma GreetSame(cfg: Config, p: Peer, o: SendOutcome)
    ensures SamePeer(p, GreetPeer(cfg, p, o).0) && SamePeer(p, SendMessages(p, o).0)
    ensures GreetPeer(cfg, p, o).0.state == SendMessages(p, o).0.state == p.state
    ensures GreetPeer(cfg, p, o).0.timer == SendMessages(p, o).0.timer == p.timer
    ensures GreetPeer(cfg, p, o).0.interest == SendMessages(p, o).0.interest == p.interest
    ensures GreetPeer(cfg, p, o).0.recvBuf == SendMessages(p, o).0.recvBuf == p.recvBuf
  {
  }

  lemma TransportEffect(cfg: Config, s: State, i: nat, io: Io)
    requires Handling(cfg, s, i)
    ensures Effect(s, TransportInitiation(cfg, s, i, true, io), i,
                   if io.soError then Fails
                   else GreetTurnout(GreetPeer(cfg, At(s, i).(state := Handshaking), io.send), false))
  {
    Untouched(s, i);
    if io.soError {
      FailureEffect(s, s, i);
    } else {
      var p := At(s, i).(state := Handshaking);
      var (q, ok, exhausted) := GreetPeer(cfg, p, io.send);
      GreetSame(cfg, p, io.send);
      TouchGreeting(cfg, s, s, i, p);
      var u := CheckGreeting(cfg, s, p);
      if !ok {
        TouchPut(s, u, i, q);
        FailureEffect(s, Put(u, i, q), i);
      } else {
        WaitEffect(s, u, i, q.(interest := if exhausted then Readable else Writable));
      }
    }
  }

  lemma TouchGreeting(cfg: Config, s: State, t: State, i: nat, p: Peer)
    requires Touched(s, t, i)
    ensures Touched(s, CheckGreeting(cfg, t, p), i) && At(CheckGreeting(cfg, t, p), i) == At(t, i)
  {
    TouchChecked(s, t, i, p.sendBuf == [], SendBufferNotEmpty);
    var u := Check(t, p.sendBuf == [], SendBufferNotEmpty);
    TouchChecked(s, u, i, EncodeHandshake(cfg, p).1, EncodeIncomplete);
  }

  lemma WritableEffect(cfg: Config, s: State, i: nat, io: Io)
    requires Handling(cfg, s, i) && At(s, i).state == Handshaking
    ensures Effect(s, HandshakeWritable(s, i, io), i,
                   GreetTurnout(SendMessages(At(s, i), io.send), At(s, i).source == TcpServer))
  {
    var (p, ok, exhausted) := SendMessages(At(s, i), io.send);
    Untouched(s, i);
    GreetSame(cfg, At(s, i), io.send);
    TouchPut(s, s, i, p);
    if !ok {
      FailureEffect(s, Put(s, i, p), i);
    } else if !exhausted {
      WaitEffect(s, s, i, p);
    } else if p.source == TcpServer {
      DispatchEffect(s, Put(s, i, p), i);
    } else {
      WaitEffect(s, s, i, p.(interest := Readable));
    }
  }

  lemma AnswerEffect(cfg: Config, s: State, t: State, i: nat, p: Peer, io: Io)
    requires Handling(cfg, s, i) && Touched(s, t, i) && SamePeer(At(t, i), p)
    requires p.state == Handshaking && p.timer == At(s, i).timer && p.source == TcpServer
    ensures Effect(s, Answer(cfg, t, i, p, io), i, GreetTurnout(GreetPeer(cfg, p, io.send), true))
  {
    var (q, ok, exhausted) := GreetPeer(cfg, p, io.send);
    GreetSame(cfg, p, io.send);
    TouchGreeting(cfg, s, t, i, p);
    var u := CheckGreeting(cfg, t, p);
    TouchPut(s, u, i, q);
    if !ok {
      FailureEffect(s, Put(u, i, q), i);
    } else if !exhausted {
      WaitEffect(s, u, i, q.(interest := Writable));
    } else {
      DispatchEffect(s, Put(u, i, q), i);
    }
  }

  lemma ReadableEffect(cfg: Config, s: State, i: nat, io: Io)
    requires Handling(cfg, s, i) && At(s, i).state == Handshaking
    ensures Effect(s, HandshakeReadable(cfg, s, i, io), i, ReadTurnout(cfg, At(s, i), io))
  {
    Untouched(s, i);
    var (p, ok) := RecvMessages(At(s, i), io.recv);
    if !ok {
      TouchPut(s, s, i, p);
      FailureEffect(s, Put(s, i, p), i);
    } else {
      SettleEffect(cfg, s, i, p, io);
    }
  }

  lemma SettleEffect(cfg: Config, s: State, i: nat, p: Peer, io: Io)
    requires Handling(cfg, s, i) && At(s, i).state == Handshaking && RecvMessages(At(s, i), io.recv) == (p, true)
    ensures Effect(s, Settle(cfg, s, i, p, io), i, ReadTurnout(cfg, At(s, i), io))
  {
    Untouched(s, i);
    var d := DecodeFrom(p.recvBuf, cfg.infoHash, p.peerId);
    var q := DecodedPeer(p, d);
    TouchPut(s, s, i, q);
    if !d.complete {
      WaitEffect(s, s, i, q);
    } else if !d.valid {
      TouchPut(s, s, i, q.(perrno := NO_ERROR));
      DropEffect(s, Put(s, i, q.(perrno := NO_ERROR)), i);
    } else if q.source == Tracker {
      DispatchEffect(s, Put(s, i, q), i);
    } else {
      AnswerEffect(cfg, s, s, i, q, io);
    }
  }

  /** Every enabled socket event, in any reachable state, does to its peer what its turnout says and nothing else. */
  lemma SocketEffect(cfg: Config, s: State, i: nat, ready: Ready, io: Io)
    requires Inv(cfg, s) && Enabled(s, Socket(i, ready, io))
    ensures |At(s, i).recvBuf| <= LENGTH
    ensures Effect(s, SocketReady(cfg, s, i, ready, io), i, SocketTurnout(cfg, QuotaMet(s), At(s, i), ready, io))
  {
    ArmedOpened(cfg, s, i);
    Untouched(s, i);
    if QuotaMet(s) {
      DropEffect(s, s, i);
    } else {
      QueueHasRoom(cfg, s);
      if ready == ErrorReady {
        FailureEffect(s, s, i);
      } else if At(s, i).state != Handshaking {
        TransportEffect(cfg, s, i, io);
      } else if ready == WriteReady {
        WritableEffect(cfg, s, i, io);
      } else {
        ReadableEffect(cfg, s, i, io);
      }
    }
  }

  lemma TimerEffect(cfg: Config, s: State, i: nat)
    requires Inv(cfg, s) && At(s, i).timer
    ensures i in s.pool.occupied && Effect(s, TimerExpired(s, i), i, TimerTurnout(At(s, i)))
  {
    ArmedOpened(cfg, s, i);
    Untouched(s, i);
    var p := At(s, i);
    if p.state == Failed {
      TouchPut(s, s, i, Stopped(p));
      var t := Put(s, i, Stopped(p));
      assert HandleOf(t, i) == HandleOf(s, i);
      SameOnly(s, t, Requeue(t, i), i);
    } else {
      TouchPut(s, s, i, p.(timer := false));
      FailureEffect(s, Put(s, i, p.(timer := false)), i);
    }
  }

  // ---------------------------------------------------------------------------
  // The scheduler's attempts
  // ---------------------------------------------------------------------------

  /** The slot an item is about: the next free one for a discovery, the handle's own otherwise. */
  function SlotOf(s: State, item: Item): nat
    requires item.FromTracker? ==> s.pool.free != []
  {
    if item.FromTracker? then s.pool.NextSlot() else item.handle.slot
  }

  function KeyOf(s: State, item: Item): Address {
    if item.FromTracker? then item.address else At(s, item.handle.slot).key
  }

  predicate Dialling(p: Peer, key: Address) {
    p.key == key && p.source == Tracker && p.state != Connected && p.interest == Writable && p.timer
  }

  /** What trying an item does, by its fate; `s` is the state it was popped into. */
  ghost predicate Tried(s: State, t: State, item: Item, fate: Fate, i: nat) {
    && OnlySlot(s, t, i)
    && t == s.(pool := t.pool, peers := t.peers, faults := t.faults, attempts := t.attempts, connected := t.connected,
               inbound := if fate == Attempted then Up(s.inbound) else s.inbound)
    && t.connected == (if item.FromTransfer? && fate != Stale then s.connected - 1 else s.connected)
    && match fate {
      case Duplicate => t == s.(pool := t.pool)
          && i !in s.pool.occupied && i !in t.pool.occupied && At(t, i) == At(s, i)
      case Stale => t == s
      case Attempted =>
        && t.attempts == s.attempts + 1 && i in t.pool.occupied && Dialling(At(t, i), KeyOf(s, item))
        && t.peers == s.peers[KeyOf(s, item) := i]
        && (if item.FromTracker? then i !in s.pool.occupied else StillHeld(s, t, i))
      case Deleted =>
        && i !in t.pool.occupied && t.peers == s.peers - {KeyOf(s, item)}
        && (item.FromTracker? <==> i !in s.pool.occupied)
        && t.attempts == (if item.FromTracker? || At(s, i).source == Tracker then s.attempts + 1 else s.attempts)
    }
  }

  lemma AttemptEffect(cfg: Config, s: State, t: State, i: nat)
    requires OnlySlot(s, t, i) && i in t.pool.occupied && At(t, i).source == Tracker && At(t, i).state != Connected
    ensures var (u, fate) := AttemptOrDelete(cfg, t, i);
            && OnlySlot(s, u, i)
            && (fate == Attempted || fate == Deleted)
            && u == t.(pool := u.pool, peers := u.peers, attempts := t.attempts + 1,
                       inbound := if fate == Attempted then Up(t.inbound) else t.inbound)
            && (fate == Attempted ==> u.peers == t.peers && i in u.pool.occupied && Generation(u, i) == Generation(t, i)
                                      && Dialling(At(u, i), At(t, i).key))
            && (fate == Deleted ==> i !in u.pool.occupied && u.peers == t.peers - {At(t, i).key})
  {
    AttemptShape(cfg, t, i);
    var (p, ok) := Dial(At(t, i), cfg.outcome(t.attempts));
    var t1 := t.(attempts := t.attempts + 1);
    SameOnly(s, t, t1, i);
    PutOnly(s, t1, i, p);
    var u := Put(t1, i, p);
    if ok {
      SameOnly(s, u, u.(inbound := Up(u.inbound)), i);
    } else {
      RetireOnly(s, u, i);
    }
  }

  lemma DuplicateEffect(cfg: Config, s: State, address: Address)
    requires s.pool.Valid() && s.pool.free != [] && address in s.peers
    ensures Tried(s, PutBack(s), FromTracker(address), Duplicate, s.pool.NextSlot())
  {
    PutBackAt(cfg, s);
    var t := PutBack(s);
    assert forall j: nat :: j != s.pool.NextSlot() ==> SameElsewhere(s, t, j);
  }

  lemma EnrolOnly(cfg: Config, s: State, address: Address)
    requires s.pool.Valid() && s.pool.free != []
    ensures var i, t := s.pool.NextSlot(), Enrol(s, address);
            && OnlySlot(s, t, i) && i in t.pool.occupied && i !in s.pool.occupied
            && At(t, i) == Initialized(At(s, i), address, Tracker, Discovered)
            && t == s.(pool := t.pool, peers := s.peers[address := i])
  {
    AcquireAt(s);
    var i, r := s.pool.NextSlot(), s.(pool := s.pool.Acquired());
    assert forall j: nat :: j != i ==> SameElsewhere(s, r, j);
    var p := Initialized(At(r, i), address, Tracker, Discovered);
    PutOnly(s, r, i, p);
    SameOnly(s, Put(r, i, p), Enrol(s, address), i);
  }

  lemma DiscoveredEffect(cfg: Config, s: State, address: Address)
    requires s.pool.Valid() && s.pool.free != []
    ensures var (t, fate) := TryDiscovered(cfg, s, address);
            Tried(s, t, FromTracker(address), fate, s.pool.NextSlot()) && (fate == Duplicate <==> address in s.peers)
  {
    if address in s.peers {
      DuplicateEffect(cfg, s, address);
    } else {
      EnrolOnly(cfg, s, address);
      AttemptEffect(cfg, s, Enrol(s, address), s.pool.NextSlot());
      assert s.peers[address := s.pool.NextSlot()] - {address} == s.peers - {address};
    }
  }

  /** The peer of a handle in an update queue. */
  ghost predicate Answerable(s: State, h: Handle) {
    && s.pool.Valid() && Live(s, h) && h.slot in s.pool.occupied && s.connected > 0
    && At(s, h.slot).perrno != PEER_SHUTDOWN && (At(s, h.slot).source == Tracker || At(s, h.slot).source == TcpServer)
    && At(s, h.slot).key in s.peers && s.peers[At(s, h.slot).key] == h.slot
  }

  lemma DisconnectedEffect(cfg: Config, s: State, h: Handle, perrno: int)
    requires Live(s, h) ==> Answerable(s, h)
    requires s.pool.Valid()
    ensures var (t, fate) := TryDisconnected(cfg, s, h);
            && Tried(s, t, FromTransfer(h, perrno), fate, h.slot) && (fate == Stale <==> !Live(s, h))
            && fate != Duplicate
            && (fate != Stale && At(s, h.slot).source == TcpServer ==> fate == Deleted)
  {
    var i := h.slot;
    if Live(s, h) {
      var u := Uncounted(s);
      DisconnectedShape(cfg, s, h, u);
      var q := At(u, i).(state := Disconnected);
      SameOnly(s, s, u, i);
      if q.source == TcpServer {
        PutOnly(s, u, i, q);
        RetireOnly(s, Put(u, i, q), i);
      } else {
        PutOnly(s, u, i, OneMoreFailure(q));
        AttemptEffect(cfg, s, Put(u, i, OneMoreFailure(q)), i);
        assert s.peers[At(s, i).key := i] == s.peers;
      }
    }
  }

  lemma FailedEffect(cfg: Config, s: State, h: Handle)
    requires s.pool.Valid()
    requires Live(s, h) ==>
              h.slot in s.pool.occupied && At(s, h.slot).source == Tracker && At(s, h.slot).state != Connected
    requires Live(s, h) ==> At(s, h.slot).key in s.peers && s.peers[At(s, h.slot).key] == h.slot
    ensures var (t, fate) := TryFailed(cfg, s, h);
            && Tried(s, t, FromRetry(h), fate, h.slot) && (fate == Stale <==> !Live(s, h)) && fate != Duplicate
  {
    if Live(s, h) {
      assert OnlySlot(s, s, h.slot);
      AttemptEffect(cfg, s, s, h.slot);
      assert s.peers[At(s, h.slot).key := h.slot] == s.peers;
    }
  }

  lemma PoppedReport(cfg: Config, s: State)
    requires Inv(cfg, s) && s.disconnects != []
    ensures var h, t := s.disconnects[0].handle, WithoutReport(s);
            Live(t, h) ==> Answerable(t, h) && At(t, h.slot).state == Connected
  {
    var h, t := s.disconnects[0].handle, WithoutReport(s);
    if Live(t, h) {
      PopDisconnect(cfg, s);
      assert At(t, h.slot) == At(Uncounted(t), h.slot) == At(s, h.slot);
      assert h in Unanswered(s) && |Unanswered(s)| > 0;
    }
  }

  lemma PoppedRetry(cfg: Config, s: State)
    requires Inv(cfg, s) && s.retry != []
    ensures var h, t := s.retry[0], WithoutRetry(s);
            Live(t, h) ==> h.slot in s.pool.occupied && Idle(At(t, h.slot)) && At(t, h.slot).key in t.peers
                           && t.peers[At(t, h.slot).key] == h.slot
  {
    var h, t := s.retry[0], WithoutRetry(s);
    if Live(t, h) {
      assert Live(s, h);
      PopRetry(cfg, s);
      assert At(t, h.slot) == At(s, h.slot);
    }
  }

  /** The popped item of any source, in any reachable state. */
  lemma TryEffect(cfg: Config, s: State, spot: Spot)
    requires Inv(cfg, s) && Pending(s, spot) > 0 && (spot == DiscoveredSpot ==> s.pool.free != [])
    ensures var (s1, item) := Pop(s, spot);
            var (t, fate) := Try(cfg, s1, item);
            && (item.FromTracker? ==> s1.pool.free != [])
            && Tried(s1, t, item, fate, SlotOf(s1, item))
            && (fate == Duplicate <==> item.FromTracker? && item.address in s1.peers)
            && (fate == Stale <==> !item.FromTracker? && !Live(s1, item.handle))
  {
    var (s1, item) := Pop(s, spot);
    match spot
    case DiscoveredSpot => DiscoveredEffect(cfg, s1, item.address);
    case DisconnectedSpot =>
      PoppedReport(cfg, s);
      DisconnectedEffect(cfg, s1, item.handle, item.perrno);
    case FailedSpot =>
      PoppedRetry(cfg, s);
      FailedEffect(cfg, s1, item.handle);
  }

  // ---------------------------------------------------------------------------
  // An accepted connection
  // ---------------------------------------------------------------------------

  function Superseded(s: State, address: Address): set<nat> {
    if address in s.peers then {s.peers[address]} else {}
  }

  /** One arrival: the address's old slot is given up, and a new one taken for it. */
  ghost predicate Admitted(s: State, t: State, address: Address, slot: nat) {
    && t.pool.Valid() && |t.pool.slots| == |s.pool.slots|
    && slot !in s.pool.occupied && t.pool.occupied == s.pool.occupied - Superseded(s, address) + {slot}
    && (forall j: nat :: j != slot && j !in Superseded(s, address) ==> SameElsewhere(s, t, j))
    && At(t, slot).key == address && At(t, slot).source == TcpServer && At(t, slot).state == Handshaking
    && At(t, slot).interest == Readable && At(t, slot).timer && At(t, slot).failures == At(s, slot).failures
    && t.outbound == (if ReplacesPending(s, address) && At(s, s.peers[address]).source == TcpServer
                      then s.outbound else s.outbound + 1)
    && t == s.(pool := t.pool, peers := t.peers, faults := t.faults, outbound := t.outbound,
               inbound := if ReplacesPending(s, address)
                          then Settled(s.inbound, At(s, s.peers[address]).source) else s.inbound)
    && (ReplacesPending(s, address) ==> At(t, s.peers[address]).perrno == -1)
  }

  /** The address is registered for a peer that is not established. */
  predicate ReplacesPending(s: State, address: Address) {
    address in s.peers && At(s, s.peers[address]).state != Connected
  }

  lemma SupersedeOnly(s: State, i: nat)
    requires s.pool.Valid() && i in s.pool.occupied
    ensures var t := Supersede(s, i);
            && OnlySlot(s, t, i) && i !in t.pool.occupied
            && (At(s, i).state != Connected ==> At(t, i).perrno == -1)
            && t.outbound == (if At(s, i).state != Connected && At(s, i).source == TcpServer
                              then Down(s.outbound) else s.outbound)
            && t == s.(pool := t.pool, peers := t.peers, faults := t.faults, outbound := t.outbound,
                       inbound := if At(s, i).state != Connected
                                  then Settled(s.inbound, At(s, i).source) else s.inbound)
  {
    assert OnlySlot(s, s, i);
    var p := At(s, i);
    if p.state == Connected {
      RetireOnly(s, s, i);
    } else {
      var q := p.(perrno := NO_ERROR);
      PutOnly(s, s, i, q);
      var u := Resolve(Put(s, i, q), p.source);
      SameOnly(s, Put(s, i, q), u, i);
      RetireOnly(s, u, i);
    }
  }

  lemma AdmitOnly(s: State, slot: nat, address: Address)
    requires s.pool.Valid() && slot in s.pool.occupied
    ensures var t := Admit(s, slot, address);
            && OnlySlot(s, t, slot) && t.pool.occupied == s.pool.occupied && t == s.(pool := t.pool, peers := t.peers)
            && At(t, slot) == Armed(Initialized(At(s, slot), address, TcpServer, Handshaking), Readable)
            && Generation(t, slot) == Generation(s, slot)
  {
    assert OnlySlot(s, s, slot);
    var p := Armed(Initialized(At(s, slot), address, TcpServer, Handshaking), Readable);
    PutOnly(s, s, slot, p);
    SameOnly(s, Put(s, slot, p), Admit(s, slot, address), slot);
  }

  lemma ReservingOnly(s: State)
    requires s.pool.Valid() && s.pool.free != []
    ensures var slot, r := s.pool.NextSlot(), Reserving(s);
            && OnlySlot(s, r, slot) && slot !in s.pool.occupied && r.pool.occupied == s.pool.occupied + {slot}
            && r == s.(pool := r.pool, outbound := Up(s.outbound))
            && forall j: nat :: At(r, j) == At(s, j) && Generation(r, j) == Generation(s, j)
  {
    AcquireAt(s);
    var slot, r := s.pool.NextSlot(), Reserving(s);
    assert forall j: nat :: j != slot ==> SameElsewhere(s, r, j);
  }

  lemma AcceptEffect(cfg: Config, s: State, address: Address)
    requires Inv(cfg, s) && s.pool.free != [] && s.outbound < MAX_OUTBOUND_INFLIGHT
    ensures Admitted(s, AcceptIncoming(s, address), address, s.pool.NextSlot())
  {
    if address in s.peers {
      assert s.peers[address] in Registered(s, {});
      Replaced(s, address);
    } else {
      Joined(s, address);
    }
  }

  lemma Joined(s: State, address: Address)
    requires s.pool.Valid() && s.pool.free != [] && s.outbound < MAX_OUTBOUND_INFLIGHT && address !in s.peers
    ensures Admitted(s, AcceptIncoming(s, address), address, s.pool.NextSlot())
  {
    var slot, r := s.pool.NextSlot(), Reserving(s);
    ReservingOnly(s);
    AdmitOnly(r, slot, address);
    Composed(s, r, r, Admit(r, slot, address), slot, slot);
  }

  lemma Replaced(s: State, address: Address)
    requires s.pool.Valid() && s.pool.free != [] && s.outbound < MAX_OUTBOUND_INFLIGHT
    requires address in s.peers && s.peers[address] in s.pool.occupied
    ensures Admitted(s, AcceptIncoming(s, address), address, s.pool.NextSlot())
  {
    var slot, r, i := s.pool.NextSlot(), Reserving(s), s.peers[address];
    ReservingOnly(s);
    SupersedeOnly(r, i);
    var u := Supersede(r, i);
    SupersedeOccupied(r, i);
    AdmitOnly(u, slot, address);
    AdmittedBoth(s, r, u, Admit(u, slot, address), address, i, slot);
  }

  /** Reserving a slot, giving up the old one and admitting the peer, put together. */
  lemma AdmittedBoth(s: State, r: State, u: State, t: State, address: Address, i: nat, slot: nat)
    requires s.pool.Valid() && s.pool.free != [] && s.outbound < MAX_OUTBOUND_INFLIGHT && slot == s.pool.NextSlot()
    requires address in s.peers && s.peers[address] == i && i in s.pool.occupied && slot !in s.pool.occupied
    requires r == s.(pool := r.pool, outbound := Up(s.outbound)) && (forall j: nat :: At(r, j) == At(s, j))
    requires OnlySlot(s, r, slot) && r.pool.occupied == s.pool.occupied + {slot}
    requires OnlySlot(r, u, i) && u == Supersede(r, i) && u.pool.occupied == r.pool.occupied - {i}
    requires OnlySlot(u, t, slot) && t == Admit(u, slot, address) && slot in u.pool.occupied
    ensures Admitted(s, t, address, slot)
  {
    SupersedeOnly(r, i);
    AdmitOnly(u, slot, address);
    Composed(s, r, u, t, i, slot);
    assert SameElsewhere(u, t, i);
  }

  lemma SupersedeOccupied(s: State, i: nat)
    requires s.pool.Valid() && i in s.pool.occupied
    ensures Supersede(s, i).pool.occupied == s.pool.occupied - {i}
  {
  }

  lemma Composed(s: State, r: State, u: State, t: State, i: nat, slot: nat)
    requires (forall j: nat :: j != slot ==> SameElsewhere(s, r, j)) && OnlySlot(r, u, i) && OnlySlot(u, t, slot)
    ensures forall j: nat :: j != slot && j != i ==> SameElsewhere(s, t, j)
  {
    forall j: nat | j != slot && j != i
      ensures SameElsewhere(s, t, j)
    {
      assert SameElsewhere(s, r, j) && SameElsewhere(r, u, j) && SameElsewhere(u, t, j);
    }
  }
}
