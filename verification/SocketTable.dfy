/** What each answer of the kernel to a peer's socket event leads to, answer by answer. */
module SocketTable {
  import opened RingBuffer
  import opened Handshake
  import opened Transport
  import opened Peers
  import opened ConnectionModel
  import opened ConnectionInvariant
  import opened ConnectionSteps
  import opened ConnectionRuns
  import opened PeerLifecycle

  /** The first n bytes, or all there are. */
  function Front(b: seq<byte>, n: nat): seq<byte> {
    if n <= |b| then b[..n] else b
  }

  function Back(b: seq<byte>, n: nat): seq<byte> {
    if n <= |b| then b[n..] else []
  }

  // ---------------------------------------------------------------------------
  // Any event
  // ---------------------------------------------------------------------------

  /** The watcher of a peer fires: readable, writable, or with an error while armed for either. */
  predicate Fires(p: Peer, ready: Ready) {
    match ready
    case ReadReady => p.interest == Readable
    case WriteReady => p.interest == Writable
    case ErrorReady => p.interest == Readable || p.interest == Writable
  }

  /** With 50 peers counted connected, any event deletes its peer; the slot keeps the saved error number. */
  lemma QuotaDrops(cfg: Config, s: State, i: nat, ready: Ready, io: Io)
    requires Inv(cfg, s) && Fires(At(s, i), ready) && s.connected >= 50
    ensures var t := Step(cfg, s, Socket(i, ready, io));
            Effect(s, t, i, Drops) && At(t, i).perrno == At(s, i).perrno
  {
    ArmedOpened(cfg, s, i);
    SocketEffect(cfg, s, i, ready, io);
    RetireAt(s, i);
  }

  /** Otherwise an error condition fails it. */
  lemma ErrorFails(cfg: Config, s: State, i: nat, io: Io)
    requires Inv(cfg, s) && Fires(At(s, i), ErrorReady) && s.connected < 50
    ensures Effect(s, Step(cfg, s, Socket(i, ErrorReady, io)), i, Fails)
  {
    ArmedOpened(cfg, s, i);
    SocketEffect(cfg, s, i, ErrorReady, io);
  }

  /** A timer that expires queues the handle of a FAILED peer, connecting again or not, and fails any other. */
  lemma TimerTable(cfg: Config, s: State, i: nat)
    requires Inv(cfg, s) && At(s, i).timer
    ensures Effect(s, Step(cfg, s, Timer(i)), i, if At(s, i).state == Failed then Requeues else Fails)
  {
    TimerEffect(cfg, s, i);
  }

  // ---------------------------------------------------------------------------
  // Sending
  // ---------------------------------------------------------------------------

  /** The peer's greeting after a send that took n bytes, and what the peer is armed for. */
  ghost predicate Greeting(cfg: Config, q: Peer, n: nat) {
    && q.state == Handshaking
    && q.attempt.sent == Front(cfg.Greeting(), n) && q.sendBuf == Back(cfg.Greeting(), n)
    && q.interest == (if n >= 68 then Readable else Writable)
  }

  /** How many bytes an answer means, if it is harmless. */
  function Taken(o: SendOutcome): (n: nat) {
    match o
    case Sent(n) => n
    case SendErrno(_) => 0
  }

  /** The error number saved for it. */
  function Saved(o: SendOutcome): int {
    match o
    case Sent(_) => -1
    case SendErrno(e) => e
  }

  /** A send is fatal if it is answered by an error other than 11. */
  predicate Fatal(o: SendOutcome) {
    o.SendErrno? && o.errno != 11
  }

  /** An attempt whose socket has become writable, with no byte exchanged yet. */
  ghost predicate Connecting(cfg: Config, s: State, i: nat) {
    && Inv(cfg, s) && s.connected < 50 && At(s, i).interest == Writable
    && (At(s, i).state == Discovered || At(s, i).state == Disconnected || At(s, i).state == Failed)
  }

  lemma GreetedPeer(cfg: Config, p: Peer, o: SendOutcome)
    requires p.sendBuf == [] && p.attempt.sent == []
    ensures var (q, ok, exhausted) := GreetPeer(cfg, p, o);
            && (ok <==> !Fatal(o))
            && (ok ==> q.attempt.sent == Front(cfg.Greeting(), Taken(o)) && q.sendBuf == Back(cfg.Greeting(), Taken(o))
                       && (exhausted <==> Taken(o) >= 68))
            && q.state == p.state && q.peerId == p.peerId && q.perrno == Saved(o)
  {
    var g := cfg.Greeting();
    assert [] + g[0..68] == g;
    assert EncodeHandshake(cfg, p).0.sendBuf == g;
    SendFromMeans(g, o);
    assert g[..0] == [] && g[0..] == g;
  }

  /**
   * A connecting peer fails if its connection failed or the first send is fatal. Otherwise it has sent as much of the
   * greeting as was taken, and waits to send the rest, or to receive once all 68 bytes are gone.
   */
  lemma ConnectTable(cfg: Config, s: State, i: nat, io: Io)
    requires Connecting(cfg, s, i)
    ensures var t := Step(cfg, s, Socket(i, WriteReady, io));
            if io.soError || Fatal(io.send) then Effect(s, t, i, Fails)
            else Effect(s, t, i, Waits) && Greeting(cfg, At(t, i), Taken(io.send)) && At(t, i).perrno == Saved(io.send)
  {
    ArmedOpened(cfg, s, i);
    SocketEffect(cfg, s, i, WriteReady, io);
    ConnectTurnout(cfg, At(s, i), io);
    if !io.soError && !Fatal(io.send) {
      ConnectShape(cfg, s, i, io);
    }
  }

  lemma ConnectTurnout(cfg: Config, p: Peer, io: Io)
    requires p.state != Handshaking && p.sendBuf == [] && p.attempt.sent == [] && |p.recvBuf| <= LENGTH
    ensures SocketTurnout(cfg, false, p, WriteReady, io) == if io.soError || Fatal(io.send) then Fails else Waits
  {
    GreetedPeer(cfg, p.(state := Handshaking), io.send);
  }

  lemma ConnectShape(cfg: Config, s: State, i: nat, io: Io)
    requires i < |s.pool.slots| && s.connected < 50 && At(s, i).interest == Writable && !io.soError && !Fatal(io.send)
    requires At(s, i).state == Discovered || At(s, i).state == Disconnected || At(s, i).state == Failed
    requires At(s, i).sendBuf == [] && At(s, i).attempt.sent == []
    ensures var q := At(Step(cfg, s, Socket(i, WriteReady, io)), i);
            Greeting(cfg, q, Taken(io.send)) && q.perrno == Saved(io.send)
  {
    var p := At(s, i).(state := Handshaking);
    GreetedPeer(cfg, p, io.send);
    var (q, ok, exhausted) := GreetPeer(cfg, p, io.send);
    PutAt(s, i, q.(interest := if exhausted then Readable else Writable));
  }

  ghost predicate Resuming(cfg: Config, s: State, i: nat) {
    Inv(cfg, s) && s.connected < 50 && At(s, i).interest == Writable && At(s, i).state == Handshaking
  }

  lemma ResumedPeer(p: Peer, o: SendOutcome)
    ensures var (q, ok, exhausted) := SendMessages(p, o);
            && (ok <==> !Fatal(o))
            && (ok ==> q.attempt.sent == p.attempt.sent + Front(p.sendBuf, Taken(o))
                       && q.sendBuf == Back(p.sendBuf, Taken(o)) && (exhausted <==> Taken(o) >= |p.sendBuf|))
            && q.state == p.state && q.interest == p.interest && q.source == p.source && q.perrno == Saved(o)
  {
    SendFromMeans(p.sendBuf, o);
  }

  /**
   * A handshaking peer with bytes left to send fails on a fatal answer. Otherwise it waits to send what is left; with
   * nothing left, one we dialled waits to receive, and one we accepted is connected.
   */
  lemma ResumeTable(cfg: Config, s: State, i: nat, io: Io)
    requires Resuming(cfg, s, i)
    ensures var p, n := At(s, i), Taken(io.send);
            var t := Step(cfg, s, Socket(i, WriteReady, io));
            var q := At(t, i);
            if Fatal(io.send) then Effect(s, t, i, Fails)
            else if n >= |p.sendBuf| && p.source == TcpServer then Effect(s, t, i, Connects)
            else
              && Effect(s, t, i, Waits)
              && q.attempt.sent == p.attempt.sent + Front(p.sendBuf, n) && q.sendBuf == Back(p.sendBuf, n)
              && q.perrno == Saved(io.send) && q.interest == if n >= |p.sendBuf| then Readable else Writable
  {
    ArmedOpened(cfg, s, i);
    SocketEffect(cfg, s, i, WriteReady, io);
    ResumedTurnout(cfg, At(s, i), io);
    if !Fatal(io.send) {
      ResumedShape(cfg, s, i, io);
    }
  }

  lemma ResumedTurnout(cfg: Config, p: Peer, io: Io)
    requires p.state == Handshaking && |p.recvBuf| <= LENGTH
    ensures SocketTurnout(cfg, false, p, WriteReady, io)
         == if Fatal(io.send) then Fails
            else if Taken(io.send) >= |p.sendBuf| && p.source == TcpServer then Connects
            else Waits
  {
    ResumedPeer(p, io.send);
  }

  lemma ResumedShape(cfg: Config, s: State, i: nat, io: Io)
    requires i < |s.pool.slots| && s.connected < 50 && At(s, i).state == Handshaking && At(s, i).interest == Writable
    requires !Fatal(io.send) && (At(s, i).source == Tracker || At(s, i).source == TcpServer)
    ensures var p, n, q := At(s, i), Taken(io.send), At(Step(cfg, s, Socket(i, WriteReady, io)), i);
            !(n >= |p.sendBuf| && p.source == TcpServer) ==>
              && q.attempt.sent == p.attempt.sent + Front(p.sendBuf, n) && q.sendBuf == Back(p.sendBuf, n)
              && q.perrno == Saved(io.send) && q.interest == if n >= |p.sendBuf| then Readable else Writable
  {
    ResumedPeer(At(s, i), io.send);
    var (q, ok, exhausted) := SendMessages(At(s, i), io.send);
    PutAt(s, i, q);
    PutAt(s, i, q.(interest := Readable));
  }

  // ---------------------------------------------------------------------------
  // Receiving
  // ---------------------------------------------------------------------------

  ghost predicate Receiving(cfg: Config, s: State, i: nat) {
    Inv(cfg, s) && s.connected < 50 && At(s, i).interest == Readable
  }

  lemma ReceivingPeer(cfg: Config, s: State, i: nat)
    requires Receiving(cfg, s, i)
    ensures i in s.pool.occupied && i < |s.pool.slots| && At(s, i).state == Handshaking && |At(s, i).recvBuf| < 68
    ensures At(s, i).source == Tracker || At(s, i).source == TcpServer
    ensures At(s, i).source == TcpServer ==> At(s, i).sendBuf == [] && At(s, i).attempt.sent == []
  {
    ArmedOpened(cfg, s, i);
    assert i in Registered(s, {}) && PeerOk(cfg, At(s, i));
  }

  /** Bytes have arrived, or none yet: errno 11. Anything else is an error, or a shutdown. */
  predicate Arrives(o: RecvOutcome) {
    match o
    case Delivered(data) => data != []
    case RecvErrno(e) => e == 11
  }

  /** What is in the receive buffer then. */
  function Buffered(b: seq<byte>, o: RecvOutcome): seq<byte>
    requires |b| < 68
  {
    match o
    case Delivered(data) => b + Front(data, 68 - |b|)
    case RecvErrno(_) => b
  }

  /** Byte 0 and bytes 28 to 47 decide. */
  predicate Ours(infoHash: seq<byte>, m: seq<byte>)
    requires |m| >= 68
  {
    m[0] == 19 && m[28..48] == infoHash
  }

  lemma ReceivedPeer(p: Peer, o: RecvOutcome)
    requires |p.recvBuf| < 68
    ensures var (q, ok) := RecvMessages(p, o);
            && (ok <==> Arrives(o))
            && (ok ==> q.recvBuf == Buffered(p.recvBuf, o) && q.perrno == if o.Delivered? then -1 else 11)
            && q == p.(recvBuf := q.recvBuf, perrno := q.perrno, attempt := q.attempt)
            && q.attempt.sent == p.attempt.sent
  {
    RecvIntoMeans(LENGTH, p.recvBuf, o);
  }

  /** What a receive comes to. */
  function ReceiveOutcome(cfg: Config, p: Peer, io: Io): Turnout
    requires |p.recvBuf| < 68
  {
    var m := Buffered(p.recvBuf, io.recv);
    if !Arrives(io.recv) then Fails
    else if |m| < 68 then Waits
    else if !Ours(cfg.infoHash, m) then Drops
    else if p.source == Tracker then Connects
    else if Fatal(io.send) then Fails
    else if Taken(io.send) >= 68 then Connects
    else Waits
  }

  lemma ReceiveTurns(cfg: Config, p: Peer, io: Io)
    requires p.state == Handshaking && |p.recvBuf| < 68 && (p.source == TcpServer ==> p.sendBuf == [])
    requires p.source == Tracker || p.source == TcpServer
    requires p.source == TcpServer ==> p.attempt.sent == []
    ensures SocketTurnout(cfg, false, p, ReadReady, io) == ReceiveOutcome(cfg, p, io)
  {
    ReceivedPeer(p, io.recv);
    var (q, ok) := RecvMessages(p, io.recv);
    if ok && |q.recvBuf| == 68 {
      assert q.recvBuf[..LENGTH] == q.recvBuf;
      if p.source == TcpServer {
        GreetedPeer(cfg, DecodedPeer(q, DecodeFrom(q.recvBuf, cfg.infoHash, q.peerId)), io.send);
      }
    }
  }

  /**
   * A receive fails its peer on a shutdown and on any error but errno 11. With fewer than 68 bytes in, the peer waits.
   * The 68th byte rejects a peer of another protocol or torrent, connects one we dialled, and answers one we accepted:
   * a fatal send fails it, a whole greeting connects it, a part of one leaves it waiting to send the rest.
   */
  lemma ReceiveTable(cfg: Config, s: State, i: nat, io: Io)
    requires Receiving(cfg, s, i)
    ensures |At(s, i).recvBuf| < 68
    ensures Effect(s, Step(cfg, s, Socket(i, ReadReady, io)), i, ReceiveOutcome(cfg, At(s, i), io))
  {
    ReceivingPeer(cfg, s, i);
    SocketEffect(cfg, s, i, ReadReady, io);
    ReceiveTurns(cfg, At(s, i), io);
  }

  // What the peer looks like afterwards

  /** The state a receive leaves while the peer is not given up. */
  lemma ReceiveShape(cfg: Config, s: State, i: nat, io: Io, q: Peer)
    requires |At(s, i).recvBuf| < 68 && s.connected < 50 && At(s, i).state == Handshaking
    requires At(s, i).interest == Readable && Arrives(io.recv) && q == RecvMessages(At(s, i), io.recv).0
    ensures Step(cfg, s, Socket(i, ReadReady, io)) == Settle(cfg, s, i, q, io)
  {
    ReceivedPeer(At(s, i), io.recv);
  }

  lemma WaitingReceiver(cfg: Config, s: State, i: nat, io: Io)
    requires Receiving(cfg, s, i) && |At(s, i).recvBuf| < 68 && Arrives(io.recv)
    requires |Buffered(At(s, i).recvBuf, io.recv)| < 68
    ensures var q := At(Step(cfg, s, Socket(i, ReadReady, io)), i);
            && q.recvBuf == Buffered(At(s, i).recvBuf, io.recv) && q.interest == Readable
            && q.perrno == if io.recv.Delivered? then -1 else 11
  {
    ReceivingPeer(cfg, s, i);
    ReceivedPeer(At(s, i), io.recv);
    var q := RecvMessages(At(s, i), io.recv).0;
    ReceiveShape(cfg, s, i, io, q);
    PutAt(s, i, DecodedPeer(q, DecodeFrom(q.recvBuf, cfg.infoHash, q.peerId)));
  }

  /** A rejected peer leaves no error number behind. */
  lemma RejectedPeer(cfg: Config, s: State, i: nat, io: Io)
    requires Receiving(cfg, s, i) && |At(s, i).recvBuf| < 68 && ReceiveOutcome(cfg, At(s, i), io) == Drops
    ensures At(Step(cfg, s, Socket(i, ReadReady, io)), i).perrno == -1
  {
    ReceivingPeer(cfg, s, i);
    ReceivedPeer(At(s, i), io.recv);
    var q := RecvMessages(At(s, i), io.recv).0;
    ReceiveShape(cfg, s, i, io, q);
    RejectedSettles(cfg, s, i, q, io);
  }

  lemma RejectedSettles(cfg: Config, s: State, i: nat, p: Peer, io: Io)
    requires s.pool.Valid() && i in s.pool.occupied && |p.recvBuf| == 68 && !Ours(cfg.infoHash, p.recvBuf)
    ensures At(Settle(cfg, s, i, p, io), i).perrno == -1
  {
    assert p.recvBuf[..LENGTH] == p.recvBuf;
    RetiredErrno(s, i, DecodedPeer(p, DecodeFrom(p.recvBuf, cfg.infoHash, p.peerId)).(perrno := NO_ERROR));
  }

  lemma RetiredErrno(s: State, i: nat, p: Peer)
    requires s.pool.Valid() && i in s.pool.occupied
    ensures At(Retire(Put(s, i, p), i), i).perrno == p.perrno
  {
    PutAt(s, i, p);
    RetireAt(Put(s, i, p), i);
  }

  lemma DispatchedId(s: State, i: nat, q: Peer)
    requires i < |s.pool.slots|
    ensures At(Dispatch(Put(s, i, q), i), i).peerId == q.peerId
  {
    PutAt(s, i, q);
    PutAt(Put(s, i, q), i, Stopped(q.(state := Connected)));
  }

  /** An accepted peer whose answer has gone out in part waits to send the rest. */
  lemma AnsweredInPart(cfg: Config, s: State, i: nat, io: Io)
    requires Receiving(cfg, s, i) && |At(s, i).recvBuf| < 68 && Arrives(io.recv) && At(s, i).source == TcpServer
    requires |Buffered(At(s, i).recvBuf, io.recv)| == 68 && Ours(cfg.infoHash, Buffered(At(s, i).recvBuf, io.recv))
    requires !Fatal(io.send) && Taken(io.send) < 68
    ensures var q := At(Step(cfg, s, Socket(i, ReadReady, io)), i);
            && Greeting(cfg, q, Taken(io.send)) && q.peerId == Buffered(At(s, i).recvBuf, io.recv)[48..68]
            && q.perrno == Saved(io.send)
  {
    ReceivingPeer(cfg, s, i);
    ReceivedPeer(At(s, i), io.recv);
    var q := RecvMessages(At(s, i), io.recv).0;
    ReceiveShape(cfg, s, i, io, q);
    assert q.recvBuf[..LENGTH] == q.recvBuf;
    var r := DecodedPeer(q, DecodeFrom(q.recvBuf, cfg.infoHash, q.peerId));
    GreetedPeer(cfg, r, io.send);
    PutAt(s, i, GreetPeer(cfg, r, io.send).0.(interest := Writable));
  }

  /** The peer is known by the last twenty of its 68 bytes. */
  lemma ConnectedDialler(cfg: Config, s: State, i: nat, io: Io)
    requires Receiving(cfg, s, i) && |At(s, i).recvBuf| < 68 && Arrives(io.recv) && At(s, i).source == Tracker
    requires |Buffered(At(s, i).recvBuf, io.recv)| == 68 && Ours(cfg.infoHash, Buffered(At(s, i).recvBuf, io.recv))
    ensures At(Step(cfg, s, Socket(i, ReadReady, io)), i).peerId == Buffered(At(s, i).recvBuf, io.recv)[48..68]
  {
    ReceivingPeer(cfg, s, i);
    ReceivedPeer(At(s, i), io.recv);
    var q := RecvMessages(At(s, i), io.recv).0;
    ReceiveShape(cfg, s, i, io, q);
    assert q.recvBuf[..LENGTH] == q.recvBuf;
    DispatchedId(s, i, DecodedPeer(q, DecodeFrom(q.recvBuf, cfg.infoHash, q.peerId)));
  }
}
