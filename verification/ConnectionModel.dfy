/**
 * The connection manager's callbacks as functions on its whole state (src/Client/PeerConnectionManager.cpp).
 * The kernel's answers are arguments: `Config.outcome` answers the n-th connect(), events carry the rest.
 */
module ConnectionModel {
  import opened RingBuffer
  import opened Handshake
  import opened Transport
  import opened SlotPool
  import opened Peers
  import OC = OverwritableCache

  const HEALTHY_PEER_COUNT: nat := 50
  const MAX_INBOUND_INFLIGHT: nat := 35
  const MAX_OUTBOUND_INFLIGHT: nat := 15
  const MAX_RETRIES: nat := 3
  const UPDATE_QUEUE_SIZE: nat := 50
  const CACHE_SIZE: nat := 200
  const SIZE_MAX: nat := 0xFFFF_FFFF_FFFF_FFFF
  const ECONNABORTED: nat := 103

  type Digest = s: seq<byte> | |s| == 20 witness seq(20, _ => 0)

  /** One empty flag for each source of the scheduler. */
  type Flags = f: seq<bool> | |f| == 3 witness [false, false, false]

  /** What opening a socket and calling connect() on it came to. */
  datatype ConnectOutcome = NoSocket(errno: nat) | Refused | InProgress | Immediate

  datatype Config = Config(infoHash: Digest, outcome: nat -> ConnectOutcome) {
    function Greeting(): seq<byte> {
      Message(infoHash, CLIENT_ID)
    }
  }

  /** A slot together with the generation it had when the handle was taken. */
  datatype Handle = Handle(slot: nat, generation: nat)

  /** `disconnect_update`: which peer was lost, and the error code the transfer side ended with. */
  datatype Update = Update(handle: Handle, perrno: int)

  /** The handles of a row of updates. */
  function Handles(updates: seq<Update>): (h: seq<Handle>)
    ensures |h| == |updates|
  {
    if updates == [] then [] else [updates[0].handle] + Handles(updates[1..])
  }

  datatype Spot = DiscoveredSpot | DisconnectedSpot | FailedSpot

  /** Assertions of the source, and losses it assumes away, that no run may reach. */
  datatype Fault =
    | AcquisitionFailed     // a slot was needed and none was free
    | WrongSource           // a connect() for a peer the tracker did not name
    | EventOnConnected      // a watcher fired for a peer handed to the transfer side
    | SendBufferNotEmpty    // a handshake encoded behind other bytes
    | EncodeIncomplete      // a handshake that did not fit
    | ReceiveOnFull         // recvmsg with no room, which reads as a shutdown
    | DispatchDropped       // a connect update that found the queue full
    | ReportDropped         // a disconnect update that found the queue full
    | OutboundUnderflow     // outbound_inflight decremented at zero

  datatype State = State(
    connected: nat,
    inbound: nat,
    outbound: nat,
    pool: Pool<Peer>,
    peers: map<Address, nat>,
    cache: seq<Address>,
    retry: seq<Handle>,
    connects: seq<Handle>,
    sessions: multiset<Handle>,   // connect updates the transfer side has taken and not yet answered
    disconnects: seq<Update>,
    current: Spot,
    empties: Flags,
    attempts: nat,
    faults: set<Fault>)

  function Initial(slots: nat): State {
    State(0, 0, 0, NewPool(slots, Blank(NO_ERROR)), map[], [], [], [], multiset{}, [], DiscoveredSpot,
          [false, false, false], 0, {})
  }

  lemma {:induction false} HandlesAppend(a: seq<Update>, b: seq<Update>)
    ensures Handles(a + b) == Handles(a) + Handles(b)
    decreases |a|
  {
    if a == [] {
      assert a + b == b;
    } else {
      assert (a + b)[0] == a[0] && (a + b)[1..] == a[1..] + b;
      HandlesAppend(a[1..], b);
    }
  }

  // ---------------------------------------------------------------------------
  // Statistics: size_t counters
  // ---------------------------------------------------------------------------

  function Up(x: nat): nat {
    if x == SIZE_MAX then 0 else x + 1
  }

  function Down(x: nat): nat {
    if x == 0 then SIZE_MAX else x - 1
  }

  predicate QuotaMet(s: State) {
    s.connected >= HEALTHY_PEER_COUNT
  }

  function Check(s: State, ok: bool, fault: Fault): State {
    if ok then s else s.(faults := s.faults + {fault})
  }

  /** A pending connection is settled: `single_outbound_resolved` or `single_inbound_resolved`. */
  function Resolve(s: State, source: Source): State {
    if source == TcpServer then
      Check(s, s.outbound > 0, OutboundUnderflow).(outbound := Down(s.outbound))
    else s.(inbound := Down(s.inbound))
  }

  // ---------------------------------------------------------------------------
  // Peers in their slots
  // ---------------------------------------------------------------------------

  function At(s: State, i: nat): Peer {
    if i < |s.pool.slots| then s.pool.slots[i].value else Blank(NO_ERROR)
  }

  function Generation(s: State, i: nat): nat {
    if i < |s.pool.slots| then s.pool.slots[i].generation else 0
  }

  function HandleOf(s: State, i: nat): Handle {
    Handle(i, Generation(s, i))
  }

  /** The generation test every queued handle goes through. */
  predicate Live(s: State, h: Handle) {
    h.slot < |s.pool.slots| && h.generation == Generation(s, h.slot)
  }

  function Put(s: State, i: nat, p: Peer): State {
    if i < |s.pool.slots| then s.(pool := s.pool.Stored(i, p)) else s
  }

  /** `delete_peer_connection`: deregister, tear down, release. */
  function Retire(s: State, i: nat): State {
    if i < |s.pool.slots| then
      s.(peers := s.peers - {At(s, i).key}, pool := s.pool.Stored(i, Blank(At(s, i).perrno)).Released(i))
    else s
  }

  // ---------------------------------------------------------------------------
  // connect() and the three sources of the scheduler
  // ---------------------------------------------------------------------------

  /** `connect` on one peer; the new attempt's history starts here. */
  function Dial(p: Peer, outcome: ConnectOutcome): (Peer, bool) {
    match outcome
    case NoSocket(e) => (p.(perrno := e), false)
    case Refused => (p.(perrno := NO_ERROR), false)
    case InProgress => (Armed(p, Writable).(perrno := EINPROGRESS, attempt := Attempt([], [], false)), true)
    case Immediate =>
      (Armed(p, Writable).(perrno := NO_ERROR, failures := 0, state := Handshaking,
                           attempt := Attempt([], [], true)), true)
  }

  function Connect(cfg: Config, s: State, i: nat): (State, bool) {
    var (p, ok) := Dial(At(s, i), cfg.outcome(s.attempts));
    (Put(s.(attempts := s.attempts + 1), i, p), ok)
  }

  /** `initiate_connect`. */
  function Initiate(cfg: Config, s: State, i: nat): (State, bool) {
    var (s1, ok) := Connect(cfg, Check(s, At(s, i).source == Tracker, WrongSource), i);
    if ok then (s1.(inbound := Up(s1.inbound)), true) else (s1, false)
  }

  datatype Item = FromTracker(address: Address) | FromTransfer(handle: Handle, perrno: int) | FromRetry(handle: Handle)

  /** What became of an item taken from a source. */
  datatype Fate = Attempted | Duplicate | Stale | Deleted

  function AttemptOrDelete(cfg: Config, s: State, i: nat): (State, Fate) {
    var (s1, ok) := Initiate(cfg, s, i);
    if ok then (s1, Attempted) else (Retire(s1, i), Deleted)
  }

  /** A slot acquired and registered for a discovered address. */
  function Enrol(s: State, address: Address): State
    requires s.pool.free != []
  {
    var slot, acquired := s.pool.NextSlot(), s.(pool := s.pool.Acquired());
    Put(acquired, slot, Initialized(At(acquired, slot), address, Tracker, Discovered))
    .(peers := s.peers[address := slot])
  }

  /** A slot acquired for an address that turned out to be registered already. */
  function PutBack(s: State): State
    requires s.pool.free != []
  {
    var slot := s.pool.NextSlot();
    if slot < |s.pool.slots| then s.(pool := s.pool.Acquired().Released(slot)) else s
  }

  function TryDiscovered(cfg: Config, s: State, address: Address): (State, Fate) {
    if s.pool.free == [] then (Check(s, false, AcquisitionFailed), Deleted)
    else if address in s.peers then (PutBack(s), Duplicate)
    else AttemptOrDelete(cfg, Enrol(s, address), s.pool.NextSlot())
  }

  /** `decrement_connected_bittorrent_peers`. */
  function Uncounted(s: State): State {
    s.(connected := if s.connected == 0 then 0 else s.connected - 1)
  }

  function MarkDisconnected(s: State, i: nat): State {
    Put(Uncounted(s), i, At(s, i).(state := Disconnected))
  }

  function OneMoreFailure(p: Peer): Peer {
    p.(failures := p.failures + 1)
  }

  function TryDisconnected(cfg: Config, s: State, h: Handle): (State, Fate) {
    if !Live(s, h) then (s, Stale)
    else
      var s1 := MarkDisconnected(s, h.slot);
      var p := At(s1, h.slot);
      if p.perrno == PEER_SHUTDOWN || p.source == TcpServer then (Retire(s1, h.slot), Deleted)
      else AttemptOrDelete(cfg, Put(s1, h.slot, OneMoreFailure(p)), h.slot)
  }

  function TryFailed(cfg: Config, s: State, h: Handle): (State, Fate) {
    if !Live(s, h) then (s, Stale) else AttemptOrDelete(cfg, s, h.slot)
  }

  function Try(cfg: Config, s: State, item: Item): (State, Fate) {
    match item
    case FromTracker(address) => TryDiscovered(cfg, s, address)
    case FromTransfer(h, _) => TryDisconnected(cfg, s, h)
    case FromRetry(h) => TryFailed(cfg, s, h)
  }

  function Pending(s: State, spot: Spot): nat {
    match spot
    case DiscoveredSpot => |s.cache|
    case DisconnectedSpot => |s.disconnects|
    case FailedSpot => |s.retry|
  }

  function WithoutNewest(s: State): State
    requires s.cache != []
  {
    s.(cache := s.cache[..|s.cache| - 1])
  }

  function Newest(s: State): Address
    requires s.cache != []
  {
    s.cache[|s.cache| - 1]
  }

  function WithoutReport(s: State): State
    requires s.disconnects != []
  {
    s.(disconnects := s.disconnects[1..])
  }

  function WithoutRetry(s: State): State
    requires s.retry != []
  {
    s.(retry := s.retry[1..])
  }

  /** The newest discovery, the oldest disconnect update, the oldest retry. */
  function Pop(s: State, spot: Spot): (State, Item)
    requires Pending(s, spot) > 0
  {
    match spot
    case DiscoveredSpot => (WithoutNewest(s), FromTracker(Newest(s)))
    case DisconnectedSpot => (WithoutReport(s), FromTransfer(s.disconnects[0].handle, s.disconnects[0].perrno))
    case FailedSpot => (WithoutRetry(s), FromRetry(s.retry[0]))
  }

  /** What trying an item leaves alone. */
  ghost predicate SameQueues(s: State, t: State) {
    && s.cache == t.cache && s.retry == t.retry && s.connects == t.connects && s.sessions == t.sessions
    && s.disconnects == t.disconnects && s.current == t.current && s.empties == t.empties
  }

  lemma AttemptFrame(cfg: Config, s: State, i: nat)
    ensures var (t, fate) := AttemptOrDelete(cfg, s, i);
            && SameQueues(s, t)
            && t.outbound == s.outbound && t.connected == s.connected
            && (fate == Attempted || fate == Deleted)
            && t.inbound == if fate == Attempted then Up(s.inbound) else s.inbound
  {
  }

  lemma EnrolFrame(s: State, address: Address)
    requires s.pool.free != []
    ensures SameQueues(s, Enrol(s, address)) && SameQueues(s, PutBack(s))
    ensures Enrol(s, address).outbound == PutBack(s).outbound == s.outbound
    ensures Enrol(s, address).inbound == PutBack(s).inbound == s.inbound
  {
  }

  lemma TryDisconnectedFrame(cfg: Config, s: State, h: Handle)
    ensures var (t, fate) := TryDisconnected(cfg, s, h);
            && SameQueues(s, t)
            && t.outbound == s.outbound
            && t.inbound == if fate == Attempted then Up(s.inbound) else s.inbound
  {
    if Live(s, h) {
      var s1 := MarkDisconnected(s, h.slot);
      var p := At(s1, h.slot);
      AttemptFrame(cfg, Put(s1, h.slot, OneMoreFailure(p)), h.slot);
    }
  }

  lemma TryDiscoveredFrame(cfg: Config, s: State, address: Address)
    ensures var (t, fate) := TryDiscovered(cfg, s, address);
            && SameQueues(s, t)
            && t.outbound == s.outbound
            && t.inbound == if fate == Attempted then Up(s.inbound) else s.inbound
  {
    if s.pool.free != [] {
      EnrolFrame(s, address);
      AttemptFrame(cfg, Enrol(s, address), s.pool.NextSlot());
    }
  }

  lemma TryFrame(cfg: Config, s: State, item: Item)
    ensures var (t, fate) := Try(cfg, s, item);
            && SameQueues(s, t)
            && t.outbound == s.outbound
            && t.inbound == if fate == Attempted then Up(s.inbound) else s.inbound
  {
    match item
    case FromTracker(address) => TryDiscoveredFrame(cfg, s, address);
    case FromTransfer(h, _) => TryDisconnectedFrame(cfg, s, h);
    case FromRetry(h) => AttemptFrame(cfg, s, h.slot);
  }

  /** One scheduler call: whether it started an attempt, and the fate of every item it took. */
  datatype Drained = Drained(state: State, started: bool, fates: seq<(Item, Fate)>)

  function DrainLoop(cfg: Config, s: State, spot: Spot): (d: Drained)
    decreases Pending(s, spot)
  {
    if Pending(s, spot) == 0 then Drained(s, false, [])
    else
      var (s1, item) := Pop(s, spot);
      var (s2, fate) := Try(cfg, s1, item);
      TryFrame(cfg, s1, item);
      if fate == Attempted then Drained(s2, true, [(item, fate)])
      else
        var d := DrainLoop(cfg, s2, spot);
        d.(fates := [(item, fate)] + d.fates)
  }

  /** `discovered_peer_scheduler`, `disconnected_peer_scheduler` or `failed_peer_scheduler`. */
  function DrainSpot(cfg: Config, s: State, spot: Spot): (d: Drained) {
    if spot == DiscoveredSpot && s.pool.free == [] then Drained(s, false, []) else DrainLoop(cfg, s, spot)
  }

  lemma {:induction false} DrainFrame(cfg: Config, s: State, spot: Spot)
    ensures var d := DrainLoop(cfg, s, spot);
            && d.state.current == s.current && d.state.empties == s.empties
            && d.state.inbound == if d.started then Up(s.inbound) else s.inbound
    decreases Pending(s, spot)
  {
    if Pending(s, spot) > 0 {
      var (s1, item) := Pop(s, spot);
      TryFrame(cfg, s1, item);
      var (s2, fate) := Try(cfg, s1, item);
      if fate != Attempted {
        DrainFrame(cfg, s2, spot);
      }
    }
  }

  function Index(spot: Spot): nat {
    match spot
    case DiscoveredSpot => 0
    case DisconnectedSpot => 1
    case FailedSpot => 2
  }

  /** `plus_mask_current`. */
  function NextSpot(spot: Spot): Spot {
    match spot
    case DiscoveredSpot => DisconnectedSpot
    case DisconnectedSpot => FailedSpot
    case FailedSpot => DiscoveredSpot
  }

  function Room(s: State): nat {
    if s.inbound < MAX_INBOUND_INFLIGHT then MAX_INBOUND_INFLIGHT - s.inbound else 0
  }

  function UnsetFlags(empties: Flags): nat {
    (if empties[0] then 0 else 1) + (if empties[1] then 0 else 1) + (if empties[2] then 0 else 1)
  }

  /** Steps from the current spot to one whose empty flag is unset. */
  function Distance(spot: Spot, empties: Flags): nat {
    if !empties[Index(spot)] then 0
    else if !empties[Index(NextSpot(spot))] then 1
    else if !empties[Index(NextSpot(NextSpot(spot)))] then 2
    else 3
  }

  /** One turn: the current source is drained and its empty flag set accordingly. */
  function Turn(cfg: Config, s: State): (d: Drained) {
    var d := DrainSpot(cfg, s, s.current);
    d.(state := d.state.(empties := s.empties[Index(s.current) := !d.started]))
  }

  predicate AllEmpty(empties: Flags) {
    empties[0] && empties[1] && empties[2]
  }

  /** A turn that does not stop the drain brings it closer to its end. */
  lemma TurnProgress(cfg: Config, s: State)
    requires s.inbound < MAX_INBOUND_INFLIGHT
    ensures var d := Turn(cfg, s);
            var next := d.state.(current := NextSpot(s.current));
            && d.state.current == s.current
            && d.state.inbound == (if d.started then s.inbound + 1 else s.inbound)
            && (AllEmpty(d.state.empties)
            || Room(next) < Room(s)
            || (Room(next) == Room(s) && UnsetFlags(next.empties) < UnsetFlags(s.empties))
            || (Room(next) == Room(s) && next.empties == s.empties
                && Distance(next.current, next.empties) < Distance(s.current, s.empties)))
  {
    DrainFrame(cfg, s, s.current);
  }

  /** `round_robin_establisher_scheduler`, with the fate of every item it took. */
  function RoundRobin(cfg: Config, s: State): (r: (State, seq<(Item, Fate)>))
    decreases Room(s), UnsetFlags(s.empties), Distance(s.current, s.empties)
  {
    if s.inbound >= MAX_INBOUND_INFLIGHT then (s, [])
    else
      var d := Turn(cfg, s);
      TurnProgress(cfg, s);
      if AllEmpty(d.state.empties) then (d.state, d.fates)
      else
        var (t, fates) := RoundRobin(cfg, d.state.(current := NextSpot(s.current)));
        (t, d.fates + fates)
  }

  // ---------------------------------------------------------------------------
  // Failure, dispatch and the handshake
  // ---------------------------------------------------------------------------

  function FailedPeer(p: Peer): Peer {
    p.(state := Failed, failures := p.failures + 1, perrno := NO_ERROR)
  }

  function AwaitingRetry(p: Peer): Peer {
    p.(interest := Quiet, timer := true, cursor := 0, recvBuf := [], sendBuf := [])
  }

  /** `handle_peer_failure`. */
  function HandleFailure(s: State, i: nat): State {
    var p := FailedPeer(At(s, i));
    var s1 := Resolve(Put(s, i, p), p.source);
    if p.failures >= MAX_RETRIES || p.source == TcpServer then Retire(s1, i)
    else Put(s1, i, AwaitingRetry(p))
  }

  /** The connect update is pushed, or dropped when the queue is full, and the peer counted. */
  function Announce(s: State, i: nat): State {
    var s1 := if |s.connects| < UPDATE_QUEUE_SIZE then s.(connects := s.connects + [HandleOf(s, i)])
              else Check(s, false, DispatchDropped);
    s1.(connected := Up(s.connected))
  }

  /** `handle_peer_connection_and_dispatch`. */
  function Dispatch(s: State, i: nat): State {
    var p := Stopped(At(s, i).(state := Connected));
    Resolve(Announce(Put(s, i, p), i), p.source)
  }

  function Requeue(s: State, i: nat): State {
    s.(retry := s.retry + [HandleOf(s, i)])
  }

  /** `peer_timer_callback`; the one-shot timer has just expired. */
  function TimerExpired(s: State, i: nat): State {
    var p := At(s, i);
    var s1 := Check(s, p.state != Connected, EventOnConnected);
    if p.state == Failed then Requeue(Put(s1, i, Stopped(p)), i)
    else HandleFailure(Put(s1, i, p.(timer := false)), i)
  }

  /** The kernel's answers one socket event may need. */
  datatype Io = Io(soError: bool, send: SendOutcome, recv: RecvOutcome)

  /** `send_messages`: the peer after it, whether the transport is fine, whether the buffer is exhausted. */
  function SendMessages(p: Peer, o: SendOutcome): (Peer, bool, bool) {
    var t := SendFrom(p.sendBuf, o);
    (p.(sendBuf := t.contents, perrno := t.perrno, attempt := p.attempt.(sent := p.attempt.sent + t.moved)),
     t.ok, t.contents == [])
  }

  /** `recv_messages`. */
  function RecvMessages(p: Peer, o: RecvOutcome): (Peer, bool)
    requires |p.recvBuf| <= LENGTH
  {
    var t := RecvInto(LENGTH, p.recvBuf, o);
    (p.(recvBuf := t.contents, perrno := t.perrno, attempt := p.attempt.(received := p.attempt.received + t.moved)),
     t.ok)
  }

  /** Encoding the handshake from a fresh cursor. */
  function EncodeHandshake(cfg: Config, p: Peer): (Peer, bool) {
    if |p.sendBuf| > LENGTH then (p, false)
    else
      var e := EncodeInto(cfg.Greeting(), LENGTH, p.sendBuf, 0);
      (p.(sendBuf := e.contents, cursor := e.cursor), e.complete)
  }

  /** Encode and first send, shared by both roles. */
  function GreetPeer(cfg: Config, p: Peer, o: SendOutcome): (Peer, bool, bool) {
    SendMessages(EncodeHandshake(cfg, p).0, o)
  }

  /** The assertions around encoding a handshake. */
  function CheckGreeting(cfg: Config, s: State, p: Peer): State {
    Check(Check(s, p.sendBuf == [], SendBufferNotEmpty), EncodeHandshake(cfg, p).1, EncodeIncomplete)
  }

  /** `handle_peer_transport_level_initiations`. */
  function TransportInitiation(cfg: Config, s: State, i: nat, writable: bool, io: Io): State {
    if !writable then s
    else if io.soError then HandleFailure(s, i)
    else
      var p := At(s, i).(state := Handshaking);
      var (q, ok, exhausted) := GreetPeer(cfg, p, io.send);
      var s1 := CheckGreeting(cfg, s, p);
      if !ok then HandleFailure(Put(s1, i, q), i)
      else Put(s1, i, q.(interest := if exhausted then Readable else Writable))
  }

  /** The writable half of `handle_peer_application_level_handshake`. */
  function HandshakeWritable(s: State, i: nat, io: Io): State {
    var (p, ok, exhausted) := SendMessages(At(s, i), io.send);
    if !ok then HandleFailure(Put(s, i, p), i)
    else if !exhausted then Put(s, i, p)
    else if p.source == TcpServer then Dispatch(Put(s, i, p), i)
    else if p.source == Tracker then Put(s, i, p.(interest := Readable))
    else Put(s, i, p)
  }

  /** A recognised server peer is answered at once. */
  function Answer(cfg: Config, s: State, i: nat, p: Peer, io: Io): State {
    var (q, ok, exhausted) := GreetPeer(cfg, p, io.send);
    var s1 := CheckGreeting(cfg, s, p);
    if !ok then HandleFailure(Put(s1, i, q), i)
    else if !exhausted then Put(s1, i, q.(interest := Writable))
    else Dispatch(Put(s1, i, q), i)
  }

  /** What decoding leaves in the peer. */
  function DecodedPeer(p: Peer, d: Decoded): Peer {
    p.(recvBuf := d.contents, peerId := d.peerId)
  }

  /** What follows a successful receive: decode, and wait on, hand over, reject, or answer. */
  function Settle(cfg: Config, s: State, i: nat, p: Peer, io: Io): State {
    var d := DecodeFrom(p.recvBuf, cfg.infoHash, p.peerId);
    var q := DecodedPeer(p, d);
    if !d.complete then Put(s, i, q)
    else if !d.valid then Retire(Put(s, i, q.(perrno := NO_ERROR)), i)
    else if q.source == Tracker then Dispatch(Put(s, i, q), i)
    else if q.source == TcpServer then Answer(cfg, s, i, q, io)
    else Put(s, i, q)
  }

  /** The readable half of `handle_peer_application_level_handshake`. */
  function HandshakeReadable(cfg: Config, s: State, i: nat, io: Io): State {
    var s0 := Check(s, |At(s, i).recvBuf| < LENGTH, ReceiveOnFull);
    if |At(s, i).recvBuf| > LENGTH then s0
    else
      var (p, ok) := RecvMessages(At(s, i), io.recv);
      if ok then Settle(cfg, s0, i, p, io) else HandleFailure(Put(s0, i, p), i)
  }

  datatype Ready = ReadReady | WriteReady | ErrorReady

  /** `peer_socket_callback`. */
  function SocketReady(cfg: Config, s: State, i: nat, ready: Ready, io: Io): State {
    var p := At(s, i);
    var s0 := Check(s, p.state != Connected, EventOnConnected);
    if QuotaMet(s0) then Retire(s0, i)
    else if ready == ErrorReady then HandleFailure(s0, i)
    else match p.state
      case Discovered | Disconnected | Failed => TransportInitiation(cfg, s0, i, ready == WriteReady, io)
      case Handshaking =>
        if ready == WriteReady then HandshakeWritable(s0, i, io) else HandshakeReadable(cfg, s0, i, io)
      case Connected | Unset => Retire(s0, i)
  }

  // ---------------------------------------------------------------------------
  // Accepting
  // ---------------------------------------------------------------------------

  datatype AcceptOutcome = AcceptErrno(errno: nat) | Incoming(address: Address)

  /** The old entry of an endpoint that has come back through the server. */
  function Supersede(s: State, i: nat): State {
    var p := At(s, i);
    if p.state == Connected then Retire(s, i)
    else Retire(Resolve(Put(s, i, p.(perrno := NO_ERROR)), p.source), i)
  }

  /** A connection has arrived and a slot is free: both are taken. */
  function Reserving(s: State): State
    requires s.pool.free != []
  {
    s.(outbound := Up(s.outbound), pool := s.pool.Acquired())
  }

  /** The accepted peer is registered, listening for its handshake. */
  function Admit(s: State, slot: nat, address: Address): State {
    var p := Armed(Initialized(At(s, slot), address, TcpServer, Handshaking), Readable);
    Put(s, slot, p).(peers := s.peers[address := slot])
  }

  function AcceptIncoming(s: State, address: Address): State
    requires s.pool.free != []
  {
    var s1 := Reserving(s);
    var s2 := if address in s1.peers then Supersede(s1, s1.peers[address]) else s1;
    Admit(s2, s.pool.NextSlot(), address)
  }

  /** `accept_peer_connection`, and whether to call it again. */
  function Accept(s: State, o: AcceptOutcome): (State, bool) {
    match o
    case AcceptErrno(e) => (s, e == EINTR || e == ECONNABORTED)
    case Incoming(address) =>
      if s.pool.free == [] then (s, false) else (AcceptIncoming(s, address), true)
  }

  /** `server_socket_callback`; `arrivals` is what successive accept4 calls return. */
  function ServerReady(s: State, arrivals: seq<AcceptOutcome>): State
    decreases |arrivals|
  {
    if arrivals == [] || QuotaMet(s) || s.outbound >= MAX_OUTBOUND_INFLIGHT then s
    else
      var (s1, again) := Accept(s, arrivals[0]);
      if again then ServerReady(s1, arrivals[1..]) else s1
  }

  // ---------------------------------------------------------------------------
  // Events and runs
  // ---------------------------------------------------------------------------

  datatype Event =
    | Discoveries(addresses: seq<Address>)              // drain_discovered
    | Schedule                                          // the scheduler's wake-up
    | Server(arrivals: seq<AcceptOutcome>)              // the listening socket is readable
    | Socket(slot: nat, ready: Ready, io: Io)           // a peer's socket watcher
    | Timer(at: nat)                                    // a peer's timer
    | TransferTakes                                     // the transfer side pops a connect update
    | TransferReports(session: Handle, perrno: int)     // ... and answers one it has popped

  /** `push` of the overwritable cache: the oldest entry makes room. */
  function CachePush(cache: seq<Address>, address: Address): seq<Address> {
    OC.Apply(cache, OC.Push(address), CACHE_SIZE)
  }

  function CacheAll(cache: seq<Address>, addresses: seq<Address>): seq<Address>
    decreases |addresses|
  {
    if addresses == [] then cache else CacheAll(CachePush(cache, addresses[0]), addresses[1..])
  }

  /** A watcher fires only while armed; a disconnect update answers a connect update already taken. */
  predicate Enabled(s: State, e: Event) {
    match e
    case Socket(i, ready, _) =>
      match ready {
        case ReadReady => At(s, i).interest == Readable
        case WriteReady => At(s, i).interest == Writable
        case ErrorReady => At(s, i).interest != Quiet
      }
    case Timer(i) => At(s, i).timer
    case TransferTakes => s.connects != []
    case TransferReports(h, _) => h in s.sessions
    case _ => true
  }

  /** The transfer side answers a connect update with a disconnect update. */
  function Reported(s: State, h: Handle, perrno: int): State {
    s.(sessions := s.sessions - multiset{h}, disconnects := s.disconnects + [Update(h, perrno)])
  }

  function Report(s: State, h: Handle, perrno: int): State {
    if |s.disconnects| < UPDATE_QUEUE_SIZE then Reported(s, h, perrno)
    else Check(s.(sessions := s.sessions - multiset{h}), false, ReportDropped)
  }

  /** The transfer side pops a connect update. */
  function Take(s: State): State {
    if s.connects == [] then s
    else s.(connects := s.connects[1..], sessions := s.sessions + multiset{s.connects[0]})
  }

  function Apply(cfg: Config, s: State, e: Event): (t: State) {
    match e
    case Discoveries(addresses) => s.(cache := CacheAll(s.cache, addresses))
    case Schedule => RoundRobin(cfg, s).0
    case Server(arrivals) => ServerReady(s, arrivals)
    case Socket(i, ready, io) => SocketReady(cfg, s, i, ready, io)
    case Timer(i) => TimerExpired(s, i)
    case TransferTakes => Take(s)
    case TransferReports(h, perrno) => Report(s, h, perrno)
  }
}
