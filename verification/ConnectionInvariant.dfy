/** What every callback of the connection manager keeps, and the moves all callbacks are made of. */
module ConnectionInvariant {
  import opened Handshake
  import opened Transport
  import opened Peers
  import opened ConnectionModel

  // ---------------------------------------------------------------------------
  // One peer
  // ---------------------------------------------------------------------------

  /** A tracker peer talking: its greeting is cut into sent and buffered bytes, unless the attempt never encoded one. */
  predicate TrackerGreeting(cfg: Config, p: Peer) {
    && p.attempt.received == p.recvBuf
    && p.attempt.sent + p.sendBuf == (if p.attempt.immediate then [] else cfg.Greeting())
    && (p.interest == Readable ==> p.sendBuf == [])
    && p.interest != Quiet
  }

  /** The bytes received settle the handshake and name the peer. */
  predicate Recognised(cfg: Config, p: Peer) {
    && Accepts(cfg.infoHash, p.attempt.received)
    && p.peerId == p.attempt.received[48..68]
  }

  /** A server peer listens first, then answers. */
  predicate ServerGreeting(cfg: Config, p: Peer) {
    && !p.attempt.immediate
    && match p.interest {
      case Readable => p.attempt.sent == [] && p.sendBuf == [] && p.attempt.received == p.recvBuf
      case Writable => p.recvBuf == [] && p.attempt.sent + p.sendBuf == cfg.Greeting() && Recognised(cfg, p)
      case Quiet => false
    }
  }

  /** What holds of an idle or connecting peer, a greeting one, and one handed to the transfer side. */
  predicate PeerOk(cfg: Config, p: Peer) {
    && p.perrno != PEER_SHUTDOWN
    && p.source != Unknown
    && |p.recvBuf| < LENGTH
    && match p.state {
      case Unset => false
      case Discovered | Disconnected | Failed =>
        && p.source == Tracker && p.sendBuf == [] && p.recvBuf == []
        && (p.interest != Quiet ==> p.interest == Writable && p.attempt == Attempt([], [], false))
      case Handshaking => if p.source == Tracker then TrackerGreeting(cfg, p) else ServerGreeting(cfg, p)
      case Connected =>
        && p.interest == Quiet && !p.timer && p.sendBuf == [] && p.recvBuf == []
        && p.attempt.sent == (if p.attempt.immediate then [] else cfg.Greeting())
        && Recognised(cfg, p)
    }
  }

  /** Waiting in the retry queue: failed, with every watcher stopped. */
  predicate Idle(p: Peer) {
    p.state == Failed && p.source == Tracker && p.interest == Quiet && !p.timer
  }

  /** An accepted peer whose handshake is still open. */
  predicate Awaiting(p: Peer) {
    p.source == TcpServer && p.state == Handshaking
  }

  predicate IsBlank(p: Peer) {
    p == Blank(p.perrno) && p.perrno != PEER_SHUTDOWN
  }

  // ---------------------------------------------------------------------------
  // The whole state. `reserved` slots are acquired and not yet registered; `open` slots are being rewritten.
  // ---------------------------------------------------------------------------

  ghost function Registered(s: State, reserved: set<nat>): set<nat> {
    s.pool.occupied - reserved
  }

  ghost predicate SlotsOk(cfg: Config, s: State, reserved: set<nat>, open: set<nat>) {
    && s.pool.Valid() && reserved <= s.pool.occupied
    && (forall i: nat :: i < |s.pool.slots| && i !in Registered(s, reserved) ==> IsBlank(At(s, i)))
    && (forall i :: i in Registered(s, reserved) && i !in open ==> PeerOk(cfg, At(s, i)))
  }

  /** The address map and the registered slots are in bijection. */
  ghost predicate MapOk(s: State, reserved: set<nat>) {
    && (forall k :: k in s.peers ==> s.peers[k] in Registered(s, reserved) && At(s, s.peers[k]).key == k)
    && (forall i :: i in Registered(s, reserved) ==> At(s, i).key in s.peers && s.peers[At(s, i).key] == i)
  }

  /** A handle was taken from a slot that has not gone back to an earlier generation. */
  ghost predicate HandleOk(s: State, reserved: set<nat>, h: Handle) {
    && h.slot < |s.pool.slots| && h.generation <= Generation(s, h.slot)
    && (Live(s, h) ==> h.slot in Registered(s, reserved))
  }

  ghost predicate RetryOk(s: State, reserved: set<nat>, open: set<nat>) {
    && (forall h :: h in s.retry ==> HandleOk(s, reserved, h))
    && (forall h :: h in s.retry && Live(s, h) && h.slot !in open ==> Idle(At(s, h.slot)))
    && (forall j, k :: 0 <= j < k < |s.retry| ==> s.retry[j] != s.retry[k])
  }

  /** Connect updates not yet answered: queued, taken, or answered and not yet processed. */
  ghost function Unanswered(s: State): multiset<Handle> {
    multiset(s.connects) + s.sessions + multiset(Handles(s.disconnects))
  }

  ghost predicate SessionsOk(s: State, reserved: set<nat>, open: set<nat>) {
    && (forall h :: h in Unanswered(s) ==> HandleOk(s, reserved, h) && Unanswered(s)[h] == 1)
    && (forall i :: i in Registered(s, reserved) && i !in open ==>
         (At(s, i).state == Connected <==> HandleOf(s, i) in Unanswered(s)))
  }

  ghost predicate Core(cfg: Config, s: State, reserved: set<nat>, open: set<nat>) {
    && SlotsOk(cfg, s, reserved, open)
    && MapOk(s, reserved)
    && RetryOk(s, reserved, open)
    && SessionsOk(s, reserved, open)
  }

  /** The accepted peers still in their handshake, not counting the open slots. */
  ghost function Waiting(s: State, open: set<nat>): set<nat> {
    set i | i in s.pool.occupied && i !in open && Awaiting(At(s, i))
  }

  lemma PoolFrame(cfg: Config, s: State, t: State, reserved: set<nat>, open: set<nat>)
    requires SlotsOk(cfg, s, reserved, open) && MapOk(s, reserved) && RetryOk(s, reserved, open)
    requires t.pool == s.pool && t.peers == s.peers && t.retry == s.retry
    ensures SlotsOk(cfg, t, reserved, open) && MapOk(t, reserved) && RetryOk(t, reserved, open)
    ensures Waiting(t, open) == Waiting(s, open)
  {
    assert forall i: nat :: At(t, i) == At(s, i) && Generation(t, i) == Generation(s, i);
  }

  lemma SessionsFrame(s: State, t: State, reserved: set<nat>, open: set<nat>)
    requires SessionsOk(s, reserved, open) && t.pool == s.pool && Unanswered(t) == Unanswered(s)
    ensures SessionsOk(t, reserved, open)
  {
    assert forall i: nat :: At(t, i) == At(s, i) && HandleOf(t, i) == HandleOf(s, i);
    assert forall h :: HandleOk(s, reserved, h) ==> HandleOk(t, reserved, h);
  }

  /** The part of the state the invariant does not look at may change freely. */
  lemma CoreFrame(cfg: Config, s: State, t: State, reserved: set<nat>, open: set<nat>)
    requires Core(cfg, s, reserved, open)
    requires t.pool == s.pool && t.peers == s.peers && t.retry == s.retry && Unanswered(t) == Unanswered(s)
    ensures Core(cfg, t, reserved, open)
    ensures Waiting(t, open) == Waiting(s, open)
  {
    PoolFrame(cfg, s, t, reserved, open);
    SessionsFrame(s, t, reserved, open);
  }

  // ---------------------------------------------------------------------------
  // The moves
  // ---------------------------------------------------------------------------

  lemma PutAt(s: State, i: nat, p: Peer)
    requires i < |s.pool.slots|
    ensures var t := Put(s, i, p);
            && |t.pool.slots| == |s.pool.slots|
            && (forall j: nat :: At(t, j) == if j == i then p else At(s, j))
            && (forall j: nat :: Generation(t, j) == Generation(s, j))
  {
  }

  /** Opening a slot for rewriting. */
  lemma Open(cfg: Config, s: State, reserved: set<nat>, i: nat)
    requires Core(cfg, s, reserved, {}) && i in Registered(s, reserved)
    ensures Core(cfg, s, reserved, {i})
    ensures i < |s.pool.slots| && PeerOk(cfg, At(s, i))
    ensures HandleOf(s, i) in s.retry ==> Idle(At(s, i))
    ensures HandleOf(s, i) in Unanswered(s) <==> At(s, i).state == Connected
    ensures Waiting(s, {}) == Waiting(s, {i}) + if Awaiting(At(s, i)) then {i} else {}
  {
    assert Live(s, HandleOf(s, i));
  }

  lemma RewriteSlots(cfg: Config, s: State, reserved: set<nat>, i: nat, p: Peer)
    requires SlotsOk(cfg, s, reserved, {i}) && MapOk(s, reserved) && i in Registered(s, reserved)
    requires p.key == At(s, i).key
    ensures i < |s.pool.slots| && SlotsOk(cfg, Put(s, i, p), reserved, {i}) && MapOk(Put(s, i, p), reserved)
    ensures Waiting(Put(s, i, p), {i}) == Waiting(s, {i})
  {
    PutAt(s, i, p);
    assert Put(s, i, p).pool.Valid();
  }

  lemma RewriteQueues(s: State, reserved: set<nat>, i: nat, p: Peer)
    requires RetryOk(s, reserved, {i}) && SessionsOk(s, reserved, {i}) && i < |s.pool.slots|
    ensures RetryOk(Put(s, i, p), reserved, {i}) && SessionsOk(Put(s, i, p), reserved, {i})
  {
    PutAt(s, i, p);
    var t := Put(s, i, p);
    assert forall h :: HandleOk(s, reserved, h) ==> HandleOk(t, reserved, h);
    assert Unanswered(t) == Unanswered(s);
    assert forall j: nat :: HandleOf(t, j) == HandleOf(s, j);
  }

  /** Rewriting an open slot without touching its key. */
  lemma Rewrite(cfg: Config, s: State, reserved: set<nat>, i: nat, p: Peer)
    requires Core(cfg, s, reserved, {i}) && i in Registered(s, reserved) && p.key == At(s, i).key
    ensures i < |s.pool.slots| && Core(cfg, Put(s, i, p), reserved, {i})
    ensures HandleOf(Put(s, i, p), i) == HandleOf(s, i)
    ensures Waiting(Put(s, i, p), {i}) == Waiting(s, {i})
  {
    RewriteSlots(cfg, s, reserved, i, p);
    RewriteQueues(s, reserved, i, p);
    PutAt(s, i, p);
  }

  /** Closing a slot whose peer is in order again. */
  lemma Close(cfg: Config, s: State, reserved: set<nat>, i: nat)
    requires Core(cfg, s, reserved, {i}) && i in Registered(s, reserved)
    requires PeerOk(cfg, At(s, i))
    requires HandleOf(s, i) in s.retry ==> Idle(At(s, i))
    requires HandleOf(s, i) in Unanswered(s) <==> At(s, i).state == Connected
    ensures Core(cfg, s, reserved, {})
    ensures Waiting(s, {}) == Waiting(s, {i}) + if Awaiting(At(s, i)) then {i} else {}
  {
    forall h | h in s.retry && Live(s, h)
      ensures Idle(At(s, h.slot))
    {
      if h.slot == i {
        assert h == HandleOf(s, i);
      }
    }
  }

  lemma RetireAt(s: State, i: nat)
    requires s.pool.Valid() && i in s.pool.occupied
    ensures var t := Retire(s, i);
            && t.pool.Valid() && |t.pool.slots| == |s.pool.slots|
            && t.pool.occupied == s.pool.occupied - {i}
            && t.peers == s.peers - {At(s, i).key}
            && (forall j: nat :: At(t, j) == if j == i then Blank(At(s, i).perrno) else At(s, j))
            && (forall j: nat :: Generation(t, j) == if j == i then Generation(s, i) + 1 else Generation(s, j))
  {
    var stored := s.pool.Stored(i, Blank(At(s, i).perrno));
    assert stored.Valid();
    stored.ReleasedValid(i);
  }

  /** Every handle to a retired slot goes stale; the others are not affected. */
  lemma RetireHandle(s: State, reserved: set<nat>, i: nat, h: Handle)
    requires s.pool.Valid() && i in Registered(s, reserved) && HandleOk(s, reserved, h)
    ensures HandleOk(Retire(s, i), reserved, h)
    ensures h.slot == i ==> !Live(Retire(s, i), h)
    ensures h.slot != i ==> (Live(Retire(s, i), h) <==> Live(s, h))
  {
    RetireAt(s, i);
  }

  lemma RetireSlots(cfg: Config, s: State, reserved: set<nat>, i: nat)
    requires SlotsOk(cfg, s, reserved, {i}) && MapOk(s, reserved)
    requires i in Registered(s, reserved) && At(s, i).perrno != PEER_SHUTDOWN
    ensures SlotsOk(cfg, Retire(s, i), reserved, {}) && MapOk(Retire(s, i), reserved)
    ensures Waiting(Retire(s, i), {}) == Waiting(s, {i})
  {
    RetireAt(s, i);
    assert Registered(Retire(s, i), reserved) == Registered(s, reserved) - {i};
  }

  lemma RetireQueues(s: State, reserved: set<nat>, i: nat)
    requires RetryOk(s, reserved, {i}) && SessionsOk(s, reserved, {i})
    requires s.pool.Valid() && i in Registered(s, reserved)
    ensures RetryOk(Retire(s, i), reserved, {}) && SessionsOk(Retire(s, i), reserved, {})
  {
    RetireAt(s, i);
    var t := Retire(s, i);
    assert Unanswered(t) == Unanswered(s);
    forall h | h in s.retry || h in Unanswered(s)
      ensures HandleOk(t, reserved, h) && (Live(t, h) ==> h.slot != i && Live(s, h))
    {
      RetireHandle(s, reserved, i, h);
    }
    assert Registered(t, reserved) == Registered(s, reserved) - {i};
    assert forall j :: j in Registered(t, reserved) ==> HandleOf(t, j) == HandleOf(s, j);
  }

  /** Deleting a registered peer, in order or not, restores the invariant. */
  lemma RetireKeeps(cfg: Config, s: State, reserved: set<nat>, i: nat)
    requires Core(cfg, s, reserved, {i}) && i in Registered(s, reserved) && At(s, i).perrno != PEER_SHUTDOWN
    ensures Core(cfg, Retire(s, i), reserved, {})
    ensures Waiting(Retire(s, i), {}) == Waiting(s, {i})
  {
    RetireSlots(cfg, s, reserved, i);
    RetireQueues(s, reserved, i);
  }

  lemma AcquireAt(s: State)
    requires s.pool.Valid() && s.pool.free != []
    ensures var slot, t := s.pool.NextSlot(), s.(pool := s.pool.Acquired());
            && slot < |s.pool.slots| && slot !in s.pool.occupied
            && t.pool.Valid() && t.pool.slots == s.pool.slots && t.pool.occupied == s.pool.occupied + {slot}
            && (forall j: nat :: At(t, j) == At(s, j) && Generation(t, j) == Generation(s, j))
  {
    s.pool.AcquiredValid();
  }

  ghost predicate SameSlots(s: State, t: State) {
    && t.pool.slots == s.pool.slots && t.peers == s.peers && t.retry == s.retry && Unanswered(t) == Unanswered(s)
    && (forall j: nat ::
        At(t, j) == At(s, j) && Generation(t, j) == Generation(s, j) && HandleOf(t, j) == HandleOf(s, j))
  }

  lemma AcquiredSame(s: State)
    requires s.pool.Valid() && s.pool.free != []
    ensures var slot, t := s.pool.NextSlot(), s.(pool := s.pool.Acquired());
            SameSlots(s, t) && Registered(t, {slot}) == Registered(s, {})
  {
    AcquireAt(s);
    var slot, t := s.pool.NextSlot(), s.(pool := s.pool.Acquired());
    assert forall j: nat :: HandleOf(t, j) == HandleOf(s, j);
    assert Registered(t, {slot}) == Registered(s, {});
  }

  lemma ReserveSlots(cfg: Config, s: State)
    requires SlotsOk(cfg, s, {}, {}) && s.pool.free != []
    ensures var slot, t := s.pool.NextSlot(), s.(pool := s.pool.Acquired());
            SlotsOk(cfg, t, {slot}, {}) && IsBlank(At(t, slot))
  {
    AcquireAt(s);
    AcquiredSame(s);
    assert IsBlank(At(s, s.pool.NextSlot()));
  }

  lemma ReserveMap(s: State, t: State, reserved: set<nat>)
    requires MapOk(s, {}) && SameSlots(s, t) && Registered(t, reserved) == Registered(s, {})
    ensures MapOk(t, reserved)
  {
  }

  lemma ReserveWaiting(s: State)
    requires s.pool.Valid() && s.pool.free != [] && IsBlank(At(s, s.pool.NextSlot()))
    ensures Waiting(s.(pool := s.pool.Acquired()), {}) == Waiting(s, {})
  {
    AcquireAt(s);
  }

  lemma ReserveRetry(s: State, t: State, reserved: set<nat>)
    requires RetryOk(s, {}, {}) && SameSlots(s, t) && Registered(t, reserved) == Registered(s, {})
    ensures RetryOk(t, reserved, {})
  {
    assert forall h :: HandleOk(s, {}, h) ==> HandleOk(t, reserved, h);
  }

  lemma ReserveSessions(s: State, t: State, reserved: set<nat>)
    requires SessionsOk(s, {}, {}) && SameSlots(s, t) && Registered(t, reserved) == Registered(s, {})
    ensures SessionsOk(t, reserved, {})
  {
    assert forall h :: HandleOk(s, {}, h) ==> HandleOk(t, reserved, h);
  }

  /** Acquiring a slot reserves it: blank, unregistered, and unknown to every live handle. */
  lemma Reserve(cfg: Config, s: State)
    requires Core(cfg, s, {}, {}) && s.pool.free != []
    ensures var slot, t := s.pool.NextSlot(), s.(pool := s.pool.Acquired());
            && Core(cfg, t, {slot}, {}) && slot in t.pool.occupied && IsBlank(At(t, slot))
            && Waiting(t, {}) == Waiting(s, {})
            && Registered(t, {slot}) == Registered(s, {})
  {
    var slot, t := s.pool.NextSlot(), s.(pool := s.pool.Acquired());
    AcquireAt(s);
    AcquiredSame(s);
    ReserveSlots(cfg, s);
    ReserveMap(s, t, {slot});
    ReserveWaiting(s);
    ReserveRetry(s, t, {slot});
    ReserveSessions(s, t, {slot});
  }

  function Registering(s: State, slot: nat, p: Peer): State {
    Put(s, slot, p).(peers := s.peers[p.key := slot])
  }

  lemma FillAt(s: State, reserved: set<nat>, slot: nat, p: Peer)
    requires s.pool.Valid() && slot in s.pool.occupied && reserved == {slot}
    ensures var t := Registering(s, slot, p);
            && t.pool.Valid() && |t.pool.slots| == |s.pool.slots| && t.pool.occupied == s.pool.occupied
            && Registered(t, {}) == Registered(s, reserved) + {slot}
            && (forall j: nat :: At(t, j) == if j == slot then p else At(s, j))
            && (forall j: nat :: Generation(t, j) == Generation(s, j))
            && t.peers == s.peers[p.key := slot] && t.retry == s.retry && Unanswered(t) == Unanswered(s)
  {
    PutAt(s, slot, p);
  }

  lemma FillSlots(cfg: Config, s: State, slot: nat, p: Peer)
    requires SlotsOk(cfg, s, {slot}, {}) && MapOk(s, {slot}) && slot in s.pool.occupied
    requires p.key !in s.peers && PeerOk(cfg, p)
    ensures SlotsOk(cfg, Registering(s, slot, p), {}, {}) && MapOk(Registering(s, slot, p), {})
  {
    FillAt(s, {slot}, slot, p);
    var t := Registering(s, slot, p);
    assert SlotsOk(cfg, t, {}, {});
    forall i | i in Registered(t, {})
      ensures At(t, i).key in t.peers && t.peers[At(t, i).key] == i
    {
    }
  }

  lemma FillHandle(s: State, slot: nat, p: Peer, h: Handle)
    requires s.pool.Valid() && slot in s.pool.occupied && HandleOk(s, {slot}, h)
    ensures HandleOk(Registering(s, slot, p), {}, h)
    ensures Live(Registering(s, slot, p), h) <==> Live(s, h)
    ensures Live(s, h) ==> h.slot != slot
  {
    FillAt(s, {slot}, slot, p);
  }

  lemma FillQueues(cfg: Config, s: State, slot: nat, p: Peer)
    requires Core(cfg, s, {slot}, {}) && slot in s.pool.occupied && p.state != Connected
    ensures var t := Registering(s, slot, p);
            RetryOk(t, {}, {}) && SessionsOk(t, {}, {}) && HandleOf(t, slot) !in t.retry
  {
    FillAt(s, {slot}, slot, p);
    var t := Registering(s, slot, p);
    forall h | h in s.retry || h in Unanswered(s)
      ensures HandleOk(t, {}, h) && (Live(t, h) ==> Live(s, h) && h.slot != slot)
    {
      FillHandle(s, slot, p, h);
    }
    assert Live(t, HandleOf(t, slot));
    assert forall j :: j in Registered(s, {slot}) ==> HandleOf(t, j) == HandleOf(s, j);
  }

  lemma FillWaiting(s: State, slot: nat, p: Peer)
    requires s.pool.Valid() && slot in s.pool.occupied && IsBlank(At(s, slot))
    ensures Waiting(Registering(s, slot, p), {}) == Waiting(s, {}) + (if Awaiting(p) then {slot} else {})
    ensures slot !in Waiting(s, {})
  {
    FillAt(s, {slot}, slot, p);
  }

  /** Filling and registering a reserved slot under a key that is not in use. */
  lemma Fill(cfg: Config, s: State, slot: nat, p: Peer)
    requires Core(cfg, s, {slot}, {}) && p.key !in s.peers && PeerOk(cfg, p) && p.state != Connected
    requires slot in s.pool.occupied
    ensures var t := Registering(s, slot, p);
            && Core(cfg, t, {}, {}) && slot in Registered(t, {}) && At(t, slot) == p
            && HandleOf(t, slot) !in t.retry
            && Waiting(t, {}) == Waiting(s, {}) + (if Awaiting(p) then {slot} else {})
            && slot !in Waiting(s, {})
  {
    FillSlots(cfg, s, slot, p);
    FillQueues(cfg, s, slot, p);
    FillWaiting(s, slot, p);
    FillAt(s, {slot}, slot, p);
  }

  lemma PutBackAt(cfg: Config, s: State)
    requires s.pool.Valid() && s.pool.free != []
    ensures var slot, t := s.pool.NextSlot(), PutBack(s);
            && t.pool.Valid() && |t.pool.slots| == |s.pool.slots| && t.pool.occupied == s.pool.occupied
            && slot !in s.pool.occupied
            && (forall j: nat :: At(t, j) == At(s, j))
            && (forall j: nat :: Generation(t, j) == if j == slot then Generation(s, j) + 1 else Generation(s, j))
            && t.peers == s.peers && t.retry == s.retry && Unanswered(t) == Unanswered(s)
  {
    s.pool.AcquiredValid();
    s.pool.Acquired().ReleasedValid(s.pool.NextSlot());
  }

  lemma PutBackHandle(cfg: Config, s: State, h: Handle)
    requires s.pool.Valid() && s.pool.free != [] && HandleOk(s, {}, h)
    ensures HandleOk(PutBack(s), {}, h) && (Live(PutBack(s), h) <==> Live(s, h))
  {
    PutBackAt(cfg, s);
  }

  /** A slot acquired for a duplicate goes straight back, one generation older. */
  lemma PutBackKeeps(cfg: Config, s: State)
    requires Core(cfg, s, {}, {}) && s.pool.free != []
    ensures Core(cfg, PutBack(s), {}, {}) && Waiting(PutBack(s), {}) == Waiting(s, {})
  {
    PutBackAt(cfg, s);
    var t := PutBack(s);
    assert SlotsOk(cfg, t, {}, {});
    assert MapOk(t, {});
    forall h | h in s.retry || h in Unanswered(s)
      ensures HandleOk(t, {}, h) && (Live(t, h) <==> Live(s, h))
    {
      PutBackHandle(cfg, s, h);
    }
    assert forall j :: j in Registered(s, {}) ==> HandleOf(t, j) == HandleOf(s, j);
  }
}
