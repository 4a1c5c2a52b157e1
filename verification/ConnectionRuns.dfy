/** The manager's promises over every run: any number of slots, any events, any answers of the kernel. */
module ConnectionRuns {
  import opened Handshake
  import opened Transport
  import opened Peers
  import opened ConnectionModel
  import opened ConnectionInvariant
  import opened ConnectionSteps

  /** One event; a watcher that is not armed does not fire. */
  function Step(cfg: Config, s: State, e: Event): (t: State) {
    if Enabled(s, e) then Apply(cfg, s, e) else s
  }

  function Run(cfg: Config, s: State, events: seq<Event>): (t: State)
    decreases |events|
  {
    if events == [] then s else Run(cfg, Step(cfg, s, events[0]), events[1..])
  }

  /** The state a manager with `slots` slots is in after some events. */
  function After(cfg: Config, slots: nat, events: seq<Event>): (t: State) {
    Run(cfg, Initial(slots), events)
  }

  lemma StepInv(cfg: Config, s: State, e: Event)
    requires Inv(cfg, s)
    ensures Inv(cfg, Step(cfg, s, e))
  {
    if Enabled(s, e) {
      ApplyKeeps(cfg, s, e);
    }
  }

  lemma {:induction false} RunKeeps(cfg: Config, s: State, events: seq<Event>)
    requires Inv(cfg, s)
    ensures Inv(cfg, Run(cfg, s, events))
    decreases |events|
  {
    if events != [] {
      StepInv(cfg, s, events[0]);
      RunKeeps(cfg, Step(cfg, s, events[0]), events[1..]);
    }
  }

  /** The invariant holds after every run. */
  lemma Reachable(cfg: Config, slots: nat, events: seq<Event>)
    ensures Inv(cfg, After(cfg, slots, events))
  {
    InitialInv(cfg, slots);
    RunKeeps(cfg, Initial(slots), events);
  }

  lemma {:induction false} RunAppends(cfg: Config, s: State, first: seq<Event>, second: seq<Event>)
    ensures Run(cfg, s, first + second) == Run(cfg, Run(cfg, s, first), second)
    decreases |first|
  {
    if first == [] {
      assert [] + second == second;
    } else {
      assert (first + second)[1..] == first[1..] + second && (first + second)[0] == first[0];
      RunAppends(cfg, Step(cfg, s, first[0]), first[1..], second);
    }
  }

  // ---------------------------------------------------------------------------
  // Registry and pool
  // ---------------------------------------------------------------------------

  /** A map that is one-to-one onto a set has as many keys as the set has members. */
  lemma {:induction false} BijectionSize(s: State, m: map<Address, nat>, slots: set<nat>)
    requires forall k :: k in m ==> m[k] in slots && At(s, m[k]).key == k
    requires forall i :: i in slots ==> At(s, i).key in m && m[At(s, i).key] == i
    ensures |m| == |slots|
    decreases |slots|
  {
    if slots == {} {
      assert m.Keys == {};
    } else {
      var i :| i in slots;
      var rest := m - {At(s, i).key};
      BijectionSize(s, rest, slots - {i});
      assert m.Keys == rest.Keys + {At(s, i).key};
    }
  }

  /** Registered keys and occupied slots are in bijection, and the pool's active count is the map's size. */
  lemma RegistryIsPool(cfg: Config, slots: nat, events: seq<Event>)
    ensures var s := After(cfg, slots, events);
            && (forall k :: k in s.peers ==> s.peers[k] in s.pool.occupied && At(s, s.peers[k]).key == k)
            && (forall i :: i in s.pool.occupied ==> At(s, i).key in s.peers && s.peers[At(s, i).key] == i)
            && (forall i :: i in s.pool.occupied ==> i !in s.pool.free)
            && s.pool.Active() == |s.peers|
  {
    Reachable(cfg, slots, events);
    var s := After(cfg, slots, events);
    assert Registered(s, {}) == s.pool.occupied;
    BijectionSize(s, s.peers, s.pool.occupied);
  }

  // ---------------------------------------------------------------------------
  // Counters, queues and assertions
  // ---------------------------------------------------------------------------

  /** No assertion of the modelled code fails, no update is dropped, and the outbound count never underflows. */
  lemma NoFaultEver(cfg: Config, slots: nat, events: seq<Event>)
    ensures After(cfg, slots, events).faults == {}
  {
    Reachable(cfg, slots, events);
  }

  /**
   * The connect queue holds at most as many updates as peers are counted connected, which the quota bounds by the
   * queue's capacity; whenever another peer may be dispatched there is room for its update.
   */
  lemma DispatchNeverDropped(cfg: Config, slots: nat, events: seq<Event>)
    ensures var s := After(cfg, slots, events);
            && |s.connects| <= s.connected <= 50 && |s.disconnects| <= s.connected
            && (s.connected < 50 ==> |s.connects| < UPDATE_QUEUE_SIZE && |s.disconnects| < UPDATE_QUEUE_SIZE)
  {
    Reachable(cfg, slots, events);
    var s := After(cfg, slots, events);
    assert |Unanswered(s)| <= s.connected;
    assert |multiset(s.connects)| == |s.connects| && |multiset(Handles(s.disconnects))| == |s.disconnects|;
  }

  ghost function ConnectedSlots(s: State): set<nat> {
    set i | i in s.pool.occupied && At(s, i).state == Connected
  }

  /** A slot is connected exactly when one update about its current generation is unanswered, and then exactly one. */
  lemma ConnectedIffUnanswered(cfg: Config, slots: nat, events: seq<Event>, i: nat)
    ensures var s := After(cfg, slots, events);
            i in s.pool.occupied ==>
              (At(s, i).state == Connected <==> Unanswered(s)[HandleOf(s, i)] == 1)
              && (At(s, i).state != Connected <==> Unanswered(s)[HandleOf(s, i)] == 0)
  {
    Reachable(cfg, slots, events);
    var s := After(cfg, slots, events);
    if i in s.pool.occupied {
      assert i in Registered(s, {});
    }
  }

  lemma {:induction false} HandlesCount(s: State, slots: set<nat>, m: multiset<Handle>)
    requires forall i :: i in slots ==> HandleOf(s, i) in m
    ensures |slots| <= |m|
    decreases |slots|
  {
    if slots != {} {
      var i :| i in slots;
      var rest := m - multiset{HandleOf(s, i)};
      assert |m| == |rest| + 1;
      assert forall j :: j in slots && j != i ==> HandleOf(s, j) != HandleOf(s, i);
      HandlesCount(s, slots - {i}, rest);
      assert |slots| == |slots - {i}| + 1;
    }
  }

  /** The connected count never falls below the number of slots that are connected. */
  lemma ConnectedCountIsEnough(cfg: Config, slots: nat, events: seq<Event>)
    ensures var s := After(cfg, slots, events);
            |ConnectedSlots(s)| <= s.connected <= 50
  {
    Reachable(cfg, slots, events);
    var s := After(cfg, slots, events);
    assert Registered(s, {}) == s.pool.occupied;
    HandlesCount(s, ConnectedSlots(s), Unanswered(s));
  }

  /** Accepted peers still in their handshake are covered by the outbound count, and that by its limit. */
  lemma OutboundCovers(cfg: Config, slots: nat, events: seq<Event>)
    ensures var s := After(cfg, slots, events);
            |Waiting(s, {})| <= s.outbound <= 15
  {
    Reachable(cfg, slots, events);
  }

  // ---------------------------------------------------------------------------
  // The handshake order
  // ---------------------------------------------------------------------------

  /**
   * A connected peer sent 68 bytes with the expected length byte and info hash, and is known by the last 20 of
   * them; and this attempt had put the whole handshake on the wire exactly when its connect() was asynchronous.
   */
  lemma ConnectedOnlyAfterHandshake(cfg: Config, slots: nat, events: seq<Event>, i: nat)
    ensures var s := After(cfg, slots, events);
            var p := At(s, i);
            p.state == Connected ==>
              && i in s.pool.occupied
              && |p.attempt.received| == 68
              && p.attempt.received[0] == 19
              && p.attempt.received[28..48] == cfg.infoHash
              && p.peerId == p.attempt.received[48..68]
              && (p.attempt.sent == cfg.Greeting() <==> !p.attempt.immediate)
              && LaidOut(cfg.Greeting(), cfg.infoHash)
              && (p.attempt.sent == [] <==> p.attempt.immediate)
  {
    Reachable(cfg, slots, events);
    var s := After(cfg, slots, events);
    var p := At(s, i);
    if p.state == Connected {
      GreetingLaidOut(cfg.infoHash);
      assert i in Registered(s, {});
      assert PeerOk(cfg, p) && |cfg.Greeting()| == LENGTH;
    }
  }

  /** What teardown leaves, field by field. */
  predicate BlankFields(p: Peer) {
    && p.key == Address(0, 0) && p.state == Unset && p.source == Unknown && p.failures == 0
    && p.interest == Quiet && !p.timer && p.recvBuf == [] && p.sendBuf == [] && p.cursor == 0
    && p.peerId == seq(20, _ => 0)
  }

  /** A slot out of use holds nothing of its last peer but the last error code, and no handle to it is live. */
  lemma FreeSlotsAreBlank(cfg: Config, slots: nat, events: seq<Event>, i: nat)
    ensures var s := After(cfg, slots, events);
            i < |s.pool.slots| && i !in s.pool.occupied ==>
              && BlankFields(At(s, i))
              && HandleOf(s, i) !in s.retry && HandleOf(s, i) !in Unanswered(s)
  {
    Reachable(cfg, slots, events);
    var s := After(cfg, slots, events);
    if i < |s.pool.slots| && i !in s.pool.occupied {
      assert i !in Registered(s, {}) && IsBlank(At(s, i));
      assert Live(s, HandleOf(s, i));
    }
  }

  /** Between callbacks the receive buffer of every peer has room, so a receive never mistakes "full" for a shutdown. */
  lemma ReceiveBufferHasRoom(cfg: Config, slots: nat, events: seq<Event>, i: nat)
    ensures var p := At(After(cfg, slots, events), i);
            |p.recvBuf| < 68 && |p.sendBuf| <= 68 && p.perrno != PEER_SHUTDOWN
  {
    Reachable(cfg, slots, events);
    var s := After(cfg, slots, events);
    if i in Registered(s, {}) {
      var p := At(s, i);
      assert PeerOk(cfg, p);
      if p.state == Handshaking && p.sendBuf != [] {
        assert |p.attempt.sent + p.sendBuf| == |p.attempt.sent| + |p.sendBuf|;
      }
    }
  }
}
