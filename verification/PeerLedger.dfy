/**
 * The books the manager's counters should keep, over every run: what each count owes to the peers in the slots, to
 * superseding accepts and to attempts given up uncounted; and that every peer is on somebody's list.
 */
module PeerLedger {
  import opened Peers
  import opened Handshake
  import opened ConnectionModel
  import opened ConnectionInvariant
  import opened ConnectionSteps
  import opened ConnectionRuns
  import opened PeerLifecycle

  // ---------------------------------------------------------------------------
  // Counting peers
  // ---------------------------------------------------------------------------

  ghost function Select(s: State, f: Peer -> bool): set<nat> {
    set i | i in s.pool.occupied && f(At(s, i))
  }

  function One(b: bool): nat {
    if b then 1 else 0
  }

  lemma SelectMoved(s: State, t: State, i: nat, f: Peer -> bool)
    requires OnlySlot(s, t, i)
    ensures |Select(t, f)| == |Select(s, f)| - One(i in Select(s, f)) + One(i in Select(t, f))
  {
    assert Select(t, f) - {i} == Select(s, f) - {i} by {
      forall j: nat | j != i
        ensures j in Select(t, f) <==> j in Select(s, f)
      {
        assert SameElsewhere(s, t, j);
      }
    }
    assert |Select(s, f)| == |Select(s, f) - {i}| + One(i in Select(s, f));
    assert |Select(t, f)| == |Select(t, f) - {i}| + One(i in Select(t, f));
  }

  predicate IsConnected(p: Peer) {
    p.state == Connected
  }

  /** A connection attempt of ours is under way. */
  predicate IsInFlight(p: Peer) {
    p.source == Tracker && p.interest != Quiet
  }

  ghost function Established(s: State): nat {
    |Select(s, IsConnected)|
  }

  ghost function InFlight(s: State): nat {
    |Select(s, IsInFlight)|
  }

  // ---------------------------------------------------------------------------
  // The books
  // ---------------------------------------------------------------------------

  const WRAP: nat := 0x1_0000_0000_0000_0000

  /** A size_t that has been counted up and down to v, with m wrap-arounds. */
  predicate WrapsTo(n: nat, v: int, m: int) {
    n == v + m * WRAP && n <= SIZE_MAX
  }

  ghost predicate SizeT(n: nat, v: int) {
    exists m: int :: WrapsTo(n, v, m)
  }

  lemma SizeTUp(n: nat, v: int)
    requires SizeT(n, v)
    ensures SizeT(Up(n), v + 1)
  {
    var m: int :| WrapsTo(n, v, m);
    assert WrapsTo(Up(n), v + 1, if n == SIZE_MAX then m - 1 else m);
  }

  lemma SizeTDown(n: nat, v: int)
    requires SizeT(n, v)
    ensures SizeT(Down(n), v - 1)
  {
    var m: int :| WrapsTo(n, v, m);
    assert WrapsTo(Down(n), v - 1, if n == 0 then m + 1 else m);
  }

  lemma SizeTSettled(n: nat, v: int, n': nat, v': int, settles: bool)
    requires SizeT(n, v) && n' == (if settles then Down(n) else n) && v' == if settles then v - 1 else v
    ensures SizeT(n', v')
  {
    if settles {
      SizeTDown(n, v);
    }
  }

  /** Below the limit a size_t cannot belong to a larger number within the limit. */
  lemma SizeTRoom(n: nat, v: int)
    requires SizeT(n, v) && v <= MAX_INBOUND_INFLIGHT && n < MAX_INBOUND_INFLIGHT
    ensures v < MAX_INBOUND_INFLIGHT
  {
  }

  lemma SizeTIsRemainder(n: nat, v: int)
    requires SizeT(n, v)
    ensures n == v % WRAP
  {
    var m: int :| WrapsTo(n, v, m);
  }

  /**
   * The peer is on a list: the transfer side's, the timers' or the retry queue's. Whether the retries are ever served
   * is another matter.
   */
  ghost predicate Listed(s: State, i: nat) {
    var p := At(s, i);
    || p.state == Connected
    || (p.timer && (p.interest != Quiet || p.state == Failed))
    || (p.state == Failed && p.interest == Quiet && HandleOf(s, i) in s.retry)
  }

  /**
   * `inbound` differs from the attempts under way by x, in size_t arithmetic, and `connected` from the established
   * peers by y; and every peer is listed.
   */
  ghost predicate Books(s: State, x: int, y: int) {
    InboundOwes(s, x) && s.connected == Established(s) + y && AllListed(s)
  }

  ghost predicate InboundOwes(s: State, x: int) {
    SizeT(s.inbound, InFlight(s) + x) && InFlight(s) + x <= MAX_INBOUND_INFLIGHT
  }

  ghost predicate AllListed(s: State) {
    forall i :: i in s.pool.occupied ==> Listed(s, i)
  }

  // ---------------------------------------------------------------------------
  // One peer's callback
  // ---------------------------------------------------------------------------

  /** An attempt of ours that ends without `inbound` being decremented. */
  predicate Leaks(p: Peer, turnout: Turnout) {
    IsInFlight(p) && (turnout == Drops || turnout == Requeues)
  }

  lemma EffectInbound(s: State, t: State, i: nat, turnout: Turnout, x: int)
    requires Effect(s, t, i, turnout) && i in s.pool.occupied
    requires At(s, i).source == Tracker || At(s, i).source == TcpServer
    requires turnout != Requeues ==> At(s, i).interest != Quiet
    requires InboundOwes(s, x)
    ensures InboundOwes(t, x + One(Leaks(At(s, i), turnout)))
  {
    SelectMoved(s, t, i, IsInFlight);
    SizeTDown(s.inbound, InFlight(s) + x);
  }

  lemma EffectConnected(s: State, t: State, i: nat, turnout: Turnout)
    requires Effect(s, t, i, turnout) && i in s.pool.occupied && At(s, i).state != Connected && s.connected < SIZE_MAX
    ensures t.connected - Established(t) == s.connected - Established(s)
  {
    SelectMoved(s, t, i, IsConnected);
  }

  lemma EffectListed(s: State, t: State, i: nat, turnout: Turnout)
    requires Effect(s, t, i, turnout) && i in s.pool.occupied
    requires turnout == Waits ==> At(s, i).timer
    requires turnout == Requeues ==> At(s, i).state == Failed
    requires AllListed(s)
    ensures AllListed(t)
  {
    forall j | j in t.pool.occupied
      ensures Listed(t, j)
    {
      if j != i {
        assert SameElsewhere(s, t, j) && Listed(s, j);
      } else {
        assert HandleOf(t, i) == HandleOf(s, i);
      }
    }
  }

  /** A peer a watcher callback may be called for. */
  ghost predicate Handleable(s: State, i: nat, turnout: Turnout) {
    && i in s.pool.occupied && At(s, i).state != Connected && s.connected < SIZE_MAX
    && (At(s, i).source == Tracker || At(s, i).source == TcpServer)
    && (turnout != Requeues ==> At(s, i).interest != Quiet)
    && (turnout == Requeues ==> At(s, i).state == Failed)
  }

  lemma EffectBooks(s: State, t: State, i: nat, turnout: Turnout, x: int, y: int, x': int)
    requires Books(s, x, y) && Effect(s, t, i, turnout) && Handleable(s, i, turnout)
    requires x' == x + One(Leaks(At(s, i), turnout))
    ensures Books(t, x', y)
  {
    assert Listed(s, i);
    EffectInbound(s, t, i, turnout, x);
    EffectConnected(s, t, i, turnout);
    EffectListed(s, t, i, turnout);
  }

  // ---------------------------------------------------------------------------
  // The scheduler
  // ---------------------------------------------------------------------------

  lemma TriedInbound(s: State, t: State, item: Item, fate: Fate, i: nat, x: int)
    requires Tried(s, t, item, fate, i) && s.inbound < MAX_INBOUND_INFLIGHT
    requires i in s.pool.occupied && fate != Stale ==> At(s, i).interest == Quiet
    requires InboundOwes(s, x)
    ensures InboundOwes(t, x)
  {
    SelectMoved(s, t, i, IsInFlight);
    SizeTRoom(s.inbound, InFlight(s) + x);
    SizeTUp(s.inbound, InFlight(s) + x);
  }

  lemma TriedConnected(s: State, t: State, item: Item, fate: Fate, i: nat)
    requires Tried(s, t, item, fate, i)
    requires fate != Stale && i in s.pool.occupied ==> (item.FromTransfer? <==> At(s, i).state == Connected)
    requires fate != Stale && item.FromTransfer? ==> i in s.pool.occupied && s.connected > 0
    ensures t.connected - Established(t) == s.connected - Established(s)
  {
    SelectMoved(s, t, i, IsConnected);
  }

  lemma TriedListed(s: State, t: State, item: Item, fate: Fate, i: nat, j: nat)
    requires Tried(s, t, item, fate, i) && j in t.pool.occupied && (j != i || fate == Stale ==> Listed(s, j))
    ensures Listed(t, j)
  {
    if j != i {
      assert SameElsewhere(s, t, j);
    }
  }

  /** A popped item leaves every other peer listed. */
  lemma PoppedListed(s: State, spot: Spot, j: nat)
    requires Listed(s, j) && Pending(s, spot) > 0
    ensures var (s1, item) := Pop(s, spot); !Retries(s, item, j) ==> Listed(s1, j)
  {
    var (s1, item) := Pop(s, spot);
    assert At(s1, j) == At(s, j) && HandleOf(s1, j) == HandleOf(s, j);
    if item.FromRetry? {
      assert s.retry == [item.handle] + s1.retry;
    }
  }

  predicate Retries(s: State, item: Item, j: nat) {
    item.FromRetry? && item.handle == HandleOf(s, j)
  }

  lemma PoppedSlot(cfg: Config, s: State, spot: Spot)
    requires Inv(cfg, s) && Pending(s, spot) > 0 && (spot == DiscoveredSpot ==> s.pool.free != [])
    ensures var (s1, item) := Pop(s, spot);
            && (!item.FromTracker? && Live(s1, item.handle) ==>
                 && item.handle.slot in s1.pool.occupied && At(s1, item.handle.slot).interest == Quiet
                 && (item.FromTransfer? <==> At(s1, item.handle.slot).state == Connected)
                 && (item.FromTransfer? ==> s1.connected > 0))
            && (item.FromTracker? ==> s1.pool.free != [] && s1.pool.NextSlot() !in s1.pool.occupied)
  {
    match spot
    case DiscoveredSpot => AcquireAt(s);
    case DisconnectedSpot =>
      PoppedReport(cfg, s);
      if Live(s, s.disconnects[0].handle) {
        assert s.disconnects[0].handle.slot in Registered(s, {});
      }
    case FailedSpot => PoppedRetry(cfg, s);
  }

  lemma SamePool(s: State, t: State)
    requires t.pool == s.pool
    ensures InFlight(t) == InFlight(s) && Established(t) == Established(s)
  {
    assert Select(t, IsInFlight) == Select(s, IsInFlight) && Select(t, IsConnected) == Select(s, IsConnected);
  }

  /** What trying an item relies on. */
  ghost predicate Triable(s: State, item: Item, fate: Fate, i: nat) {
    && (i in s.pool.occupied && fate != Stale ==>
         At(s, i).interest == Quiet && (item.FromTransfer? <==> At(s, i).state == Connected))
    && (fate != Stale && item.FromTransfer? ==> i in s.pool.occupied && s.connected > 0)
    && (item.FromRetry? && Live(s, item.handle) ==> i == item.handle.slot && fate != Stale)
  }

  lemma AllTriable(cfg: Config, s: State, spot: Spot, s1: State, item: Item, t: State, fate: Fate)
    requires Inv(cfg, s) && Pending(s, spot) > 0 && (spot == DiscoveredSpot ==> s.pool.free != [])
    requires Pop(s, spot) == (s1, item) && Try(cfg, s1, item) == (t, fate)
    ensures item.FromTracker? ==> s1.pool.free != []
    ensures Tried(s1, t, item, fate, SlotOf(s1, item)) && Triable(s1, item, fate, SlotOf(s1, item))
  {
    TryEffect(cfg, s, spot);
    PoppedSlot(cfg, s, spot);
  }

  lemma TryBooks(cfg: Config, s: State, spot: Spot, x: int, y: int, s1: State, item: Item, t: State, fate: Fate)
    requires Inv(cfg, s) && Books(s, x, y) && s.inbound < MAX_INBOUND_INFLIGHT
    requires Pending(s, spot) > 0 && (spot == DiscoveredSpot ==> s.pool.free != [])
    requires Pop(s, spot) == (s1, item) && Try(cfg, s1, item) == (t, fate)
    ensures Books(t, x, y)
  {
    AllTriable(cfg, s, spot, s1, item, t, fate);
    TriedBooks(s, spot, x, y, s1, item, t, fate, SlotOf(s1, item));
  }

  lemma TriedBooks(s: State, spot: Spot, x: int, y: int, s1: State, item: Item, t: State, fate: Fate, i: nat)
    requires Books(s, x, y) && s.inbound < MAX_INBOUND_INFLIGHT && Pending(s, spot) > 0 && Pop(s, spot) == (s1, item)
    requires Tried(s1, t, item, fate, i) && Triable(s1, item, fate, i) && s.pool.Valid()
    ensures Books(t, x, y)
  {
    SamePool(s, s1);
    TriedInbound(s1, t, item, fate, i, x);
    TriedConnected(s1, t, item, fate, i);
    TryLists(s, spot, s1, item, t, fate, i);
  }

  lemma TryLists(s: State, spot: Spot, s1: State, item: Item, t: State, fate: Fate, i: nat)
    requires AllListed(s) && Pending(s, spot) > 0 && Pop(s, spot) == (s1, item) && Tried(s1, t, item, fate, i)
    requires item.FromRetry? && Live(s1, item.handle) ==> i == item.handle.slot && fate != Stale
    requires s.pool.Valid()
    ensures AllListed(t)
  {
    forall j | j in t.pool.occupied
      ensures Listed(t, j)
    {
      if j != i || fate == Stale {
        assert j != i ==> SameElsewhere(s1, t, j);
        PoppedListed(s, spot, j);
      }
      TriedListed(s1, t, item, fate, i, j);
    }
  }

  lemma {:induction false} DrainBooks(cfg: Config, s: State, spot: Spot, x: int, y: int)
    requires Inv(cfg, s) && Books(s, x, y) && s.inbound < MAX_INBOUND_INFLIGHT
    requires spot == DiscoveredSpot ==> s.pool.free != []
    ensures Books(DrainLoop(cfg, s, spot).state, x, y)
    decreases Pending(s, spot)
  {
    if Pending(s, spot) > 0 {
      var (s1, item) := Pop(s, spot);
      TryFrame(cfg, s1, item);
      TryKeeps(cfg, s, spot);
      var (s2, fate) := Try(cfg, s1, item);
      TryBooks(cfg, s, spot, x, y, s1, item, s2, fate);
      if fate != Attempted {
        if spot == DiscoveredSpot {
          InvFrame(cfg, s, s1);
          DiscoveryReturnsSlot(cfg, s1, item.address);
        }
        DrainBooks(cfg, s2, spot, x, y);
      }
    }
  }

  lemma BooksFrame(s: State, t: State, x: int, y: int)
    requires Books(s, x, y) && t.pool == s.pool && t.retry == s.retry && t.inbound == s.inbound
    requires t.connected == s.connected
    ensures Books(t, x, y)
  {
    SamePool(s, t);
    forall i | i in t.pool.occupied
      ensures Listed(t, i)
    {
      assert Listed(s, i) && At(t, i) == At(s, i) && HandleOf(t, i) == HandleOf(s, i);
    }
  }

  lemma TurnBooks(cfg: Config, s: State, x: int, y: int)
    requires Inv(cfg, s) && Books(s, x, y) && s.inbound < MAX_INBOUND_INFLIGHT
    ensures Books(Turn(cfg, s).state, x, y) && Books(Turn(cfg, s).state.(current := NextSpot(s.current)), x, y)
  {
    var d := DrainSpot(cfg, s, s.current);
    if s.current != DiscoveredSpot || s.pool.free != [] {
      DrainBooks(cfg, s, s.current, x, y);
    }
    var t := Turn(cfg, s).state;
    BooksFrame(d.state, t, x, y);
    BooksFrame(t, t.(current := NextSpot(s.current)), x, y);
  }

  lemma {:induction false} WakeUpBooks(cfg: Config, s: State, x: int, y: int)
    requires Inv(cfg, s) && Books(s, x, y)
    ensures Books(RoundRobin(cfg, s).0, x, y)
    decreases Room(s), UnsetFlags(s.empties), Distance(s.current, s.empties)
  {
    if s.inbound < MAX_INBOUND_INFLIGHT {
      TurnProgress(cfg, s);
      TurnKeeps(cfg, s);
      TurnBooks(cfg, s, x, y);
      var t := Turn(cfg, s).state;
      if !AllEmpty(t.empties) {
        WakeUpBooks(cfg, t.(current := NextSpot(s.current)), x, y);
      }
    }
  }

  // ---------------------------------------------------------------------------
  // Accepting
  // ---------------------------------------------------------------------------

  /** The address is registered for an established peer. */
  predicate TakesOverConnected(s: State, address: Address) {
    address in s.peers && At(s, s.peers[address]).state == Connected
  }

  /** The address is registered for a tracker peer that is neither established nor in flight: it waits for a retry. */
  predicate TakesOverQuiet(s: State, address: Address) {
    ReplacesPending(s, address) && At(s, s.peers[address]).source == Tracker
    && At(s, s.peers[address]).interest == Quiet
  }

  /** The old peer of the address counts no longer, the new one does. */
  lemma AcceptedSelect(s: State, t: State, address: Address, slot: nat, f: Peer -> bool, gone: set<nat>, more: set<nat>)
    requires Admitted(s, t, address, slot) && (address in s.peers ==> s.peers[address] in s.pool.occupied)
    requires gone == (if address in s.peers && f(At(s, s.peers[address])) then {s.peers[address]} else {})
    requires more == if f(At(t, slot)) then {slot} else {}
    ensures |Select(t, f)| == |Select(s, f)| + |more| - |gone|
  {
    AcceptedSet(s, t, address, slot, f, gone, more);
    assert more !! Select(s, f) && gone <= Select(s, f);
    assert |Select(s, f) - gone + more| == |Select(s, f) - gone| + |more|;
  }

  lemma AcceptedSet(s: State, t: State, address: Address, slot: nat, f: Peer -> bool, gone: set<nat>, more: set<nat>)
    requires Admitted(s, t, address, slot) && (address in s.peers ==> s.peers[address] in s.pool.occupied)
    requires gone == (if address in s.peers && f(At(s, s.peers[address])) then {s.peers[address]} else {})
    requires more == if f(At(t, slot)) then {slot} else {}
    ensures Select(t, f) == Select(s, f) - gone + more
  {
    forall j: nat
      ensures j in Select(t, f) <==> j in Select(s, f) - gone + more
    {
      AcceptedMember(s, t, address, slot, f, gone, more, j);
    }
  }

  lemma AcceptedMember(s: State, t: State, address: Address, slot: nat, f: Peer -> bool,
      gone: set<nat>, more: set<nat>, j: nat)
    requires Admitted(s, t, address, slot) && (address in s.peers ==> s.peers[address] in s.pool.occupied)
    requires gone == (if address in s.peers && f(At(s, s.peers[address])) then {s.peers[address]} else {})
    requires more == if f(At(t, slot)) then {slot} else {}
    ensures j in Select(t, f) <==> j in Select(s, f) - gone + more
  {
    AcceptedAt(s, t, address, slot, f, j);
  }

  lemma AcceptedAt(s: State, t: State, address: Address, slot: nat, f: Peer -> bool, j: nat)
    requires Admitted(s, t, address, slot)
    ensures j == slot ==> (j in Select(t, f) <==> f(At(t, slot)))
    ensures j != slot && j in Superseded(s, address) ==> j !in Select(t, f)
    ensures j != slot && j !in Superseded(s, address) ==> (j in Select(t, f) <==> j in Select(s, f))
  {
    if j != slot && j !in Superseded(s, address) {
      assert SameElsewhere(s, t, j);
    }
  }

  /** What a registered address leads to. */
  ghost predicate KnownPeer(s: State, address: Address) {
    address in s.peers ==>
      var p := At(s, s.peers[address]);
      && s.peers[address] in s.pool.occupied && (p.source == Tracker || p.source == TcpServer)
      && (p.state == Connected ==> p.interest == Quiet)
  }

  lemma AllKnown(cfg: Config, s: State, address: Address)
    requires Inv(cfg, s)
    ensures KnownPeer(s, address)
  {
    if address in s.peers {
      assert s.peers[address] in Registered(s, {}) && PeerOk(cfg, At(s, s.peers[address]));
    }
  }

  lemma AcceptedFlights(s: State, t: State, address: Address, slot: nat)
    requires KnownPeer(s, address) && Admitted(s, t, address, slot)
    ensures InFlight(t) == InFlight(s) - One(address in s.peers && IsInFlight(At(s, s.peers[address])))
  {
    var gone := if address in s.peers && IsInFlight(At(s, s.peers[address])) then {s.peers[address]} else {};
    AcceptedSelect(s, t, address, slot, IsInFlight, gone, {});
  }

  lemma AcceptedSettles(s: State, t: State, address: Address, slot: nat)
    requires KnownPeer(s, address) && Admitted(s, t, address, slot)
    ensures var settles := TakesOverQuiet(s, address) || (address in s.peers && IsInFlight(At(s, s.peers[address])));
            t.inbound == if settles then Down(s.inbound) else s.inbound
    ensures TakesOverQuiet(s, address) ==> !IsInFlight(At(s, s.peers[address]))
  {
  }

  lemma AcceptedInbound(s: State, t: State, address: Address, slot: nat, x: int, x': int)
    requires KnownPeer(s, address) && InboundOwes(s, x) && Admitted(s, t, address, slot)
    requires x' == x - One(TakesOverQuiet(s, address))
    ensures InboundOwes(t, x')
  {
    AcceptedFlights(s, t, address, slot);
    AcceptedSettles(s, t, address, slot);
    var flies := address in s.peers && IsInFlight(At(s, s.peers[address]));
    OwesSettled(s, t, x, x', TakesOverQuiet(s, address), flies);
  }

  lemma OwesSettled(s: State, t: State, x: int, x': int, quiet: bool, flies: bool)
    requires InboundOwes(s, x) && x' == x - One(quiet) && InFlight(t) == InFlight(s) - One(flies) && !(quiet && flies)
    requires t.inbound == if quiet || flies then Down(s.inbound) else s.inbound
    ensures InboundOwes(t, x')
  {
    SizeTSettled(s.inbound, InFlight(s) + x, t.inbound, InFlight(t) + x', quiet || flies);
  }

  lemma AcceptedConnected(s: State, t: State, address: Address, slot: nat)
    requires KnownPeer(s, address) && Admitted(s, t, address, slot)
    ensures t.connected - Established(t) == s.connected - Established(s) + One(TakesOverConnected(s, address))
  {
    var gone := if address in s.peers && IsConnected(At(s, s.peers[address])) then {s.peers[address]} else {};
    AcceptedSelect(s, t, address, slot, IsConnected, gone, {});
  }

  lemma AcceptedBooks(s: State, t: State, address: Address, slot: nat, x: int, y: int, x': int, y': int)
    requires KnownPeer(s, address) && Books(s, x, y) && Admitted(s, t, address, slot)
    requires x' == x - One(TakesOverQuiet(s, address)) && y' == y + One(TakesOverConnected(s, address))
    ensures Books(t, x', y')
  {
    AcceptedInbound(s, t, address, slot, x, x');
    AcceptedConnected(s, t, address, slot);
    forall j | j in t.pool.occupied
      ensures Listed(t, j)
    {
      if j != slot {
        assert SameElsewhere(s, t, j) && Listed(s, j);
      }
    }
  }

  /** How many of the arrivals the accept loop takes are take-overs of one kind. */
  ghost function TakeOvers(s: State, arrivals: seq<AcceptOutcome>, kind: (State, Address) -> bool): nat
    decreases |arrivals|
  {
    if arrivals == [] || QuotaMet(s) || s.outbound >= MAX_OUTBOUND_INFLIGHT then 0
    else
      var (s1, again) := Accept(s, arrivals[0]);
      One(arrivals[0].Incoming? && s.pool.free != [] && kind(s, arrivals[0].address))
      + (if again then TakeOvers(s1, arrivals[1..], kind) else 0)
  }

  lemma AcceptBooks(cfg: Config, s: State, address: Address, x: int, y: int, x': int, y': int)
    requires Inv(cfg, s) && Books(s, x, y) && s.pool.free != [] && s.outbound < MAX_OUTBOUND_INFLIGHT
    requires x' == x - One(TakesOverQuiet(s, address)) && y' == y + One(TakesOverConnected(s, address))
    ensures Books(AcceptIncoming(s, address), x', y')
  {
    AcceptEffect(cfg, s, address);
    AllKnown(cfg, s, address);
    AcceptedBooks(s, AcceptIncoming(s, address), address, s.pool.NextSlot(), x, y, x', y');
  }

  lemma TakeOversNext(s: State, arrivals: seq<AcceptOutcome>, kind: (State, Address) -> bool)
    requires arrivals != [] && !QuotaMet(s) && s.outbound < MAX_OUTBOUND_INFLIGHT && arrivals[0].Incoming?
    requires s.pool.free != []
    ensures var t := AcceptIncoming(s, arrivals[0].address);
            && TakeOvers(s, arrivals, kind) == One(kind(s, arrivals[0].address)) + TakeOvers(t, arrivals[1..], kind)
            && ServerReady(s, arrivals) == ServerReady(t, arrivals[1..])
  {
    assert Accept(s, arrivals[0]) == (AcceptIncoming(s, arrivals[0].address), true);
  }

  lemma TakeOversSkip(s: State, arrivals: seq<AcceptOutcome>, kind: (State, Address) -> bool)
    requires arrivals != [] && !QuotaMet(s) && s.outbound < MAX_OUTBOUND_INFLIGHT
    requires arrivals[0].AcceptErrno? || s.pool.free == []
    ensures var again := Accept(s, arrivals[0]).1;
            && TakeOvers(s, arrivals, kind) == (if again then TakeOvers(s, arrivals[1..], kind) else 0)
            && ServerReady(s, arrivals) == if again then ServerReady(s, arrivals[1..]) else s
  {
  }

  /** One arrival taken, in terms of the arrivals behind it. */
  lemma ArrivalBooks(cfg: Config, s: State, arrivals: seq<AcceptOutcome>, x: int, y: int, x': int, y': int)
      returns (u: int, v: int)
    requires Inv(cfg, s) && Books(s, x, y)
    requires arrivals != [] && !QuotaMet(s) && s.outbound < MAX_OUTBOUND_INFLIGHT && arrivals[0].Incoming?
    requires s.pool.free != []
    requires x' == x - TakeOvers(s, arrivals, TakesOverQuiet) && y' == y + TakeOvers(s, arrivals, TakesOverConnected)
    ensures var t, rest := AcceptIncoming(s, arrivals[0].address), arrivals[1..];
            && Inv(cfg, t) && Books(t, u, v) && ServerReady(s, arrivals) == ServerReady(t, rest)
            && x' == u - TakeOvers(t, rest, TakesOverQuiet) && y' == v + TakeOvers(t, rest, TakesOverConnected)
  {
    var address := arrivals[0].address;
    u, v := x - One(TakesOverQuiet(s, address)), y + One(TakesOverConnected(s, address));
    IncomingKeeps(cfg, s, address);
    AcceptBooks(cfg, s, address, x, y, u, v);
    TakeOversNext(s, arrivals, TakesOverQuiet);
    TakeOversNext(s, arrivals, TakesOverConnected);
  }

  lemma {:induction false} ServerBooks(cfg: Config, s: State, arrivals: seq<AcceptOutcome>, x: int, y: int, x': int,
                                       y': int)
    requires Inv(cfg, s) && Books(s, x, y)
    requires x' == x - TakeOvers(s, arrivals, TakesOverQuiet) && y' == y + TakeOvers(s, arrivals, TakesOverConnected)
    ensures Books(ServerReady(s, arrivals), x', y')
    decreases |arrivals|
  {
    if arrivals != [] && !QuotaMet(s) && s.outbound < MAX_OUTBOUND_INFLIGHT {
      if arrivals[0].Incoming? && s.pool.free != [] {
        var u, v := ArrivalBooks(cfg, s, arrivals, x, y, x', y');
        ServerBooks(cfg, AcceptIncoming(s, arrivals[0].address), arrivals[1..], u, v, x', y');
      } else {
        ArrivalSkipped(s, arrivals, x, y, x', y');
        if Accept(s, arrivals[0]).1 {
          ServerBooks(cfg, s, arrivals[1..], x, y, x', y');
        }
      }
    }
  }

  lemma ArrivalSkipped(s: State, arrivals: seq<AcceptOutcome>, x: int, y: int, x': int, y': int)
    requires arrivals != [] && !QuotaMet(s) && s.outbound < MAX_OUTBOUND_INFLIGHT
    requires arrivals[0].AcceptErrno? || s.pool.free == []
    requires x' == x - TakeOvers(s, arrivals, TakesOverQuiet) && y' == y + TakeOvers(s, arrivals, TakesOverConnected)
    ensures if Accept(s, arrivals[0]).1 then
              && x' == x - TakeOvers(s, arrivals[1..], TakesOverQuiet)
              && y' == y + TakeOvers(s, arrivals[1..], TakesOverConnected)
              && ServerReady(s, arrivals) == ServerReady(s, arrivals[1..])
            else x' == x && y' == y && ServerReady(s, arrivals) == s
  {
    TakeOversSkip(s, arrivals, TakesOverQuiet);
    TakeOversSkip(s, arrivals, TakesOverConnected);
  }

  // ---------------------------------------------------------------------------
  // Events
  // ---------------------------------------------------------------------------

  /** Attempts of ours the event gives up without decrementing `inbound`. */
  function Leaked(cfg: Config, s: State, e: Event): nat {
    match e
    case Socket(i, ready, io) =>
      One(|At(s, i).recvBuf| <= LENGTH && Leaks(At(s, i), SocketTurnout(cfg, QuotaMet(s), At(s, i), ready, io)))
    case Timer(i) => One(Leaks(At(s, i), TimerTurnout(At(s, i))))
    case _ => 0
  }

  ghost function Takeovers(s: State, e: Event, kind: (State, Address) -> bool): nat {
    if e.Server? then TakeOvers(s, e.arrivals, kind) else 0
  }

  lemma ArmedHandleable(cfg: Config, s: State, i: nat, turnout: Turnout)
    requires Inv(cfg, s) && At(s, i).interest != Quiet && turnout != Requeues
    ensures |At(s, i).recvBuf| <= LENGTH && Handleable(s, i, turnout)
  {
    ArmedOpened(cfg, s, i);
  }

  lemma SocketBooks(cfg: Config, s: State, i: nat, ready: Ready, io: Io, x: int, y: int, x': int)
    requires Inv(cfg, s) && Books(s, x, y) && Enabled(s, Socket(i, ready, io))
    requires x' == x + Leaked(cfg, s, Socket(i, ready, io))
    ensures Books(SocketReady(cfg, s, i, ready, io), x', y)
  {
    SocketEffect(cfg, s, i, ready, io);
    var turnout := SocketTurnout(cfg, QuotaMet(s), At(s, i), ready, io);
    SocketNeverRequeues(cfg, QuotaMet(s), At(s, i), ready, io);
    ArmedHandleable(cfg, s, i, turnout);
    EffectBooks(s, SocketReady(cfg, s, i, ready, io), i, turnout, x, y, x');
  }

  lemma TimerHandleable(cfg: Config, s: State, i: nat)
    requires Inv(cfg, s) && AllListed(s) && At(s, i).timer
    ensures Handleable(s, i, TimerTurnout(At(s, i)))
  {
    ArmedOpened(cfg, s, i);
    assert Listed(s, i);
  }

  lemma TimerBooks(cfg: Config, s: State, i: nat, x: int, y: int, x': int)
    requires Inv(cfg, s) && Books(s, x, y) && At(s, i).timer && x' == x + Leaked(cfg, s, Timer(i))
    ensures Books(TimerExpired(s, i), x', y)
  {
    TimerHandleable(cfg, s, i);
    TimerEffect(cfg, s, i);
    EffectBooks(s, TimerExpired(s, i), i, TimerTurnout(At(s, i)), x, y, x');
  }

  /** Events that only move entries between queues. */
  lemma QueueBooks(cfg: Config, s: State, e: Event, x: int, y: int)
    requires Books(s, x, y) && (e.Discoveries? || e.TransferTakes? || e.TransferReports?)
    ensures Books(Apply(cfg, s, e), x, y)
  {
    BooksFrame(s, Apply(cfg, s, e), x, y);
  }

  lemma WatcherBooks(cfg: Config, s: State, e: Event, x: int, y: int, x': int)
    requires Inv(cfg, s) && Books(s, x, y) && Enabled(s, e) && (e.Socket? || e.Timer?) && x' == x + Leaked(cfg, s, e)
    ensures Books(Apply(cfg, s, e), x', y)
  {
    match e
    case Socket(i, ready, io) => SocketBooks(cfg, s, i, ready, io, x, y, x');
    case Timer(i) => TimerBooks(cfg, s, i, x, y, x');
  }

  /** What an event changes in the first book. */
  ghost function NetInbound(cfg: Config, s: State, e: Event): int {
    if !Enabled(s, e) then 0
    else
      match e
      case Server(arrivals) => -(TakeOvers(s, arrivals, TakesOverQuiet) as int)
      case _ => Leaked(cfg, s, e)
  }

  /** Every event keeps the books: what it leaks and what it takes over is all that changes in them. */
  lemma ApplyBooks(cfg: Config, s: State, e: Event, x: int, y: int, x': int, y': int)
    requires Inv(cfg, s) && Books(s, x, y) && Enabled(s, e)
    requires x' == x + NetInbound(cfg, s, e) && y' == y + Takeovers(s, e, TakesOverConnected)
    ensures Books(Apply(cfg, s, e), x', y')
  {
    if e.Socket? || e.Timer? {
      WatcherBooks(cfg, s, e, x, y, x');
    } else if e.Server? {
      ServerBooks(cfg, s, e.arrivals, x, y, x', y');
    } else if e.Schedule? {
      WakeUpBooks(cfg, s, x, y);
    } else {
      QueueBooks(cfg, s, e, x, y);
    }
  }

  lemma NetIs(cfg: Config, s: State, e: Event)
    ensures NetInbound(cfg, s, e) == (if Enabled(s, e) then Leaked(cfg, s, e) else 0) - Takeovers(s, e, TakesOverQuiet)
  {
  }

  // ---------------------------------------------------------------------------
  // Runs
  // ---------------------------------------------------------------------------

  /** Attempts a run gives up without decrementing `inbound`. */
  ghost function RunLeaks(cfg: Config, s: State, events: seq<Event>): nat
    decreases |events|
  {
    if events == [] then 0
    else
      (if Enabled(s, events[0]) then Leaked(cfg, s, events[0]) else 0)
      + RunLeaks(cfg, Step(cfg, s, events[0]), events[1..])
  }

  /** Accepts of a run that take over peers of one kind. */
  ghost function RunTakeovers(cfg: Config, s: State, events: seq<Event>, kind: (State, Address) -> bool): nat
    decreases |events|
  {
    if events == [] then 0
    else Takeovers(s, events[0], kind) + RunTakeovers(cfg, Step(cfg, s, events[0]), events[1..], kind)
  }

  lemma StepBooks(cfg: Config, s: State, e: Event, x: int, y: int, x': int, y': int)
    requires Inv(cfg, s) && Books(s, x, y)
    requires x' == x + NetInbound(cfg, s, e) && y' == y + Takeovers(s, e, TakesOverConnected)
    ensures Books(Step(cfg, s, e), x', y')
  {
    if !Enabled(s, e) {
      IdleBooks(cfg, s, e, x, y, x', y');
    } else {
      AppliedBooks(cfg, s, e, x, y, x', y', Step(cfg, s, e));
    }
  }

  lemma IdleBooks(cfg: Config, s: State, e: Event, x: int, y: int, x': int, y': int)
    requires Books(s, x, y) && !Enabled(s, e)
    requires x' == x + NetInbound(cfg, s, e) && y' == y + Takeovers(s, e, TakesOverConnected)
    ensures Books(Step(cfg, s, e), x', y')
  {
    NothingHappens(cfg, s, e);
  }

  lemma AppliedBooks(cfg: Config, s: State, e: Event, x: int, y: int, x': int, y': int, t: State)
    requires Inv(cfg, s) && Books(s, x, y) && Enabled(s, e) && t == Apply(cfg, s, e)
    requires x' == x + NetInbound(cfg, s, e) && y' == y + Takeovers(s, e, TakesOverConnected)
    ensures Books(t, x', y')
  {
    ApplyBooks(cfg, s, e, x, y, x', y');
  }

  lemma NothingHappens(cfg: Config, s: State, e: Event)
    requires !Enabled(s, e)
    ensures Step(cfg, s, e) == s && NetInbound(cfg, s, e) == 0 && Takeovers(s, e, TakesOverConnected) == 0
  {
  }

  /** The first event of a run, and the rest of it. */
  lemma RunNext(cfg: Config, s: State, events: seq<Event>, x: int, y: int, x': int, y': int)
      returns (t: State, u: int, v: int)
    requires Inv(cfg, s) && Books(s, x, y) && events != []
    requires x' == x + RunLeaks(cfg, s, events) - RunTakeovers(cfg, s, events, TakesOverQuiet)
    requires y' == y + RunTakeovers(cfg, s, events, TakesOverConnected)
    ensures var rest := events[1..];
            && Inv(cfg, t) && Books(t, u, v) && Run(cfg, s, events) == Run(cfg, t, rest)
            && x' == u + RunLeaks(cfg, t, rest) - RunTakeovers(cfg, t, rest, TakesOverQuiet)
            && y' == v + RunTakeovers(cfg, t, rest, TakesOverConnected)
  {
    var e := events[0];
    NetIs(cfg, s, e);
    t, u, v := Step(cfg, s, e), x + NetInbound(cfg, s, e), y + Takeovers(s, e, TakesOverConnected);
    StepInv(cfg, s, e);
    StepBooks(cfg, s, e, x, y, u, v);
  }

  lemma {:induction false} RunBooks(cfg: Config, s: State, events: seq<Event>, x: int, y: int, x': int, y': int)
    requires Inv(cfg, s) && Books(s, x, y)
    requires x' == x + RunLeaks(cfg, s, events) - RunTakeovers(cfg, s, events, TakesOverQuiet)
    requires y' == y + RunTakeovers(cfg, s, events, TakesOverConnected)
    ensures Books(Run(cfg, s, events), x', y')
    decreases |events|
  {
    if events != [] {
      var t, u, v := RunNext(cfg, s, events, x, y, x', y');
      RunBooks(cfg, t, events[1..], u, v, x', y');
    }
  }

  /** The books after any run from a new manager. */
  lemma BooksAfter(cfg: Config, slots: nat, events: seq<Event>)
    ensures var init := Initial(slots);
            Books(After(cfg, slots, events),
                  RunLeaks(cfg, init, events) - RunTakeovers(cfg, init, events, TakesOverQuiet),
                  RunTakeovers(cfg, init, events, TakesOverConnected))
  {
    var init := Initial(slots);
    InitialInv(cfg, slots);
    assert Select(init, IsInFlight) == {} && Select(init, IsConnected) == {};
    assert WrapsTo(0, 0, 0);
    RunBooks(cfg, init, events, 0, 0, RunLeaks(cfg, init, events) - RunTakeovers(cfg, init, events, TakesOverQuiet),
             RunTakeovers(cfg, init, events, TakesOverConnected));
  }

  lemma {:induction false} TakeoversAppend(cfg: Config, s: State, first: seq<Event>, second: seq<Event>,
                                           kind: (State, Address) -> bool)
    ensures RunTakeovers(cfg, s, first + second, kind)
         == RunTakeovers(cfg, s, first, kind) + RunTakeovers(cfg, Run(cfg, s, first), second, kind)
    decreases |first|
  {
    if first == [] {
      assert [] + second == second;
    } else {
      assert (first + second)[1..] == first[1..] + second && (first + second)[0] == first[0];
      TakeoversAppend(cfg, Step(cfg, s, first[0]), first[1..], second, kind);
    }
  }

  lemma {:induction false} LeaksAppend(cfg: Config, s: State, first: seq<Event>, second: seq<Event>)
    ensures RunLeaks(cfg, s, first + second) == RunLeaks(cfg, s, first) + RunLeaks(cfg, Run(cfg, s, first), second)
    decreases |first|
  {
    if first == [] {
      assert [] + second == second;
    } else {
      assert (first + second)[1..] == first[1..] + second && (first + second)[0] == first[0];
      LeaksAppend(cfg, Step(cfg, s, first[0]), first[1..], second);
    }
  }

  /**
   * Every peer is on a list: after every run each occupied slot is established with one update unanswered, or has its
   * timer armed (and its socket watcher, unless it waits for a retry), or has its handle in the retry queue.
   */
  lemma EveryPeerListed(cfg: Config, slots: nat, events: seq<Event>, i: nat)
    ensures var s := After(cfg, slots, events);
            var p := At(s, i);
            i in s.pool.occupied ==>
              || (p.state == Connected && Unanswered(s)[HandleOf(s, i)] == 1)
              || (p.state != Connected && p.timer && (p.interest != Quiet || p.state == Failed))
              || (p.state == Failed && p.interest == Quiet && HandleOf(s, i) in s.retry)
  {
    BooksAfter(cfg, slots, events);
    ConnectedIffUnanswered(cfg, slots, events, i);
    Reachable(cfg, slots, events);
    var s := After(cfg, slots, events);
    if i in s.pool.occupied {
      assert Listed(s, i);
    }
  }
}
