/** What a wake-up reaches: an offer to a source it serves leads to a connect(), at that source or before it. */
module SchedulerReach {
  import opened Peers
  import opened ConnectionModel
  import opened ConnectionInvariant
  import opened ConnectionSteps
  import opened PeerLifecycle
  import opened PeerLedger
  import opened SchedulerStall

  // ---------------------------------------------------------------------------
  // Serving without a connect()
  // ---------------------------------------------------------------------------

  /** Nothing was attempted: sessions may have been deleted, and the rest is as before. */
  ghost predicate Lesser(s: State, t: State) {
    && t.pool.Valid() && |t.pool.slots| == |s.pool.slots| && t.pool.occupied <= s.pool.occupied
    && (forall i :: i in t.pool.occupied ==> At(t, i) == At(s, i) && Generation(t, i) == Generation(s, i))
    && (forall i :: i in s.pool.occupied && i !in t.pool.occupied ==> At(s, i).state == Connected)
    && t.peers.Keys <= s.peers.Keys
    && t.attempts == s.attempts && t.inbound == s.inbound && t.connected <= s.connected
  }

  lemma LesserSame(s: State, t: State)
    requires s.pool.Valid() && t.pool == s.pool && t.peers == s.peers
    requires t.attempts == s.attempts && t.inbound == s.inbound && t.connected == s.connected
    ensures Lesser(s, t)
  {
    assert forall i: nat :: At(t, i) == At(s, i) && Generation(t, i) == Generation(s, i);
  }

  lemma LesserTransitive(s: State, t: State, u: State)
    requires Lesser(s, t) && Lesser(t, u)
    ensures Lesser(s, u)
  {
  }

  /** A free slot stays free, and attempts under way stay under way. */
  lemma LesserKeeps(s: State, t: State)
    requires s.pool.Valid() && Lesser(s, t)
    ensures s.pool.free != [] ==> t.pool.free != []
    ensures InFlight(t) <= InFlight(s)
  {
    assert |s.pool.occupied| == |t.pool.occupied| + |s.pool.occupied - t.pool.occupied|;
    assert Select(t, IsInFlight) <= Select(s, IsInFlight);
    assert |Select(s, IsInFlight)| == |Select(t, IsInFlight)| + |Select(s, IsInFlight) - Select(t, IsInFlight)|;
  }

  lemma TriedLesser(s: State, t: State, item: Item, fate: Fate, i: nat)
    requires s.pool.Valid() && Tried(s, t, item, fate, i) && (item.FromTransfer? && fate != Stale ==> s.connected > 0)
    requires fate == Deleted && !item.FromTracker? ==>
               item.FromTransfer? && i in s.pool.occupied && At(s, i).state == Connected
    ensures t.attempts >= s.attempts
    ensures t.attempts == s.attempts ==>
              fate != Attempted && Lesser(s, t) && (!item.FromTransfer? ==> t.pool.occupied == s.pool.occupied)
  {
    if t.attempts == s.attempts {
      forall j: nat | j != i
        ensures At(t, j) == At(s, j) && Generation(t, j) == Generation(s, j)
        ensures j in t.pool.occupied <==> j in s.pool.occupied
      {
        assert SameElsewhere(s, t, j);
      }
    }
  }

  /** One popped item: either connect() was called, or the state is lesser. */
  lemma TryLesser(cfg: Config, s: State, spot: Spot)
    requires Inv(cfg, s) && Pending(s, spot) > 0 && (spot == DiscoveredSpot ==> s.pool.free != [])
    ensures var (s1, item) := Pop(s, spot);
            var (t, fate) := Try(cfg, s1, item);
            && t.attempts >= s.attempts
            && (t.attempts == s.attempts ==>
                 fate != Attempted && Lesser(s, t) && (spot != DisconnectedSpot ==> t.pool.occupied == s.pool.occupied))
            && (fate == Attempted ==> t.attempts > s.attempts)
  {
    var (s1, item) := Pop(s, spot);
    var (t, fate) := Try(cfg, s1, item);
    TryEffect(cfg, s, spot);
    PoppedSlot(cfg, s, spot);
    LesserSame(s, s1);
    var i := SlotOf(s1, item);
    if spot != FailedSpot || fate != Deleted {
      TriedLesser(s1, t, item, fate, i);
    } else {
      PoppedRetry(cfg, s);
    }
    if t.attempts == s.attempts {
      LesserTransitive(s, s1, t);
    }
  }

  lemma {:induction false} DrainLesser(cfg: Config, s: State, spot: Spot)
    requires Inv(cfg, s) && (spot == DiscoveredSpot ==> s.pool.free != [])
    ensures var d := DrainLoop(cfg, s, spot);
            && d.state.attempts >= s.attempts
            && (d.state.attempts == s.attempts ==>
                 && !d.started && Lesser(s, d.state) && Pending(d.state, spot) == 0
                 && (spot != DisconnectedSpot ==> d.state.pool.occupied == s.pool.occupied))
    decreases Pending(s, spot)
  {
    if Pending(s, spot) == 0 {
      LesserSame(s, s);
    } else {
      var (s1, item) := Pop(s, spot);
      var (t, fate) := Try(cfg, s1, item);
      TryFrame(cfg, s1, item);
      TryKeeps(cfg, s, spot);
      TryLesser(cfg, s, spot);
      if fate != Attempted {
        if spot == DiscoveredSpot {
          InvFrame(cfg, s, s1);
          DiscoveryReturnsSlot(cfg, s1, item.address);
        }
        DrainLesser(cfg, t, spot);
        var d := DrainLoop(cfg, t, spot);
        if d.state.attempts == s.attempts {
          LesserTransitive(s, t, d.state);
        }
      }
    }
  }

  /** The two sources that are not served keep their queues. */
  lemma {:induction false} DrainLeaves(cfg: Config, s: State, spot: Spot)
    ensures var t := DrainLoop(cfg, s, spot).state;
            && (spot != DiscoveredSpot ==> t.cache == s.cache)
            && (spot != DisconnectedSpot ==> t.disconnects == s.disconnects)
            && (spot != FailedSpot ==> t.retry == s.retry)
    decreases Pending(s, spot)
  {
    if Pending(s, spot) > 0 {
      var (s1, item) := Pop(s, spot);
      var (t, fate) := Try(cfg, s1, item);
      TryFrame(cfg, s1, item);
      if fate != Attempted {
        DrainLeaves(cfg, t, spot);
      }
    }
  }

  /** A turn: connect() was called, or the manager stands one source further on in a lesser state. */
  lemma TurnLesser(cfg: Config, s: State)
    requires Inv(cfg, s)
    ensures var d := Turn(cfg, s);
            && d.state.attempts >= s.attempts
            && (d.started ==> d.state.attempts > s.attempts)
            && (d.state.attempts == s.attempts ==>
                 && !d.started && Lesser(s, d.state)
                 && (s.current != DisconnectedSpot ==> d.state.pool.occupied == s.pool.occupied)
                 && d.state.current == s.current && d.state.empties == s.empties[Index(s.current) := true]
                 && (s.current != DiscoveredSpot ==> d.state.cache == s.cache)
                 && (s.current != DisconnectedSpot ==> d.state.disconnects == s.disconnects)
                 && (s.current != FailedSpot ==> d.state.retry == s.retry))
  {
    var e := DrainSpot(cfg, s, s.current);
    var d := Turn(cfg, s);
    DrainFrame(cfg, s, s.current);
    if s.current != DiscoveredSpot || s.pool.free != [] {
      DrainLesser(cfg, s, s.current);
      DrainLeaves(cfg, s, s.current);
    } else {
      LesserSame(s, s);
    }
    if e.state.attempts == s.attempts {
      LesserSame(e.state, d.state);
      LesserTransitive(s, e.state, d.state);
    }
  }

  lemma {:induction false} WakeUpGrows(cfg: Config, s: State)
    requires Inv(cfg, s)
    ensures RoundRobin(cfg, s).0.attempts >= s.attempts
    decreases Room(s), UnsetFlags(s.empties), Distance(s.current, s.empties)
  {
    if s.inbound < MAX_INBOUND_INFLIGHT {
      var d := Turn(cfg, s).state;
      TurnProgress(cfg, s);
      TurnKeeps(cfg, s);
      TurnLesser(cfg, s);
      if !AllEmpty(d.empties) {
        WakeUpGrows(cfg, d.(current := NextSpot(s.current)));
      }
    }
  }

  /** A wake-up by turns. */
  function AfterTurn(cfg: Config, s: State): State {
    Turn(cfg, s).state.(current := NextSpot(s.current))
  }

  lemma WakeUpByTurn(cfg: Config, s: State)
    requires Inv(cfg, s) && s.inbound < MAX_INBOUND_INFLIGHT
    ensures var d := Turn(cfg, s).state;
            && RoundRobin(cfg, s).0 == (if AllEmpty(d.empties) then d else RoundRobin(cfg, AfterTurn(cfg, s)).0)
            && Inv(cfg, d) && Inv(cfg, AfterTurn(cfg, s))
            && RoundRobin(cfg, s).0.attempts >= d.attempts
  {
    TurnProgress(cfg, s);
    TurnKeeps(cfg, s);
    if !AllEmpty(Turn(cfg, s).state.empties) {
      WakeUpGrows(cfg, AfterTurn(cfg, s));
    }
  }

  // ---------------------------------------------------------------------------
  // Offers
  // ---------------------------------------------------------------------------

  ghost predicate RetryOffer(s: State) {
    exists h :: h in s.retry && Live(s, h)
  }

  /** A live report about a peer the tracker named. */
  ghost predicate ReportOffer(s: State) {
    exists h :: h in Handles(s.disconnects) && Live(s, h) && At(s, h.slot).source == Tracker
  }

  /** A free slot, and a new address on top of the cache. */
  predicate DiscoveryOffer(s: State) {
    s.pool.free != [] && s.cache != [] && Newest(s) !in s.peers
  }

  ghost predicate Offer(s: State, spot: Spot) {
    match spot
    case DiscoveredSpot => DiscoveryOffer(s)
    case DisconnectedSpot => ReportOffer(s)
    case FailedSpot => RetryOffer(s)
  }

  lemma {:induction false} RetryServed(cfg: Config, s: State, h: Handle)
    requires Inv(cfg, s) && h in s.retry && Live(s, h)
    ensures DrainLoop(cfg, s, FailedSpot).state.attempts > s.attempts
    decreases Pending(s, FailedSpot)
  {
    var (s1, item) := Pop(s, FailedSpot);
    var (t, fate) := Try(cfg, s1, item);
    TryFrame(cfg, s1, item);
    TryEffect(cfg, s, FailedSpot);
    PoppedRetry(cfg, s);
    TryKeeps(cfg, s, FailedSpot);
    if fate == Stale {
      assert h != item.handle && Live(t, h);
      RetryServed(cfg, t, h);
    } else if fate == Deleted {
      DrainLesser(cfg, t, FailedSpot);
    }
  }

  lemma {:induction false} ReportServed(cfg: Config, s: State, h: Handle)
    requires Inv(cfg, s) && h in Handles(s.disconnects) && Live(s, h) && At(s, h.slot).source == Tracker
    ensures DrainLoop(cfg, s, DisconnectedSpot).state.attempts > s.attempts
    decreases Pending(s, DisconnectedSpot)
  {
    var (s1, item) := Pop(s, DisconnectedSpot);
    var (t, fate) := Try(cfg, s1, item);
    TryFrame(cfg, s1, item);
    TryEffect(cfg, s, DisconnectedSpot);
    PoppedSlot(cfg, s, DisconnectedSpot);
    TryLesser(cfg, s, DisconnectedSpot);
    TryKeeps(cfg, s, DisconnectedSpot);
    assert At(s1, h.slot) == At(s, h.slot);
    if t.attempts == s.attempts {
      ReportSkipped(cfg, s, s1, item, t, fate, h);
      ReportServed(cfg, t, h);
    } else if fate != Attempted {
      DrainLesser(cfg, t, DisconnectedSpot);
    }
  }

  /** A report that leads to no connect() leaves every other handle as it was. */
  lemma ReportSkipped(cfg: Config, s: State, s1: State, item: Item, t: State, fate: Fate, h: Handle)
    requires Inv(cfg, s) && s.disconnects != [] && Pop(s, DisconnectedSpot) == (s1, item)
    requires Try(cfg, s1, item) == (t, fate)
    requires Tried(s1, t, item, fate, item.handle.slot) && (fate == Stale <==> !Live(s1, item.handle))
    requires fate != Duplicate
    requires t.attempts == s.attempts && fate != Attempted && t.disconnects == s1.disconnects
    requires h in Handles(s.disconnects) && Live(s, h)
    requires h == item.handle ==> At(s, h.slot).source == Tracker
    ensures h in Handles(t.disconnects) && Live(t, h) && At(t, h.slot) == At(s, h.slot)
    ensures h.slot in s.pool.occupied ==> h.slot in t.pool.occupied
  {
    assert Handles(s.disconnects) == [item.handle] + Handles(s1.disconnects);
    assert At(s1, h.slot) == At(s, h.slot) && Generation(s1, h.slot) == Generation(s, h.slot);
    if fate == Deleted && h.slot != item.handle.slot {
      assert SameElsewhere(s1, t, h.slot);
    }
  }

  /** Serving a source with an offer calls connect(). */
  lemma OfferServed(cfg: Config, s: State)
    requires Inv(cfg, s) && Offer(s, s.current)
    ensures Turn(cfg, s).state.attempts > s.attempts
  {
    match s.current
    case DiscoveredSpot =>
      var (s1, item) := Pop(s, DiscoveredSpot);
      var (t, fate) := Try(cfg, s1, item);
      TryEffect(cfg, s, DiscoveredSpot);
      TryFrame(cfg, s1, item);
      TryKeeps(cfg, s, DiscoveredSpot);
      assert t.attempts == s.attempts + 1;
      if fate != Attempted {
        InvFrame(cfg, s, s1);
        DiscoveryReturnsSlot(cfg, s1, item.address);
        DrainLesser(cfg, t, DiscoveredSpot);
      }
    case DisconnectedSpot =>
      var h :| h in Handles(s.disconnects) && Live(s, h) && At(s, h.slot).source == Tracker;
      ReportServed(cfg, s, h);
    case FailedSpot =>
      var h :| h in s.retry && Live(s, h);
      RetryServed(cfg, s, h);
  }

  /** What one source offers survives the serving of another one. */
  lemma OfferSurvives(cfg: Config, s: State, t: State, spot: Spot)
    requires Inv(cfg, s) && Offer(s, spot) && spot != s.current && Lesser(s, t)
    requires s.current != DisconnectedSpot ==> t.pool.occupied == s.pool.occupied && t.disconnects == s.disconnects
    requires s.current != DiscoveredSpot ==> t.cache == s.cache
    requires s.current != FailedSpot ==> t.retry == s.retry
    ensures Offer(t, spot)
  {
    match spot
    case DiscoveredSpot => LesserKeeps(s, t);
    case DisconnectedSpot => ReportOfferSurvives(cfg, s, t);
    case FailedSpot => RetryOfferSurvives(cfg, s, t);
  }

  lemma ReportOfferSurvives(cfg: Config, s: State, t: State)
    requires Inv(cfg, s) && Lesser(s, t) && ReportOffer(s)
    requires t.pool.occupied == s.pool.occupied && t.disconnects == s.disconnects
    ensures ReportOffer(t)
  {
    var h :| h in Handles(s.disconnects) && Live(s, h) && At(s, h.slot).source == Tracker;
    ReportSurvives(cfg, s, t, h);
  }

  lemma RetryOfferSurvives(cfg: Config, s: State, t: State)
    requires Inv(cfg, s) && Lesser(s, t) && RetryOffer(s) && t.retry == s.retry
    ensures RetryOffer(t)
  {
    var h :| h in s.retry && Live(s, h);
    RetrySurvives(cfg, s, t, h);
  }

  lemma ReportSurvives(cfg: Config, s: State, t: State, h: Handle)
    requires Inv(cfg, s) && Lesser(s, t) && t.pool.occupied == s.pool.occupied
    requires h in Handles(s.disconnects) && Live(s, h)
    ensures h.slot in t.pool.occupied && Live(t, h) && At(t, h.slot) == At(s, h.slot)
  {
    assert h in Unanswered(s) && HandleOk(s, {}, h);
  }

  lemma RetrySurvives(cfg: Config, s: State, t: State, h: Handle)
    requires Inv(cfg, s) && Lesser(s, t) && h in s.retry && Live(s, h)
    ensures h.slot in t.pool.occupied && Live(t, h) && At(t, h.slot) == At(s, h.slot)
  {
    assert HandleOk(s, {}, h) && Idle(At(s, h.slot));
  }

  // ---------------------------------------------------------------------------
  // A wake-up that serves an offer
  // ---------------------------------------------------------------------------

  /** One turn on: unless connect() was called, the sources still to be served are those that were. */
  lemma NextLesser(cfg: Config, s: State)
    requires Inv(cfg, s) && s.inbound < MAX_INBOUND_INFLIGHT && Turn(cfg, s).state.attempts == s.attempts
    ensures var d, u := Turn(cfg, s).state, AfterTurn(cfg, s);
            && Lesser(s, d) && Lesser(s, u) && u.cache == d.cache && u.disconnects == d.disconnects
            && u.retry == d.retry
            && u.pool == d.pool && u.peers == d.peers && u.connected == d.connected && u.inbound == s.inbound
            && (AllEmpty(d.empties) ==> LastServed(s) == s.current == d.current
                                        && forall spot :: Serves(s, spot) <==> spot == s.current)
            && (!AllEmpty(d.empties) ==>
                 && LastServed(u) == LastServed(s)
                 && (forall spot :: Serves(u, spot) <==> Serves(s, spot) && spot != s.current))
  {
    var d, u := Turn(cfg, s).state, AfterTurn(cfg, s);
    TurnLesser(cfg, s);
    LesserSame(d, u);
    LesserTransitive(s, d, u);
    NextTurn(s, d, u);
  }

  lemma {:induction false} OfferReached(cfg: Config, s: State, spot: Spot)
    requires Inv(cfg, s) && s.inbound < MAX_INBOUND_INFLIGHT && Serves(s, spot) && Offer(s, spot)
    ensures RoundRobin(cfg, s).0.attempts > s.attempts
    decreases Room(s), UnsetFlags(s.empties), Distance(s.current, s.empties)
  {
    WakeUpByTurn(cfg, s);
    TurnProgress(cfg, s);
    TurnLesser(cfg, s);
    if spot == s.current {
      OfferServed(cfg, s);
    } else if Turn(cfg, s).state.attempts == s.attempts {
      NextLesser(cfg, s);
      OfferSurvives(cfg, s, AfterTurn(cfg, s), spot);
      OfferReached(cfg, AfterTurn(cfg, s), spot);
    }
  }

  // ---------------------------------------------------------------------------
  // A wake-up that serves the report of a session
  // ---------------------------------------------------------------------------

  /** A live report about a peer in slot i. */
  ghost predicate ReportedLost(s: State, i: nat) {
    HandleOf(s, i) in Handles(s.disconnects) && i in s.pool.occupied
  }

  /** Served without a connect(), the reports have freed the slot and lowered the count. */
  lemma {:induction false} SessionServed(cfg: Config, s: State, i: nat)
    requires Inv(cfg, s) && ReportedLost(s, i)
    ensures var t := DrainLoop(cfg, s, DisconnectedSpot).state;
            t.attempts == s.attempts ==> i !in t.pool.occupied && t.connected < s.connected
    decreases Pending(s, DisconnectedSpot)
  {
    var (s1, item) := Pop(s, DisconnectedSpot);
    var (t, fate) := Try(cfg, s1, item);
    TryFrame(cfg, s1, item);
    TryEffect(cfg, s, DisconnectedSpot);
    PoppedSlot(cfg, s, DisconnectedSpot);
    TryLesser(cfg, s, DisconnectedSpot);
    TryKeeps(cfg, s, DisconnectedSpot);
    if fate != Attempted {
      DrainLesser(cfg, t, DisconnectedSpot);
      if t.attempts == s.attempts {
        if item.handle == HandleOf(s, i) {
          assert Live(s1, item.handle);
        } else {
          OtherReport(cfg, s, s1, item, t, fate, i);
          SessionServed(cfg, t, i);
        }
      }
    }
  }

  lemma OtherReport(cfg: Config, s: State, s1: State, item: Item, t: State, fate: Fate, i: nat)
    requires Inv(cfg, s) && ReportedLost(s, i) && Pop(s, DisconnectedSpot) == (s1, item)
    requires item.handle != HandleOf(s, i)
    requires Tried(s1, t, item, fate, item.handle.slot) && (fate == Stale <==> !Live(s1, item.handle))
    requires fate != Duplicate
    requires fate != Attempted && t.disconnects == s1.disconnects
    ensures ReportedLost(t, i) && t.connected <= s.connected
  {
    assert Handles(s.disconnects) == [item.handle] + Handles(s1.disconnects);
    if fate == Deleted {
      assert i != item.handle.slot;
      assert SameElsewhere(s1, t, i);
    }
    assert HandleOf(t, i) == HandleOf(s, i);
  }

  /** Before the reports are served, the slot stays reported. */
  lemma ReportedSurvives(cfg: Config, s: State, t: State, i: nat)
    requires Inv(cfg, s) && ReportedLost(s, i) && Lesser(s, t)
    requires t.pool.occupied == s.pool.occupied && t.disconnects == s.disconnects
    ensures ReportedLost(t, i)
  {
    assert HandleOf(t, i) == HandleOf(s, i);
  }

  lemma TurnFrees(cfg: Config, s: State, i: nat)
    requires Inv(cfg, s) && ReportedLost(s, i) && s.current == DisconnectedSpot
    requires Turn(cfg, s).state.attempts == s.attempts
    ensures var d := Turn(cfg, s).state;
            i !in d.pool.occupied && d.connected < s.connected && d.cache == s.cache && d.pool.free != []
  {
    SessionServed(cfg, s, i);
    TurnLesser(cfg, s);
    var d := Turn(cfg, s).state;
    assert d.pool.occupied <= s.pool.occupied - {i};
    assert |s.pool.occupied| == |s.pool.occupied - {i}| + 1;
    assert |s.pool.occupied - {i}| == |d.pool.occupied| + |s.pool.occupied - {i} - d.pool.occupied|;
  }

  lemma TopStaysNew(s: State, u: State)
    requires s.cache != [] && Newest(s) !in s.peers && u.cache == s.cache && u.peers.Keys <= s.peers.Keys
    requires u.pool.free != []
    ensures Offer(u, DiscoveredSpot)
  {
  }

  /** The slot of a session reported lost is there for a discovery served behind the reports. */
  lemma FreedReached(cfg: Config, s: State, i: nat)
    requires Inv(cfg, s) && s.inbound < MAX_INBOUND_INFLIGHT && ReportedLost(s, i) && ReportsFirst(s)
    requires Serves(s, DiscoveredSpot) && s.cache != [] && Newest(s) !in s.peers
    ensures RoundRobin(cfg, s).0.attempts > s.attempts
  {
    WakeUpByTurn(cfg, s);
    TurnLesser(cfg, s);
    if Turn(cfg, s).state.attempts == s.attempts {
      NextLesser(cfg, s);
      TurnFrees(cfg, s, i);
      var u := AfterTurn(cfg, s);
      TopStaysNew(s, u);
      OfferReached(cfg, u, DiscoveredSpot);
    }
  }

  /** A wake-up that ends with the reports calls connect(), or leaves the count lower and will serve them again. */
  lemma {:induction false} LoweredReached(cfg: Config, s: State, i: nat)
    requires Inv(cfg, s) && s.inbound < MAX_INBOUND_INFLIGHT && ReportedLost(s, i) && LastServed(s) == DisconnectedSpot
    ensures var t := RoundRobin(cfg, s).0;
            && t.attempts >= s.attempts
            && (t.attempts == s.attempts ==>
                 && Lesser(s, t) && t.connected < s.connected && t.current == DisconnectedSpot && AllEmpty(t.empties))
    decreases Room(s), UnsetFlags(s.empties), Distance(s.current, s.empties)
  {
    WakeUpByTurn(cfg, s);
    TurnProgress(cfg, s);
    TurnLesser(cfg, s);
    if Turn(cfg, s).state.attempts == s.attempts {
      NextLesser(cfg, s);
      var d, u := Turn(cfg, s).state, AfterTurn(cfg, s);
      if AllEmpty(d.empties) {
        TurnFrees(cfg, s, i);
      } else {
        NotLast(s);
        ReportedSurvives(cfg, s, u, i);
        LoweredReached(cfg, u, i);
        if RoundRobin(cfg, s).0.attempts == s.attempts {
          LesserTransitive(s, u, RoundRobin(cfg, u).0);
        }
      }
    }
  }

  lemma NotLast(s: State)
    requires !AllEmpty(s.empties[Index(s.current) := true])
    ensures LastServed(s) != s.current
  {
  }
}
