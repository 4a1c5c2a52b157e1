/** How many failures a peer is allowed: what its failure count counts, over every run, and a peer that uses them up. */
module PeerFailures {
  import opened Peers
  import opened ConnectionModel
  import opened ConnectionInvariant
  import opened ConnectionSteps
  import opened ConnectionRuns
  import opened PeerLifecycle
  import opened FateMeanings

  // ---------------------------------------------------------------------------
  // The tally of one slot, from what can be seen of it
  // ---------------------------------------------------------------------------

  /** Failures and lost sessions of a slot's peer since the slot was taken for it or a connect() succeeded at once. */
  datatype Tally = Tally(failed: nat, lost: nat)

  /** Waiting for its retry timer: that is where a failure leaves a peer that is kept. */
  predicate Resting(p: Peer) {
    p.state == Failed && p.interest == Quiet && p.timer
  }

  /** The slot of the item's peer, once the item has been dealt with. */
  predicate About(x: Took, i: nat) {
    match x.item
    case FromTracker(address) => address in x.after.peers && x.after.peers[address] == i
    case FromTransfer(h, _) => h.slot == i
    case FromRetry(h) => h.slot == i
  }

  /** One item taken by a wake-up: a new peer, a lost session or a retry is dialled. */
  function TookTally(cfg: Config, x: Took, i: nat, n: Tally): Tally {
    if x.fate != Attempted || !About(x, i) then n
    else if x.item.FromTracker? || cfg.outcome(x.before.attempts) == Immediate then Tally(0, 0)
    else if x.item.FromTransfer? then n.(lost := n.lost + 1)
    else n
  }

  function TraceTally(cfg: Config, trace: seq<Took>, i: nat, n: Tally): Tally
    decreases |trace|
  {
    if trace == [] then n else TraceTally(cfg, trace[1..], i, TookTally(cfg, trace[0], i, n))
  }

  /** One event. */
  function EventTally(cfg: Config, s: State, e: Event, i: nat, n: Tally): Tally {
    if e.Schedule? then TraceTally(cfg, WakeUpTrace(cfg, s), i, n)
    else if !Resting(At(s, i)) && Resting(At(Step(cfg, s, e), i)) then n.(failed := n.failed + 1)
    else n
  }

  function RunTally(cfg: Config, s: State, events: seq<Event>, i: nat, n: Tally): Tally
    decreases |events|
  {
    if events == [] then n
    else RunTally(cfg, Step(cfg, s, events[0]), events[1..], i, EventTally(cfg, s, events[0], i, n))
  }

  /** The failure count is the tally, and a peer that has only failed has failed less than three times. */
  ghost predicate Counts(s: State, i: nat, n: Tally) {
    i in s.pool.occupied ==>
      var p := At(s, i);
      if p.source == TcpServer then p.failures == 0
      else p.failures == n.failed + n.lost && (n.lost == 0 ==> n.failed < 3)
  }

  // ---------------------------------------------------------------------------
  // The scheduler
  // ---------------------------------------------------------------------------

  /** What connect() finds in the slot: a new peer, one whose session was lost, one that waited for its retry. */
  function FailuresBefore(s: State, item: Item, i: nat): nat {
    match item
    case FromTracker(_) => 0
    case FromTransfer(_, _) => At(s, i).failures + 1
    case FromRetry(_) => At(s, i).failures
  }

  function StateBefore(s: State, item: Item, i: nat): PeerState {
    match item
    case FromTracker(_) => Discovered
    case FromTransfer(_, _) => Disconnected
    case FromRetry(_) => At(s, i).state
  }

  /** An immediate connect() starts the handshake and clears the count; any other leaves both. */
  ghost predicate AttemptedAs(cfg: Config, s: State, t: State, item: Item, i: nat) {
    var p := At(t, i);
    if cfg.outcome(s.attempts) == Immediate then p.failures == 0 && p.state == Handshaking
    else p.failures == FailuresBefore(s, item, i) && p.state == StateBefore(s, item, i)
  }

  lemma DialledAs(cfg: Config, s: State, i: nat)
    requires i < |s.pool.slots| && At(s, i).source == Tracker && AttemptOrDelete(cfg, s, i).1 == Attempted
    ensures var p := At(AttemptOrDelete(cfg, s, i).0, i);
            && p.source == Tracker
            && p.failures == (if cfg.outcome(s.attempts) == Immediate then 0 else At(s, i).failures)
            && p.state == (if cfg.outcome(s.attempts) == Immediate then Handshaking else At(s, i).state)
  {
    AttemptShape(cfg, s, i);
    PutAt(s.(attempts := s.attempts + 1), i, Dial(At(s, i), cfg.outcome(s.attempts)).0);
  }

  lemma DiscoveryAs(cfg: Config, s: State, address: Address)
    requires s.pool.Valid() && s.pool.free != [] && IsBlank(At(s, s.pool.NextSlot()))
    ensures var (t, fate) := TryDiscovered(cfg, s, address);
            fate == Attempted ==> AttemptedAs(cfg, s, t, FromTracker(address), s.pool.NextSlot())
  {
    if address !in s.peers {
      EnrolOnly(cfg, s, address);
      if TryDiscovered(cfg, s, address).1 == Attempted {
        DialledAs(cfg, Enrol(s, address), s.pool.NextSlot());
      }
    }
  }

  lemma ReportAs(cfg: Config, s: State, h: Handle, perrno: int)
    requires Live(s, h) && Answerable(s, h)
    ensures var (t, fate) := TryDisconnected(cfg, s, h);
            fate == Attempted ==> AttemptedAs(cfg, s, t, FromTransfer(h, perrno), h.slot)
  {
    var i, u := h.slot, Uncounted(s);
    DisconnectedShape(cfg, s, h, u);
    var q := At(u, i).(state := Disconnected);
    if q.source == Tracker {
      PutAt(u, i, OneMoreFailure(q));
      if TryDisconnected(cfg, s, h).1 == Attempted {
        DialledAs(cfg, Put(u, i, OneMoreFailure(q)), i);
      }
    }
  }

  lemma TriedAs(cfg: Config, s: State, spot: Spot, s1: State, item: Item, t: State)
    requires Inv(cfg, s) && Pending(s, spot) > 0 && (spot == DiscoveredSpot ==> s.pool.free != [])
    requires Pop(s, spot) == (s1, item) && Try(cfg, s1, item) == (t, Attempted)
    ensures item.FromTracker? ==> s1.pool.free != []
    ensures AttemptedAs(cfg, s1, t, item, SlotOf(s1, item))
  {
    match spot
    case DiscoveredSpot =>
      AcquireAt(s);
      assert s.pool.NextSlot() !in Registered(s, {}) && At(s1, s.pool.NextSlot()) == At(s, s.pool.NextSlot());
      DiscoveryAs(cfg, s1, item.address);
    case DisconnectedSpot =>
      PoppedReport(cfg, s);
      ReportAs(cfg, s1, item.handle, item.perrno);
    case FailedSpot =>
      PoppedRetry(cfg, s);
      DialledAs(cfg, s1, item.handle.slot);
  }

  lemma TriedCounts(cfg: Config, s: State, s1: State, item: Item, t: State, fate: Fate, j: nat, i: nat, n: Tally)
    requires Counts(s, i, n) && s1.pool == s.pool && s1.attempts == s.attempts && Tried(s1, t, item, fate, j)
    requires (item.FromTracker? ==> KeyOf(s1, item) == item.address) && (!item.FromTracker? ==> j == item.handle.slot)
    requires fate == Attempted ==> AttemptedAs(cfg, s1, t, item, j)
    requires fate == Attempted && !item.FromTracker? ==> At(s, j).source == Tracker
    ensures Counts(t, i, TookTally(cfg, Took(s, item, fate, t), i, n))
  {
    assert At(s1, i) == At(s, i);
    if i != j {
      assert SameElsewhere(s1, t, i);
    }
  }

  lemma TryCounts(cfg: Config, s: State, spot: Spot, i: nat, n: Tally)
    requires Inv(cfg, s) && Counts(s, i, n) && Pending(s, spot) > 0 && (spot == DiscoveredSpot ==> s.pool.free != [])
    ensures var (s1, item) := Pop(s, spot);
            var (t, fate) := Try(cfg, s1, item);
            Counts(t, i, TookTally(cfg, Took(s, item, fate, t), i, n))
  {
    var (s1, item) := Pop(s, spot);
    var (t, fate) := Try(cfg, s1, item);
    TryEffect(cfg, s, spot);
    if fate == Attempted {
      TriedAs(cfg, s, spot, s1, item, t);
      AttemptedIsOurs(cfg, s, spot, s1, item, t);
    }
    TriedCounts(cfg, s, s1, item, t, fate, SlotOf(s1, item), i, n);
  }

  lemma AttemptedIsOurs(cfg: Config, s: State, spot: Spot, s1: State, item: Item, t: State)
    requires Inv(cfg, s) && Pending(s, spot) > 0 && (spot == DiscoveredSpot ==> s.pool.free != [])
    requires Pop(s, spot) == (s1, item) && Try(cfg, s1, item) == (t, Attempted)
    ensures !item.FromTracker? ==> At(s, item.handle.slot).source == Tracker
  {
    TryEffect(cfg, s, spot);
  }

  lemma {:induction false} TallyAppends(cfg: Config, a: seq<Took>, b: seq<Took>, i: nat, n: Tally)
    ensures TraceTally(cfg, a + b, i, n) == TraceTally(cfg, b, i, TraceTally(cfg, a, i, n))
    decreases |a|
  {
    if a == [] {
      assert a + b == b;
    } else {
      assert (a + b)[0] == a[0] && (a + b)[1..] == a[1..] + b;
      TallyAppends(cfg, a[1..], b, i, TookTally(cfg, a[0], i, n));
    }
  }

  lemma {:induction false} DrainCounts(cfg: Config, s: State, spot: Spot, i: nat, n: Tally)
    requires Inv(cfg, s) && Counts(s, i, n) && (spot == DiscoveredSpot ==> s.pool.free != [])
    ensures Counts(DrainLoop(cfg, s, spot).state, i, TraceTally(cfg, DrainTrace(cfg, s, spot), i, n))
    decreases Pending(s, spot)
  {
    if Pending(s, spot) > 0 {
      var (s1, item) := Pop(s, spot);
      var (t, fate) := Try(cfg, s1, item);
      TryFrame(cfg, s1, item);
      TryKeeps(cfg, s, spot);
      TryCounts(cfg, s, spot, i, n);
      var x := Took(s, item, fate, t);
      var rest := if fate == Attempted then [] else DrainTrace(cfg, t, spot);
      assert DrainTrace(cfg, s, spot) == [x] + rest && ([x] + rest)[1..] == rest;
      if fate != Attempted {
        if spot == DiscoveredSpot {
          InvFrame(cfg, s, s1);
          DiscoveryReturnsSlot(cfg, s1, item.address);
        }
        DrainCounts(cfg, t, spot, i, TookTally(cfg, x, i, n));
      }
    }
  }

  lemma CountsFrame(s: State, t: State, i: nat, n: Tally)
    requires Counts(s, i, n) && t.pool == s.pool
    ensures Counts(t, i, n)
  {
    assert At(t, i) == At(s, i);
  }

  lemma TurnCounts(cfg: Config, s: State, i: nat, n: Tally)
    requires Inv(cfg, s) && Counts(s, i, n)
    ensures var d, m := Turn(cfg, s).state, TraceTally(cfg, TurnTrace(cfg, s), i, n);
            Counts(d, i, m) && Counts(d.(current := NextSpot(s.current)), i, m)
  {
    if s.current != DiscoveredSpot || s.pool.free != [] {
      DrainCounts(cfg, s, s.current, i, n);
    }
    var e, d, m := DrainSpot(cfg, s, s.current).state, Turn(cfg, s).state, TraceTally(cfg, TurnTrace(cfg, s), i, n);
    CountsFrame(e, d, i, m);
    CountsFrame(e, d.(current := NextSpot(s.current)), i, m);
  }

  lemma {:induction false} WakeUpCountsFailures(cfg: Config, s: State, i: nat, n: Tally)
    requires Inv(cfg, s) && Counts(s, i, n)
    ensures Counts(RoundRobin(cfg, s).0, i, TraceTally(cfg, WakeUpTrace(cfg, s), i, n))
    decreases Room(s), UnsetFlags(s.empties), Distance(s.current, s.empties)
  {
    if s.inbound < MAX_INBOUND_INFLIGHT {
      var d := Turn(cfg, s).state;
      TurnProgress(cfg, s);
      TurnKeeps(cfg, s);
      TurnCounts(cfg, s, i, n);
      if AllEmpty(d.empties) {
        assert TurnTrace(cfg, s) + [] == TurnTrace(cfg, s);
      } else {
        var u := d.(current := NextSpot(s.current));
        WakeUpCountsFailures(cfg, u, i, TraceTally(cfg, TurnTrace(cfg, s), i, n));
        TallyAppends(cfg, TurnTrace(cfg, s), WakeUpTrace(cfg, u), i, n);
      }
    }
  }

  // ---------------------------------------------------------------------------
  // Watchers and accepts
  // ---------------------------------------------------------------------------

  lemma EffectCounts(s: State, t: State, j: nat, turnout: Turnout, i: nat, n: Tally)
    requires Effect(s, t, j, turnout) && j in s.pool.occupied && Counts(s, i, n)
    requires At(s, j).source == Tracker || At(s, j).source == TcpServer
    requires turnout == Fails ==> !Resting(At(s, j))
    ensures Counts(t, i, if !Resting(At(s, i)) && Resting(At(t, i)) then n.(failed := n.failed + 1) else n)
  {
    if i != j {
      assert SameElsewhere(s, t, i);
    }
  }

  /** Accepted peers are new, and no other slot of a peer is touched. */
  lemma AdmittedCounts(s: State, t: State, address: Address, slot: nat, i: nat, n: Tally)
    requires Admitted(s, t, address, slot) && IsBlank(At(s, slot)) && Counts(s, i, n)
    ensures Counts(t, i, n)
    ensures i in t.pool.occupied && Resting(At(t, i)) ==> At(t, i) == At(s, i) && i in s.pool.occupied
  {
    if i != slot && i in t.pool.occupied {
      assert SameElsewhere(s, t, i);
    }
  }

  lemma {:induction false} ServerCounts(cfg: Config, s: State, arrivals: seq<AcceptOutcome>, i: nat, n: Tally)
    requires Inv(cfg, s) && Counts(s, i, n)
    ensures var t := ServerReady(s, arrivals);
            && Counts(t, i, n)
            && (i in t.pool.occupied && Resting(At(t, i)) ==> At(t, i) == At(s, i) && i in s.pool.occupied)
    decreases |arrivals|
  {
    if arrivals != [] && !QuotaMet(s) && s.outbound < MAX_OUTBOUND_INFLIGHT {
      if arrivals[0].Incoming? && s.pool.free != [] {
        var address, slot := arrivals[0].address, s.pool.NextSlot();
        IncomingKeeps(cfg, s, address);
        AcceptEffect(cfg, s, address);
        assert slot !in Registered(s, {});
        AdmittedCounts(s, AcceptIncoming(s, address), address, slot, i, n);
        ServerCounts(cfg, AcceptIncoming(s, address), arrivals[1..], i, n);
      } else if Accept(s, arrivals[0]).1 {
        ServerCounts(cfg, s, arrivals[1..], i, n);
      }
    }
  }

  // ---------------------------------------------------------------------------
  // Every event, and every run
  // ---------------------------------------------------------------------------

  lemma VacantNeverRests(cfg: Config, s: State, i: nat)
    requires Inv(cfg, s) && Resting(At(s, i))
    ensures i in s.pool.occupied
  {
    if i < |s.pool.slots| {
      assert i !in Registered(s, {}) ==> IsBlank(At(s, i));
    }
  }

  lemma WatcherCounts(cfg: Config, s: State, e: Event, i: nat, n: Tally)
    requires Inv(cfg, s) && Counts(s, i, n) && Enabled(s, e) && (e.Socket? || e.Timer?)
    ensures Counts(Step(cfg, s, e), i, EventTally(cfg, s, e, i, n))
  {
    match e
    case Socket(j, ready, io) =>
      SocketCounts(cfg, s, e, i, n);
    case Timer(j) =>
      ArmedOpened(cfg, s, j);
      TimerEffect(cfg, s, j);
      EffectCounts(s, Step(cfg, s, e), j, TimerTurnout(At(s, j)), i, n);
  }

  lemma SocketCounts(cfg: Config, s: State, e: Event, i: nat, n: Tally)
    requires Inv(cfg, s) && Counts(s, i, n) && Enabled(s, e) && e.Socket?
    ensures Counts(Step(cfg, s, e), i, EventTally(cfg, s, e, i, n))
  {
    ArmedOpened(cfg, s, e.slot);
    SocketEffect(cfg, s, e.slot, e.ready, e.io);
    var turnout := SocketTurnout(cfg, QuotaMet(s), At(s, e.slot), e.ready, e.io);
    EffectCounts(s, Step(cfg, s, e), e.slot, turnout, i, n);
  }

  lemma AcceptsCount(cfg: Config, s: State, e: Event, i: nat, n: Tally)
    requires Inv(cfg, s) && Counts(s, i, n) && e.Server?
    ensures Counts(Step(cfg, s, e), i, EventTally(cfg, s, e, i, n))
  {
    StepInv(cfg, s, e);
    ServerCounts(cfg, s, e.arrivals, i, n);
    if Resting(At(Step(cfg, s, e), i)) {
      VacantNeverRests(cfg, Step(cfg, s, e), i);
    }
  }

  lemma StepCounts(cfg: Config, s: State, e: Event, i: nat, n: Tally)
    requires Inv(cfg, s) && Counts(s, i, n)
    ensures Counts(Step(cfg, s, e), i, EventTally(cfg, s, e, i, n))
  {
    if e.Schedule? {
      WakeUpCountsFailures(cfg, s, i, n);
    } else if e.Server? {
      AcceptsCount(cfg, s, e, i, n);
    } else if Enabled(s, e) && (e.Socket? || e.Timer?) {
      WatcherCounts(cfg, s, e, i, n);
    } else {
      QueuesCount(cfg, s, e, i, n);
    }
  }

  /** The other events only move entries between queues. */
  lemma QueuesCount(cfg: Config, s: State, e: Event, i: nat, n: Tally)
    requires Counts(s, i, n) && !e.Schedule? && !e.Server? && (Enabled(s, e) ==> !e.Socket? && !e.Timer?)
    ensures Counts(Step(cfg, s, e), i, EventTally(cfg, s, e, i, n))
  {
    CountsFrame(s, Step(cfg, s, e), i, n);
    assert At(Step(cfg, s, e), i) == At(s, i);
  }

  lemma {:induction false} RunCounts(cfg: Config, s: State, events: seq<Event>, i: nat, n: Tally)
    requires Inv(cfg, s) && Counts(s, i, n)
    ensures Counts(Run(cfg, s, events), i, RunTally(cfg, s, events, i, n))
    decreases |events|
  {
    if events != [] {
      StepInv(cfg, s, events[0]);
      StepCounts(cfg, s, events[0], i, n);
      RunCounts(cfg, Step(cfg, s, events[0]), events[1..], i, EventTally(cfg, s, events[0], i, n));
    }
  }

  /**
   * After every run the failure count of a tracker peer is the number of its failures and lost sessions since its slot
   * was taken or a connect() succeeded at once; without a lost session that is less than three. An accepted peer has
   * never failed.
   */
  lemma FailuresExactly(cfg: Config, slots: nat, events: seq<Event>, i: nat)
    ensures var s, n := After(cfg, slots, events), RunTally(cfg, Initial(slots), events, i, Tally(0, 0));
            i in s.pool.occupied ==>
              && (At(s, i).source == Tracker ==>
                   At(s, i).failures == n.failed + n.lost && (n.lost == 0 ==> n.failed < 3))
              && (At(s, i).source == TcpServer ==> At(s, i).failures == 0)
  {
    InitialInv(cfg, slots);
    RunCounts(cfg, Initial(slots), events, i, Tally(0, 0));
  }
}
