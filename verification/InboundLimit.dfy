/** When attempts given up uncounted have used up the limit on inbound attempts: what is left is to replace a waiting
    peer, and nothing is dialled until that happens. */
module InboundLimit {
  import opened Peers
  import opened ConnectionModel
  import opened ConnectionSteps
  import opened ConnectionRuns
  import opened PeerLifecycle
  import opened PeerLedger
  import opened InboundAccount

  // ---------------------------------------------------------------------------
  // Only wake-ups dial
  // ---------------------------------------------------------------------------

  lemma {:induction false} ServerDialsNothing(cfg: Config, s: State, arrivals: seq<AcceptOutcome>)
    requires Inv(cfg, s)
    ensures ServerReady(s, arrivals).attempts == s.attempts && InFlight(ServerReady(s, arrivals)) <= InFlight(s)
    decreases |arrivals|
  {
    if arrivals != [] && !QuotaMet(s) && s.outbound < MAX_OUTBOUND_INFLIGHT {
      if arrivals[0].Incoming? && s.pool.free != [] {
        var address := arrivals[0].address;
        IncomingKeeps(cfg, s, address);
        AcceptEffect(cfg, s, address);
        AllKnown(cfg, s, address);
        AcceptedFlights(s, AcceptIncoming(s, address), address, s.pool.NextSlot());
        ServerDialsNothing(cfg, AcceptIncoming(s, address), arrivals[1..]);
      } else if Accept(s, arrivals[0]).1 {
        ServerDialsNothing(cfg, s, arrivals[1..]);
      }
    }
  }

  lemma OnlyWakeUpsDial(cfg: Config, s: State, e: Event)
    requires Inv(cfg, s) && !e.Schedule?
    ensures Step(cfg, s, e).attempts == s.attempts
  {
    if Enabled(s, e) {
      match e
      case Socket(i, ready, io) =>
        ArmedOpened(cfg, s, i);
        SocketEffect(cfg, s, i, ready, io);
      case Timer(i) => TimerEffect(cfg, s, i);
      case Server(arrivals) => ServerDialsNothing(cfg, s, arrivals);
      case _ =>
    }
  }

  // ---------------------------------------------------------------------------
  // A limit used up
  // ---------------------------------------------------------------------------

  /** By how much the count exceeds the attempts under way, as an unbounded integer. */
  ghost function Excess(cfg: Config, slots: nat, events: seq<Event>): int {
    RunLeaks(cfg, Initial(slots), events) - WaitingReplaced(cfg, slots, events)
  }

  ghost predicate UsedUp(cfg: Config, slots: nat, events: seq<Event>) {
    Excess(cfg, slots, events) == 35
  }

  /** Nothing is in flight then, although the count is at its limit. */
  lemma UsedUpIs(cfg: Config, slots: nat, events: seq<Event>)
    requires UsedUp(cfg, slots, events)
    ensures After(cfg, slots, events).inbound == MAX_INBOUND_INFLIGHT && InFlight(After(cfg, slots, events)) == 0
  {
    InboundExactly(cfg, slots, events);
  }

  lemma ExcessAppends(cfg: Config, slots: nat, events: seq<Event>, more: seq<Event>)
    ensures var s := After(cfg, slots, events);
            Excess(cfg, slots, events + more) == Excess(cfg, slots, events) + RunLeaks(cfg, s, more)
                                                 - RunTakeovers(cfg, s, more, TakesOverQuiet)
  {
    LeaksAppend(cfg, Initial(slots), events, more);
    TakeoversAppend(cfg, Initial(slots), events, more, TakesOverQuiet);
  }

  /** The excess can only be lowered by replacing a waiting tracker peer, and it never exceeds the limit. */
  lemma UsedUpStays(cfg: Config, slots: nat, events: seq<Event>, more: seq<Event>)
    requires UsedUp(cfg, slots, events)
    requires RunTakeovers(cfg, After(cfg, slots, events), more, TakesOverQuiet) == 0
    ensures UsedUp(cfg, slots, events + more)
  {
    ExcessAppends(cfg, slots, events, more);
    InboundExactly(cfg, slots, events + more);
  }

  lemma TakeoversOfOne(cfg: Config, s: State, e: Event, kind: (State, Address) -> bool)
    ensures RunTakeovers(cfg, s, [e], kind) == Takeovers(s, e, kind)
  {
    assert [e][1..] == [];
  }

  lemma OneMore(cfg: Config, slots: nat, events: seq<Event>, more: seq<Event>)
    requires more != []
    ensures (events + [more[0]]) + more[1..] == events + more
    ensures After(cfg, slots, events + [more[0]]) == Step(cfg, After(cfg, slots, events), more[0])
  {
    assert [more[0]][1..] == [];
    RunAppends(cfg, Initial(slots), events, [more[0]]);
  }

  lemma StepUsedUp(cfg: Config, slots: nat, events: seq<Event>, e: Event)
    requires UsedUp(cfg, slots, events)
    ensures Step(cfg, After(cfg, slots, events), e).attempts == After(cfg, slots, events).attempts
  {
    UsedUpIs(cfg, slots, events);
    Reachable(cfg, slots, events);
    if !e.Schedule? {
      OnlyWakeUpsDial(cfg, After(cfg, slots, events), e);
    }
  }

  /** With the limit used up nothing is dialled in any continuation that replaces no waiting tracker peer. */
  lemma {:induction false} NothingDialledWhileUsedUp(cfg: Config, slots: nat, events: seq<Event>, more: seq<Event>)
    requires UsedUp(cfg, slots, events)
    requires RunTakeovers(cfg, After(cfg, slots, events), more, TakesOverQuiet) == 0
    ensures After(cfg, slots, events + more).attempts == After(cfg, slots, events).attempts
    ensures After(cfg, slots, events + more).inbound == 35
    decreases |more|
  {
    if more == [] {
      assert events + [] == events;
      UsedUpIs(cfg, slots, events);
    } else {
      var s := After(cfg, slots, events);
      OneMore(cfg, slots, events, more);
      TakeoversOfOne(cfg, s, more[0], TakesOverQuiet);
      UsedUpStays(cfg, slots, events, [more[0]]);
      StepUsedUp(cfg, slots, events, more[0]);
      NothingDialledWhileUsedUp(cfg, slots, events + [more[0]], more[1..]);
    }
  }

  /** Every waiting tracker peer that is replaced gives one place back. */
  lemma ReplacingReopens(cfg: Config, slots: nat, events: seq<Event>, e: Event)
    requires UsedUp(cfg, slots, events)
    ensures var s := After(cfg, slots, events);
            Step(cfg, s, e).inbound == 35 - Takeovers(s, e, TakesOverQuiet)
  {
    var s := After(cfg, slots, events);
    Reachable(cfg, slots, events);
    UsedUpIs(cfg, slots, events);
    OneMore(cfg, slots, events, [e]);
    TakeoversOfOne(cfg, s, e, TakesOverQuiet);
    if Takeovers(s, e, TakesOverQuiet) == 0 {
      UsedUpStays(cfg, slots, events, [e]);
      UsedUpIs(cfg, slots, events + [e]);
    } else {
      ExcessAppends(cfg, slots, events, [e]);
      LeaksOfServer(cfg, s, e);
      ServerDialsNothing(cfg, s, e.arrivals);
      TakeoversBounded(cfg, s, e);
      InboundExactly(cfg, slots, events + [e]);
    }
  }

  lemma LeaksOfServer(cfg: Config, s: State, e: Event)
    requires e.Server?
    ensures RunLeaks(cfg, s, [e]) == 0
  {
    assert [e][1..] == [];
  }

  // ---------------------------------------------------------------------------
  // ... for good
  // ---------------------------------------------------------------------------

  /** A peer the tracker named that is neither established nor in flight. */
  predicate WaitsForRetry(p: Peer) {
    p.source == Tracker && p.state != Connected && p.interest == Quiet
  }

  predicate Unestablished(p: Peer) {
    p.source == Tracker && p.state != Connected
  }

  ghost predicate AllEstablished(s: State) {
    Select(s, Unestablished) == {}
  }

  lemma {:induction false} ServerKeepsEstablished(cfg: Config, s: State, arrivals: seq<AcceptOutcome>)
    requires Inv(cfg, s) && AllEstablished(s)
    ensures AllEstablished(ServerReady(s, arrivals)) && TakeOvers(s, arrivals, TakesOverQuiet) == 0
    decreases |arrivals|
  {
    if arrivals != [] && !QuotaMet(s) && s.outbound < MAX_OUTBOUND_INFLIGHT {
      if arrivals[0].Incoming? && s.pool.free != [] {
        var address := arrivals[0].address;
        IncomingKeeps(cfg, s, address);
        AcceptEffect(cfg, s, address);
        AllKnown(cfg, s, address);
        var t := AcceptIncoming(s, address);
        AdmittedEstablished(s, t, address, s.pool.NextSlot());
        TakeOversNext(s, arrivals, TakesOverQuiet);
        ServerKeepsEstablished(cfg, t, arrivals[1..]);
      } else {
        TakeOversSkip(s, arrivals, TakesOverQuiet);
        if Accept(s, arrivals[0]).1 {
          ServerKeepsEstablished(cfg, s, arrivals[1..]);
        }
      }
    }
  }

  lemma AdmittedEstablished(s: State, t: State, address: Address, slot: nat)
    requires Admitted(s, t, address, slot) && AllEstablished(s) && KnownPeer(s, address)
    ensures AllEstablished(t) && !TakesOverQuiet(s, address)
  {
    if address in s.peers {
      assert s.peers[address] !in Select(s, Unestablished);
    }
    forall j: nat
      ensures j !in Select(t, Unestablished)
    {
      AcceptedAt(s, t, address, slot, Unestablished, j);
    }
  }

  lemma EffectEstablished(s: State, t: State, i: nat, turnout: Turnout)
    requires Effect(s, t, i, turnout) && AllEstablished(s) && i in s.pool.occupied && At(s, i).source != Tracker
    ensures AllEstablished(t)
  {
    forall j: nat
      ensures j !in Select(t, Unestablished)
    {
      if j != i {
        assert SameElsewhere(s, t, j) && j !in Select(s, Unestablished);
      }
    }
  }

  lemma StepEstablished(cfg: Config, s: State, e: Event)
    requires Inv(cfg, s) && AllEstablished(s) && s.inbound == MAX_INBOUND_INFLIGHT
    ensures AllEstablished(Step(cfg, s, e)) && Takeovers(s, e, TakesOverQuiet) == 0
  {
    match e
    case Server(arrivals) => ServerKeepsEstablished(cfg, s, arrivals);
    case Socket(i, ready, io) =>
      if Enabled(s, e) {
        ArmedOpened(cfg, s, i);
        SocketEffect(cfg, s, i, ready, io);
        NotOurs(cfg, s, i);
        EffectEstablished(s, Step(cfg, s, e), i, SocketTurnout(cfg, QuotaMet(s), At(s, i), ready, io));
      }
    case Timer(i) =>
      if Enabled(s, e) {
        TimerEffect(cfg, s, i);
        NotOurs(cfg, s, i);
        EffectEstablished(s, Step(cfg, s, e), i, TimerTurnout(At(s, i)));
      }
    case _ => QueuesEstablished(cfg, s, e);
  }

  /** A wake-up finds the limit reached; the other events only move entries between queues. */
  lemma QueuesEstablished(cfg: Config, s: State, e: Event)
    requires AllEstablished(s) && s.inbound == MAX_INBOUND_INFLIGHT && !e.Server? && !e.Socket? && !e.Timer?
    ensures AllEstablished(Step(cfg, s, e))
  {
    assert Step(cfg, s, e).pool == s.pool;
    assert Select(Step(cfg, s, e), Unestablished) == Select(s, Unestablished);
  }

  lemma NotOurs(cfg: Config, s: State, i: nat)
    requires Inv(cfg, s) && AllEstablished(s) && (At(s, i).interest != Quiet || At(s, i).timer)
    ensures i in s.pool.occupied && At(s, i).source != Tracker
  {
    ArmedOpened(cfg, s, i);
    assert i !in Select(s, Unestablished);
  }

  lemma {:induction false} NothingToReplace(cfg: Config, slots: nat, events: seq<Event>, more: seq<Event>)
    requires UsedUp(cfg, slots, events) && AllEstablished(After(cfg, slots, events))
    ensures RunTakeovers(cfg, After(cfg, slots, events), more, TakesOverQuiet) == 0
    decreases |more|
  {
    if more != [] {
      var s := After(cfg, slots, events);
      Reachable(cfg, slots, events);
      UsedUpIs(cfg, slots, events);
      StepEstablished(cfg, s, more[0]);
      OneMore(cfg, slots, events, more);
      TakeoversOfOne(cfg, s, more[0], TakesOverQuiet);
      UsedUpStays(cfg, slots, events, [more[0]]);
      NothingToReplace(cfg, slots, events + [more[0]], more[1..]);
    }
  }

  /** With the limit used up and no tracker peer waiting for a retry, nothing is ever dialled again. */
  lemma NothingDialledEver(cfg: Config, slots: nat, events: seq<Event>, more: seq<Event>)
    requires UsedUp(cfg, slots, events) && Select(After(cfg, slots, events), WaitsForRetry) == {}
    ensures After(cfg, slots, events + more).attempts == After(cfg, slots, events).attempts
    ensures After(cfg, slots, events + more).inbound == 35
  {
    var s := After(cfg, slots, events);
    UsedUpIs(cfg, slots, events);
    assert Select(s, IsInFlight) == {};
    assert Select(s, Unestablished) <= Select(s, WaitsForRetry) + Select(s, IsInFlight);
    NothingToReplace(cfg, slots, events, more);
    NothingDialledWhileUsedUp(cfg, slots, events, more);
  }
}
