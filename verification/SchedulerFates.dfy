/** What one wake-up of the round-robin scheduler does to its three sources, and when it does nothing. */
module SchedulerFates {
  import opened Peers
  import opened ConnectionModel
  import opened ConnectionRuns

  function SourceOf(item: Item): Spot {
    match item
    case FromTracker(_) => DiscoveredSpot
    case FromTransfer(_, _) => DisconnectedSpot
    case FromRetry(_) => FailedSpot
  }

  /** A source's items in the order the scheduler takes them. */
  function Queue(s: State, spot: Spot): (q: seq<Item>)
    ensures |q| == Pending(s, spot)
  {
    match spot
    case DiscoveredSpot => seq(|s.cache|, k requires 0 <= k < |s.cache| => FromTracker(s.cache[|s.cache| - 1 - k]))
    case DisconnectedSpot =>
      seq(|s.disconnects|, k requires 0 <= k < |s.disconnects| =>
        FromTransfer(s.disconnects[k].handle, s.disconnects[k].perrno))
    case FailedSpot => seq(|s.retry|, k requires 0 <= k < |s.retry| => FromRetry(s.retry[k]))
  }

  /** The items of one source among those accounted for. */
  function TakenFrom(fates: seq<(Item, Fate)>, spot: Spot): seq<Item> {
    if fates == [] then []
    else (if SourceOf(fates[0].0) == spot then [fates[0].0] else []) + TakenFrom(fates[1..], spot)
  }

  function Attempts(fates: seq<(Item, Fate)>): nat {
    if fates == [] then 0 else (if fates[0].1 == Attempted then 1 else 0) + Attempts(fates[1..])
  }

  lemma {:induction false} TakenAppends(a: seq<(Item, Fate)>, b: seq<(Item, Fate)>, spot: Spot)
    ensures TakenFrom(a + b, spot) == TakenFrom(a, spot) + TakenFrom(b, spot)
    decreases |a|
  {
    if a == [] {
      assert a + b == b;
    } else {
      assert (a + b)[0] == a[0] && (a + b)[1..] == a[1..] + b;
      TakenAppends(a[1..], b, spot);
      var head := if SourceOf(a[0].0) == spot then [a[0].0] else [];
      Regroup(head, TakenFrom(a[1..], spot), TakenFrom(b, spot));
    }
  }

  lemma {:induction false} AttemptsAppend(a: seq<(Item, Fate)>, b: seq<(Item, Fate)>)
    ensures Attempts(a + b) == Attempts(a) + Attempts(b)
    decreases |a|
  {
    if a == [] {
      assert a + b == b;
    } else {
      assert (a + b)[0] == a[0] && (a + b)[1..] == a[1..] + b;
      AttemptsAppend(a[1..], b);
    }
  }

  lemma Regroup<T>(a: seq<T>, b: seq<T>, c: seq<T>)
    ensures a + (b + c) == (a + b) + c
  {
  }

  /** Popping takes the head of one source and leaves the other two alone. */
  lemma PopQueue(s: State, spot: Spot)
    requires Pending(s, spot) > 0
    ensures var (t, item) := Pop(s, spot);
            && SourceOf(item) == spot && Queue(s, spot) == [item] + Queue(t, spot)
            && forall other :: other != spot ==> Queue(t, other) == Queue(s, other)
  {
    var (t, item) := Pop(s, spot);
    assert forall other :: other != spot ==> Queue(t, other) == Queue(s, other);
    match spot
    case DiscoveredSpot =>
    case DisconnectedSpot =>
    case FailedSpot =>
  }

  lemma QueueFrame(s: State, t: State, spot: Spot)
    requires t.cache == s.cache && t.disconnects == s.disconnects && t.retry == s.retry
    ensures Queue(t, spot) == Queue(s, spot)
  {
  }

  lemma TakenOne(item: Item, fate: Fate, spot: Spot)
    ensures TakenFrom([(item, fate)], spot) == if SourceOf(item) == spot then [item] else []
  {
    var one := [(item, fate)];
    assert TakenFrom(one[1..], spot) == [];
  }

  /** One item popped and tried is one item accounted for. */
  lemma TryAccounts(cfg: Config, s: State, spot: Spot, any: Spot)
    requires Pending(s, spot) > 0
    ensures var (s1, item) := Pop(s, spot);
            var (s2, fate) := Try(cfg, s1, item);
            Queue(s, any) == TakenFrom([(item, fate)], any) + Queue(s2, any)
  {
    var (s1, item) := Pop(s, spot);
    var (s2, fate) := Try(cfg, s1, item);
    TryFrame(cfg, s1, item);
    PopQueue(s, spot);
    QueueFrame(s1, s2, any);
    TakenOne(item, fate, any);
  }

  /** A scheduler call takes a prefix of its own source and nothing from the others. */
  lemma {:induction false} DrainTakes(cfg: Config, s: State, spot: Spot, any: Spot)
    ensures var d := DrainLoop(cfg, s, spot);
            Queue(s, any) == TakenFrom(d.fates, any) + Queue(d.state, any)
    decreases Pending(s, spot)
  {
    if Pending(s, spot) > 0 {
      var (s1, item) := Pop(s, spot);
      var (s2, fate) := Try(cfg, s1, item);
      TryFrame(cfg, s1, item);
      TryAccounts(cfg, s, spot, any);
      if fate != Attempted {
        var d := DrainLoop(cfg, s2, spot);
        DrainTakes(cfg, s2, spot, any);
        TakenAppends([(item, fate)], d.fates, any);
        Regroup(TakenFrom([(item, fate)], any), TakenFrom(d.fates, any), Queue(d.state, any));
      }
    }
  }

  lemma OneFateMore(x: (Item, Fate), fates: seq<(Item, Fate)>)
    ensures Attempts([x] + fates) == (if x.1 == Attempted then 1 else 0) + Attempts(fates)
    ensures ([x] + fates)[|fates|] == if fates == [] then x else fates[|fates| - 1]
  {
    assert ([x] + fates)[1..] == fates;
  }

  /** It started an attempt exactly when the last item it took is the attempted one; otherwise its source is empty. */
  lemma {:induction false} DrainStarts(cfg: Config, s: State, spot: Spot)
    ensures var d := DrainLoop(cfg, s, spot);
            && (d.started <==> d.fates != [] && d.fates[|d.fates| - 1].1 == Attempted)
            && Attempts(d.fates) == (if d.started then 1 else 0)
            && (!d.started ==> Pending(d.state, spot) == 0)
    decreases Pending(s, spot)
  {
    if Pending(s, spot) > 0 {
      var (s1, item) := Pop(s, spot);
      var (s2, fate) := Try(cfg, s1, item);
      TryFrame(cfg, s1, item);
      if fate == Attempted {
        OneFateMore((item, fate), []);
      } else {
        DrainStarts(cfg, s2, spot);
        OneFateMore((item, fate), DrainLoop(cfg, s2, spot).fates);
      }
    }
  }

  lemma TurnAccounts(cfg: Config, s: State, any: Spot)
    ensures var d := Turn(cfg, s);
            && Queue(s, any) == TakenFrom(d.fates, any) + Queue(d.state, any)
            && Attempts(d.fates) == (if d.started then 1 else 0)
            && (!d.started ==> Pending(d.state, s.current) == 0 || (s.current == DiscoveredSpot && s.pool.free == []))
  {
    DrainTakes(cfg, s, s.current, any);
    DrainStarts(cfg, s, s.current);
    QueueFrame(DrainSpot(cfg, s, s.current).state, Turn(cfg, s).state, any);
  }

  /** One wake-up: every source loses exactly the items listed for it, in the order they were queued. */
  lemma {:induction false} WakeUpTakes(cfg: Config, s: State, spot: Spot)
    ensures var (t, fates) := RoundRobin(cfg, s);
            Queue(s, spot) == TakenFrom(fates, spot) + Queue(t, spot)
    decreases Room(s), UnsetFlags(s.empties), Distance(s.current, s.empties)
  {
    if s.inbound < MAX_INBOUND_INFLIGHT {
      var d := Turn(cfg, s);
      TurnProgress(cfg, s);
      TurnAccounts(cfg, s, spot);
      if !AllEmpty(d.state.empties) {
        var u := d.state.(current := NextSpot(s.current));
        QueueFrame(d.state, u, spot);
        WakeUpTakes(cfg, u, spot);
        var (t, fates) := RoundRobin(cfg, u);
        TakenAppends(d.fates, fates, spot);
        Regroup(TakenFrom(d.fates, spot), TakenFrom(fates, spot), Queue(t, spot));
      }
    }
  }

  /**
   * inbound_inflight rises by exactly the number of attempts started, and never past its limit; and a wake-up that
   * leaves room has set all three flags.
   */
  lemma {:induction false} WakeUpCounts(cfg: Config, s: State)
    ensures var (t, fates) := RoundRobin(cfg, s);
            && t.inbound == s.inbound + Attempts(fates)
            && (s.inbound <= 35 ==> t.inbound <= 35)
            && (t.inbound < 35 ==> AllEmpty(t.empties))
    decreases Room(s), UnsetFlags(s.empties), Distance(s.current, s.empties)
  {
    if s.inbound < MAX_INBOUND_INFLIGHT {
      var d := Turn(cfg, s);
      TurnProgress(cfg, s);
      TurnAccounts(cfg, s, FailedSpot);
      if !AllEmpty(d.state.empties) {
        var u := d.state.(current := NextSpot(s.current));
        WakeUpCounts(cfg, u);
        AttemptsAppend(d.fates, RoundRobin(cfg, u).1);
      }
    }
  }

  // ---------------------------------------------------------------------------
  // Empty flags outlive the wake-up that set them
  // ---------------------------------------------------------------------------

  /** A set flag of the update queues still tells the truth. */
  predicate Truthful(s: State) {
    (s.empties[1] ==> s.disconnects == []) && (s.empties[2] ==> s.retry == [])
  }

  /** Started with truthful flags, as the manager is constructed, a wake-up that leaves room has emptied both update
      queues. */
  lemma {:induction false} TruthfulDrain(cfg: Config, s: State)
    requires Truthful(s)
    ensures Truthful(RoundRobin(cfg, s).0)
    ensures RoundRobin(cfg, s).0.inbound < MAX_INBOUND_INFLIGHT && s.inbound < MAX_INBOUND_INFLIGHT ==>
              RoundRobin(cfg, s).0.disconnects == [] && RoundRobin(cfg, s).0.retry == []
    decreases Room(s), UnsetFlags(s.empties), Distance(s.current, s.empties)
  {
    if s.inbound < MAX_INBOUND_INFLIGHT {
      var d := Turn(cfg, s);
      TurnProgress(cfg, s);
      TurnTruthful(cfg, s);
      if !AllEmpty(d.state.empties) {
        TruthfulDrain(cfg, d.state.(current := NextSpot(s.current)));
      }
    }
  }

  lemma TurnTruthful(cfg: Config, s: State)
    requires Truthful(s)
    ensures Truthful(Turn(cfg, s).state)
  {
    TurnAccounts(cfg, s, DisconnectedSpot);
    TurnAccounts(cfg, s, FailedSpot);
    DrainFrame(cfg, s, s.current);
    var d := Turn(cfg, s);
    assert |Queue(s, DisconnectedSpot)| == |TakenFrom(d.fates, DisconnectedSpot)| + |Queue(d.state, DisconnectedSpot)|;
    assert |Queue(s, FailedSpot)| == |TakenFrom(d.fates, FailedSpot)| + |Queue(d.state, FailedSpot)|;
  }

  /** A source that has nothing to offer, or, for discoveries, no slot to offer it to. */
  predicate Dry(s: State, spot: Spot) {
    Pending(s, spot) == 0 || (spot == DiscoveredSpot && s.pool.free == [])
  }

  lemma DryTurn(cfg: Config, s: State)
    ensures Dry(s, s.current) ==> Turn(cfg, s) == Drained(s.(empties := s.empties[Index(s.current) := true]), false, [])
    ensures !Dry(s, s.current) ==> Turn(cfg, s).fates != []
  {
  }

  function Flagged(s: State): State {
    s.(empties := s.empties[Index(s.current) := true])
  }

  function Advanced(s: State): State {
    Flagged(s).(current := NextSpot(s.current))
  }

  lemma DryWakeUp(cfg: Config, s: State)
    requires s.inbound < MAX_INBOUND_INFLIGHT && Dry(s, s.current)
    ensures RoundRobin(cfg, s) ==
          if AllEmpty(Flagged(s).empties) then (Flagged(s), []) else RoundRobin(cfg, Advanced(s))
  {
    DryTurn(cfg, s);
    assert [] + RoundRobin(cfg, Advanced(s)).1 == RoundRobin(cfg, Advanced(s)).1;
  }

  lemma WetWakeUp(cfg: Config, s: State)
    requires s.inbound < MAX_INBOUND_INFLIGHT && !Dry(s, s.current)
    ensures RoundRobin(cfg, s).1 != []
  {
    DryTurn(cfg, s);
  }

  /**
   * A wake-up with room for attempts takes nothing at all exactly when its current source is dry and it stops
   * before reaching an offer: a flag left set by an earlier wake-up counts for a source as if it had been visited.
   */
  lemma WakeUpTakesNothing(cfg: Config, s: State)
    requires s.inbound < MAX_INBOUND_INFLIGHT
    ensures var second := NextSpot(s.current);
            var third := NextSpot(second);
            RoundRobin(cfg, s).1 == [] <==>
              && Dry(s, s.current)
              && ((s.empties[Index(second)] && s.empties[Index(third)])
              || (Dry(s, second) && (s.empties[Index(third)] || Dry(s, third))))
  {
    var t := Advanced(s);
    FlagsAhead(s);
    TakesNothingFrom(cfg, s);
    TakesNothingFrom(cfg, t);
    TakesNothingFrom(cfg, Advanced(t));
  }

  /** The flags and sources the next two turns find, if nothing is taken. */
  lemma FlagsAhead(s: State)
    ensures var second := NextSpot(s.current);
            var third := NextSpot(second);
            var t := Advanced(s);
            && (AllEmpty(Flagged(s).empties) <==> s.empties[Index(second)] && s.empties[Index(third)])
            && (AllEmpty(Flagged(t).empties) <==> s.empties[Index(third)])
            && AllEmpty(Flagged(Advanced(t)).empties)
            && (Dry(t, t.current) <==> Dry(s, second)) && (Dry(Advanced(t), Advanced(t).current) <==> Dry(s, third))
            && t.inbound == Advanced(t).inbound == s.inbound
  {
  }

  lemma TakesNothingFrom(cfg: Config, s: State)
    requires s.inbound < MAX_INBOUND_INFLIGHT
    ensures RoundRobin(cfg, s).1 == [] <==>
              Dry(s, s.current) && (AllEmpty(Flagged(s).empties) || RoundRobin(cfg, Advanced(s)).1 == [])
  {
    if Dry(s, s.current) {
      DryWakeUp(cfg, s);
    } else {
      WetWakeUp(cfg, s);
    }
  }

  /** A wake-up with nothing pending sets every flag and stops at the last source it visited. */
  lemma IdleWakeUp(cfg: Config, s: State)
    requires s.inbound < MAX_INBOUND_INFLIGHT && s.empties == [false, false, false]
    requires s.cache == [] && s.disconnects == [] && s.retry == []
    ensures RoundRobin(cfg, s) == (s.(empties := [true, true, true], current := NextSpot(NextSpot(s.current))), [])
  {
    DryWakeUp(cfg, s);
    DryWakeUp(cfg, Advanced(s));
    var u := Advanced(Advanced(s));
    DryWakeUp(cfg, u);
    assert Flagged(u).empties == [true, true, true];
  }

  /** However many addresses are discovered between two wake-ups, the newest ones are kept, in the order they came. */
  lemma {:induction false} DiscoveriesKeepNewest(cache: seq<Address>, addresses: seq<Address>)
    requires |cache| <= 200
    ensures CacheAll(cache, addresses) == OC.Run(cache, OC.Pushes(addresses), 200)
         == OC.Last(cache + addresses, 200)
    decreases |addresses|
  {
    OC.PushesKeepNewest(cache, addresses, CACHE_SIZE);
    if addresses != [] {
      DiscoveriesKeepNewest(CachePush(cache, addresses[0]), addresses[1..]);
      assert OC.Pushes(addresses)[1..] == OC.Pushes(addresses[1..]);
    }
  }

  /**
   * The flags are never cleared between wake-ups, so one idle wake-up is enough to make the next one ignore any
   * number of discovered peers, although the pool is empty and nothing is in flight.
   */
  lemma DiscoveriesIgnoredAfterIdleWakeUp(cfg: Config, slots: nat, addresses: seq<Address>)
    ensures var s := After(cfg, slots, [Schedule, Discoveries(addresses)]);
            var t := After(cfg, slots, [Schedule, Discoveries(addresses), Schedule]);
            && s.cache == OC.Last(addresses, 200) && s.inbound == 0 && s.pool.Available() == slots
            && t == s
  {
    var init := Initial(slots);
    IdleWakeUp(cfg, init);
    var a := init.(empties := [true, true, true], current := FailedSpot);
    assert Step(cfg, init, Schedule) == a;
    var s := a.(cache := CacheAll([], addresses));
    assert Step(cfg, a, Discoveries(addresses)) == s;
    DryWakeUp(cfg, s);
    assert Flagged(s) == s;
    assert Step(cfg, s, Schedule) == s;
    DiscoveriesKeepNewest([], addresses);
    assert [] + addresses == addresses;
    RunTwo(cfg, init, Schedule, Discoveries(addresses));
    RunThree(cfg, init, Schedule, Discoveries(addresses), Schedule);
  }

  lemma RunTwo(cfg: Config, s: State, e: Event, f: Event)
    ensures Run(cfg, s, [e, f]) == Step(cfg, Step(cfg, s, e), f)
  {
    assert [e, f][1..] == [f];
    assert Run(cfg, Step(cfg, s, e), [f]) == Step(cfg, Step(cfg, s, e), f) by {
      assert [f][1..] == [];
    }
  }

  lemma RunThree(cfg: Config, s: State, e: Event, f: Event, g: Event)
    ensures Run(cfg, s, [e, f, g]) == Step(cfg, Step(cfg, Step(cfg, s, e), f), g)
  {
    assert [e, f, g][1..] == [f, g];
    RunTwo(cfg, Step(cfg, s, e), f, g);
  }
}
