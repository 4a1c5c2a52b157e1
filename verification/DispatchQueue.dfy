/**
 * The connect queue and the disconnect queue together: an acquire load that shows the manager a report also shows it
 * the pop of the connect update the report answers, so a dispatch is not refused by a stale view of the queue.
 */
module DispatchQueue {
  import opened Handshake
  import opened Peers
  import opened ConnectionModel
  import opened ConnectionInvariant
  import opened ConnectionRuns
  import opened ConnectionSteps
  import opened PeerLifecycle
  import opened PeerLedger
  import opened SchedulerFates
  import Q = SpscQueue

  // ---------------------------------------------------------------------------
  // Two queues between two threads
  // ---------------------------------------------------------------------------

  /**
   * The manager produces connect updates and consumes reports; the transfer side does the opposite. `stamps[k]` is how
   * many connect updates had been popped when report k was published; `visible` is how many of those pops the
   * manager's loads must show.
   */
  datatype Traffic<C, R> = Traffic(connects: Q.Queue<C>, reports: Q.Queue<R>, stamps: seq<nat>, visible: nat)

  datatype Move<C, R> = OnConnects(step: Q.Step<C>) | OnReports(move: Q.Step<R>)

  /** Stale loads are allowed, but not behind what has become visible; a report answers a connect update already
      popped. */
  predicate Allowed<C, R>(t: Traffic<C, R>, m: Move<C, R>) {
    match m
    case OnConnects(s) => Q.Enabled(t.connects, s) && (s.PushRefresh? ==> s.seen >= t.visible)
    case OnReports(s) => Q.Enabled(t.reports, s) && (s.PushStart? ==> |t.reports.pushed| < |t.connects.popped|)
  }

  function Perform<C, R>(t: Traffic<C, R>, m: Move<C, R>): (u: Traffic<C, R>)
    requires Allowed(t, m) && |t.connects.slots| > 0 && |t.reports.slots| > 0
    ensures |u.connects.slots| == |t.connects.slots| && |u.reports.slots| == |t.reports.slots|
  {
    match m
    case OnConnects(s) => t.(connects := Q.Apply(t.connects, s))
    case OnReports(s) =>
      var u := t.(reports := Q.Apply(t.reports, s));
      if s.PushPublish? then u.(stamps := t.stamps + [|t.connects.popped|])
      else if s.PopReload? && 0 < s.seen <= |t.stamps| && t.stamps[s.seen - 1] > t.visible then
        u.(visible := t.stamps[s.seen - 1])
      else u
  }

  ghost predicate StampsOk<C, R>(t: Traffic<C, R>) {
    && |t.stamps| == |t.reports.pushed|
    && forall k :: 0 <= k < |t.stamps| ==> k < t.stamps[k] <= |t.connects.popped|
  }

  ghost predicate TrafficOk<C, R>(t: Traffic<C, R>) {
    && Q.Inv(t.connects) && Q.Inv(t.reports) && StampsOk(t)
    && t.reports.seenPushes <= t.visible <= |t.connects.popped|
    && (!t.reports.producer.Idle? ==> |t.reports.pushed| < |t.connects.popped|)
  }

  lemma ConnectsKeep<C, R>(t: Traffic<C, R>, s: Q.Step<C>)
    requires TrafficOk(t) && Allowed(t, OnConnects(s))
    ensures TrafficOk(Perform(t, OnConnects(s)))
  {
    Q.ApplyKeeps(t.connects, s);
  }

  lemma ReportsKeep<C, R>(t: Traffic<C, R>, s: Q.Step<R>)
    requires TrafficOk(t) && Allowed(t, OnReports(s))
    ensures TrafficOk(Perform(t, OnReports(s)))
  {
    Q.ApplyKeeps(t.reports, s);
  }

  function RunTraffic<C, R>(t: Traffic<C, R>, moves: seq<Move<C, R>>): (u: Traffic<C, R>)
    requires |t.connects.slots| > 0 && |t.reports.slots| > 0
    ensures |u.connects.slots| == |t.connects.slots| && |u.reports.slots| == |t.reports.slots|
    decreases |moves|
  {
    if moves == [] then t
    else if !Allowed(t, moves[0]) then RunTraffic(t, moves[1..])
    else RunTraffic(Perform(t, moves[0]), moves[1..])
  }

  lemma {:induction false} TrafficKeeps<C, R>(t: Traffic<C, R>, moves: seq<Move<C, R>>)
    requires TrafficOk(t)
    ensures TrafficOk(RunTraffic(t, moves))
    decreases |moves|
  {
    if moves != [] {
      if Allowed(t, moves[0]) {
        match moves[0] {
          case OnConnects(s) => ConnectsKeep(t, s);
          case OnReports(s) => ReportsKeep(t, s);
        }
        TrafficKeeps(Perform(t, moves[0]), moves[1..]);
      } else {
        TrafficKeeps(t, moves[1..]);
      }
    }
  }

  function Fresh<C, R>(connects: seq<C>, reports: seq<R>): Traffic<C, R> {
    Traffic(Q.New(connects), Q.New(reports), [], 0)
  }

  /**
   * In every interleaving, however stale the loads: while fewer updates than the capacity are pushed and not answered
   * by a report already taken, a reload of the read index does not refuse the push.
   */
  lemma NotRefused<C, R>(connects: seq<C>, reports: seq<R>, moves: seq<Move<C, R>>, seen: nat)
    requires connects != [] && reports != []
    ensures var t := RunTraffic(Fresh(connects, reports), moves);
            && |t.reports.popped| <= t.visible
            && (Allowed(t, OnConnects(Q.PushRefresh(seen)))
                && |t.connects.pushed| - |t.reports.popped| < |connects| - 1 ==>
                 Perform(t, OnConnects(Q.PushRefresh(seen))).connects.producer.Writing?)
  {
    Q.NewInv(connects);
    Q.NewInv(reports);
    TrafficKeeps(Fresh(connects, reports), moves);
    var t := RunTraffic(Fresh(connects, reports), moves);
    if Allowed(t, OnConnects(Q.PushRefresh(seen))) {
      Q.PushRefreshFull(t.connects, seen);
    }
  }

  // ---------------------------------------------------------------------------
  // The manager's side of it
  // ---------------------------------------------------------------------------

  /** Connect updates an event pushes. */
  function Dispatches(cfg: Config, s: State, e: Event): nat {
    if !Enabled(s, e) then 0
    else
      match e
      case Socket(i, ready, io) =>
        One(|At(s, i).recvBuf| <= LENGTH && SocketTurnout(cfg, QuotaMet(s), At(s, i), ready, io) == Connects)
      case _ => 0
  }

  /** Reports an event takes. */
  function ReportsTaken(cfg: Config, s: State, e: Event): nat {
    if e.Schedule? then |TakenFrom(RoundRobin(cfg, s).1, DisconnectedSpot)| else 0
  }

  /** Updates pushed and not yet answered by a report taken, counted over a run. */
  ghost function Outstanding(cfg: Config, s: State, events: seq<Event>): int
    decreases |events|
  {
    if events == [] then 0
    else
      Dispatches(cfg, s, events[0]) - ReportsTaken(cfg, s, events[0])
      + Outstanding(cfg, Step(cfg, s, events[0]), events[1..])
  }

  lemma {:induction false} DrainSends(cfg: Config, s: State, spot: Spot)
    ensures var t := DrainLoop(cfg, s, spot).state; t.connects == s.connects && t.sessions == s.sessions
    decreases Pending(s, spot)
  {
    if Pending(s, spot) > 0 {
      var (s1, item) := Pop(s, spot);
      TryFrame(cfg, s1, item);
      var (s2, fate) := Try(cfg, s1, item);
      if fate != Attempted {
        DrainSends(cfg, s2, spot);
      }
    }
  }

  lemma {:induction false} WakeUpSends(cfg: Config, s: State)
    ensures var t := RoundRobin(cfg, s).0; t.connects == s.connects && t.sessions == s.sessions
    decreases Room(s), UnsetFlags(s.empties), Distance(s.current, s.empties)
  {
    if s.inbound < MAX_INBOUND_INFLIGHT {
      var d := Turn(cfg, s);
      TurnProgress(cfg, s);
      DrainSends(cfg, s, s.current);
      if !AllEmpty(d.state.empties) {
        WakeUpSends(cfg, d.state.(current := NextSpot(s.current)));
      }
    }
  }

  lemma WakeUpOutstanding(cfg: Config, s: State)
    ensures |Unanswered(RoundRobin(cfg, s).0)| == |Unanswered(s)| - |TakenFrom(RoundRobin(cfg, s).1, DisconnectedSpot)|
  {
    WakeUpSends(cfg, s);
    WakeUpTakes(cfg, s, DisconnectedSpot);
  }

  lemma IncomingOutstanding(cfg: Config, s: State, address: Address)
    requires Inv(cfg, s) && s.pool.free != [] && s.outbound < MAX_OUTBOUND_INFLIGHT && !QuotaMet(s)
    ensures var t := AcceptIncoming(s, address);
            Inv(cfg, t) && Unanswered(t) == Unanswered(s)
  {
    IncomingKeeps(cfg, s, address);
    AcceptEffect(cfg, s, address);
  }

  lemma {:induction false} ServerOutstanding(cfg: Config, s: State, arrivals: seq<AcceptOutcome>)
    requires Inv(cfg, s)
    ensures Unanswered(ServerReady(s, arrivals)) == Unanswered(s)
    decreases |arrivals|
  {
    if arrivals != [] && !QuotaMet(s) && s.outbound < MAX_OUTBOUND_INFLIGHT {
      if arrivals[0].Incoming? && s.pool.free != [] {
        IncomingOutstanding(cfg, s, arrivals[0].address);
        ServerOutstanding(cfg, AcceptIncoming(s, arrivals[0].address), arrivals[1..]);
      } else if Accept(s, arrivals[0]).1 {
        ServerOutstanding(cfg, s, arrivals[1..]);
      }
    }
  }

  lemma SocketOutstanding(cfg: Config, s: State, i: nat, ready: Ready, io: Io)
    requires Inv(cfg, s) && Enabled(s, Socket(i, ready, io))
    ensures |Unanswered(SocketReady(cfg, s, i, ready, io))|
         == |Unanswered(s)| + Dispatches(cfg, s, Socket(i, ready, io))
  {
    SocketEffect(cfg, s, i, ready, io);
    var t := SocketReady(cfg, s, i, ready, io);
    if SocketTurnout(cfg, QuotaMet(s), At(s, i), ready, io) == Connects {
      UnansweredPlus(s, t, HandleOf(s, i));
    }
  }

  lemma StepOutstanding(cfg: Config, s: State, e: Event)
    requires Inv(cfg, s)
    ensures |Unanswered(Step(cfg, s, e))| == |Unanswered(s)| + Dispatches(cfg, s, e) - ReportsTaken(cfg, s, e)
  {
    if Enabled(s, e) {
      match e
      case Discoveries(_) =>
      case Schedule => WakeUpOutstanding(cfg, s);
      case Server(arrivals) => ServerOutstanding(cfg, s, arrivals);
      case Socket(i, ready, io) => SocketOutstanding(cfg, s, i, ready, io);
      case Timer(i) => TimerEffect(cfg, s, i);
      case TransferTakes => TakeOutstanding(cfg, s);
      case TransferReports(h, perrno) => ReportOutstanding(cfg, s, h, perrno);
    }
  }

  lemma TakeOutstanding(cfg: Config, s: State)
    requires s.connects != []
    ensures Unanswered(Apply(cfg, s, TransferTakes)) == Unanswered(s)
  {
    MoveTaken(s.connects, s.sessions, multiset(Handles(s.disconnects)));
  }

  lemma ReportOutstanding(cfg: Config, s: State, h: Handle, perrno: int)
    requires Inv(cfg, s) && h in s.sessions
    ensures Unanswered(Apply(cfg, s, TransferReports(h, perrno))) == Unanswered(s)
  {
    ReportedUnanswered(s, h, perrno);
  }

  lemma {:induction false} RunOutstanding(cfg: Config, s: State, events: seq<Event>)
    requires Inv(cfg, s)
    ensures |Unanswered(Run(cfg, s, events))| == |Unanswered(s)| + Outstanding(cfg, s, events)
    decreases |events|
  {
    if events != [] {
      StepInv(cfg, s, events[0]);
      StepOutstanding(cfg, s, events[0]);
      RunOutstanding(cfg, Step(cfg, s, events[0]), events[1..]);
    }
  }

  /**
   * The composed result. A manager below its quota, with its updates going through the lock-free queues: if the queues
   * have seen what the manager did, a push that has to reload the read index finds room, whatever the load returns.
   */
  lemma DispatchFindsRoom<C, R>(cfg: Config, slots: nat, events: seq<Event>,
                                connects: seq<C>, reports: seq<R>, moves: seq<Move<C, R>>, seen: nat)
    requires |connects| == 51 && reports != []
    ensures var s := After(cfg, slots, events);
            var t := RunTraffic(Fresh(connects, reports), moves);
            && |Unanswered(s)| == Outstanding(cfg, Initial(slots), events)
            && (!QuotaMet(s) && |t.connects.pushed| - |t.reports.popped| == Outstanding(cfg, Initial(slots), events)
                && Allowed(t, OnConnects(Q.PushRefresh(seen))) ==>
                 Perform(t, OnConnects(Q.PushRefresh(seen))).connects.producer.Writing?)
  {
    InitialInv(cfg, slots);
    Reachable(cfg, slots, events);
    RunOutstanding(cfg, Initial(slots), events);
    assert Unanswered(Initial(slots)) == multiset{};
    NotRefused(connects, reports, moves, seen);
  }

  // ---------------------------------------------------------------------------
  // The manager and the queues in one run
  // ---------------------------------------------------------------------------

  /**
   * The manager's state, the two queues, and the manager's program order: how many updates its events have dispatched,
   * how many reports they have taken, and how many pushes were refused.
   */
  datatype Joint<C, R> = Joint(state: State, traffic: Traffic<C, R>, dispatched: int, taken: int, refused: nat)

  /** An event of the model, or an atomic step on one of the queues. */
  datatype Beat<C, R> = Happens(event: Event) | Moves(move: Move<C, R>)

  predicate IsRefusal<C, R>(t: Traffic<C, R>, m: Move<C, R>)
    requires Allowed(t, m) && |t.connects.slots| > 0 && |t.reports.slots| > 0
  {
    m.OnConnects? && m.step.PushRefresh? && Perform(t, m).connects.producer.Idle?
  }

  /**
   * Each event that dispatches pushes once, in the order of the events, and by then the reports of the events so far
   * have been popped. The steps of the push and those of the transfer side may be spread over any later beats.
   */
  predicate InOrder<C, R>(j: Joint<C, R>, m: Move<C, R>) {
    m.OnConnects? && m.step.PushStart? ==>
      && |j.traffic.connects.pushed| + j.refused + 1 == j.dispatched
      && |j.traffic.reports.popped| == j.taken
  }

  function Advance<C, R>(cfg: Config, j: Joint<C, R>, b: Beat<C, R>): (k: Joint<C, R>)
    requires |j.traffic.connects.slots| > 0 && |j.traffic.reports.slots| > 0
    ensures |k.traffic.connects.slots| == |j.traffic.connects.slots|
    ensures |k.traffic.reports.slots| == |j.traffic.reports.slots|
  {
    match b
    case Happens(e) =>
      j.(state := Step(cfg, j.state, e), dispatched := j.dispatched + Dispatches(cfg, j.state, e),
         taken := j.taken + ReportsTaken(cfg, j.state, e))
    case Moves(m) =>
      if Allowed(j.traffic, m) && InOrder(j, m) then
        j.(traffic := Perform(j.traffic, m), refused := j.refused + One(IsRefusal(j.traffic, m)))
      else j
  }

  function RunJoint<C, R>(cfg: Config, j: Joint<C, R>, beats: seq<Beat<C, R>>): (k: Joint<C, R>)
    requires |j.traffic.connects.slots| > 0 && |j.traffic.reports.slots| > 0
    ensures |k.traffic.connects.slots| == |j.traffic.connects.slots|
    decreases |beats|
  {
    if beats == [] then j else RunJoint(cfg, Advance(cfg, j, beats[0]), beats[1..])
  }

  /** Fewer updates pushed than the queue holds, apart from those a report already popped answers. */
  predicate HasRoom<C, R>(t: Traffic<C, R>) {
    |t.connects.pushed| - |t.reports.popped| < UPDATE_QUEUE_SIZE
  }

  ghost predicate JointOk<C, R>(cfg: Config, j: Joint<C, R>) {
    && Inv(cfg, j.state) && TrafficOk(j.traffic) && |j.traffic.connects.slots| == UPDATE_QUEUE_SIZE + 1
    && j.refused == 0 && |Unanswered(j.state)| == j.dispatched - j.taken
    && (!j.traffic.connects.producer.Idle? ==> HasRoom(j.traffic))
  }

  lemma HappensKeeps<C, R>(cfg: Config, j: Joint<C, R>, e: Event)
    requires JointOk(cfg, j)
    ensures JointOk(cfg, Advance(cfg, j, Happens(e)))
  {
    StepInv(cfg, j.state, e);
    StepOutstanding(cfg, j.state, e);
  }

  /** A push that is under way has room, so its reload does not refuse it. */
  lemma RoomMeansAccepted<C, R>(t: Traffic<C, R>, m: Move<C, R>)
    requires TrafficOk(t) && Allowed(t, m) && |t.connects.slots| == UPDATE_QUEUE_SIZE + 1
    requires !t.connects.producer.Idle? ==> HasRoom(t)
    ensures !IsRefusal(t, m)
  {
    if m.OnConnects? && m.step.PushRefresh? {
      Q.PushRefreshFull(t.connects, m.step.seen);
    }
  }

  /** Room is lost by a publication only, which ends the push. */
  lemma RoomStays<C, R>(t: Traffic<C, R>, m: Move<C, R>)
    requires TrafficOk(t) && Allowed(t, m) && HasRoom(t)
    ensures !Perform(t, m).connects.producer.Idle? ==> HasRoom(Perform(t, m))
  {
  }

  lemma IdleStays<C, R>(t: Traffic<C, R>, m: Move<C, R>)
    requires TrafficOk(t) && Allowed(t, m) && t.connects.producer.Idle?
    requires !(m.OnConnects? && m.step.PushStart?)
    ensures Perform(t, m).connects.producer.Idle?
  {
  }

  lemma MovesKeep<C, R>(cfg: Config, j: Joint<C, R>, m: Move<C, R>)
    requires JointOk(cfg, j) && Allowed(j.traffic, m) && InOrder(j, m)
    ensures JointOk(cfg, Advance(cfg, j, Moves(m)))
  {
    var t := j.traffic;
    match m {
      case OnConnects(s) => ConnectsKeep(t, s);
      case OnReports(s) => ReportsKeep(t, s);
    }
    RoomMeansAccepted(t, m);
    if HasRoom(t) {
      RoomStays(t, m);
    } else if m.OnConnects? && m.step.PushStart? {
      StartHasRoom(cfg, j);
    } else {
      IdleStays(t, m);
    }
  }

  /** In order, a push starts with fewer unanswered updates than peers are counted connected. */
  lemma StartHasRoom<C, R>(cfg: Config, j: Joint<C, R>)
    requires Inv(cfg, j.state) && j.refused == 0 && |Unanswered(j.state)| == j.dispatched - j.taken
    requires |j.traffic.connects.pushed| + 1 == j.dispatched && |j.traffic.reports.popped| == j.taken
    ensures HasRoom(j.traffic)
  {
    assert |Unanswered(j.state)| <= j.state.connected <= HEALTHY_PEER_COUNT;
  }

  lemma {:induction false} JointKeeps<C, R>(cfg: Config, j: Joint<C, R>, beats: seq<Beat<C, R>>)
    requires JointOk(cfg, j)
    ensures JointOk(cfg, RunJoint(cfg, j, beats))
    decreases |beats|
  {
    if beats != [] {
      match beats[0] {
        case Happens(e) => HappensKeeps(cfg, j, e);
        case Moves(m) =>
          if Allowed(j.traffic, m) && InOrder(j, m) {
            MovesKeep(cfg, j, m);
          }
      }
      JointKeeps(cfg, Advance(cfg, j, beats[0]), beats[1..]);
    }
  }

  /**
   * Over every joint run, from a new manager and fresh queues, with any interleaving and any stale loads: no dispatch
   * is refused, so none of the updates whose push result the manager discards is lost.
   */
  lemma NoDispatchRefused<C, R>(cfg: Config, slots: nat, connects: seq<C>, reports: seq<R>, beats: seq<Beat<C, R>>)
    requires |connects| == 51 && reports != []
    ensures var j := RunJoint(cfg, Joint(Initial(slots), Fresh(connects, reports), 0, 0, 0), beats);
            j.refused == 0 && |Unanswered(j.state)| == j.dispatched - j.taken
  {
    InitialInv(cfg, slots);
    Q.NewInv(connects);
    Q.NewInv(reports);
    assert Unanswered(Initial(slots)) == multiset{};
    JointKeeps(cfg, Joint(Initial(slots), Fresh(connects, reports), 0, 0, 0), beats);
  }
}
