/** A discovered peer that refuses every attempt is dialled three times: it waits after the first and second failure,
    and is forgotten after the third. */
module FailureWitness {
  import opened Peers
  import opened ConnectionModel
  import opened ConnectionInvariant
  import opened ConnectionSteps
  import opened ConnectionRuns
  import opened SchedulerFates
  import opened PeerLifecycle
  import opened PeerLedger
  import opened PeerFailures
  import opened InboundAccount
  import opened SchedulerRevival
  import opened LeakWitnesses

  /** The peer is kept, waits for its retry, and has failed n times. */
  ghost predicate WaitsAfter(s: State, i: nat, a: Address, n: nat) {
    && i in s.pool.occupied && At(s, i).key == a && At(s, i).state == Failed && At(s, i).timer
    && At(s, i).interest == Quiet && At(s, i).failures == n
  }

  /** Neither a slot nor the registry knows the peer any more. */
  ghost predicate Forgotten(s: State, i: nat, a: Address) {
    i !in s.pool.occupied && a !in s.peers
  }

  lemma VacatedUnregistered(cfg: Config, s: State, t: State, i: nat)
    requires Inv(cfg, s) && Inv(cfg, t) && OnlySlot(s, t, i) && i in s.pool.occupied && i !in t.pool.occupied
    ensures At(s, i).key !in t.peers
  {
    assert i in Registered(s, {});
    forall k | k in t.peers
      ensures k != At(s, i).key
    {
      var j := t.peers[k];
      assert j in Registered(t, {}) && SameElsewhere(s, t, j) && j in Registered(s, {});
    }
  }

  /** One peer being dialled again, and the scheduler at the retries. */
  ghost predicate Redialling(cfg: Config, s: State, i: nat, a: Address, n: nat) {
    && Inv(cfg, s) && i in s.pool.occupied && s.inbound == 2 && s.connected == 0
    && s.current == FailedSpot && AllEmpty(s.empties) && s.cache == [] && s.disconnects == [] && s.retry == []
    && At(s, i).key == a && At(s, i).failures == n && At(s, i).state == Failed && IsInFlight(At(s, i))
  }

  /** The attempt is refused. */
  lemma Refuses(cfg: Config, s: State, i: nat, a: Address, n: nat, t: State)
    requires Redialling(cfg, s, i, a, n) && t == Step(cfg, s, Socket(i, ErrorReady, QuietIo))
    ensures n < 2 ==> WaitsAfter(t, i, a, n + 1)
    ensures n == 2 ==> Forgotten(t, i, a)
    ensures n < 2 ==> Inv(cfg, t) && t == s.(pool := t.pool, peers := t.peers, faults := t.faults, inbound := 1)
  {
    StepInv(cfg, s, Socket(i, ErrorReady, QuietIo));
    SocketEffect(cfg, s, i, ErrorReady, QuietIo);
    if n == 2 {
      VacatedUnregistered(cfg, s, t, i);
    }
  }

  /** Its timer expires, and the next wake-up dials it again. */
  lemma ComesBack(cfg: Config, s: State, i: nat, a: Address, n: nat, t: State, u: State)
    requires Inv(cfg, s) && WaitsAfter(s, i, a, n) && At(s, i).source == Tracker && s.inbound == 1 && s.connected == 0
    requires s.current == FailedSpot && AllEmpty(s.empties) && s.cache == [] && s.disconnects == [] && s.retry == []
    requires t == Step(cfg, s, Timer(i)) && u == Step(cfg, t, Schedule) && cfg.outcome(s.attempts) == InProgress
    ensures Redialling(cfg, u, i, a, n)
  {
    StepInv(cfg, s, Timer(i));
    StepInv(cfg, t, Schedule);
    Expires(cfg, s, i, t);
    RetryServedAgain(cfg, t, t.(retry := []), i, u);
  }

  lemma Expires(cfg: Config, s: State, i: nat, t: State)
    requires Inv(cfg, s) && i in s.pool.occupied && Resting(At(s, i)) && s.retry == [] && t == Step(cfg, s, Timer(i))
    ensures i in t.pool.occupied && At(t, i) == At(s, i).(interest := Quiet, timer := false)
    ensures t == s.(pool := t.pool, faults := t.faults, retry := [HandleOf(t, i)])
  {
    TimerEffect(cfg, s, i);
  }

  lemma RetryServedAgain(cfg: Config, s: State, w: State, i: nat, u: State)
    requires s.pool.Valid() && i in s.pool.occupied && At(s, i).state == Failed && At(s, i).source == Tracker
    requires s.retry == [HandleOf(s, i)] && w == s.(retry := []) && cfg.outcome(s.attempts) == InProgress
    requires s.current == FailedSpot && s.cache == [] && s.disconnects == [] && s.inbound == 1
    requires u == RoundRobin(cfg, s).0
    ensures i in u.pool.occupied && u.inbound == 2 && u.connected == s.connected
    ensures u.current == FailedSpot && AllEmpty(u.empties) && u.cache == [] && u.disconnects == [] && u.retry == []
    ensures At(u, i).key == At(s, i).key && At(u, i).failures == At(s, i).failures && At(u, i).state == Failed
    ensures IsInFlight(At(u, i))
  {
    RetryDialled(cfg, s, w, i);
    var x := TryFailed(cfg, w, HandleOf(s, i)).0;
    RetryTurn(cfg, s, w, x);
    assert At(u, i) == At(x, i);
  }

  /** The peer of slot i refuses, its timer expires, and a wake-up dials it again. */
  function OnceMore(i: nat): seq<Event> {
    [Socket(i, ErrorReady, QuietIo), Timer(i), Schedule]
  }

  lemma SecondRound(cfg: Config, slots: nat, a: Address, b: Address, s: State, t: State, u: State)
    requires slots > 1 && a != b && (forall n :: cfg.outcome(n) == InProgress)
    requires s == After(cfg, slots, RetriedRun(slots, a, b))
    requires t == Step(cfg, s, Socket(slots - 1, ErrorReady, QuietIo))
    requires u == After(cfg, slots, RetriedRun(slots, a, b) + OnceMore(slots - 1))
    ensures WaitsAfter(t, slots - 1, a, 2) && Redialling(cfg, u, slots - 1, a, 2)
  {
    var i := slots - 1;
    var j := RetriedUnderway(cfg, slots, a, b);
    Reachable(cfg, slots, RetriedRun(slots, a, b));
    Refuses(cfg, s, i, a, 1, t);
    StillOurs(cfg, t, i);
    RunThree(cfg, s, Socket(i, ErrorReady, QuietIo), Timer(i), Schedule);
    RunAppends(cfg, Initial(slots), RetriedRun(slots, a, b), OnceMore(i));
    ComesBack(cfg, t, i, a, 2, Step(cfg, t, Timer(i)), u);
  }

  lemma StillOurs(cfg: Config, s: State, i: nat)
    requires Inv(cfg, s) && i in s.pool.occupied && At(s, i).state == Failed
    ensures At(s, i).source == Tracker
  {
    assert i in Registered(s, {});
  }

  /**
   * A run in which every attempt at the first discovered peer is refused. After one refusal and after two it is kept
   * and waits for its timer; after the third its slot is vacant and its address unregistered.
   */
  lemma ThreeRefusals(cfg: Config, slots: nat, a: Address, b: Address)
    requires slots > 1 && a != b && (forall n :: cfg.outcome(n) == InProgress)
    ensures var i, refusal := slots - 1, [Socket(slots - 1, ErrorReady, QuietIo)];
            var again := RetriedRun(slots, a, b);
            && WaitsAfter(After(cfg, slots, [Discoveries([a]), Schedule] + refusal), i, a, 1)
            && WaitsAfter(After(cfg, slots, again + refusal), i, a, 2)
            && Forgotten(After(cfg, slots, again + OnceMore(i) + refusal), i, a)
  {
    var i, e := slots - 1, Socket(slots - 1, ErrorReady, QuietIo);
    var again := RetriedRun(slots, a, b);
    FirstRefusal(cfg, slots, a);
    var s, u := After(cfg, slots, again), After(cfg, slots, again + OnceMore(i));
    SecondRound(cfg, slots, a, b, s, Step(cfg, s, e), u);
    Refuses(cfg, u, i, a, 2, Step(cfg, u, e));
    RunOne(cfg, s, e);
    RunOne(cfg, u, e);
    RunAppends(cfg, Initial(slots), again, [e]);
    RunAppends(cfg, Initial(slots), again + OnceMore(i), [e]);
  }

  lemma FirstRefusal(cfg: Config, slots: nat, a: Address)
    requires slots > 1 && cfg.outcome(0) == InProgress
    ensures WaitsAfter(After(cfg, slots, [Discoveries([a]), Schedule] + [Socket(slots - 1, ErrorReady, QuietIo)]),
                       slots - 1, a, 1)
  {
    var e := Socket(slots - 1, ErrorReady, QuietIo);
    var s := After(cfg, slots, Dialled1(a));
    FirstIsUnderway(cfg, slots, a);
    ErrorAfterDial(cfg, s, slots - 1, a);
    RunOne(cfg, s, e);
    RunAppends(cfg, Initial(slots), Dialled1(a), [e]);
  }
}
