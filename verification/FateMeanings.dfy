/** What the four fates mean: each item a wake-up takes, with the manager's state before it was popped and after. */
module FateMeanings {
  import opened Peers
  import opened ConnectionModel
  import opened ConnectionInvariant
  import opened ConnectionSteps
  import opened ConnectionRuns
  import opened SchedulerFates
  import opened PeerLifecycle

  /** One item taken: the state it was popped from, its fate, and the state that left. */
  datatype Took = Took(before: State, item: Item, fate: Fate, after: State)

  function DrainTrace(cfg: Config, s: State, spot: Spot): seq<Took>
    decreases Pending(s, spot)
  {
    if Pending(s, spot) == 0 then []
    else
      var (s1, item) := Pop(s, spot);
      var (s2, fate) := Try(cfg, s1, item);
      TryFrame(cfg, s1, item);
      [Took(s, item, fate, s2)] + if fate == Attempted then [] else DrainTrace(cfg, s2, spot)
  }

  function TurnTrace(cfg: Config, s: State): seq<Took> {
    if s.current == DiscoveredSpot && s.pool.free == [] then [] else DrainTrace(cfg, s, s.current)
  }

  /** Every item a wake-up takes. */
  function WakeUpTrace(cfg: Config, s: State): seq<Took>
    decreases Room(s), UnsetFlags(s.empties), Distance(s.current, s.empties)
  {
    if s.inbound >= MAX_INBOUND_INFLIGHT then []
    else
      var d := Turn(cfg, s);
      TurnProgress(cfg, s);
      TurnTrace(cfg, s)
      + if AllEmpty(d.state.empties) then [] else WakeUpTrace(cfg, d.state.(current := NextSpot(s.current)))
  }

  function Labels(trace: seq<Took>): seq<(Item, Fate)> {
    if trace == [] then [] else [(trace[0].item, trace[0].fate)] + Labels(trace[1..])
  }

  /** The two states differ at most in the scheduler's position. */
  ghost predicate SameButPosition(s: State, t: State) {
    t == s.(current := t.current, empties := t.empties)
  }

  /** The trace leads from one state to the other, with nothing in between but the scheduler's position. */
  ghost predicate Leads(s: State, trace: seq<Took>, t: State)
    decreases |trace|
  {
    if trace == [] then SameButPosition(s, t)
    else SameButPosition(s, trace[0].before) && Leads(trace[0].after, trace[1..], t)
  }

  // ---------------------------------------------------------------------------
  // The meaning of a fate
  // ---------------------------------------------------------------------------

  /** The item is about a peer the manager can act on: an address it does not know, or a peer still in its slot. */
  predicate Actionable(s: State, item: Item) {
    if item.FromTracker? then item.address !in s.peers else Live(s, item.handle)
  }

  /** Neither the address nor the slot leads to a peer any more, and no queued handle to the slot is live. */
  ghost predicate Gone(s: State, key: Address, i: nat) {
    && key !in s.peers && i !in s.pool.occupied
    && forall h :: (h in s.retry || h in Unanswered(s)) && h.slot == i ==> !Live(s, h)
  }

  /** The address leads to the slot, whose peer is being connected to, its watcher and its timer armed. */
  ghost predicate Underway(s: State, key: Address, i: nat) {
    key in s.peers && s.peers[key] == i && i in s.pool.occupied && Dialling(At(s, i), key)
  }

  ghost predicate Undisturbed(s: State, t: State) {
    && t.peers == s.peers && t.pool.occupied == s.pool.occupied && t.connected == s.connected
    && t.attempts == s.attempts && forall j: nat :: At(t, j) == At(s, j)
  }

  /** An item is dropped as a duplicate or as stale exactly when it is one, and then nothing is disturbed. */
  ghost predicate DropMeant(s: State, item: Item, fate: Fate, t: State) {
    && (fate == Duplicate <==> item.FromTracker? && item.address in s.peers)
    && (fate == Stale <==> !item.FromTracker? && !Live(s, item.handle))
    && (!Actionable(s, item) ==> Undisturbed(s, t))
  }

  /** Otherwise its peer is gone afterwards or being connected to, and the fate says which. */
  ghost predicate OutcomeMeant(s: State, item: Item, fate: Fate, t: State, key: Address, i: nat) {
    && (fate == Deleted <==> Actionable(s, item) && Gone(t, key, i))
    && (fate == Attempted <==> Actionable(s, item) && Underway(t, key, i))
  }

  /** A live report costs one count, and its peer is dialled again exactly when the tracker named it. */
  ghost predicate ReportMeant(s: State, item: Item, t: State) {
    item.FromTransfer? && Live(s, item.handle) ==>
      && t.connected + 1 == s.connected
      && t.attempts == if At(s, item.handle.slot).source == Tracker then s.attempts + 1 else s.attempts
  }

  /** The item was the next of its source, and its fate is right for the state it was popped in. */
  ghost predicate Meant(x: Took) {
    && Pending(x.before, SourceOf(x.item)) > 0
    && var (s, item) := Pop(x.before, SourceOf(x.item));
    && item == x.item && (item.FromTracker? ==> s.pool.free != [])
    && DropMeant(s, item, x.fate, x.after)
    && OutcomeMeant(s, item, x.fate, x.after, KeyOf(s, item), SlotOf(s, item))
    && ReportMeant(s, item, x.after)
  }

  lemma GoneAfterwards(cfg: Config, s: State, key: Address, i: nat)
    requires Inv(cfg, s) && key !in s.peers && i !in s.pool.occupied
    ensures Gone(s, key, i)
  {
    forall h | (h in s.retry || h in Unanswered(s)) && h.slot == i
      ensures !Live(s, h)
    {
      assert HandleOk(s, {}, h);
    }
  }

  lemma OutcomeMeans(cfg: Config, s: State, item: Item, fate: Fate, t: State, key: Address, i: nat)
    requires Inv(cfg, t) && Tried(s, t, item, fate, i) && key == KeyOf(s, item)
    requires Actionable(s, item) <==> fate == Deleted || fate == Attempted
    ensures OutcomeMeant(s, item, fate, t, key, i)
  {
    if fate == Deleted {
      GoneAfterwards(cfg, t, key, i);
    }
  }

  lemma ReportMeans(s: State, item: Item, fate: Fate, t: State, i: nat)
    requires Tried(s, t, item, fate, i) && (fate == Stale <==> !item.FromTracker? && !Live(s, item.handle))
    requires fate == Duplicate ==> item.FromTracker?
    requires item.FromTransfer? && Live(s, item.handle) ==>
              s.connected > 0 && item.handle.slot == i && i in s.pool.occupied
    ensures ReportMeant(s, item, t)
  {
  }

  lemma TriedUndisturbed(s: State, item: Item, fate: Fate, i: nat, t: State)
    requires Tried(s, t, item, fate, i) && (fate == Duplicate || fate == Stale)
    ensures Undisturbed(s, t)
  {
    forall j: nat
      ensures At(t, j) == At(s, j) && (j in t.pool.occupied <==> j in s.pool.occupied)
    {
      if fate == Duplicate && j != i {
        assert SameElsewhere(s, t, j);
      }
    }
  }

  lemma TryMeans(cfg: Config, s: State, spot: Spot)
    requires Inv(cfg, s) && Pending(s, spot) > 0 && (spot == DiscoveredSpot ==> s.pool.free != [])
    ensures var (s1, item) := Pop(s, spot);
            var (t, fate) := Try(cfg, s1, item);
            Meant(Took(s, item, fate, t))
  {
    var (s1, item) := Pop(s, spot);
    var (t, fate) := Try(cfg, s1, item);
    TryEffect(cfg, s, spot);
    TryKeeps(cfg, s, spot);
    var i := SlotOf(s1, item);
    if item.FromTransfer? {
      PoppedReport(cfg, s);
    }
    OutcomeMeans(cfg, s1, item, fate, t, KeyOf(s1, item), i);
    ReportMeans(s1, item, fate, t, i);
    if fate == Duplicate || fate == Stale {
      TriedUndisturbed(s1, item, fate, i, t);
    }
  }

  // ---------------------------------------------------------------------------
  // Every item of a wake-up
  // ---------------------------------------------------------------------------

  ghost predicate AllMeant(trace: seq<Took>) {
    forall x :: x in trace ==> Meant(x)
  }

  lemma {:induction false} LabelsAppend(a: seq<Took>, b: seq<Took>)
    ensures Labels(a + b) == Labels(a) + Labels(b)
    decreases |a|
  {
    if a == [] {
      assert a + b == b;
    } else {
      assert (a + b)[0] == a[0] && (a + b)[1..] == a[1..] + b;
      LabelsAppend(a[1..], b);
    }
  }

  lemma {:induction false} LeadsOn(s: State, a: seq<Took>, t: State, u: State, b: seq<Took>, v: State)
    requires Leads(s, a, t) && SameButPosition(t, u) && Leads(u, b, v)
    ensures Leads(s, a + b, v)
    decreases |a|
  {
    if a == [] {
      assert a + b == b;
    } else {
      assert (a + b)[0] == a[0] && (a + b)[1..] == a[1..] + b;
      LeadsOn(a[0].after, a[1..], t, u, b, v);
    }
  }

  lemma {:induction false} DrainMeans(cfg: Config, s: State, spot: Spot)
    requires Inv(cfg, s) && (spot == DiscoveredSpot ==> s.pool.free != [])
    ensures var d, trace := DrainLoop(cfg, s, spot), DrainTrace(cfg, s, spot);
            Labels(trace) == d.fates && Leads(s, trace, d.state) && AllMeant(trace)
    decreases Pending(s, spot)
  {
    if Pending(s, spot) > 0 {
      var (s1, item) := Pop(s, spot);
      var (s2, fate) := Try(cfg, s1, item);
      TryFrame(cfg, s1, item);
      TryKeeps(cfg, s, spot);
      TryMeans(cfg, s, spot);
      var x := Took(s, item, fate, s2);
      if fate == Attempted {
        OneTaken(x, [], s2);
      } else {
        if spot == DiscoveredSpot {
          InvFrame(cfg, s, s1);
          DiscoveryReturnsSlot(cfg, s1, item.address);
        }
        DrainMeans(cfg, s2, spot);
        OneTaken(x, DrainTrace(cfg, s2, spot), DrainLoop(cfg, s2, spot).state);
      }
    }
  }

  lemma OneTaken(x: Took, rest: seq<Took>, t: State)
    requires Meant(x) && AllMeant(rest) && Leads(x.after, rest, t)
    ensures AllMeant([x] + rest) && Leads(x.before, [x] + rest, t)
    ensures Labels([x] + rest) == [(x.item, x.fate)] + Labels(rest)
  {
    assert ([x] + rest)[1..] == rest;
  }

  lemma TurnMeans(cfg: Config, s: State)
    requires Inv(cfg, s)
    ensures var d, trace := Turn(cfg, s), TurnTrace(cfg, s);
            && Labels(trace) == d.fates && AllMeant(trace)
            && Leads(s, trace, DrainSpot(cfg, s, s.current).state)
            && SameButPosition(DrainSpot(cfg, s, s.current).state, d.state)
  {
    if s.current != DiscoveredSpot || s.pool.free != [] {
      DrainMeans(cfg, s, s.current);
    }
  }

  /** Every item a wake-up takes has the fate its circumstances demand, and the listed items are all that happened. */
  lemma {:induction false} WakeUpMeans(cfg: Config, s: State)
    requires Inv(cfg, s)
    ensures var (t, fates) := RoundRobin(cfg, s);
            Labels(WakeUpTrace(cfg, s)) == fates && Leads(s, WakeUpTrace(cfg, s), t) && AllMeant(WakeUpTrace(cfg, s))
    decreases Room(s), UnsetFlags(s.empties), Distance(s.current, s.empties)
  {
    if s.inbound < MAX_INBOUND_INFLIGHT {
      var d := Turn(cfg, s);
      TurnProgress(cfg, s);
      TurnKeeps(cfg, s);
      TurnMeans(cfg, s);
      var mid := DrainSpot(cfg, s, s.current).state;
      if AllEmpty(d.state.empties) {
        LeadsOn(s, TurnTrace(cfg, s), mid, d.state, [], d.state);
        assert TurnTrace(cfg, s) + [] == TurnTrace(cfg, s);
      } else {
        var u := d.state.(current := NextSpot(s.current));
        WakeUpMeans(cfg, u);
        LeadsOn(s, TurnTrace(cfg, s), mid, u, WakeUpTrace(cfg, u), RoundRobin(cfg, u).0);
        LabelsAppend(TurnTrace(cfg, s), WakeUpTrace(cfg, u));
      }
    }
  }

  /** So it is for every wake-up of every run. */
  lemma FatesMean(cfg: Config, slots: nat, events: seq<Event>, k: nat)
    ensures var s := After(cfg, slots, events);
            var (t, fates) := RoundRobin(cfg, s);
            var trace := WakeUpTrace(cfg, s);
            && |trace| == |fates| && Leads(s, trace, t)
            && (k < |fates| ==> trace[k].item == fates[k].0 && trace[k].fate == fates[k].1 && Meant(trace[k]))
  {
    Reachable(cfg, slots, events);
    var s := After(cfg, slots, events);
    WakeUpMeans(cfg, s);
    LabelsAt(WakeUpTrace(cfg, s), k);
  }

  lemma {:induction false} LabelsAt(trace: seq<Took>, k: nat)
    ensures |Labels(trace)| == |trace|
    ensures k < |trace| ==> Labels(trace)[k] == (trace[k].item, trace[k].fate)
    decreases |trace|
  {
    if trace != [] {
      LabelsAt(trace[1..], if k > 0 then k - 1 else 0);
    }
  }

  /** What becomes of a disconnect update that was popped live. */
  ghost predicate RedialledByTracker(x: Took) {
    x.item.FromTransfer? && Live(x.before, x.item.handle) ==>
      x.after.attempts ==
        if At(x.before, x.item.handle.slot).source == Tracker then x.before.attempts + 1 else x.before.attempts
  }

  lemma MeantRedialled(x: Took)
    requires Meant(x)
    ensures RedialledByTracker(x)
  {
    var (s, item) := Pop(x.before, SourceOf(x.item));
    if item.FromTransfer? {
      assert At(s, item.handle.slot) == At(x.before, item.handle.slot);
    }
  }

  /**
   * Whatever error code it carries, a live disconnect update that a wake-up of any run pops is answered by a new
   * connect() exactly when the tracker named the peer. (Whether a wake-up pops it is another matter.)
   */
  lemma RedialledIffTracker(cfg: Config, slots: nat, events: seq<Event>)
    ensures forall x :: x in WakeUpTrace(cfg, After(cfg, slots, events)) ==> RedialledByTracker(x)
  {
    Reachable(cfg, slots, events);
    var s := After(cfg, slots, events);
    WakeUpMeans(cfg, s);
    forall x | x in WakeUpTrace(cfg, s)
      ensures RedialledByTracker(x)
    {
      MeantRedialled(x);
    }
  }
}
