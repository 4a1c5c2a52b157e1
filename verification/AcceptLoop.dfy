/** The accept loop over whole rows of arrivals: what ends it, what it skips, and what it lets in. */
module AcceptLoop {
  import opened Peers
  import opened ConnectionModel
  import opened ConnectionInvariant
  import opened ConnectionSteps
  import opened PeerLifecycle

  // ---------------------------------------------------------------------------
  // Errors
  // ---------------------------------------------------------------------------

  /** An interrupted call (4) or a connection that went away in the queue (103): there is nothing to it but a retry. */
  predicate Transient(o: AcceptOutcome) {
    o.AcceptErrno? && (o.errno == 4 || o.errno == 103)
  }

  function WithoutTransient(arrivals: seq<AcceptOutcome>): (r: seq<AcceptOutcome>) {
    if arrivals == [] then []
    else (if Transient(arrivals[0]) then [] else [arrivals[0]]) + WithoutTransient(arrivals[1..])
  }

  lemma LoopStep(s: State, arrivals: seq<AcceptOutcome>)
    requires arrivals != []
    ensures ServerReady(s, arrivals) ==
              if s.connected >= 50 || s.outbound >= 15 then s
              else if Accept(s, arrivals[0]).1 then ServerReady(Accept(s, arrivals[0]).0, arrivals[1..])
              else Accept(s, arrivals[0]).0
  {
  }

  /** The transient errors of a row of arrivals make no difference. */
  lemma {:induction false} TransientSkipped(s: State, arrivals: seq<AcceptOutcome>)
    ensures ServerReady(s, arrivals) == ServerReady(s, WithoutTransient(arrivals))
    decreases |arrivals|
  {
    if arrivals != [] {
      var rest := WithoutTransient(arrivals[1..]);
      LoopStep(s, arrivals);
      if Transient(arrivals[0]) {
        assert WithoutTransient(arrivals) == rest;
        TransientSkipped(s, arrivals[1..]);
        if s.connected >= 50 || s.outbound >= 15 {
          Closed(s, rest);
        }
      } else {
        assert ([arrivals[0]] + rest)[1..] == rest;
        LoopStep(s, [arrivals[0]] + rest);
        TransientSkipped(Accept(s, arrivals[0]).0, arrivals[1..]);
      }
    }
  }

  /** At the quota or at the limit nothing is accepted. */
  lemma Closed(s: State, arrivals: seq<AcceptOutcome>)
    requires s.connected >= 50 || s.outbound >= 15
    ensures ServerReady(s, arrivals) == s
  {
  }

  /** Any other error ends the loop: whatever stands behind it is not looked at. */
  lemma {:induction false} OtherErrorsEnd(s: State, before: seq<AcceptOutcome>, e: nat, behind: seq<AcceptOutcome>)
    requires e != 4 && e != 103
    ensures ServerReady(s, before + [AcceptErrno(e)] + behind) == ServerReady(s, before)
    decreases |before|
  {
    var all := before + [AcceptErrno(e)] + behind;
    LoopStep(s, all);
    if before != [] {
      assert all[1..] == before[1..] + [AcceptErrno(e)] + behind;
      LoopStep(s, before);
      OtherErrorsEnd(Accept(s, before[0]).0, before[1..], e, behind);
    }
  }

  // ---------------------------------------------------------------------------
  // Connections
  // ---------------------------------------------------------------------------

  /** Nothing in it ends the loop by itself. */
  predicate Harmless(arrivals: seq<AcceptOutcome>) {
    forall o :: o in arrivals ==> o.Incoming? || Transient(o)
  }

  predicate HasPlace(s: State) {
    s.connected < 50 && s.outbound < 15 && s.pool.free != []
  }

  lemma NoFreeSlot(s: State, arrivals: seq<AcceptOutcome>)
    requires s.pool.free == [] && arrivals != [] && arrivals[0].Incoming?
    ensures ServerReady(s, arrivals) == s
  {
  }

  /** While there is a place behind them, earlier arrivals have all been dealt with. */
  lemma {:induction false} Reached(s: State, before: seq<AcceptOutcome>, behind: seq<AcceptOutcome>)
    requires Harmless(before) && HasPlace(ServerReady(s, before))
    ensures ServerReady(s, before + behind) == ServerReady(ServerReady(s, before), behind)
    decreases |before|
  {
    if before == [] {
      assert before + behind == behind;
    } else {
      assert (before + behind)[0] == before[0] && (before + behind)[1..] == before[1..] + behind;
      LoopStep(s, before);
      LoopStep(s, before + behind);
      assert before[0] in before;
      if s.pool.free == [] && before[0].Incoming? {
        NoFreeSlot(s, before);
      }
      Reached(Accept(s, before[0]).0, before[1..], behind);
    }
  }

  /** Without a place an arrival is turned away, and the loop is over. */
  lemma {:induction false} TurnedAway(s: State, before: seq<AcceptOutcome>, address: Address,
                                      behind: seq<AcceptOutcome>)
    requires Harmless(before) && !HasPlace(ServerReady(s, before))
    ensures ServerReady(s, before + [Incoming(address)] + behind) == ServerReady(s, before)
    decreases |before|
  {
    var all := before + [Incoming(address)] + behind;
    LoopStep(s, all);
    if before != [] {
      assert all[0] == before[0] && all[1..] == before[1..] + [Incoming(address)] + behind;
      LoopStep(s, before);
      assert before[0] in before;
      if s.connected < 50 && s.outbound < 15 && !(s.pool.free == [] && before[0].Incoming?) {
        TurnedAway(Accept(s, before[0]).0, before[1..], address, behind);
      }
    }
  }

  /** The accepted peer of an address, in its handshake. */
  ghost predicate LetIn(s: State, address: Address) {
    && address in s.peers && s.peers[address] in s.pool.occupied
    && var p := At(s, s.peers[address]);
    && p.key == address && p.source == TcpServer && p.state == Handshaking && p.interest == Readable && p.timer
  }

  lemma {:induction false} StaysIn(cfg: Config, s: State, address: Address, arrivals: seq<AcceptOutcome>)
    requires Inv(cfg, s) && LetIn(s, address)
    ensures LetIn(ServerReady(s, arrivals), address)
    decreases |arrivals|
  {
    if arrivals != [] && s.connected < 50 && s.outbound < 15 {
      LoopStep(s, arrivals);
      if arrivals[0].Incoming? && s.pool.free != [] {
        var a := arrivals[0].address;
        IncomingKeeps(cfg, s, a);
        AcceptEffect(cfg, s, a);
        AdmittedStays(cfg, s, AcceptIncoming(s, a), a, s.pool.NextSlot(), address);
        StaysIn(cfg, AcceptIncoming(s, a), address, arrivals[1..]);
      } else if Accept(s, arrivals[0]).1 {
        StaysIn(cfg, s, address, arrivals[1..]);
      }
    }
  }

  lemma AdmittedStays(cfg: Config, s: State, t: State, a: Address, slot: nat, address: Address)
    requires Inv(cfg, s) && Inv(cfg, t) && Admitted(s, t, a, slot) && (a == address || LetIn(s, address))
    ensures LetIn(t, address)
  {
    if a == address {
      assert slot in Registered(t, {});
    } else {
      OtherSlot(cfg, s, a, address);
      assert SameElsewhere(s, t, s.peers[address]);
      assert s.peers[address] in Registered(t, {});
    }
  }

  /** Two addresses are registered for two slots. */
  lemma OtherSlot(cfg: Config, s: State, a: Address, b: Address)
    requires Inv(cfg, s) && a != b && b in s.peers
    ensures s.peers[b] in s.pool.occupied && s.peers[b] !in Superseded(s, a)
  {
    assert s.peers[b] in Registered(s, {});
    assert a in s.peers ==> s.peers[a] in Registered(s, {});
  }

  /**
   * A connection that arrives behind others, none of which ends the loop, is let in if and only if there is a place
   * left by then: fewer than 50 peers counted connected, fewer than 15 counted in their handshake, and a free slot.
   * Then it ends up registered, in its handshake, whatever arrives behind it; otherwise it and all behind it change
   * nothing.
   */
  lemma ArrivalLetIn(cfg: Config, s: State, before: seq<AcceptOutcome>, address: Address, behind: seq<AcceptOutcome>)
    requires Inv(cfg, s) && Harmless(before)
    ensures var t, u := ServerReady(s, before), ServerReady(s, before + [Incoming(address)] + behind);
            && (HasPlace(t) ==> LetIn(u, address))
            && (!HasPlace(t) ==> u == t)
  {
    var t := ServerReady(s, before);
    ServerKeeps(cfg, s, before);
    if HasPlace(t) {
      assert before + [Incoming(address)] + behind == before + ([Incoming(address)] + behind);
      Reached(s, before, [Incoming(address)] + behind);
      LetInNext(cfg, t, address, behind);
    } else {
      TurnedAway(s, before, address, behind);
    }
  }

  lemma LetInNext(cfg: Config, s: State, address: Address, behind: seq<AcceptOutcome>)
    requires Inv(cfg, s) && HasPlace(s)
    ensures LetIn(ServerReady(s, [Incoming(address)] + behind), address)
  {
    var all := [Incoming(address)] + behind;
    assert all[1..] == behind;
    LoopStep(s, all);
    IncomingKeeps(cfg, s, address);
    AcceptEffect(cfg, s, address);
    AdmittedStays(cfg, s, AcceptIncoming(s, address), address, s.pool.NextSlot(), address);
    StaysIn(cfg, AcceptIncoming(s, address), address, behind);
  }
}
