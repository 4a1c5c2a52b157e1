# Verified model of the BitTorrent client

A Dafny model of the parts of the client with the most state: the peer connection manager and its slot pool, the
lock-free queue between its threads, the handshake codec over the scatter/gather ring buffer, the bencode decoder and
encoder, and two small containers. `dafny verify dfyconfig.toml` checks all of it.

## How it is built

- `RingBuffer.dfy`, `Handshake.dfy`, `HandshakeCodec.dfy`, `Transport.dfy`: the byte ring as a class refining a FIFO,
  the handshake on plain byte sequences, the codec's segment loops proved equal to it at every wrap offset, and
  `send`/`recv` with an arbitrary kernel, up to the end-to-end theorem.
- `SlotPool.dfy`, `Peers.dfy`, `ConnectionModel.dfy`: the pool, one peer, and every callback of the manager as a
  function on its whole state. Events carry the kernel's answers; the n-th `connect()` is answered by an arbitrary
  function. Each callback is atomic: there is one event-loop thread.
- `ConnectionInvariant.dfy`, `ConnectionSteps.dfy`: the invariant and every callback keeping it.
- `PeerLifecycle.dfy`: what each callback, attempt and accept does to the one slot it changes. `SocketTable.dfy`: the
  same for a socket event, by the answers of the kernel. `AcceptLoop.dfy`: whole rows of arrivals.
- `PeerFailures.dfy`, `FailureWitness.dfy`: what the failure count counts, and a peer that uses up its three attempts.
- `ConnectionRuns.dfy`, `StaleHandles.dfy`, `SchedulerFates.dfy`, `FateMeanings.dfy`: theorems over all runs.
- `PeerLedger.dfy`, `InboundAccount.dfy`, `InboundLimit.dfy`, `OutboundAccount.dfy`, `ConnectedAccount.dfy`: what each
  count of the manager owes to its peers, over all runs, and what becomes of a manager whose counts are off.
- `SchedulerStall.dfy` (stuck managers stay stuck), `SchedulerReach.dfy` (what a wake-up reaches), `SchedulerRevival.dfy`
  (other managers can be revived).
- `StallWitnesses.dfy`, `LeakWitnesses.dfy`, `ReportWitness.dfy`: concrete runs from a new manager.
- `ConnectionManager.dfy`: the manager as a class whose methods update its fields, each proved equal to its function.
- `SpscQueue.dfy`: one atomic step per load, slot access and store; an acquire load may return any value between the
  last one seen and the current one. `DispatchQueue.dfy` puts two such queues between the two threads.
- `Bencode.dfy` (functions), `BencodeStream.dfy` (the loops over a stream), `BencodeRoundTrip.dfy`,
  `BencodeRawText.dfy`.
- `OverwritableCache.dfy`, `DynamicBitset.dfy`.

The transfer thread is an environment that pops connect updates and answers each popped one at most once, at any
time. A watcher fires only while it is armed. Slot counts, queue and buffer capacities of the templates are
parameters; 50, 35, 15, 68, 200 and 3 appear where a property ties them together.

## What the proofs found

- The flags `empties` outlive a wake-up. With all three set, a wake-up looks only at the current source, and the other
  two come back only through an attempt started from that one (`SchedulerStall.OnlyCurrentSourceRevives`; exact
  condition for taking nothing in `SchedulerFates.WakeUpTakesNothing`). So the manager can reach states from which it
  never calls `connect()` again. `SchedulerStall.Stuck` describes them by the sources still served, and
  `SchedulerRevival.StuckExactly` shows that it describes exactly these states, as long as `inbound_inflight` is in
  range and below its limit. Runs that end there: the first `connect()` fails at once
  (`StallWitnesses.FirstRefusalIsLast`); an accepted peer comes and goes before anything is discovered
  (`FirstVisitorIsLast`); every slot holds a peer whose retry is queued (`RetriesNeverServed`; nobody is accepted then
  either); a first wake-up finds nothing queued (`SchedulerStall.NeverConnectsAfterIdleWakeUp`; that takes a signal
  with nothing behind it, and the repository holds no sender of one).
- Accepting an endpoint whose tracker entry waits for a retry decrements `inbound_inflight` for an attempt already
  settled. The count wraps around at once if it is zero (`InboundAccount.InboundUnderflowReachable`), or later
  (`LateUnderflowReachable`). The exact account over all runs is `InboundExactly`; `InRangeExactly` shows that nothing
  else takes the count out of range.
- An immediate `connect()` never encodes our handshake (`InboundAccount.ImmediateConnectSkipsGreeting`; exact
  condition in `ConnectionRuns.ConnectedOnlyAfterHandshake`).
- The test for PEER_SHUTDOWN at src/Client/PeerConnectionManager.cpp:172 reads the peer's own error code, which is
  never PEER_SHUTDOWN there; the transfer side's code in the update is not read. So a popped live update is answered
  by a call of `connect` exactly if the tracker named the peer (`FateMeanings.RedialledIffTracker`). A report may also
  stay unread: `ReportWitness.ShutdownReportedAndRedialled` is a run with both.
- Replacing a CONNECTED peer by an accepted one leaves the connected count one too high for good, because the update
  about it is then stale and the decrement at line 171 is skipped (`ConnectedAccount.CountTooHighForGood`; exact
  account over all runs in `ConnectedExactly`).
- An attempt of ours leaves `inbound_inflight` one too high if it is a retry that times out while connecting, or if
  its peer is deleted for an invalid handshake or a full quota (`LeakWitnesses.RetryTimeoutLeaks`,
  `InvalidHandshakeLeaks`, `FullQuotaLeaks`; the leaks of `InboundAccount.InboundExactly`). Thirty-five of them stop
  the dialling until an accept replaces a waiting tracker peer, for good if there is none
  (`InboundLimit.NothingDialledWhileUsedUp`, `NothingDialledEver`, `LeakWitnesses.ForeignersUseUpTheLimit`).
- An accepted peer deleted for an invalid handshake or a full quota leaves `outbound_inflight` one too high; fifteen
  of them, and nobody is accepted any more (`OutboundAccount.OutboundExactly`, `LockedOutExactly`,
  `ForeignersLockOut`).

## Model

| member | source | states |
|---|---|---|
| `ConnectionRuns.RegistryIsPool` | src/Client/PeerConnectionManager.cpp:69-76 | After every run, registered keys and occupied slots are in bijection: each key maps to an occupied slot storing that key, each occupied slot is registered under its own key and is not on the free stack, and active() is the size of the map |
| `ConnectionRuns.DispatchNeverDropped` | src/Client/PeerConnectionManager.cpp:663-673 | After every run there are at most `connected` unread connect updates and at most `connected` unread disconnect updates, `connected` is at most 50, and while the quota is not met both queues have room: the push whose result is discarded cannot fail |
| `ConnectionRuns.NoFaultEver` | src/Client/PeerConnectionManager.cpp:515-612 | No run fails an assertion (acquisition, source, event on a connected peer, empty send buffer, complete encoding), receives into a full buffer, drops an update or decrements outbound_inflight at zero |
| `ConnectionRuns.OutboundCovers` | src/Client/PeerConnectionManager.cpp:682-693 | In every run, accepted peers in their handshake number at most outbound_inflight, which is at most 15; the exact account is OutboundAccount.OutboundExactly |
| `OutboundAccount.OutboundExactly` | src/Client/PeerConnectionManager.cpp:246-248 | After every run outbound_inflight is the number of accepted peers in their handshake plus the number of accepted peers the run deleted in it, for an invalid handshake or a full quota; the two are equal if and only if there was no such deletion |
| `OutboundAccount.LockedOutExactly` | src/Client/PeerConnectionManager.cpp:685-691 | The limit of 15 is reached after every continuation if and only if fifteen accepted peers were deleted in their handshake, which is if and only if it is reached with no accepted peer in its handshake; then no arrivals change anything, ever |
| `OutboundAccount.ForeignersLockOut` | src/Client/PeerConnectionManager.cpp:552-556 | Such a run: fifteen peers connect, one after the other, and send the handshake of another torrent; the pool is empty and nobody is accepted any more |
| `ConnectionRuns.ConnectedIffUnanswered` | src/Client/PeerConnectionManager.cpp:161-171 | A slot is CONNECTED exactly when exactly one update about its current generation is unanswered |
| `ConnectionRuns.ConnectedCountIsEnough` | src/Client/PeerConnectionManager.cpp:254-273 | The connected count lies between the number of CONNECTED slots and 50 in every run; its exact excess is ConnectedAccount.ConnectedExactly |
| `ConnectedAccount.ConnectedExactly` | src/Client/PeerConnectionManager.cpp:418-430 | After every run the connected count is the number of CONNECTED slots plus the number of accepts of the run whose address mapped to a CONNECTED slot; so the two are equal if and only if there was no such accept |
| `ConnectedAccount.CountTooHighForGood` | src/Client/PeerConnectionManager.cpp:163-171 | A run (an accept, a whole handshake, an accept from the same address, the report of the lost session, a wake-up) that ends with one peer counted, no CONNECTED slot and no update left; after any continuation the count is still too high |
| `ConnectedAccount.ExcessStays` | src/Client/PeerConnectionManager.cpp:269-273 | No continuation of any run lowers the excess of the connected count |
| `PeerLedger.EveryPeerListed` | src/Client/PeerConnectionManager.cpp:477-492 | After every run each occupied slot is CONNECTED with exactly one update unanswered, or has its timer armed (with its socket watcher, unless it waits for a retry), or has its handle in the retry queue; whether the retries are ever served is decided by SchedulerRevival.StuckExactly |
| `PeerLedger.BooksAfter` | src/Client/PeerConnectionManager.cpp:238-273 | After every run both counts differ from the peers they count by exactly what the run leaked and took over, and every peer is on a list |
| `PeerLifecycle.SocketEffect` | src/Client/PeerConnectionManager.cpp:614-638 | Every enabled socket event in a reachable state changes one slot, and leaves its peer waiting, failed, connected or dropped as the guards and the answers of the kernel say |
| `PeerLifecycle.TimerEffect` | src/Client/PeerConnectionManager.cpp:477-492 | An expired timer changes one slot: a FAILED peer is queued, even one that is connecting again, and any other fails |
| `PeerLifecycle.AcceptEffect` | src/Client/PeerConnectionManager.cpp:345-445 | An accepted endpoint gives up the slot its address had and takes a vacant one; no other slot changes |
| `AcceptLoop.TransientSkipped` | src/Client/PeerConnectionManager.cpp:334-336 | Over every row of arrivals: leaving out every interrupted call (errno 4) and every aborted connection (errno 103) changes nothing |
| `AcceptLoop.OtherErrorsEnd` | src/Client/PeerCErrnoHandler.cpp:7-13 | Whatever stands behind any other errno, no matter what stands before it, is not looked at |
| `AcceptLoop.ArrivalLetIn` | src/Client/PeerConnectionManager.cpp:682-693 | A connection behind arrivals that do not end the loop ends up registered, in its handshake, whatever arrives behind it, if by then fewer than 50 peers are counted connected, fewer than 15 in their handshake, and a slot is free; otherwise it and all behind it change nothing |
| `SocketTable.QuotaDrops` | src/Client/PeerConnectionManager.cpp:622-624 | With 50 peers counted connected, any event of a peer's socket deletes the peer |
| `SocketTable.ErrorFails` | src/Client/PeerConnectionManager.cpp:626-629 | Below that, an error event fails it |
| `SocketTable.TimerTable` | src/Client/PeerConnectionManager.cpp:477-492 | An expired timer queues the handle of a FAILED peer, even of one that is connecting again, and fails any other |
| `SocketTable.ConnectTable` | src/Client/PeerConnectionManager.cpp:584-612 | A writable event of a connecting peer: fails it on a failed connection and on a send answered by an errno other than 11; otherwise it has sent the first bytes of the greeting, as many as were taken, and waits to send the rest, or to receive once all 68 are gone |
| `SocketTable.ResumeTable` | src/Client/PeerConnectionManager.cpp:517-533 | A writable event of a handshaking peer: fails it on an errno other than 11; otherwise it waits to send what is left, and with nothing left waits to receive if we dialled it and is connected if we accepted it |
| `SocketTable.ReceiveTable` | src/Client/PeerConnectionManager.cpp:535-581 | A receive: fails its peer on a shutdown and on any errno but 11; waits below 68 bytes; then drops a peer whose byte 0 is not 19 or whose bytes 28 to 47 are not the info hash, connects one we dialled, and answers one we accepted, with the outcomes of a send |
| `SocketTable.WaitingReceiver` | src/Client/PeerConnectionManager.cpp:535-550 | Below 68 bytes the buffer holds what it held and then what has arrived, and the peer goes on receiving |
| `SocketTable.ConnectedDialler` | src/Client/PeerConnectionManager.cpp:558-559 | A peer we dialled that is connected is known by the last 20 of its 68 bytes |
| `SocketTable.RejectedPeer` | src/Client/PeerConnectionManager.cpp:552-556 | A rejected peer leaves -1 as the saved error number of its slot |
| `SocketTable.AnsweredInPart` | src/Client/PeerConnectionManager.cpp:565-577 | An accepted peer whose answer went out in part is known by its last 20 bytes and waits to send exactly the rest of the greeting |
| `ConnectionRuns.ConnectedOnlyAfterHandshake` | src/Client/PeerConnectionManager.cpp:535-609 | A CONNECTED peer has sent 68 bytes with the length byte 19 and the info hash, its peer_id is their last 20, and this attempt put exactly the 68 bytes of our handshake on the wire, every field in its place, if and only if its connect() was asynchronous |
| `ConnectionRuns.ReceiveBufferHasRoom` | src/Client/PeerConnectionManager.cpp:536-543 | Between callbacks every receive buffer has room, so no receive takes "full" for a shutdown; a stored PEER_SHUTDOWN never survives a callback |
| `ConnectionRuns.FreeSlotsAreBlank` | src/Client/PeerManagerTypes.cpp:193-212 | A slot out of use is as teardown_connection leaves it, field by field and with no failure counted, and no queue holds a handle that would pass its generation test |
| `PeerFailures.FailuresExactly` | src/Client/PeerConnectionManager.cpp:450-475 | After every run the failure count of an occupied slot is the number of failures and lost sessions of its peer in that run since the slot was taken for it or a connect() of it succeeded at once; for a peer that has only failed it is below 3, and for one that came through the server 0 |
| `FailureWitness.ThreeRefusals` | src/Client/PeerConnectionManager.cpp:464-466 | A run from a new manager in which every attempt at the first discovered peer is refused: after the first and the second failure it waits FAILED on its timer with 1 and 2 counted, after the third its slot is vacant and its address unregistered |
| `ConnectionSteps.ApplyKeeps` | src/Client/PeerConnectionManager.cpp:55-693 | Every event of the loop (discoveries, wake-up, accepts, socket, timer) and of the transfer side, with any answers of the kernel, keeps the manager invariant (bijection, peer states, queue contents, counters) |
| `ConnectionSteps.DiscoveredKeeps` | src/Client/PeerConnectionManager.cpp:141-156 | Acquire, register or hand the slot back, connect or delete: one discovered address keeps the invariant |
| `ConnectionSteps.DisconnectedKeeps` | src/Client/PeerConnectionManager.cpp:161-184 | One popped disconnect update, stale or live, keeps the invariant |
| `ConnectionSteps.FailedKeeps` | src/Client/PeerConnectionManager.cpp:187-203 | One popped retry, stale or live, keeps the invariant |
| `ConnectionSteps.RoundRobinKeeps` | src/Client/PeerConnectionManager.cpp:209-223 | A whole wake-up of the round-robin scheduler keeps the invariant |
| `ConnectionSteps.HandleFailureKeeps` | src/Client/PeerConnectionManager.cpp:450-475 | A failing peer that is not connected keeps the invariant whether it is deleted or put back for a retry |
| `ConnectionSteps.TimerKeeps` | src/Client/PeerConnectionManager.cpp:477-492 | An expired timer keeps the invariant; a retry is queued at most once per generation |
| `ConnectionSteps.TransportKeeps` | src/Client/PeerConnectionManager.cpp:584-612 | Encoding and sending after a connect keeps the invariant and finds the send buffer empty and large enough |
| `ConnectionSteps.WritableKeeps` | src/Client/PeerConnectionManager.cpp:517-533 | Resuming a partial handshake keeps the invariant |
| `ConnectionSteps.ReadableKeeps` | src/Client/PeerConnectionManager.cpp:535-581 | Receiving, decoding, rejecting, answering or dispatching keeps the invariant |
| `ConnectionSteps.DispatchKeeps` | src/Client/PeerConnectionManager.cpp:663-680 | Handing a peer over keeps the invariant |
| `ConnectionSteps.SocketKeeps` | src/Client/PeerConnectionManager.cpp:614-638 | A socket event in any peer state, with or without the quota met, keeps the invariant |
| `ConnectionSteps.AcceptKeeps` | src/Client/PeerConnectionManager.cpp:328-448 | An accepted endpoint, new or replacing an old entry in any state, keeps the invariant |
| `ConnectionSteps.ServerKeeps` | src/Client/PeerConnectionManager.cpp:682-693 | The accept loop keeps the invariant |
| `ConnectionSteps.InitialInv` | src/Client/PeerConnectionManager.hpp:96-114 | A new manager meets the invariant |
| `StaleHandles.LiveHandleMeansSamePeer` | src/Client/PeerConnectionManager.cpp:167 | A (slot, generation) taken at any point of any run that passes the generation test later: the slot was held, under the same generation, by the same registered key and source after every event in between |
| `StaleHandles.StepHolds` | src/Client/PeerConnectionManager.cpp:494-499 | One event never lowers a generation, and a slot whose generation it leaves alone keeps its peer |
| `SlotPool.StaleHandleCaught` | src/Client/slot_pool.hpp:81-91 | For every run of acquires, releases and writes: the generation test passes if and only if the slot was not released in between, and then it was held all along |
| `SlotPool.AcquisitionsDiffer` | src/Client/slot_pool.hpp:71-84 | Two acquisitions of one slot never carry the same generation |
| `SlotPool.GenerationCountsReleases` | src/Client/slot_pool.hpp:81-88 | A generation grows by exactly the number of releases of its slot |
| `SlotPool.HeldWhileUnreleased` | src/Client/slot_pool.hpp:71-91 | A held slot stays held through any run that does not release it |
| `SlotPool.FreeIsVacant` | src/Client/slot_pool.hpp:60-97 | The free stack and the occupancy bits partition the slots: an index is vacant exactly when it is on the stack |
| `SlotPool.SlotRecyclingPool.constructor` | src/Client/slot_pool.hpp:60-62 | All slots free, in order, generation zero |
| `SlotPool.SlotRecyclingPool.Acquire` | src/Client/slot_pool.hpp:71-79 | Fails exactly when nothing is available; otherwise hands out the most recently freed slot, which was vacant |
| `SlotPool.SlotRecyclingPool.Release` | src/Client/slot_pool.hpp:81-91 | Frees the slot, advances its generation and nothing else |
| `ConnectionModel.TurnProgress` | src/Client/PeerConnectionManager.cpp:211-222 | Termination of the drain: each turn lowers (room in flight, unset flags, distance to an unset flag) |
| `SchedulerFates.WakeUpTakes` | src/Client/PeerConnectionManager.cpp:209-223 | A wake-up takes a prefix of each source in that source's order; what the listed fates mean is FateMeanings.FatesMean |
| `FateMeanings.FatesMean` | src/Client/PeerConnectionManager.cpp:138-203 | For every item of every wake-up of every run, in the state it was popped in: duplicate exactly if a discovery already registered; stale exactly if its handle is not live; deleted exactly if neither, and afterwards its address and slot lead to no peer and no queued handle to the slot is live; attempted exactly if neither, and afterwards registered with watcher and timer armed. Dropped items disturb nothing, and the listed items are all that happened |
| `FateMeanings.RedialledIffTracker` | src/Client/PeerConnectionManager.cpp:167-181 | Every live disconnect update that a wake-up of any run pops, whatever error code it carries, leads to a new call of the manager's connect if and only if the tracker named the peer |
| `ReportWitness.ShutdownReportedAndRedialled` | src/Client/PeerConnectionManager.cpp:161-181 | A run in which a tracker peer is reported lost with PEER_SHUTDOWN: a wake-up that finds no discovery leaves the report unread; one that dials a second address pops it, and the first peer is dialled again |
| `SchedulerFates.WakeUpCounts` | src/Client/PeerConnectionManager.cpp:209-223 | inbound_inflight rises by exactly the number of attempts started, stays at most 35 if it started so, and a wake-up that leaves room has set all three flags |
| `SchedulerFates.DrainTakes` | src/Client/PeerConnectionManager.cpp:138-157 | One scheduler call takes a prefix of its own source and nothing of the others |
| `SchedulerFates.DrainStarts` | src/Client/PeerConnectionManager.cpp:130-159 | It reports success exactly when the last item it took was attempted, attempts at most one, and otherwise has emptied its source |
| `SchedulerFates.TruthfulDrain` | src/Client/PeerConnectionManager.hpp:68-79 | With truthful flags, a wake-up that leaves room has emptied both update queues |
| `SchedulerFates.WakeUpTakesNothing` | src/Client/PeerConnectionManager.hpp:70 | Exactly when a wake-up with room takes nothing, in terms of the sources and of the flags left by earlier wake-ups |
| `SchedulerFates.DiscoveriesIgnoredAfterIdleWakeUp` | src/Client/PeerConnectionManager.cpp:219-220 | The shortest instance: the wake-up right after an idle one leaves any number of discovered peers in the cache although every slot is free and nothing is in flight |
| `SchedulerRevival.StuckExactly` | src/Client/PeerConnectionManager.cpp:209-223 | In every reachable state whose inbound count is in range and below 35: no continuation ever calls connect() again if and only if the manager is stuck, a condition on the scheduler's position and flags and on the peers in the pool |
| `SchedulerStall.StuckByCurrent` | src/Client/PeerConnectionManager.hpp:69-70 | Stuck with all flags set, by the current spot: at the retries, no tracker peer that is queued or can still be; at the reports, no established tracker peer and no attempt that can still be established below the quota; at the discoveries, no free slot and none that can still become free |
| `SchedulerStall.StuckForGood` | src/Client/PeerConnectionManager.cpp:209-223 | After any continuation of any run that is stuck, connect() has not been called again and the manager is still stuck |
| `SchedulerReach.OfferReached` | src/Client/PeerConnectionManager.cpp:209-223 | A wake-up with room that serves a source with something to offer (a live retry, a live report about a tracker peer, a new address and a free slot) calls connect() |
| `StallWitnesses.FirstRefusalIsLast` | src/Client/PeerConnectionManager.cpp:151-158 | A run: one address is discovered and its connect() fails at once (no socket, or refused); it is the last connect() in every continuation |
| `StallWitnesses.FirstVisitorIsLast` | src/Client/PeerConnectionManager.cpp:172-175 | A run: an accepted peer connects, and its loss is reported and processed before anything is discovered; connect() is never called in any continuation |
| `StallWitnesses.JammedForGood` | src/Client/PeerConnectionManager.cpp:134-135 | With all flags set, the scheduler at the discoveries and no slot that is or can become free: after any continuation the same slots are occupied and connect() has not been called |
| `StallWitnesses.RetriesNeverServed` | src/Client/PeerConnectionManager.cpp:477-492 | A run, for any number of slots: as many peers are dialled and refuse, and their timers expire; every slot holds a failed peer whose handle is in the retry queue, and nothing is dialled, accepted or given up in any continuation |
| `SchedulerStall.NeverConnectsAfterIdleWakeUp` | src/Client/PeerConnectionManager.cpp:209-223 | The shortest instance: after a first wake-up with nothing queued connect() is never called |
| `SchedulerStall.OnlyCurrentSourceRevives` | src/Client/PeerConnectionManager.hpp:69-70 | With all flags set, a wake-up that starts nothing from its current source looks at no other source and changes neither position nor flags |
| `SchedulerFates.DiscoveriesKeepNewest` | src/Client/PeerConnectionManager.cpp:55-59 | However many addresses arrive between wake-ups, the cache holds the newest 200 in order |
| `InboundAccount.AcceptKeepsInboundExactly` | src/Client/PeerConnectionManager.cpp:418-428 | The accept step alone: it wraps the count if and only if it supersedes an unconnected tracker peer while the count is zero |
| `InboundAccount.InboundExactly` | src/Client/PeerConnectionManager.cpp:238-244 | After every run inbound_inflight is, modulo 2^64, the attempts under way plus those given up uncounted minus the waiting tracker peers replaced by accepts; it has wrapped around if and only if that number is negative, which never exceeds 35 |
| `InboundAccount.InboundCovers` | src/Client/PeerConnectionManager.cpp:418-428 | In every run whose accepts replaced no waiting tracker peer, the attempts under way are at most inbound_inflight, which is at most 35, and their difference is exactly the attempts given up uncounted |
| `InboundAccount.InRangeExactly` | src/Client/PeerConnectionManager.cpp:418-428 | The guard is exact: from any reachable state in range, any event leads to one in range if and only if its accepts replace no more waiting tracker peers than the count has to spare |
| `InboundLimit.NothingDialledWhileUsedUp` | src/Client/PeerConnectionManager.cpp:211 | Once the attempts given up uncounted exceed the waiting tracker peers replaced by 35, connect() is not called in any continuation that replaces no waiting tracker peer, and the count stays at 35 |
| `InboundLimit.ReplacingReopens` | src/Client/PeerConnectionManager.cpp:424-426 | From there, one event leaves the count at 35 minus the number of waiting tracker peers it replaces |
| `InboundLimit.NothingDialledEver` | src/Client/PeerConnectionManager.cpp:211 | If moreover no tracker peer waits for a retry, connect() is not called in any continuation at all |
| `LeakWitnesses.ForeignersUseUpTheLimit` | src/Client/PeerConnectionManager.cpp:552-556 | Such a run: thirty-five peers the tracker named answer with the handshake of another torrent; the pool is empty and connect() is never called again |
| `LeakWitnesses.InvalidHandshakeLeaks` | src/Client/PeerConnectionManager.cpp:552-556 | A run with exactly one attempt given up uncounted: an invalid handshake |
| `LeakWitnesses.RetryTimeoutLeaks` | src/Client/PeerConnectionManager.cpp:477-492 | A run with exactly one: a retry that times out while it connects |
| `LeakWitnesses.FullQuotaLeaks` | src/Client/PeerConnectionManager.cpp:622-624 | A run with exactly one: fifty peers connect to us while one is being dialled |
| `InboundAccount.LateUnderflowReachable` | src/Client/PeerConnectionManager.cpp:457-462 | A run that wraps later, when a peer fails: two peers dialled, one fails and connects to us, which takes the count below the attempts under way, then the other fails |
| `InboundAccount.InboundUnderflowReachable` | src/Client/PeerConnectionManager.cpp:424-426 | A run that reaches that wrap-around: a dialled peer fails, waits for its retry, and connects to us |
| `InboundAccount.ImmediateConnectSkipsGreeting` | src/Client/PeerConnectionManager.cpp:100-104 | A run in which a peer becomes CONNECTED without having been sent a byte, after an immediate connect() |
| `ConnectionManager.PeerConnectionManager.constructor` | src/Client/PeerConnectionManager.cpp:319-326 | A new manager is in the initial state of the run theorems |
| `ConnectionManager.PeerConnectionManager.DeletePeerConnection` | src/Client/PeerConnectionManager.cpp:494-499 | Deregisters, tears down and releases as the model does: that slot becomes vacant, no other slot and no count changes |
| `ConnectionManager.PeerConnectionManager.ConnectPeer` | src/Client/PeerConnectionManager.cpp:82-109 | Succeeds exactly when the kernel connects at once or later; then watcher and timer are armed; the saved error number is that of the socket call, 115 while the connection is pending, and -1 otherwise; no other slot changes |
| `ConnectionManager.PeerConnectionManager.InitiateConnect` | src/Client/PeerConnectionManager.cpp:114-123 | Counts an attempt exactly when it started |
| `ConnectionManager.PeerConnectionManager.HandlePeerFailure` | src/Client/PeerConnectionManager.cpp:450-475 | Settles one attempt. A third failure is the last one, and so is any failure of a peer that came through the server: the slot is vacated. Any other leaves the peer FAILED on its timer with both buffers empty. No other slot changes; how the failures are counted over runs is PeerFailures.FailuresExactly |
| `ConnectionManager.PeerConnectionManager.HandlePeerConnectionAndDispatch` | src/Client/PeerConnectionManager.cpp:663-680 | With room in the queue: the peer is CONNECTED with its watchers stopped, its handle queued, one more counted, one attempt settled; no other slot changes |
| `ConnectionManager.PeerConnectionManager.DiscoveredPeerScheduler` | src/Client/PeerConnectionManager.cpp:130-159 | The loop over the cache equals the model's drain of discoveries, with the fate of each item |
| `ConnectionManager.PeerConnectionManager.DisconnectedPeerScheduler` | src/Client/PeerConnectionManager.cpp:161-184 | The loop over disconnect updates equals the model's drain |
| `ConnectionManager.PeerConnectionManager.FailedPeerScheduler` | src/Client/PeerConnectionManager.cpp:187-203 | The loop over the retry queue equals the model's drain |
| `ConnectionManager.PeerConnectionManager.RoundRobinEstablisherScheduler` | src/Client/PeerConnectionManager.cpp:209-223 | The load-balancer loop equals the model's wake-up |
| `ConnectionManager.PeerConnectionManager.DrainDiscovered` | src/Client/PeerConnectionManager.cpp:55-63 | Every discovered address is pushed to the cache, in order, and the scheduler is notified unless the quota is met or no slot is free |
| `ConnectionManager.PeerConnectionManager.PeerTimerCallback` | src/Client/PeerConnectionManager.cpp:477-492 | Equals the model's timer step and keeps the invariant |
| `ConnectionManager.PeerConnectionManager.TransportLevelInitiations` | src/Client/PeerConnectionManager.cpp:584-612 | Equals the model's step after a connect |
| `ConnectionManager.PeerConnectionManager.ApplicationLevelSend` | src/Client/PeerConnectionManager.cpp:517-533 | Equals the model's resumed handshake send |
| `ConnectionManager.PeerConnectionManager.ApplicationLevelReceive` | src/Client/PeerConnectionManager.cpp:535-581 | Equals the model's handshake receive |
| `ConnectionManager.PeerConnectionManager.PeerSocketCallback` | src/Client/PeerConnectionManager.cpp:614-638 | Equals the model's socket step and keeps the invariant |
| `ConnectionManager.PeerConnectionManager.AcceptPeerConnection` | src/Client/PeerConnectionManager.cpp:328-448 | Equals the accept step, error and full-pool branches included; an accepted endpoint takes a vacant slot and gives up the one its address had, and no other slot changes. Which errors are retried: AcceptLoop.TransientSkipped and OtherErrorsEnd |
| `ConnectionManager.PeerConnectionManager.ServerSocketCallback` | src/Client/PeerConnectionManager.cpp:682-693 | The accept loop equals the model's and keeps the invariant; what it lets in is AcceptLoop.ArrivalLetIn |
| `SpscQueue.FifoInEveryRun` | src/Client/spsc_queue.hpp:26-54 | For every interleaving of the atomic steps and every stale load: popped is a prefix of pushed, the rest is exactly the ring from the read index on, never more than Size, and write = read + undelivered (mod Size+1) |
| `SpscQueue.NoSlotRace` | src/Client/spsc_queue.hpp:36-48 | Whenever a push is about to write its slot, that slot holds no undelivered value and is not the one being read |
| `SpscQueue.RefusalsAreExact` | src/Client/spsc_queue.hpp:31-47 | A push gives up exactly when its reload shows Size undelivered, a pop exactly when its reload shows none: the usable capacity is Size |
| `SpscQueue.ReloadsAreExact` | src/Client/spsc_queue.hpp:30-44 | The other side's index is loaded again exactly when the value last seen shows the queue full, or empty |
| `DispatchQueue.NotRefused` | src/Client/spsc_queue.hpp:31-35 | Two queues between two threads, in every interleaving and with stale loads no staler than release and acquire allow: while fewer updates than the capacity are pushed and unanswered by a report already taken, a push that reloads the read index is not refused |
| `DispatchQueue.NoDispatchRefused` | src/Client/PeerConnectionManager.cpp:663-673 | The manager and both queues in one run, in every interleaving and with stale loads: each dispatching event pushes once, in order, the reports of the events so far having been popped; then no push is ever refused, and updates dispatched minus reports taken is the number of unanswered updates |
| `DispatchQueue.DispatchFindsRoom` | src/Client/PeerConnectionManager.cpp:663-673 | One moment of it: below the quota, with the queues level with the manager, a push that reloads the read index finds room whatever the load returns |
| `SpscQueue.ApplyKeeps` | src/Client/spsc_queue.hpp:26-54 | Every atomic step of either side keeps the protocol invariant |
| `SpscQueue.WholePushWorks` | src/Client/spsc_queue.hpp:26-39 | An uninterrupted push succeeds exactly when fewer than Size are undelivered, and appends |
| `SpscQueue.WholePopWorks` | src/Client/spsc_queue.hpp:41-54 | An uninterrupted pop succeeds exactly when something is undelivered, and delivers the oldest |
| `SpscQueue.SpscRing.Push` | src/Client/spsc_queue.hpp:26-39 | The object: accepts exactly when fewer than its capacity are waiting, and its new state is that of the atomic steps |
| `SpscQueue.SpscRing.Pop` | src/Client/spsc_queue.hpp:41-54 | The object: delivers the oldest waiting value or reports none and leaves the argument alone |
| `HandshakeCodec.Decode` | src/Client/bittorrent_messages.hpp:113-221 | At every read offset of a 68-byte ring: incomplete and unchanged below 68 bytes; otherwise exactly 68 consumed, valid exactly when c[0] is 0x13 and c[28..48] is the info hash, peer_id becomes c[48..68] if valid and is unchanged if not |
| `HandshakeCodec.ParseSegments` | src/Client/bittorrent_messages.hpp:132-217 | The two-segment loop with its `range` state agrees with the flat reading at every split |
| `HandshakeCodec.TakeField` | src/Client/bittorrent_messages.hpp:152-181 | A field split by the wrap is completed from the second segment, which always has enough bytes |
| `HandshakeCodec.WraparoundSteal` | src/Client/bittorrent_messages.hpp:63-70 | Stealing takes a prefix of the second segment and leaves the rest |
| `HandshakeCodec.ParseHead` | src/Client/bittorrent_messages.hpp:139-182 | Length byte, protocol string and reserved bytes, split or not: fails exactly on a wrong length byte |
| `HandshakeCodec.ParseTail` | src/Client/bittorrent_messages.hpp:184-216 | Info hash and peer id, split or not: fails exactly on a different info hash |
| `HandshakeCodec.WriteSegments` | src/Client/bittorrent_messages.hpp:93-107 | Copies as much of the message as fits into the free segments, and commits it behind the contents |
| `HandshakeCodec.Encode` | src/Client/bittorrent_messages.hpp:79-111 | Appends the next part of the message as far as there is room and records the cursor |
| `HandshakeCodec.ComputeHandshake` | src/Client/PeerConnectionManager.cpp:44-53 | The five copies put 19, the 19 characters of the protocol string, eight zeros, the info hash and the 20 characters of the client id at offsets 0, 1, 20, 28 and 48 |
| `Handshake.ResumableEncode` | src/Client/bittorrent_messages.hpp:79-111 | For every capacity and every interleaving with reads: drained then buffered bytes are the earlier contents followed by handshake[start..cursor] |
| `Handshake.EncodeProgress` | src/Client/bittorrent_messages.hpp:84-107 | A call advances the cursor exactly when there is room and something left; complete exactly at 68; incomplete only with a full buffer |
| `Handshake.MessageDecodes` | src/Client/bittorrent_messages.hpp:113-221 | A built handshake is accepted under its own info hash and no other, and yields its peer id |
| `Handshake.GreetingLaidOut` | src/Client/PeerConnectionManager.cpp:44-53 | The message of the model has every field at its offset, with the literal bytes |
| `Transport.HandshakeEndToEnd` | src/Client/PeerManagerTypes.hpp:52-88 | Under any splitting into short sends, short receives and EAGAIN: decided exactly when all 68 bytes are in, accepted exactly under the sender's info hash, exactly the sender's peer id, no session byte consumed |
| `Transport.PeerTcp.Send` | src/Client/PeerManagerTypes.hpp:52-67 | Calls until an answer other than errno 4. A count: that many bytes, at most what is buffered, leave the front of the buffer and the saved error number is -1. An errno: nothing moves, it is saved, and the transport is fine if and only if it is 11 |
| `Transport.PeerTcp.Recv` | src/Client/PeerManagerTypes.hpp:69-88 | Calls until an answer other than errno 4. Data: as much as there is room for is appended and the saved error number is -1; none is a shutdown, -100. An errno: nothing moves, it is saved, and the transport is fine if and only if it is 11 |
| `Transport.RetrySend` | src/Client/PeerManagerTypes.hpp:58-60 | There is a k with every answer before the k-th errno 4 and the k-th not; the loop returns the k-th |
| `Transport.RetryRecv` | src/Client/PeerManagerTypes.hpp:75-77 | The same for receiving |
| `RingBuffer.IoRingBuffer.PrepareRead` | src/Client/io_ring_buffer.hpp:59-70 | The segments concatenate to the whole contents; none exactly when empty |
| `RingBuffer.IoRingBuffer.PrepareWrite` | src/Client/io_ring_buffer.hpp:72-83 | The segments are exactly the free cells, in commit order; none exactly when full |
| `RingBuffer.IoRingBuffer.CommitRead` | src/Client/io_ring_buffer.hpp:85-91 | Drops a prefix of the contents |
| `RingBuffer.IoRingBuffer.CommitWrite` | src/Client/io_ring_buffer.hpp:93-99 | Appends the first free cells to the contents |
| `RingBuffer.IoRingBuffer.Scatter` | src/Client/PeerManagerTypes.hpp:71-77 | What recvmsg writes into the prepared segments: the free cells, front to back, contents untouched |
| `RingBuffer.IoRingBuffer.Mask` | src/Client/io_ring_buffer.hpp:43-49 | Both branches compute the remainder |
| `RingBuffer.IoRingBuffer.Reset` | src/Client/io_ring_buffer.hpp:109-113 | Empties the ring from any state |
| `RingBuffer.BitMaskIsRemainder` | src/Client/io_ring_buffer.hpp:44-45 | For a capacity with a single bit, masking with N-1 is the remainder |
| `RingBuffer.SingleBitIffPowerOfTwo` | src/Client/io_ring_buffer.hpp:44 | has_single_bit holds exactly for powers of two |
| `BencodeRoundTrip.RoundTrip` | src/Bencoder/Bendecoders.cpp:17-130 | Decoding an encoding behind any prefix and before any suffix gives back the value, with the right text at every level, and leaves exactly the suffix; dictionary pairs in any order |
| `BencodeRoundTrip.ValueParses` | src/Bencoder/Bendecoders.cpp:69-130 | At any position holding a value's encoding the decoder yields that value's node and stops right behind it |
| `BencodeRoundTrip.DecodedRepresents` | src/Bencoder/Bendecoders.cpp:32 | That node holds the value, and at every level the encoding of its part as its text |
| `BencodeRoundTrip.StoiToString` | src/Bencoder/Bendecoders.cpp:8-15 | stoi reads back to_string over the whole range of int |
| `BencodeRoundTrip.DocumentedTexts` | doc/the_bittorrent_protocol.md:13-18 | The encoder writes the documented texts of a string and an integer; the documented list and dictionary lack the final `e` that it writes |
| `Bencode.StoiExactly` | src/Bencoder/Bendecoders.cpp:8-15 | stoi yields v if and only if the text begins with white space, an optional sign and digits that read v, and v is between -2147483648 and 2147483647 |
| `Bencode.SpaceCodes` | src/Bencoder/Bendecoders.cpp:63-67 | White space is what it is in the C locale: the codes 32 and 9 to 13 |
| `Bencode.DigitAlphabet` | src/Bencoder/Bendecoders.cpp:8-15 | The digits are the characters 0 to 9 in that order |
| `Bencode.StringExactly` | src/Bencoder/Bendecoders.cpp:17-34 | A string fails exactly if what stands before the colon is no number; otherwise it has as many characters as that says, none for a negative size, each the one at its place or, past the end of the input, the last one |
| `BencodeRoundTrip.PairOrderIrrelevant` | src/Bencoder/Benencoder.cpp:16-23 | With distinct keys the text of a dictionary does not depend on the order of the pairs given |
| `BencodeRawText.RawText` | src/Bencoder/Bendecoders.cpp:91-130 | For every successful parse: the recorded text is the consumed input if and only if no white space was skipped, every integer was canonical with its `e` and every payload was present; then it holds at every level, for unsorted and repeated keys too |
| `BencodeRawText.InfoKeyIsOriginal` | src/Client/TorrentFile.cpp:59-61 | The info key is the stretch of the file right behind the key `info` in the last entry of the outermost dictionary that has that key |
| `BencodeRawText.CanonicalIsShortest` | src/Bencoder/Bendecoders.cpp:51-55 | The text recorded for an integer is never longer than the text read, and equal to it if as long |
| `BencodeStream.DecodeAny` | src/Bencoder/Bendecoders.cpp:69-89 | The stream decoder succeeds exactly when the parse does, with its node and its end |
| `BencodeStream.DecodeString` | src/Bencoder/Bendecoders.cpp:17-34 | Size loop and payload loop: truncated payloads and negative sizes included |
| `BencodeStream.DecodeInteger` | src/Bencoder/Bendecoders.cpp:44-57 | Delimiter loop and conversion, failing exactly when stoi does |
| `BencodeStream.DecodeList` | src/Bencoder/Bendecoders.cpp:91-105 | The list loop |
| `BencodeStream.DecodeDictionary` | src/Bencoder/Bendecoders.cpp:113-130 | The dictionary loop; a repeated key replaces the earlier value |
| `BencodeStream.InputStream.PeekSkipSpaces` | src/Bencoder/Bendecoders.cpp:63-67 | Stops at the first character that is not white space |
| `BencodeStream.InputStream.ExtractUntil` | src/Bencoder/Bendecoders.cpp:18-21 | The text up to the first delimiter |
| `BencodeStream.InputStream.ExtractCount` | src/Bencoder/Bendecoders.cpp:25-29 | n characters, the last one repeated past the end |
| `BencodeStream.EncodeList` | src/Bencoder/Benencoder.cpp:11-15 | The loop's text is the items between `l` and `e` |
| `BencodeStream.EncodeDict` | src/Bencoder/Benencoder.cpp:16-23 | The pairs are written in ascending lexicographic order of their keys, whatever arrangement the sort leaves; distinct keys give one text |
| `Bencode.SortUnique` | src/Bencoder/Benencoder.cpp:17-18 | Distinct keys have only one sorted arrangement |
| `Bencode.LessIsLexicographic` | src/Bencoder/Benencoder.cpp:17-18 | The order of the keys is the lexicographic one: equal up to some position, where the first text ends or has the smaller character |
| `Bencode.SortPairsSorts` | src/Bencoder/Benencoder.cpp:17-18 | The reference arrangement is a permutation in ascending lexicographic order |
| `OverwritableCache.PushesKeepNewest` | src/Client/overwritable_cache.hpp:29-36 | However many values are pushed, the newest N of all remain |
| `OverwritableCache.RunsKeepPushOrder` | src/Client/overwritable_cache.hpp:29-54 | Over every mixed run the entries stay within N and in push order |
| `OverwritableCache.FreshPopUndoesPush` | src/Client/overwritable_cache.hpp:29-54 | A fresh pop undoes a push if and only if the push had room; otherwise the oldest is lost |
| `OverwritableCache.Cache.PushVal` | src/Client/overwritable_cache.hpp:29-36 | The object refines the bounded sequence: drop the oldest when full |
| `OverwritableCache.Cache.TakeStale` | src/Client/overwritable_cache.hpp:38-45 | Removes and returns the oldest, or nothing |
| `OverwritableCache.Cache.TakeFresh` | src/Client/overwritable_cache.hpp:47-54 | Removes and returns the newest, or nothing |
| `OverwritableCache.Cache.MinusMask` | src/Client/overwritable_cache.hpp:17-22 | The two index masks undo each other |
| `DynamicBitset.Bitset.FromBytes` | src/Client/DynamicBitset.cpp:19-31 | Index k is bit k mod 8 of byte k / 8, low bit first |
| `DynamicBitset.Bitset.Test` | src/Client/DynamicBitset.cpp:62-68 | Membership, false beyond the length |
| `DynamicBitset.Bitset.Set` | src/Client/DynamicBitset.cpp:70-76 | Adds the index, nothing beyond the length; spare bits stay zero |
| `DynamicBitset.Bitset.Reset` | src/Client/DynamicBitset.cpp:78-84 | Removes the index |
| `DynamicBitset.Bitset.Unite` | src/Client/DynamicBitset.cpp:33-37 | Union, also with itself |
| `DynamicBitset.Bitset.Intersect` | src/Client/DynamicBitset.cpp:39-43 | Intersection |
| `DynamicBitset.Bitset.Union` | src/Client/DynamicBitset.cpp:45-49 | Union into a new set, operands unchanged |
| `DynamicBitset.Bitset.Common` | src/Client/DynamicBitset.cpp:51-55 | Intersection into a new set, operands unchanged |
| `DynamicBitset.Bitset.ResetSet` | src/Client/DynamicBitset.cpp:86-88 | Empties the set |
| `DynamicBitset.WordsFor` | src/Client/DynamicBitset.cpp:8-12 | The fewest words that hold the bits |
| `DynamicBitset.MaskTests` | src/Client/DynamicBitset.cpp:65-67 | The mask test reads exactly the bit of the index |
| `DynamicBitset.OrBit` | src/Client/DynamicBitset.cpp:75 | Bitwise or, bit by bit |
| `DynamicBitset.NotBit` | src/Client/DynamicBitset.cpp:83 | Complement, bit by bit |

## Left out

- IPv6 accept: `unique` is never set on that branch (src/Client/PeerConnectionManager.cpp:394-396), so a new peer counts as a duplicate; IPv4 and IPv4-mapped endpoints are modelled.
- The assertion at src/Client/PeerConnectionManager.cpp:84, which contradicts the one at line 116, is dropped.
- Descriptor ownership and the teardown assertion (src/Client/PeerManagerTypes.cpp:195): opening a socket for a peer that still holds one is among the outcomes `connect()` may have, and is not tied to the peer's descriptor.
- The socket address built from the key (src/Client/PeerManagerTypes.cpp:180-190) and the IP version of a peer; a key is a host and a port.
- Initial counter values (src/Client/PeerConnectionManager.hpp:46-48 gives none): the model starts at zero. Generations, failure counts and the two bounded counters are unbounded naturals; only `inbound_inflight` wraps around at 64 bits, as a property needs it.
- The discovery queue of capacity 100: addresses reach the manager as events, any number at a time. Wake-up signals between threads, the notification of `drain_discovered` included, are events that may occur at any time.
- Peers in slots are values, so several references to one slot are written through the pool; the manager's counters, cache and update queues are plain fields, while the queue and the cache are proved as objects of their own. The peer's 68-byte buffers are byte sequences there, as `RingBuffer` and `HandshakeCodec` justify.
- `connect_update.id` and `.socket`: never read by the manager.
- DispatchQueue.NoDispatchRefused: ties the manager's pushes and pops to its events; the transfer side's are steps of the queues and events of the model, not tied to each other.
- SchedulerRevival.StuckExactly: nothing is said of states whose inbound count is out of range (it has wrapped around, or is below the attempts under way) or at its limit; while the count is 35 or more no wake-up dials, and `InboundLimit` treats the case in which it stays there.
- Which callback a libev event reaches at once with others: READ, WRITE and ERROR are separate events; a READ|WRITE event takes the WRITE branch in the source.
- Timer durations (src/Client/PeerConnectionManager.cpp:473 among them): an armed timer may expire at any time.
- Weak memory beyond stale acquire loads and what a release makes visible: slot writes are visible once the index that publishes them is.
- `std::sort` itself: any arrangement that is sorted and a permutation is allowed; locale-dependent white space (the C locale is assumed); `stoi` beyond the decimal form; `size_int` below INT_MIN.
- Words of the bitset are numbers below 2^64 with bitwise operations digit by digit; printing is left out.
- Server socket set-up, the transfer manager, tracker, HTTP, hashing, torrent-file accessors other than the info key: no protocol state.
