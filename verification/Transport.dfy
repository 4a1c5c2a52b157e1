/** Non-blocking sends and receives over the ring buffers (peer_nonblock_tcp), with the kernel's answers as inputs. */
module Transport {
  import opened RingBuffer
  import opened Handshake

  const EINTR: nat := 4
  const EAGAIN: nat := 11
  const EINPROGRESS: nat := 115
  const NO_ERROR: int := -1
  const PEER_SHUTDOWN: int := -100

  /** What `sendmsg` returned: a count, of which the kernel can have taken at most what was offered, or an errno. */
  datatype SendOutcome = Sent(count: nat) | SendErrno(errno: nat)

  /** What `recvmsg` returned: the bytes that had arrived (none: the peer shut down), or an errno. */
  datatype RecvOutcome = Delivered(data: seq<byte>) | RecvErrno(errno: nat)

  /** The effect of one settled call: the queue after it, the bytes moved, and the saved error number. */
  datatype Transact = Transact(ok: bool, contents: seq<byte>, moved: seq<byte>, perrno: int)

  function SendFrom(contents: seq<byte>, outcome: SendOutcome): (t: Transact) {
    match outcome
    case Sent(count) =>
      var k := if count <= |contents| then count else |contents|;
      Transact(true, contents[k..], contents[..k], NO_ERROR)
    case SendErrno(e) => Transact(e == EAGAIN, contents, [], e)
  }

  function RecvInto(capacity: nat, contents: seq<byte>, outcome: RecvOutcome): (t: Transact)
    requires |contents| <= capacity
  {
    match outcome
    case Delivered(data) =>
      var room := capacity - |contents|;
      var k := if |data| <= room then |data| else room;
      if k == 0 then Transact(false, contents, [], PEER_SHUTDOWN)
      else Transact(true, contents + data[..k], data[..k], NO_ERROR)
    case RecvErrno(e) => Transact(e == EAGAIN, contents, [], e)
  }

  predicate Interrupted(outcome: SendOutcome) {
    outcome == SendErrno(EINTR)
  }

  predicate RecvInterrupted(outcome: RecvOutcome) {
    outcome == RecvErrno(EINTR)
  }

  /** Some attempt is not interrupted, so the retry loop ends. */
  ghost predicate SendSettles(calls: seq<SendOutcome>) {
    exists k :: 0 <= k < |calls| && !Interrupted(calls[k])
  }

  ghost predicate RecvSettles(calls: seq<RecvOutcome>) {
    exists k :: 0 <= k < |calls| && !RecvInterrupted(calls[k])
  }

  /** The first call that was not interrupted. */
  function SettledSend(calls: seq<SendOutcome>): (o: SendOutcome)
    requires SendSettles(calls)
    ensures !Interrupted(o) && o in calls
  {
    if !Interrupted(calls[0]) then calls[0]
    else
      assert forall k :: 1 <= k < |calls| ==> calls[k] == calls[1..][k - 1];
      SettledSend(calls[1..])
  }

  function SettledRecv(calls: seq<RecvOutcome>): (o: RecvOutcome)
    requires RecvSettles(calls)
    ensures !RecvInterrupted(o) && o in calls
  {
    if !RecvInterrupted(calls[0]) then calls[0]
    else
      assert forall k :: 1 <= k < |calls| ==> calls[k] == calls[1..][k - 1];
      SettledRecv(calls[1..])
  }

  /** The k-th call is the first one not interrupted, in numbers: errno 4. */
  ghost predicate SendAnswer(calls: seq<SendOutcome>, k: nat, o: SendOutcome) {
    k < |calls| && o == calls[k] && o != SendErrno(4) && forall j :: 0 <= j < k ==> calls[j] == SendErrno(4)
  }

  ghost predicate RecvAnswer(calls: seq<RecvOutcome>, k: nat, o: RecvOutcome) {
    k < |calls| && o == calls[k] && o != RecvErrno(4) && forall j :: 0 <= j < k ==> calls[j] == RecvErrno(4)
  }

  lemma {:induction false} SettledSendIsAnswer(calls: seq<SendOutcome>) returns (k: nat)
    requires SendSettles(calls)
    ensures SendAnswer(calls, k, SettledSend(calls))
  {
    k := 0;
    if Interrupted(calls[0]) {
      assert forall j :: 1 <= j < |calls| ==> calls[j] == calls[1..][j - 1];
      k := SettledSendIsAnswer(calls[1..]);
      k := k + 1;
    }
  }

  lemma {:induction false} SettledRecvIsAnswer(calls: seq<RecvOutcome>) returns (k: nat)
    requires RecvSettles(calls)
    ensures RecvAnswer(calls, k, SettledRecv(calls))
  {
    k := 0;
    if RecvInterrupted(calls[0]) {
      assert forall j :: 1 <= j < |calls| ==> calls[j] == calls[1..][j - 1];
      k := SettledRecvIsAnswer(calls[1..]);
      k := k + 1;
    }
  }

  /** What an answer to a send means: bytes leave the front of the buffer, errno 11 is harmless, any other is not. */
  ghost predicate SendMeans(o: SendOutcome, before: seq<byte>, after: seq<byte>, ok: bool, sent: nat, perrno: int) {
    match o
    case Sent(n) =>
      ok && perrno == -1 && sent == (if n <= |before| then n else |before|) && before == before[..sent] + after
    case SendErrno(e) => (ok <==> e == 11) && perrno == e && sent == 0 && after == before
  }

  /** ... and to a receive: bytes join the back as far as there is room, none at all is a shutdown. */
  ghost predicate RecvMeans(capacity: nat, o: RecvOutcome, before: seq<byte>, after: seq<byte>, ok: bool, received: nat,
                            perrno: int) {
    match o
    case Delivered(data) =>
      && received == (if |data| <= capacity - |before| then |data| else capacity - |before|)
      && after == before + data[..received]
      && (if received == 0 then !ok && perrno == -100 else ok && perrno == -1)
    case RecvErrno(e) => (ok <==> e == 11) && perrno == e && received == 0 && after == before
  }

  lemma SendFromMeans(before: seq<byte>, o: SendOutcome)
    ensures var t := SendFrom(before, o); SendMeans(o, before, t.contents, t.ok, |t.moved|, t.perrno)
  {
  }

  lemma RecvIntoMeans(capacity: nat, before: seq<byte>, o: RecvOutcome)
    requires |before| <= capacity
    ensures var t := RecvInto(capacity, before, o);
            RecvMeans(capacity, o, before, t.contents, t.ok, |t.moved|, t.perrno)
  {
  }

  /** The do-while around the system call: only EINTR is retried. */
  method RetrySend(calls: seq<SendOutcome>) returns (o: SendOutcome)
    requires SendSettles(calls)
    ensures o == SettledSend(calls) && exists k :: SendAnswer(calls, k, o)
  {
    var i := 0;
    while Interrupted(calls[i])
      invariant 0 <= i < |calls|
      invariant SendSettles(calls[i..])
      invariant SettledSend(calls[i..]) == SettledSend(calls)
      decreases |calls| - i
    {
      assert calls[i..][1..] == calls[i + 1..];
      i := i + 1;
    }
    o := calls[i];
    ghost var k := SettledSendIsAnswer(calls);
  }

  method RetryRecv(calls: seq<RecvOutcome>) returns (o: RecvOutcome)
    requires RecvSettles(calls)
    ensures o == SettledRecv(calls) && exists k :: RecvAnswer(calls, k, o)
  {
    var i := 0;
    while RecvInterrupted(calls[i])
      invariant 0 <= i < |calls|
      invariant RecvSettles(calls[i..])
      invariant SettledRecv(calls[i..]) == SettledRecv(calls)
      decreases |calls| - i
    {
      assert calls[i..][1..] == calls[i + 1..];
      i := i + 1;
    }
    o := calls[i];
    ghost var k := SettledRecvIsAnswer(calls);
  }

  /** The kernel fills the prepared segments and the caller commits as many bytes. */
  method Absorb(buffer: IoRingBuffer, prepare: Prepare, data: seq<byte>)
    requires buffer.Valid() && |data| <= prepare.Bytes() && prepare.Bytes() == buffer.N - buffer.readable
    requires prepare.first.len > 0 ==>
              prepare.first.base == buffer.write && prepare.first.base + prepare.first.len <= buffer.N
    requires prepare.second.len > 0 ==> prepare.first.len == buffer.N - buffer.write && prepare.second.base == 0
    requires prepare.second.len <= buffer.N
    modifies buffer, buffer.buffer
    ensures buffer.Valid() && buffer.Contents() == old(buffer.Contents()) + data
  {
    buffer.Scatter(prepare, data);
    assert buffer.Vacant()[..|data|] == data;
    buffer.CommitWrite(|data|);
  }

  /** The segments handed to sendmsg: the whole contents. */
  method Offered(buffer: IoRingBuffer) returns (prepare: Prepare)
    requires buffer.Valid()
    ensures prepare.Bytes() == |buffer.Contents()|
  {
    prepare := buffer.PrepareRead();
    assert |buffer.Gathered(prepare)| == prepare.Bytes();
  }

  class PeerTcp {
    var perrno: int

    constructor ()
      ensures perrno == NO_ERROR
    {
      perrno := NO_ERROR;
    }

    /** `calls` is the kernel's answer to each attempt; the loop retries only interrupted ones. */
    method Send(buffer: IoRingBuffer, calls: seq<SendOutcome>) returns (ok: bool, empty: bool, sent: nat)
      requires buffer.Valid() && buffer as object != this
      requires SendSettles(calls)
      modifies this, buffer
      ensures buffer.Valid() && empty == (buffer.Contents() == [])
      ensures var t := SendFrom(old(buffer.Contents()), SettledSend(calls));
              ok == t.ok && sent == |t.moved| && buffer.Contents() == t.contents && perrno == t.perrno
      ensures exists k, o :: SendAnswer(calls, k, o)
                             && SendMeans(o, old(buffer.Contents()), buffer.Contents(), ok, sent, perrno)
    {
      var answer := RetrySend(calls);
      SendFromMeans(buffer.Contents(), answer);
      ok, empty, sent := SettleSend(buffer, answer);
    }

    /** What follows the loop: the errno is kept, or what was sent is dropped. */
    method SettleSend(buffer: IoRingBuffer, answer: SendOutcome) returns (ok: bool, empty: bool, sent: nat)
      requires buffer.Valid() && buffer as object != this
      modifies this, buffer
      ensures buffer.Valid() && empty == (buffer.Contents() == [])
      ensures var t := SendFrom(old(buffer.Contents()), answer);
              ok == t.ok && sent == |t.moved| && buffer.Contents() == t.contents && perrno == t.perrno
    {
      var prepare := Offered(buffer);
      match answer
      case SendErrno(e) =>
        perrno := e;
        return e == EAGAIN, buffer.Empty(), 0;
      case Sent(count) =>
        sent := if count <= prepare.Bytes() then count else prepare.Bytes();
        perrno := NO_ERROR;
        buffer.CommitRead(sent);
        ok, empty := true, buffer.Empty();
    }

    method Recv(buffer: IoRingBuffer, calls: seq<RecvOutcome>) returns (ok: bool, full: bool, received: nat)
      requires buffer.Valid() && buffer as object != this
      requires RecvSettles(calls)
      modifies this, buffer, buffer.buffer
      ensures buffer.Valid() && full == (|buffer.Contents()| == buffer.N)
      ensures var t := RecvInto(buffer.N, old(buffer.Contents()), SettledRecv(calls));
              ok == t.ok && received == |t.moved| && buffer.Contents() == t.contents && perrno == t.perrno
      ensures exists k, o :: RecvAnswer(calls, k, o)
                             && RecvMeans(buffer.N, o, old(buffer.Contents()), buffer.Contents(), ok, received, perrno)
    {
      var answer := RetryRecv(calls);
      RecvIntoMeans(buffer.N, buffer.Contents(), answer);
      ok, full, received := SettleRecv(buffer, answer);
    }

    /** What follows the loop: a shutdown, an errno, or bytes to commit. */
    method SettleRecv(buffer: IoRingBuffer, answer: RecvOutcome) returns (ok: bool, full: bool, received: nat)
      requires buffer.Valid() && buffer as object != this
      modifies this, buffer, buffer.buffer
      ensures buffer.Valid() && full == (|buffer.Contents()| == buffer.N)
      ensures var t := RecvInto(buffer.N, old(buffer.Contents()), answer);
              ok == t.ok && received == |t.moved| && buffer.Contents() == t.contents && perrno == t.perrno
    {
      var prepare := buffer.PrepareWrite();
      match answer
      case RecvErrno(e) =>
        perrno := e;
        return e == EAGAIN, buffer.Full(), 0;
      case Delivered(data) =>
        received := if |data| <= prepare.Bytes() then |data| else prepare.Bytes();
        if received == 0 {
          perrno := PEER_SHUTDOWN;
          return false, buffer.Full(), 0;
        }
        perrno := NO_ERROR;
        Absorb(buffer, prepare, data[..received]);
        ok, full := true, buffer.Full();
    }
  }

  // ---------------------------------------------------------------------------
  // End to end: one side's handshake reaches the other under any splitting
  // ---------------------------------------------------------------------------

  /** The two ends of one direction of a connection; the receiver stops reading once it has decoded. */
  datatype Link = Link(outgoing: seq<byte>, wire: seq<byte>, incoming: seq<byte>, peerId: seq<byte>, verdict: Verdict)

  datatype Verdict = Undecided | Accepted | Rejected

  datatype LinkEvent =
    | Transmit(answer: SendOutcome)   // the sender's socket is writable
    | Receive(limit: nat)             // the receiver's is readable: at most `limit` bytes of the wire arrive
    | Unready                         // EAGAIN at the receiver

  function Arriving(wire: seq<byte>, limit: nat): (o: RecvOutcome) {
    if limit == 0 || wire == [] then RecvErrno(EAGAIN)
    else Delivered(wire[..if limit <= |wire| then limit else |wire|])
  }

  function LinkStep(expected: seq<byte>, l: Link, e: LinkEvent): (l': Link)
    requires |l.incoming| < LENGTH
    ensures |l'.incoming| < LENGTH
  {
    match e
    case Transmit(answer) =>
      var t := SendFrom(l.outgoing, answer);
      l.(outgoing := t.contents, wire := l.wire + t.moved)
    case Receive(limit) =>
      if l.verdict != Undecided then l else LinkReceive(expected, l, Arriving(l.wire, limit))
    case Unready =>
      if l.verdict != Undecided then l else LinkReceive(expected, l, RecvErrno(EAGAIN))
  }

  /** `recv_messages` followed by `decode` on the receive buffer. */
  function LinkReceive(expected: seq<byte>, l: Link, o: RecvOutcome): (l': Link)
    requires |l.incoming| < LENGTH
    ensures |l'.incoming| < LENGTH
  {
    var t := RecvInto(LENGTH, l.incoming, o);
    var d := DecodeFrom(t.contents, expected, l.peerId);
    l.(wire := if |t.moved| <= |l.wire| then l.wire[|t.moved|..] else [], incoming := d.contents, peerId := d.peerId,
    verdict := if !d.complete then Undecided else if d.valid then Accepted else Rejected)
  }

  function LinkRun(expected: seq<byte>, l: Link, events: seq<LinkEvent>): (l': Link)
    requires |l.incoming| < LENGTH
    ensures |l'.incoming| < LENGTH
    decreases |events|
  {
    if events == [] then l else LinkRun(expected, LinkStep(expected, l, events[0]), events[1..])
  }

  /** Undecided: the stream is cut into received, flying and unsent bytes. Decided: the verdict is the right one. */
  ghost predicate LinkOk(infoHash: seq<byte>, peerId: seq<byte>, expected: seq<byte>, initial: seq<byte>,
                         tail: seq<byte>, l: Link)
    requires |infoHash| == 20 && |peerId| == 20
  {
    var stream := Message(infoHash, peerId) + tail;
    match l.verdict
    case Undecided =>
      l.incoming + l.wire + l.outgoing == stream && |l.incoming| < LENGTH && l.peerId == initial
    case Accepted =>
      expected == infoHash && l.peerId == peerId && l.incoming == [] && l.wire + l.outgoing == tail
    case Rejected =>
      expected != infoHash && l.peerId == initial && l.incoming == [] && l.wire + l.outgoing == tail
  }

  lemma CutAt(a: seq<byte>, b: seq<byte>, c: seq<byte>, d: seq<byte>)
    requires a + b == c + d && |a| == |c|
    ensures a == c && b == d
  {
    assert a == (a + b)[..|a|] && b == (a + b)[|a|..];
    assert c == (c + d)[..|c|] && d == (c + d)[|c|..];
  }

  lemma LinkReceiveOk(infoHash: seq<byte>, peerId: seq<byte>, expected: seq<byte>, initial: seq<byte>,
                      tail: seq<byte>, l: Link, limit: nat)
    requires |infoHash| == 20 && |peerId| == 20 && l.verdict == Undecided
    requires LinkOk(infoHash, peerId, expected, initial, tail, l)
    ensures LinkOk(infoHash, peerId, expected, initial, tail, LinkReceive(expected, l, Arriving(l.wire, limit)))
  {
    var t := RecvInto(LENGTH, l.incoming, Arriving(l.wire, limit));
    var k := |t.moved|;
    assert t.moved == l.wire[..k] && t.contents == l.incoming + l.wire[..k];
    assert t.contents + (l.wire[k..] + l.outgoing) == Message(infoHash, peerId) + tail;
    assert t.contents + l.wire[k..] + l.outgoing == Message(infoHash, peerId) + tail;
    if |t.contents| == LENGTH {
      CutAt(t.contents, l.wire[k..] + l.outgoing, Message(infoHash, peerId), tail);
      assert l.wire[k..] + l.outgoing == tail;
      MessageDecodes(infoHash, peerId, expected, initial, []);
      assert t.contents + [] == t.contents;
    }
  }

  lemma {:induction false} LinkRunOk(infoHash: seq<byte>, peerId: seq<byte>, expected: seq<byte>, initial: seq<byte>,
                                     tail: seq<byte>, l: Link, events: seq<LinkEvent>)
    requires |infoHash| == 20 && |peerId| == 20 && |l.incoming| < LENGTH
    requires LinkOk(infoHash, peerId, expected, initial, tail, l)
    ensures LinkOk(infoHash, peerId, expected, initial, tail, LinkRun(expected, l, events))
    decreases |events|
  {
    if events != [] {
      var e := events[0];
      match e {
        case Transmit(answer) =>
          var t := SendFrom(l.outgoing, answer);
          assert l.wire + l.outgoing == (l.wire + t.moved) + t.contents;
          assert l.incoming + l.wire + l.outgoing == l.incoming + (l.wire + l.outgoing);
          assert l.incoming + (l.wire + t.moved) + t.contents == l.incoming + ((l.wire + t.moved) + t.contents);
        case Receive(limit) =>
          if l.verdict == Undecided {
            LinkReceiveOk(infoHash, peerId, expected, initial, tail, l, limit);
          }
        case Unready =>
          if l.verdict == Undecided {
            LinkReceiveOk(infoHash, peerId, expected, initial, tail, l, 0);
          }
      }
      LinkRunOk(infoHash, peerId, expected, initial, tail, LinkStep(expected, l, e), events[1..]);
    }
  }

  /**
   * A handshake encoded into an empty 68-byte buffer, with any later bytes of the session behind it: whatever the
   * splitting, the receiver decides exactly when the 68 bytes are in, accepts exactly under the sender's info
   * hash, learns exactly the sender's peer id, and has taken none of the session bytes.
   */
  lemma HandshakeEndToEnd(infoHash: seq<byte>, peerId: seq<byte>, expected: seq<byte>, initial: seq<byte>,
                          tail: seq<byte>, events: seq<LinkEvent>)
    requires |infoHash| == 20 && |peerId| == 20
    ensures var sent := EncodeInto(Message(infoHash, peerId), LENGTH, [], 0);
            var l := LinkRun(expected, Link(sent.contents + tail, [], [], initial, Undecided), events);
            && sent.complete
            && (l.verdict == Accepted ==> expected == infoHash && l.peerId == peerId)
            && (l.verdict == Rejected ==> expected != infoHash && l.peerId == initial)
            && (l.verdict == Undecided ==> l.peerId == initial)
            && (l.verdict == Undecided <==> |l.wire| + |l.outgoing| > |tail|)
            && (l.verdict != Undecided ==> l.wire + l.outgoing == tail)
  {
    var m := Message(infoHash, peerId);
    var sent := EncodeInto(m, LENGTH, [], 0);
    assert sent.contents == m;
    var l := Link(sent.contents + tail, [], [], initial, Undecided);
    assert l.incoming + l.wire + l.outgoing == m + tail;
    LinkRunOk(infoHash, peerId, expected, initial, tail, l, events);
    var l' := LinkRun(expected, l, events);
    if l'.verdict == Undecided {
      assert |l'.incoming + l'.wire + l'.outgoing| == |m + tail|;
    } else {
      assert |l'.wire + l'.outgoing| == |tail|;
    }
  }
}
