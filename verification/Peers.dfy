/** One pooled connection (PeerConnection) as the manager sees it. */
module Peers {
  import opened RingBuffer

  /** The six address bytes an IPv4 or IPv4-mapped endpoint is registered under. */
  datatype Address = Address(host: nat, port: nat)

  datatype PeerState = Unset | Discovered | Handshaking | Connected | Disconnected | Failed

  datatype Source = Unknown | Tracker | TcpServer

  /** Which readiness the socket watcher is armed for. */
  datatype Interest = Quiet | Readable | Writable

  /** History of the current connection attempt: what the kernel took and gave, and whether connect() was immediate. */
  datatype Attempt = Attempt(sent: seq<byte>, received: seq<byte>, immediate: bool)

  datatype Peer = Peer(
    key: Address,
    state: PeerState,
    source: Source,
    failures: nat,
    interest: Interest,
    timer: bool,
    recvBuf: seq<byte>,
    sendBuf: seq<byte>,
    cursor: nat,
    peerId: seq<byte>,
    perrno: int,
    attempt: Attempt)

  /** A slot after teardown; only the saved error number survives it. */
  function Blank(perrno: int): Peer {
    Peer(Address(0, 0), Unset, Unknown, 0, Quiet, false, [], [], 0, seq(20, _ => 0), perrno, Attempt([], [], false))
  }

  /** `initialize_connection` on a slot. */
  function Initialized(p: Peer, key: Address, source: Source, state: PeerState): Peer {
    p.(key := key, source := source, state := state)
  }

  /** `arm_connection_watchers`. */
  function Armed(p: Peer, interest: Interest): Peer {
    p.(interest := interest, timer := true)
  }

  /** `stop_connection_watchers`. */
  function Stopped(p: Peer): Peer {
    p.(interest := Quiet, timer := false)
  }
}
