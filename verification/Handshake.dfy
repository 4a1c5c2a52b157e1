/** The handshake message and what its codec must achieve on a plain byte queue (src/Client/bittorrent_messages.hpp). */
module Handshake {
  import opened RingBuffer

  const LENGTH: nat := 68
  const PROTOCOL_STRING_LENGTH: byte := 19
  const PROTOCOL_STRING: seq<byte> := [66, 105, 116, 84, 111, 114, 114, 101, 110, 116,
    32, 112, 114, 111, 116, 111, 99, 111, 108]
  const RESERVED_BYTES: seq<byte> := [0, 0, 0, 0, 0, 0, 0, 0]
  const CLIENT_ID: seq<byte> := [70, 74, 48, 48, 48, 49, 45, 120, 52, 75, 110, 56, 109, 82, 50, 112, 76, 57, 115, 113]

  /** The 68 bytes a client with this info hash and peer id opens with. */
  function Message(infoHash: seq<byte>, peerId: seq<byte>): (m: seq<byte>)
    requires |infoHash| == 20 && |peerId| == 20
    ensures |m| == LENGTH
  {
    [PROTOCOL_STRING_LENGTH] + PROTOCOL_STRING + RESERVED_BYTES + infoHash + peerId
  }

  /** The bytes spell the text. */
  predicate Spells(b: seq<byte>, text: string) {
    |b| == |text| && forall k :: 0 <= k < |b| ==> b[k] as int == text[k] as int
  }

  /** The handshake's fields, offset by offset. */
  predicate LaidOut(m: seq<byte>, infoHash: seq<byte>) {
    && |m| == 68 && m[0] == 19
    && Spells(m[1..20], "BitTorrent protocol")
    && m[20..28] == [0, 0, 0, 0, 0, 0, 0, 0]
    && m[28..48] == infoHash
    && Spells(m[48..68], "FJ0001-x4Kn8mR2pL9sq")
  }

  /** This client's handshake has every field in its place. */
  lemma GreetingLaidOut(infoHash: seq<byte>)
    requires |infoHash| == 20
    ensures LaidOut(Message(infoHash, CLIENT_ID), infoHash)
  {
    var m := Message(infoHash, CLIENT_ID);
    assert m[1..20] == PROTOCOL_STRING && m[20..28] == RESERVED_BYTES && m[48..68] == CLIENT_ID;
  }

  /** The flat reading of 68 received bytes: only the length byte and the info hash are compared. */
  predicate Accepts(infoHash: seq<byte>, c: seq<byte>) {
    |c| == LENGTH && c[0] == 0x13 && c[28..48] == infoHash
  }

  datatype Encoded = Encoded(contents: seq<byte>, cursor: nat, complete: bool)

  /** Resumable encoding into a queue that may hold `capacity` bytes. */
  function EncodeInto(message: seq<byte>, capacity: nat, contents: seq<byte>, cursor: nat): (e: Encoded)
    requires |message| == LENGTH && |contents| <= capacity
  {
    if cursor >= LENGTH then Encoded(contents, cursor, true)
    else
      var room := capacity - |contents|;
      var n := if LENGTH - cursor <= room then LENGTH - cursor else room;
      Encoded(contents + message[cursor..cursor + n], cursor + n, cursor + n == LENGTH)
  }

  datatype Decoded = Decoded(complete: bool, valid: bool, contents: seq<byte>, peerId: seq<byte>)

  /** Decoding a queue of received bytes. */
  function DecodeFrom(contents: seq<byte>, infoHash: seq<byte>, peerId: seq<byte>): (d: Decoded) {
    if |contents| < LENGTH then Decoded(false, false, contents, peerId)
    else
      var valid := Accepts(infoHash, contents[..LENGTH]);
      Decoded(true, valid, contents[LENGTH..], if valid then contents[48..LENGTH] else peerId)
  }

  /** A built handshake is accepted under its own info hash and no other, and yields its peer id. */
  lemma MessageDecodes(infoHash: seq<byte>, peerId: seq<byte>, expected: seq<byte>, before: seq<byte>, tail: seq<byte>)
    requires |infoHash| == 20 && |peerId| == 20
    ensures DecodeFrom(Message(infoHash, peerId) + tail, expected, before)
         == Decoded(true, expected == infoHash, tail, if expected == infoHash then peerId else before)
  {
    var m := Message(infoHash, peerId);
    assert (m + tail)[..LENGTH] == m && (m + tail)[LENGTH..] == tail;
    assert m[28..48] == infoHash && m[48..68] == peerId;
    assert (m + tail)[48..LENGTH] == m[48..68];
  }

  // ---------------------------------------------------------------------------
  // Resumable encoding, interleaved with reads
  // ---------------------------------------------------------------------------

  /** One step at the sending buffer: an `encode` call, or the transport draining some bytes. */
  datatype EncodeStep = Encode | Drain(bytes: nat)

  datatype Sender = Sender(contents: seq<byte>, cursor: nat, drained: seq<byte>)

  function SenderStep(message: seq<byte>, capacity: nat, s: Sender, step: EncodeStep): (s': Sender)
    requires |message| == LENGTH && |s.contents| <= capacity
    ensures |s'.contents| <= capacity
  {
    match step
    case Encode =>
      var e := EncodeInto(message, capacity, s.contents, s.cursor);
      Sender(e.contents, e.cursor, s.drained)
    case Drain(bytes) =>
      var n := if bytes <= |s.contents| then bytes else |s.contents|;
      Sender(s.contents[n..], s.cursor, s.drained + s.contents[..n])
  }

  function SenderRun(message: seq<byte>, capacity: nat, s: Sender, steps: seq<EncodeStep>): (s': Sender)
    requires |message| == LENGTH && |s.contents| <= capacity
    ensures |s'.contents| <= capacity
    decreases |steps|
  {
    if steps == [] then s
    else SenderRun(message, capacity, SenderStep(message, capacity, s, steps[0]), steps[1..])
  }

  lemma StepAppends(message: seq<byte>, capacity: nat, s: Sender, step: EncodeStep)
    requires |message| == LENGTH && |s.contents| <= capacity && s.cursor <= LENGTH
    ensures var t := SenderStep(message, capacity, s, step);
            && s.cursor <= t.cursor <= LENGTH
            && t.drained + t.contents == s.drained + s.contents + message[s.cursor..t.cursor]
  {
    var t := SenderStep(message, capacity, s, step);
    match step
    case Encode =>
      assert t.drained == s.drained && t.contents == s.contents + message[s.cursor..t.cursor];
    case Drain(bytes) =>
      assert message[s.cursor..t.cursor] == [];
  }

  /** Drained then buffered bytes are the earlier ones followed by exactly the message up to the cursor. */
  lemma {:induction false} ResumableEncode(message: seq<byte>, capacity: nat, s: Sender, steps: seq<EncodeStep>)
    requires |message| == LENGTH && |s.contents| <= capacity && s.cursor <= LENGTH
    ensures var s' := SenderRun(message, capacity, s, steps);
            && s.cursor <= s'.cursor <= LENGTH
            && s'.drained + s'.contents == s.drained + s.contents + message[s.cursor..s'.cursor]
    decreases |steps|
  {
    if steps == [] {
      assert s.drained + s.contents + message[s.cursor..s.cursor] == s.drained + s.contents;
    } else {
      var t := SenderStep(message, capacity, s, steps[0]);
      StepAppends(message, capacity, s, steps[0]);
      ResumableEncode(message, capacity, t, steps[1..]);
      var u := SenderRun(message, capacity, t, steps[1..]);
      assert message[s.cursor..t.cursor] + message[t.cursor..u.cursor] == message[s.cursor..u.cursor];
    }
  }

  /** A call advances the cursor exactly when there is room and something left; it is complete exactly at 68. */
  lemma EncodeProgress(message: seq<byte>, capacity: nat, contents: seq<byte>, cursor: nat)
    requires |message| == LENGTH && |contents| <= capacity && cursor <= LENGTH
    ensures var e := EncodeInto(message, capacity, contents, cursor);
            && (e.complete <==> e.cursor == LENGTH)
            && (e.cursor > cursor <==> cursor < LENGTH && |contents| < capacity)
            && (!e.complete ==> |e.contents| == capacity)
  {
  }
}
