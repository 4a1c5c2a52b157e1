/** `encode`, `decode` and `compute_handshake` as they run on the ring's segments. */
module HandshakeCodec {
  import opened RingBuffer
  import opened Handshake

  class FrameCursor {
    var cursor: nat

    constructor ()
      ensures cursor == 0
    {
      cursor := 0;
    }

    method Reset()
      modifies this
      ensures cursor == 0
    {
      cursor := 0;
    }
  }

  /** Builds the 68 bytes field by field. */
  method ComputeHandshake(infoHash: seq<byte>) returns (message: seq<byte>)
    requires |infoHash| == 20
    ensures message == Message(infoHash, CLIENT_ID) && LaidOut(message, infoHash)
  {
    GreetingLaidOut(infoHash);
    var bytes := new byte[LENGTH](_ => 0);
    var offset := 0;
    Put(bytes, offset, [PROTOCOL_STRING_LENGTH]);
    offset := offset + 1;
    Put(bytes, offset, PROTOCOL_STRING);
    offset := offset + 19;
    Put(bytes, offset, RESERVED_BYTES);
    offset := offset + 8;
    Put(bytes, offset, infoHash);
    offset := offset + 20;
    assert bytes[..offset] == [PROTOCOL_STRING_LENGTH] + PROTOCOL_STRING + RESERVED_BYTES + infoHash;
    Put(bytes, offset, CLIENT_ID);
    message := bytes[..];
    assert message == bytes[..offset] + CLIENT_ID;
  }

  /** `memcpy` into a fixed buffer; stated for what has been written so far. */
  method Put(bytes: array<byte>, offset: nat, src: seq<byte>)
    requires offset + |src| <= bytes.Length
    modifies bytes
    ensures bytes[..offset + |src|] == old(bytes[..offset]) + src
  {
    forall i | 0 <= i < |src| {
      bytes[offset + i] := src[i];
    }
  }

  /** Copies bytes to the front of the free cells and commits them. */
  method Append(buffer: IoRingBuffer, base: nat, src: seq<byte>)
    requires buffer.Valid() && |src| <= buffer.N - buffer.readable
    requires base == buffer.write && base + |src| <= buffer.N
    modifies buffer, buffer.buffer
    ensures buffer.Valid() && buffer.Contents() == old(buffer.Contents()) + src
    ensures buffer.write == if base + |src| < buffer.N then base + |src| else 0
  {
    buffer.CopyIn(base, 0, src);
    assert buffer.Vacant()[..|src|] == src;
    buffer.CommitWrite(|src|);
  }

  /** Writes what one segment holds of the rest of the message. */
  method WriteSegment(message: seq<byte>, buffer: IoRingBuffer, io: IoVec, start: nat) returns (cursor: nat)
    requires |message| == LENGTH && buffer.Valid() && start < LENGTH
    requires io.base == buffer.write && io.base + io.len <= buffer.N && io.len <= buffer.N - buffer.readable
    modifies buffer, buffer.buffer
    ensures buffer.Valid() && cursor == if LENGTH - start <= io.len then LENGTH else start + io.len
    ensures buffer.Contents() == old(buffer.Contents()) + message[start..cursor]
    ensures buffer.write == if io.base + (cursor - start) < buffer.N then io.base + (cursor - start) else 0
  {
    cursor := if LENGTH - start <= io.len then LENGTH else start + io.len;
    Append(buffer, io.base, message[start..cursor]);
  }

  /** The segment loop of `encode`: writes the rest of the message until it or the free space is used up. */
  method WriteSegments(message: seq<byte>, buffer: IoRingBuffer, prepare: Prepare, start: nat) returns (cursor: nat)
    requires |message| == LENGTH && buffer.Valid() && start < LENGTH
    requires 1 <= prepare.count <= 2 && prepare.Bytes() == buffer.N - buffer.readable
    requires prepare.first.base == buffer.write && buffer.write + prepare.first.len <= buffer.N
    requires prepare.second.len > 0 ==> prepare.second.base == 0 && buffer.write + prepare.first.len == buffer.N
    requires prepare.count == 1 ==> prepare.second.len == 0
    modifies buffer, buffer.buffer
    ensures buffer.Valid() && start <= cursor <= LENGTH
    ensures cursor == if LENGTH - start <= prepare.Bytes() then LENGTH else start + prepare.Bytes()
    ensures buffer.Contents() == old(buffer.Contents()) + message[start..cursor]
  {
    cursor := start;
    ghost var before := buffer.Contents();
    assert before + message[start..start] == before;
    var i := 0;
    while i < prepare.count
      invariant 0 <= i <= prepare.count && start <= cursor < LENGTH
      invariant cursor - start == if i == 0 then 0 else if i == 1 then prepare.first.len else prepare.Bytes()
      invariant buffer.Valid() && buffer.Contents() == before + message[start..cursor]
      invariant i == 0 ==> buffer.write == prepare.first.base
      invariant i == 1 && prepare.second.len > 0 ==> buffer.write == 0
    {
      var io := if i == 0 then prepare.first else prepare.second;
      if io.len == 0 {
        break;
      }
      ghost var at := cursor;
      cursor := WriteSegment(message, buffer, io, cursor);
      AppendSlice(before, message, start, at, cursor);
      if cursor == LENGTH {
        return;
      }
      i := i + 1;
    }
  }

  /** Writes as much of an unfinished message as there is room for. */
  method EncodeRest(message: seq<byte>, buffer: IoRingBuffer, start: nat) returns (cursor: nat)
    requires |message| == LENGTH && buffer.Valid() && start < LENGTH
    modifies buffer, buffer.buffer
    ensures buffer.Valid()
    ensures var room := buffer.N - |old(buffer.Contents())|;
            cursor == if LENGTH - start <= room then LENGTH else start + room
    ensures buffer.Contents() == old(buffer.Contents()) + message[start..cursor]
  {
    cursor := start;
    ghost var before := buffer.Contents();
    assert before + message[start..start] == before;
    var prepare := buffer.PrepareWrite();
    if prepare.count > 0 {
      cursor := WriteSegments(message, buffer, prepare, start);
    }
  }

  /** Resumes the message at the frame cursor. */
  method Encode(message: seq<byte>, buffer: IoRingBuffer, frame: FrameCursor) returns (complete: bool)
    requires |message| == LENGTH && buffer.Valid()
    modifies buffer, buffer.buffer, frame
    ensures buffer.Valid()
    ensures Encoded(buffer.Contents(), frame.cursor, complete)
         == EncodeInto(message, buffer.N, old(buffer.Contents()), old(frame.cursor))
  {
    var cursor := frame.cursor;
    if cursor >= LENGTH {
      return true;
    }
    ghost var before := buffer.Contents();
    cursor := EncodeRest(message, buffer, cursor);
    EncodedSoFar(message, buffer.N, before, frame.cursor, buffer.Contents(), cursor);
    frame.cursor := cursor;
    complete := cursor == LENGTH;
  }

  lemma EncodedSoFar(message: seq<byte>, capacity: nat, before: seq<byte>, start: nat, contents: seq<byte>, cursor: nat)
    requires |message| == LENGTH && |before| <= capacity && start < LENGTH
    requires cursor == if LENGTH - start <= capacity - |before| then LENGTH else start + (capacity - |before|)
    requires contents == before + message[start..cursor]
    ensures EncodeInto(message, capacity, before, start) == Encoded(contents, cursor, cursor == LENGTH)
  {
  }

  lemma AppendSlice(before: seq<byte>, m: seq<byte>, i: nat, j: nat, k: nat)
    requires i <= j <= k <= |m|
    ensures before + m[i..j] + m[j..k] == before + m[i..k]
  {
    assert m[i..j] + m[j..k] == m[i..k];
  }

  /** The field a decoding pass has reached, by the offset where that field ends. */
  datatype Range = Pstrlen | Pstr | Reserved | InfoHash | PeerId {
    /** Offset of the field's first byte. */
    function Start(): nat {
      match this
      case Pstrlen => 0
      case Pstr => 1
      case Reserved => 20
      case InfoHash => 28
      case PeerId => 48
    }
  }

  /** Takes the missing bytes of a split field from the front of the second segment. */
  method WraparoundSteal(second: seq<byte>, size: nat) returns (stolen: seq<byte>, rest: seq<byte>)
    requires size <= |second|
    ensures stolen + rest == second && |stolen| == size
  {
    stolen := second[..size];
    rest := second[size..];
  }

  /**
   * Cuts the next field off the message `c`, of which everything before `start` is consumed: off the current view
   * when it holds the whole field, and otherwise the rest of the view plus bytes stolen from the second segment.
   * While the second segment itself is being viewed there is nothing to steal from.
   */
  method TakeField(view: seq<byte>, second: seq<byte>, size: nat, ghost c: seq<byte>, ghost start: nat,
                   ghost wrapped: bool)
      returns (field: seq<byte>, view': seq<byte>, second': seq<byte>, split: bool)
    requires start + size <= |c| && c[start..] == Remaining(view, second, wrapped)
    ensures start + |field| <= |c| && |field| == size && field == c[start..start + size]
    ensures c[start + size..] == Remaining(view', second', wrapped)
    ensures split <==> |view| < size
    ensures split ==> view' == [] && !wrapped && second' == c[start + size..] && |second'| < |second|
    ensures !split ==> second' == second
  {
    if |view| < size {
      var stolen;
      stolen, second' := WraparoundSteal(second, size - |view|);
      field, view', split := view + stolen, [], true;
      FieldAt(c, start, field, second');
    } else {
      field, view', second', split := view[..size], view[size..], second, false;
      FieldAt(c, start, field, Remaining(view', second, wrapped));
    }
  }

  ghost function Remaining(view: seq<byte>, second: seq<byte>, wrapped: bool): seq<byte> {
    if wrapped then view else view + second
  }

  lemma FieldAt(c: seq<byte>, start: nat, field: seq<byte>, rest: seq<byte>)
    requires start <= |c| && c[start..] == field + rest
    ensures field == c[start..start + |field|] && rest == c[start + |field|..]
  {
    assert c == c[..start] + c[start..];
  }

  /** Length prefix, protocol string and reserved bytes: only the first is looked at. */
  method ParseHead(range: Range, view: seq<byte>, second: seq<byte>, ghost c: seq<byte>, ghost wrapped: bool)
      returns (range': Range, view': seq<byte>, second': seq<byte>, split: bool, mismatch: bool)
    requires |c| == LENGTH && c[range.Start()..] == Remaining(view, second, wrapped)
    requires range == Pstrlen ==> view != []
    ensures mismatch <==> range == Pstrlen && c[0] != 0x13
    ensures !mismatch && split ==> second' == c[range'.Start()..] && !wrapped && (range'.Reserved? || range'.InfoHash?)
    ensures split ==> |second'| < |second|
    ensures !mismatch && !split ==> second' == second && c[range'.Start()..] == Remaining(view', second', wrapped)
    ensures !mismatch && !split ==> range' == if range == PeerId then PeerId else InfoHash
  {
    range', view', second', split, mismatch := range, view, second, false, false;
    var field;
    if range' == Pstrlen {
      field, view', second', split := TakeField(view', second', 1, c, 0, wrapped);
      if field[0] != 0x13 {
        mismatch := true;
        return;
      }
      range' := Pstr;
    }
    if range' == Pstr {
      field, view', second', split := TakeField(view', second', 19, c, 1, wrapped);
      range' := Reserved;
      if split {
        return;
      }
    }
    if range' == Reserved {
      field, view', second', split := TakeField(view', second', 8, c, 20, wrapped);
      range' := InfoHash;
    }
  }

  /** Info hash and peer id. */
  method ParseTail(range: Range, view: seq<byte>, second: seq<byte>, infoHash: seq<byte>, ghost c: seq<byte>,
                   ghost wrapped: bool)
      returns (second': seq<byte>, split: bool, mismatch: bool, id: seq<byte>)
    requires |c| == LENGTH && (range.InfoHash? || range.PeerId?)
    requires c[range.Start()..] == Remaining(view, second, wrapped)
    ensures mismatch <==> range == InfoHash && c[28..48] != infoHash
    ensures !mismatch && !split ==> id == c[48..68]
    ensures split ==> |second'| < |second|
    ensures !mismatch && split ==> range == InfoHash && second' == c[48..] && !wrapped
  {
    var range', view' := range, view;
    var field;
    second', split, mismatch, id := second, false, false, [];
    if range' == InfoHash {
      field, view', second', split := TakeField(view', second', 20, c, 28, wrapped);
      if infoHash != field {
        mismatch := true;
        return;
      }
      range' := PeerId;
      if split {
        return;
      }
    }
    id, view', second', split := TakeField(view', second', 20, c, 48, wrapped);
    split := false;
  }

  /**
   * The segment loop of `decode`: it keeps the current field across the segment boundary and completes a split
   * field from the second segment. A valid message's peer id is left in `id`.
   */
  method ParseSegments(count: nat, first: seq<byte>, segment: seq<byte>, infoHash: seq<byte>)
      returns (valid: bool, id: seq<byte>)
    requires 1 <= count <= 2 && first != [] && (count == 1 ==> segment == [])
    requires |first + segment| == LENGTH && |infoHash| == 20
    ensures valid <==> Accepts(infoHash, first + segment)
    ensures valid ==> id == (first + segment)[48..68]
  {
    ghost var c := first + segment;
    valid, id := false, [];
    var second := segment;
    var range, index := Pstrlen, 0;
    while index < count
      invariant 0 <= index <= 1 && index <= count
      invariant index == 0 ==> range == Pstrlen && second == segment
      invariant index == 1 ==> count == 2 && (range.Reserved? || range.InfoHash? || range.PeerId?)
      invariant index == 1 ==> second == c[range.Start()..] && c[0] == 0x13
      invariant index == 1 && range == PeerId ==> c[28..48] == infoHash
    {
      var view := if index == 0 then first else second;
      ghost var wrapped := index == 1;
      index := index + 1;
      var split, mismatch;
      range, view, second, split, mismatch := ParseHead(range, view, second, c, wrapped);
      if mismatch {
        return;
      }
      if split {
        continue;
      }
      second, split, mismatch, id := ParseTail(range, view, second, infoHash, c, wrapped);
      if mismatch {
        return;
      }
      if split {
        range := PeerId;
        continue;
      }
      valid := true;
      return;
    }
  }

  /** Parses one handshake out of a 68-byte ring, whatever the offset at which the message wraps. */
  method Decode(buffer: IoRingBuffer, infoHash: seq<byte>, peerId: array<byte>) returns (complete: bool, valid: bool)
    requires buffer.Valid() && buffer.N == LENGTH && |infoHash| == 20
    requires peerId.Length == 20 && peerId != buffer.buffer
    modifies buffer, peerId
    ensures buffer.Valid()
    ensures Decoded(complete, valid, buffer.Contents(), peerId[..])
         == DecodeFrom(old(buffer.Contents()), infoHash, old(peerId[..]))
    ensures complete <==> |old(buffer.Contents())| == 68
    ensures valid <==> complete && old(buffer.Contents())[0] == 19 && old(buffer.Contents())[28..48] == infoHash
    ensures complete ==> buffer.Contents() == []
    ensures peerId[..] == if valid then old(buffer.Contents())[48..68] else old(peerId[..])
  {
    complete, valid := false, false;
    var prepare := buffer.PrepareRead();
    ghost var c := buffer.Contents();
    if prepare.Bytes() < LENGTH {
      return;
    }
    complete := true;
    var first := buffer.buffer[prepare.first.base..prepare.first.base + prepare.first.len];
    var second := buffer.buffer[prepare.second.base..prepare.second.base + prepare.second.len];
    assert c == first + second && c[..LENGTH] == c;
    var id;
    valid, id := ParseSegments(prepare.count, first, second, infoHash);
    if valid {
      forall k | 0 <= k < 20 {
        peerId[k] := id[k];
      }
      assert peerId[..] == id;
    }
    buffer.CommitRead(LENGTH);
  }
}
