/** The scatter/gather byte ring behind every peer connection (src/Client/io_ring_buffer.hpp). */
module RingBuffer {

  newtype byte = b: int | 0 <= b < 256

  /** One `iovec`: a pointer into the ring is its offset. */
  datatype IoVec = IoVec(base: nat, len: nat)

  /** What `prepare_read` and `prepare_write` hand to the kernel: at most two segments. */
  datatype Prepare = Prepare(count: nat, first: IoVec, second: IoVec) {
    function Bytes(): nat {
      first.len + second.len
    }
  }

  // ---------------------------------------------------------------------------
  // The index mask: a bit mask for power-of-two capacities, a remainder otherwise
  // ---------------------------------------------------------------------------

  function Pow2(k: nat): (p: nat)
    ensures p >= 1
  {
    if k == 0 then 1 else 2 * Pow2(k - 1)
  }

  /** `std::has_single_bit`, counting down the binary digits. */
  predicate HasSingleBit(n: nat) {
    n == 1 || (n > 0 && n % 2 == 0 && HasSingleBit(n / 2))
  }

  /** Bitwise conjunction, digit by digit. */
  function BitAnd(a: nat, b: nat): nat {
    if a == 0 || b == 0 then 0
    else (if a % 2 == 1 && b % 2 == 1 then 1 else 0) + 2 * BitAnd(a / 2, b / 2)
  }

  lemma {:induction false} PowerHasSingleBit(k: nat)
    ensures HasSingleBit(Pow2(k))
  {
    if k > 0 {
      PowerHasSingleBit(k - 1);
      assert Pow2(k) / 2 == Pow2(k - 1);
    }
  }

  lemma {:induction false} SingleBitIsPower(n: nat) returns (k: nat)
    requires HasSingleBit(n)
    ensures n == Pow2(k)
  {
    if n == 1 {
      k := 0;
    } else {
      k := SingleBitIsPower(n / 2);
      k := k + 1;
    }
  }

  lemma SingleBitIffPowerOfTwo(n: nat)
    ensures HasSingleBit(n) <==> exists k: nat :: n == Pow2(k)
  {
    if HasSingleBit(n) {
      var k := SingleBitIsPower(n);
    }
    if exists k: nat :: n == Pow2(k) {
      var k: nat :| n == Pow2(k);
      PowerHasSingleBit(k);
    }
  }

  /** For a power of two, masking with N-1 is the remainder. */
  lemma {:induction false} BitMaskIsRemainder(idx: nat, n: nat)
    requires HasSingleBit(n)
    ensures BitAnd(idx, n - 1) == idx % n
    decreases n
  {
    if n > 1 {
      var h := n / 2;
      BitMaskIsRemainder(idx / 2, h);
      assert (n - 1) / 2 == h - 1 && (n - 1) % 2 == 1;
      HalveRemainder(idx, h);
    }
  }

  lemma HalveRemainder(idx: nat, h: nat)
    requires h > 0
    ensures idx % (2 * h) == idx % 2 + 2 * ((idx / 2) % h)
  {
    var q, r := (idx / 2) / h, (idx / 2) % h;
    assert idx / 2 == h * q + r;
    assert idx == (2 * h) * q + (2 * r + idx % 2);
    RemainderUnique(idx, 2 * h, q, 2 * r + idx % 2);
  }

  lemma RemainderUnique(a: nat, n: nat, q: int, r: nat)
    requires r < n && a == n * q + r
    ensures a % n == r
  {
    var d := q - a / n;
    assert a == n * (a / n) + a % n;
    assert n * d == a % n - r;
    MultipleApart(n, d);
  }

  /** Two different multiples of n lie at least n apart. */
  lemma MultipleApart(n: int, d: int)
    requires n > 0
    ensures d >= 1 ==> n * d >= n
    ensures d <= -1 ==> n * d <= -n
  {
    assert n * d == n * (d - 1) + n && n * d == n * (d + 1) - n;
    assert d >= 1 ==> n * (d - 1) >= 0;
    assert d <= -1 ==> n * (d + 1) <= 0;
  }

  lemma WrapOnce(a: nat, n: nat)
    requires a < 2 * n
    ensures a % n == if a < n then a else a - n
  {
    RemainderUnique(a, n, if a < n then 0 else 1, if a < n then a else a - n);
  }

  /** A ring read from `start`. */
  function Rotated(cells: seq<byte>, start: nat): (s: seq<byte>)
    requires start <= |cells|
    ensures |s| == |cells|
  {
    cells[start..] + cells[..start]
  }

  lemma RotatedAt(cells: seq<byte>, start: nat)
    requires start <= |cells|
    ensures forall k :: 0 <= k < |cells| ==>
              Rotated(cells, start)[k] == cells[if start + k < |cells| then start + k else start + k - |cells|]
  {
  }

  /** Cutting a rotated ring: each part is one stretch of cells, or two when it wraps around. */
  lemma RotatedParts(cells: seq<byte>, read: nat, readable: nat)
    requires read < |cells| && readable <= |cells|
    ensures read + readable < |cells| ==>
              && Rotated(cells, read)[..readable] == cells[read..read + readable]
              && Rotated(cells, read)[readable..] == cells[read + readable..|cells|] + cells[0..read]
    ensures read + readable >= |cells| ==>
              && Rotated(cells, read)[..readable] == cells[read..|cells|] + cells[0..read + readable - |cells|]
              && Rotated(cells, read)[readable..] == cells[read + readable - |cells|..read]
  {
  }

  lemma RotateBy(cells: seq<byte>, start: nat, step: nat)
    requires start < |cells| && step <= |cells|
    ensures var next := if start + step < |cells| then start + step else start + step - |cells|;
            Rotated(cells, next) == Rotated(cells, start)[step..] + Rotated(cells, start)[..step]
  {
    var next := if start + step < |cells| then start + step else start + step - |cells|;
    var r := Rotated(cells, start);
    RotatedAt(cells, start);
    RotatedAt(cells, next);
    SamePointwise(Rotated(cells, next), r[step..] + r[..step]);
  }

  lemma SamePointwise(a: seq<byte>, b: seq<byte>)
    requires |a| == |b| && forall k :: 0 <= k < |a| ==> a[k] == b[k]
    ensures a == b
  {
  }

  /** Splitting a rotated ring at what is left of the contents. */
  lemma SplitAfterRotation(cells: seq<byte>, readable: nat, step: nat)
    requires step <= readable <= |cells|
    ensures var turned := cells[step..] + cells[..step];
            && turned[..readable - step] == cells[..readable][step..]
            && turned[readable - step..] == cells[readable..] + cells[..readable][..step]
  {
  }

  /** Reading `step` bytes off the front: the rest of the contents, and the bytes read behind the free cells. */
  lemma ReadOff(cells: seq<byte>, read: nat, next: nat, readable: nat, step: nat)
    requires read < |cells| && step <= readable <= |cells|
    requires next == if read + step < |cells| then read + step else read + step - |cells|
    ensures Rotated(cells, next)[..readable - step] == Rotated(cells, read)[..readable][step..]
    ensures Rotated(cells, next)[readable - step..]
         == Rotated(cells, read)[readable..] + Rotated(cells, read)[..readable][..step]
  {
    RotateBy(cells, read, step);
    SplitAfterRotation(Rotated(cells, read), readable, step);
  }

  ghost function Spliced(cells: seq<byte>, at: nat, src: seq<byte>): (s: seq<byte>)
    requires at + |src| <= |cells|
    ensures |s| == |cells|
  {
    cells[..at] + src + cells[at + |src|..]
  }

  lemma SplicedAt(cells: seq<byte>, at: nat, src: seq<byte>)
    requires at + |src| <= |cells|
    ensures forall k :: 0 <= k < |cells| ==>
              Spliced(cells, at, src)[k] == if at <= k < at + |src| then src[k - at] else cells[k]
  {
  }

  /** Overwriting a run of cells that does not wrap, seen through the rotation. */
  lemma RotatedSplice(cells: seq<byte>, start: nat, base: nat, at: nat, src: seq<byte>)
    requires start < |cells| && at + |src| <= |cells| && base + |src| <= |cells|
    requires base == if start + at < |cells| then start + at else start + at - |cells|
    ensures Rotated(Spliced(cells, base, src), start) == Spliced(Rotated(cells, start), at, src)
  {
    RotatedAt(cells, start);
    RotatedAt(Spliced(cells, base, src), start);
    SplicedAt(cells, base, src);
    SplicedAt(Rotated(cells, start), at, src);
    SamePointwise(Rotated(Spliced(cells, base, src), start), Spliced(Rotated(cells, start), at, src));
  }

  /** Splicing past the contents leaves them alone and splices the free cells. */
  lemma SpliceBehind(cells: seq<byte>, readable: nat, offset: nat, src: seq<byte>)
    requires readable + offset + |src| <= |cells|
    ensures var s := Spliced(cells, readable + offset, src);
            s[..readable] == cells[..readable] && s[readable..] == Spliced(cells[readable..], offset, src)
  {
  }

  lemma SplicedTwice(free: seq<byte>, data: seq<byte>, n: nat)
    requires n <= |data| <= |free|
    ensures Spliced(Spliced(free, 0, data[..n]), n, data[n..]) == data + free[|data|..]
    ensures n == 0 ==> Spliced(free, 0, data[..n]) == free
  {
  }

  // ---------------------------------------------------------------------------
  // The ring
  // ---------------------------------------------------------------------------

  class IoRingBuffer {
    const N: nat
    const buffer: array<byte>
    var read: nat
    var write: nat
    var readable: nat

    ghost predicate Valid()
      reads this
    {
      && buffer.Length == N
      && read < N
      && readable <= N
      && write == if read + readable < N then read + readable else read + readable - N
    }

    /** All N cells, starting at the oldest byte: the contents, then the free cells in commit order. */
    ghost function Cells(): (s: seq<byte>)
      requires Valid()
      reads this, buffer
      ensures |s| == N
    {
      Rotated(buffer[..], read)
    }

    /** The FIFO this ring stands for. */
    ghost function Contents(): (s: seq<byte>)
      requires Valid()
      reads this, buffer
      ensures |s| == readable
    {
      Cells()[..readable]
    }

    /** The free cells in the order commits hand them over. */
    ghost function Vacant(): (s: seq<byte>)
      requires Valid()
      reads this, buffer
      ensures |s| == N - readable
    {
      Cells()[readable..]
    }

    ghost predicate Holds(v: IoVec)
      reads this
    {
      buffer.Length == N && v.base + v.len <= N
    }

    ghost function Segment(v: IoVec): (s: seq<byte>)
      requires Holds(v)
      reads this, buffer
      ensures |s| == v.len
    {
      buffer[..][v.base..v.base + v.len]
    }

    /** The bytes a scatter/gather system call would see, in order. */
    ghost function Gathered(p: Prepare): (s: seq<byte>)
      requires Holds(p.first) && Holds(p.second)
      reads this, buffer
    {
      Segment(p.first) + Segment(p.second)
    }

    constructor (capacity: nat)
      requires capacity > 0
      ensures Valid() && N == capacity && fresh(buffer)
      ensures read == write == 0 && Contents() == []
    {
      N := capacity;
      buffer := new byte[capacity];
      read, write, readable := 0, 0, 0;
    }

    method Mask(idx: nat) returns (r: nat)
      requires N > 0
      ensures r == idx % N
      ensures idx < 2 * N ==> r == if idx < N then idx else idx - N
    {
      if idx < 2 * N {
        WrapOnce(idx, N);
      }
      if HasSingleBit(N) {
        BitMaskIsRemainder(idx, N);
        r := BitAnd(idx, N - 1);
      } else {
        r := idx % N;
      }
    }

    predicate Empty()
      reads this
    {
      readable == 0
    }

    predicate Full()
      reads this
    {
      readable == N
    }

    function WAvailable(): nat
      requires Valid()
      reads this
    {
      N - readable
    }

    /** The segments concatenate to the whole contents; no segment is offered exactly when there is nothing to read. */
    method PrepareRead() returns (p: Prepare)
      requires Valid()
      ensures Holds(p.first) && Holds(p.second)
      ensures Gathered(p) == Contents()
      ensures p.count <= 2 && (p.count == 0 <==> readable == 0)
      ensures p.count < 2 ==> p.second == IoVec(0, 0)
      ensures p.count == 0 ==> p.first == IoVec(0, 0)
      ensures p.count > 0 ==> p.first.base == read && p.first.len > 0
      ensures p.count == 2 ==> p.first.len == N - read && p.second == IoVec(0, write)
    {
      RotatedParts(buffer[..], read, readable);
      if Empty() {
        return Prepare(0, IoVec(0, 0), IoVec(0, 0));
      }
      if read < write || (Full() && read == 0) {
        return Prepare(1, IoVec(read, readable), IoVec(0, 0));
      }
      return Prepare(2, IoVec(read, N - read), IoVec(0, write));
    }

    /** The segments are exactly the free cells, in commit order. */
    method PrepareWrite() returns (p: Prepare)
      requires Valid()
      ensures Holds(p.first) && Holds(p.second)
      ensures Gathered(p) == Vacant() && p.Bytes() == N - readable
      ensures p.count <= 2 && (p.count == 0 <==> readable == N)
      ensures p.count < 2 ==> p.second == IoVec(0, 0)
      ensures p.count == 0 ==> p.first == IoVec(0, 0)
      ensures p.count > 0 ==> p.first.base == write && p.first.len > 0
      ensures p.count == 2 ==> p.first.len == N - write && p.second == IoVec(0, read)
    {
      RotatedParts(buffer[..], read, readable);
      if Full() {
        return Prepare(0, IoVec(0, 0), IoVec(0, 0));
      }
      if write < read || (Empty() && write == 0) {
        return Prepare(1, IoVec(write, WAvailable()), IoVec(0, 0));
      }
      return Prepare(2, IoVec(write, N - write), IoVec(0, read));
    }

    /** Drops a prefix of the contents; the freed cells become the last free ones. */
    method CommitRead(bytes: nat)
      requires Valid() && bytes <= readable
      modifies this
      ensures Valid()
      ensures Contents() == old(Contents())[bytes..]
      ensures Vacant() == old(Vacant()) + old(Contents())[..bytes]
    {
      if bytes == 0 {
        return;
      }
      var r := Mask(read + bytes);
      read := r;
      readable := readable - bytes;
      ReadOff(buffer[..], old(read), read, old(readable), bytes);
    }

    /** Appends the first free cells, with whatever bytes they hold, to the contents. */
    method CommitWrite(bytes: nat)
      requires Valid() && bytes <= N - readable
      modifies this
      ensures Valid()
      ensures Contents() == old(Contents()) + old(Vacant())[..bytes]
      ensures Vacant() == old(Vacant())[bytes..]
      ensures read == old(read)
    {
      if bytes == 0 {
        return;
      }
      var w := Mask(write + bytes);
      write := w;
      readable := readable + bytes;
      assert Cells() == old(Cells());
    }

    method Reset()
      requires N > 0 && buffer.Length == N
      modifies this
      ensures Valid() && Contents() == [] && read == 0
    {
      read := 0;
      write := 0;
      readable := 0;
    }

    /** `memcpy` into a run of free cells, `offset` cells after the first free one. */
    method CopyIn(base: nat, offset: nat, src: seq<byte>)
      requires Valid() && offset + |src| <= N - readable && base + |src| <= N
      requires base == if write + offset < N then write + offset else write + offset - N
      modifies buffer
      ensures Valid() && Contents() == old(Contents())
      ensures Vacant() == Spliced(old(Vacant()), offset, src)
    {
      ghost var before := buffer[..];
      forall i | 0 <= i < |src| {
        buffer[base + i] := src[i];
      }
      SplicedAt(before, base, src);
      assert buffer[..] == Spliced(before, base, src);
      RotatedSplice(before, read, base, readable + offset, src);
      SpliceBehind(Rotated(before, read), readable, offset, src);
    }

    /** What the kernel does with the prepared free segments: fill them front to back. */
    method Scatter(p: Prepare, data: seq<byte>)
      requires Valid() && |data| <= p.Bytes() && p.Bytes() == N - readable
      requires p.first.len > 0 ==> p.first.base == write && p.first.base + p.first.len <= N
      requires p.second.len > 0 ==> p.first.len == N - write && p.second.base == 0 && p.second.len <= N
      modifies buffer
      ensures Valid() && Contents() == old(Contents())
      ensures Vacant() == data + old(Vacant())[|data|..]
    {
      ghost var free := Vacant();
      if |data| <= p.first.len {
        if |data| > 0 {
          CopyIn(p.first.base, 0, data);
        }
        assert Vacant() == data + free[|data|..];
      } else {
        var n := p.first.len;
        if n > 0 {
          CopyIn(p.first.base, 0, data[..n]);
        }
        CopyIn(0, n, data[n..]);
        SplicedTwice(free, data, n);
      }
    }
  }
}
