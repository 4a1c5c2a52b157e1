/** The set of indices kept in 64-bit words (src/Client/DynamicBitset.cpp). */
module DynamicBitset {
  import opened RingBuffer

  // ---------------------------------------------------------------------------
  // Words, as numbers below 2^64, and the machine's operations on them
  // ---------------------------------------------------------------------------

  function BitOr(a: nat, b: nat): nat {
    if a == 0 then b
    else if b == 0 then a
    else (if a % 2 == 1 || b % 2 == 1 then 1 else 0) + 2 * BitOr(a / 2, b / 2)
  }

  /** `~w` on words of n bits. */
  function BitNot(w: nat, n: nat): nat
    requires w < Pow2(n)
  {
    Pow2(n) - 1 - w
  }

  /** `w << n`, for results that fit the word. */
  function Shl(w: nat, n: nat): nat {
    if n == 0 then w else 2 * Shl(w, n - 1)
  }

  /** The j-th binary digit. */
  predicate Bit(w: nat, j: nat) {
    if j == 0 then w % 2 == 1 else Bit(w / 2, j - 1)
  }

  lemma {:induction false} ZeroBit(j: nat)
    ensures !Bit(0, j)
  {
    if j > 0 {
      ZeroBit(j - 1);
    }
  }

  lemma {:induction false} OrBit(a: nat, b: nat, j: nat)
    ensures Bit(BitOr(a, b), j) <==> Bit(a, j) || Bit(b, j)
  {
    if a == 0 || b == 0 {
      ZeroBit(j);
    } else if j > 0 {
      OrBit(a / 2, b / 2, j - 1);
      assert BitOr(a, b) / 2 == BitOr(a / 2, b / 2);
    }
  }

  lemma {:induction false} AndBit(a: nat, b: nat, j: nat)
    ensures Bit(BitAnd(a, b), j) <==> Bit(a, j) && Bit(b, j)
  {
    if a == 0 || b == 0 {
      ZeroBit(j);
    } else if j > 0 {
      AndBit(a / 2, b / 2, j - 1);
      assert BitAnd(a, b) / 2 == BitAnd(a / 2, b / 2);
    }
  }

  lemma {:induction false} NotBit(w: nat, n: nat, j: nat)
    requires w < Pow2(n) && j < n
    ensures Bit(BitNot(w, n), j) <==> !Bit(w, j)
  {
    if j > 0 {
      assert BitNot(w, n) / 2 == BitNot(w / 2, n - 1);
      NotBit(w / 2, n - 1, j - 1);
    }
  }

  lemma {:induction false} ShlBit(w: nat, n: nat, j: nat)
    ensures Bit(Shl(w, n), j) <==> j >= n && Bit(w, j - n)
  {
    if n > 0 && j > 0 {
      assert Shl(w, n) / 2 == Shl(w, n - 1);
      ShlBit(w, n - 1, j - 1);
    }
  }

  lemma {:induction false} OneBit(j: nat)
    ensures Bit(1, j) <==> j == 0
  {
    if j > 0 {
      ZeroBit(j - 1);
    }
  }

  /** `1 << i` has the i-th bit and no other. */
  lemma MaskBit(i: nat, j: nat)
    ensures Bit(Shl(1, i), j) <==> i == j
  {
    ShlBit(1, i, j);
    if j >= i {
      OneBit(j - i);
    }
  }

  /** A word below 2^n has no bit from the n-th on. */
  lemma {:induction false} HighBits(w: nat, n: nat, j: nat)
    requires w < Pow2(n) && j >= n
    ensures !Bit(w, j)
  {
    if n == 0 {
      ZeroBit(j);
    } else {
      HighBits(w / 2, n - 1, j - 1);
    }
  }

  lemma {:induction false} OrFits(a: nat, b: nat, n: nat)
    requires a < Pow2(n) && b < Pow2(n)
    ensures BitOr(a, b) < Pow2(n)
  {
    if n > 0 {
      OrFits(a / 2, b / 2, n - 1);
    }
  }

  lemma {:induction false} AndFits(a: nat, b: nat, n: nat)
    requires a < Pow2(n) && b < Pow2(n)
    ensures BitAnd(a, b) < Pow2(n)
  {
    if n > 0 {
      AndFits(a / 2, b / 2, n - 1);
    }
  }

  lemma {:induction false} ShlFits(w: nat, k: nat, n: nat)
    requires w < Pow2(k)
    ensures Shl(w, n) < Pow2(k + n)
  {
    if n > 0 {
      ShlFits(w, k, n - 1);
    }
  }

  lemma {:induction false} PowersGrow(k: nat, n: nat)
    requires k <= n
    ensures Pow2(k) <= Pow2(n)
    decreases n - k
  {
    if k < n {
      PowersGrow(k + 1, n);
    }
  }

  /** A word is zero exactly when it has no bit. */
  lemma {:induction false} SomeBit(w: nat) returns (j: nat)
    requires w > 0
    ensures Bit(w, j)
  {
    if w % 2 == 1 {
      j := 0;
    } else {
      j := SomeBit(w / 2);
      j := j + 1;
    }
  }

  /** `w & (1 << i)` is not zero exactly when the i-th bit is set. */
  lemma MaskTests(w: nat, i: nat)
    ensures BitAnd(w, Shl(1, i)) != 0 <==> Bit(w, i)
  {
    var masked := BitAnd(w, Shl(1, i));
    AndBit(w, Shl(1, i), i);
    MaskBit(i, i);
    if masked != 0 {
      var j := SomeBit(masked);
      AndBit(w, Shl(1, i), j);
      MaskBit(i, j);
    }
    ZeroBit(i);
  }

  const WORD: nat := 64

  ghost predicate IsWord(w: nat) {
    w < Pow2(WORD)
  }

  lemma {:induction false} MaskIsWord(i: nat)
    requires i < WORD
    ensures IsWord(Shl(1, i))
  {
    ShlFits(1, 1, i);
    PowersGrow(1 + i, WORD);
  }

  // ---------------------------------------------------------------------------
  // The bitset
  // ---------------------------------------------------------------------------

  /** The bit for an index in a row of words. */
  predicate Has(words: seq<nat>, k: nat)
    requires k / WORD < |words|
  {
    Bit(words[k / WORD], k % WORD)
  }

  /** No bit from `length` on. */
  ghost predicate NoSpareBits(words: seq<nat>, length: nat) {
    forall k :: length <= k < WORD * |words| ==> !Has(words, k)
  }

  /** `get_bytes_for_bits`. */
  function WordsFor(bits: nat): (n: nat)
    ensures WORD * n >= bits && (n > 0 ==> WORD * (n - 1) < bits)
  {
    bits / WORD + (if bits % WORD != 0 then 1 else 0)
  }

  lemma WordSet(words: seq<nat>, index: nat, more: seq<nat>, k: nat)
    requires index / WORD < |words| && k / WORD < |words|
    requires more == words[index / WORD := BitOr(words[index / WORD], Shl(1, index % WORD))]
    ensures Has(more, k) <==> k == index || Has(words, k)
  {
    var at := index / WORD;
    if k / WORD == at {
      OrBit(words[at], Shl(1, index % WORD), k % WORD);
      MaskBit(index % WORD, k % WORD);
    }
  }

  lemma WordReset(words: seq<nat>, index: nat, fewer: seq<nat>, k: nat)
    requires index / WORD < |words| && k / WORD < |words| && IsWord(Shl(1, index % WORD))
    requires fewer == words[index / WORD := BitAnd(words[index / WORD], BitNot(Shl(1, index % WORD), WORD))]
    ensures Has(fewer, k) <==> k != index && Has(words, k)
  {
    var at := index / WORD;
    if k / WORD == at {
      AndBit(words[at], BitNot(Shl(1, index % WORD), WORD), k % WORD);
      NotBit(Shl(1, index % WORD), WORD, k % WORD);
      MaskBit(index % WORD, k % WORD);
    }
  }

  lemma NotFits(w: nat, n: nat)
    requires w < Pow2(n)
    ensures BitNot(w, n) < Pow2(n)
  {
  }

  /** The words after the first n bytes have been put in place, low bit first, eight bytes to a word. */
  ghost predicate Packed(words: seq<nat>, view: seq<byte>, n: nat)
    requires n <= |view|
  {
    forall k: nat :: k / WORD < |words| ==> (Has(words, k) <==> k < 8 * n && ByteBit(view, k))
  }

  /** Index k is bit k mod 8 of byte k / 8. */
  predicate ByteBit(view: seq<byte>, k: nat)
    requires k < 8 * |view|
  {
    Bit(view[k / 8] as nat, k % 8)
  }

  lemma EightBits(b: byte)
    ensures (b as nat) < Pow2(8)
  {
    assert Pow2(4) == 16;
    assert Pow2(6) == 4 * Pow2(4);
    assert Pow2(8) == 4 * Pow2(6);
  }

  lemma ByteAt(view: seq<byte>, n: nat, w: nat, k: nat)
    requires n < |view| && k / WORD == n / 8 && (Bit(w, k % WORD) <==> k < 8 * n && ByteBit(view, k))
    ensures Bit(BitOr(w, Shl(view[n] as nat, 8 * (n % 8))), k % WORD) <==> k < 8 * (n + 1) && ByteBit(view, k)
  {
    var b := view[n] as nat;
    var up := 8 * (n % 8);
    OrBit(w, Shl(b, up), k % WORD);
    ShlBit(b, up, k % WORD);
    if k >= 8 * (n + 1) {
      assert k % WORD - up >= 8;
      EightBits(view[n]);
      HighBits(b, 8, k % WORD - up);
    }
  }

  lemma BytePacked(words: seq<nat>, view: seq<byte>, n: nat, more: seq<nat>)
    requires n < |view| && n / 8 < |words| && Packed(words, view, n)
    requires more == words[n / 8 := BitOr(words[n / 8], Shl(view[n] as nat, 8 * (n % 8)))]
    ensures Packed(more, view, n + 1)
  {
    forall k: nat | k / WORD < |words|
      ensures Has(more, k) <==> k < 8 * (n + 1) && ByteBit(view, k)
    {
      assert Has(words, k) <==> k < 8 * n && ByteBit(view, k);
      if k / WORD == n / 8 {
        ByteAt(view, n, words[n / 8], k);
      }
    }
  }

  lemma ByteIsWord(b: byte, offset: nat)
    requires offset < 8
    ensures IsWord(Shl(b as nat, 8 * offset))
  {
    EightBits(b);
    ShlFits(b as nat, 8, 8 * offset);
    PowersGrow(8 + 8 * offset, WORD);
  }

  class Bitset {
    const length: nat
    const bitfield: array<nat>

    ghost predicate Valid()
      reads this, bitfield
    {
      && bitfield.Length == WordsFor(length)
      && (forall i :: 0 <= i < bitfield.Length ==> IsWord(bitfield[i]))
      && NoSpareBits(bitfield[..], length)
    }

    /** The indices the bitset holds. */
    ghost function Indices(): set<nat>
      reads this, bitfield
      requires Valid()
    {
      set k: nat | k < length && Has(bitfield[..], k)
    }

    constructor (count: nat)
      ensures Valid() && length == count && fresh(bitfield) && Indices() == {}
    {
      length := count;
      bitfield := new nat[WordsFor(count)](_ => 0);
      new;
      forall k | 0 <= k < WORD * bitfield.Length
        ensures !Has(bitfield[..], k)
      {
        ZeroBit(k % WORD);
      }
    }

    constructor FromBytes(view: seq<byte>)
      ensures Valid() && length == 8 * |view| && fresh(bitfield)
      ensures forall k :: 0 <= k < length ==> (k in Indices() <==> ByteBit(view, k))
    {
      length := 8 * |view|;
      bitfield := new nat[WordsFor(8 * |view|)](_ => 0);
      new;
      var setIndex, offset := 0, 0;
      forall k: nat | k / WORD < bitfield.Length
        ensures !Has(bitfield[..], k)
      {
        ZeroBit(k % WORD);
      }
      for n := 0 to |view|
        invariant setIndex == n / 8 && offset == n % 8
        invariant forall i :: 0 <= i < bitfield.Length ==> IsWord(bitfield[i])
        invariant Packed(bitfield[..], view, n)
      {
        ghost var words := bitfield[..];
        ByteIsWord(view[n], offset);
        OrFits(bitfield[setIndex], Shl(view[n] as nat, 8 * offset), WORD);
        bitfield[setIndex] := BitOr(bitfield[setIndex], Shl(view[n] as nat, 8 * offset));
        BytePacked(words, view, n, bitfield[..]);
        offset := offset + 1;
        if offset % 8 == 0 {
          setIndex, offset := setIndex + 1, 0;
        }
      }
    }

    /** Indices beyond the length are not held and asking for them is harmless. */
    method Test(index: nat) returns (held: bool)
      requires Valid()
      ensures held == (index in Indices())
    {
      if index >= length {
        return false;
      }
      MaskTests(bitfield[index / WORD], index % WORD);
      held := BitAnd(bitfield[index / WORD], Shl(1, index % WORD)) != 0;
    }

    method Set(index: nat)
      requires Valid()
      modifies bitfield
      ensures Valid() && Indices() == old(Indices()) + (if index < length then {index} else {})
    {
      if index >= length {
        return;
      }
      ghost var words := bitfield[..];
      var at, mask := index / WORD, Shl(1, index % WORD);
      MaskIsWord(index % WORD);
      OrFits(bitfield[at], mask, WORD);
      bitfield[at] := BitOr(bitfield[at], mask);
      forall k: nat | k / WORD < |words|
        ensures Has(bitfield[..], k) <==> k == index || Has(words, k)
      {
        WordSet(words, index, bitfield[..], k);
      }
    }

    method Reset(index: nat)
      requires Valid()
      modifies bitfield
      ensures Valid() && Indices() == old(Indices()) - {index}
    {
      if index >= length {
        return;
      }
      ghost var words := bitfield[..];
      var at, mask := index / WORD, Shl(1, index % WORD);
      MaskIsWord(index % WORD);
      NotFits(mask, WORD);
      AndFits(bitfield[at], BitNot(mask, WORD), WORD);
      bitfield[at] := BitAnd(bitfield[at], BitNot(mask, WORD));
      forall k: nat | k / WORD < |words|
        ensures Has(bitfield[..], k) <==> k != index && Has(words, k)
      {
        WordReset(words, index, bitfield[..], k);
      }
    }

    /** `|=`; the other bitset may be this one. */
    method Unite(other: Bitset)
      requires Valid() && other.Valid() && length == other.length
      modifies bitfield
      ensures Valid() && Indices() == old(Indices()) + old(other.Indices())
    {
      ghost var mine, theirs := bitfield[..], other.bitfield[..];
      for i := 0 to bitfield.Length
        invariant forall j :: 0 <= j < i ==> bitfield[j] == BitOr(mine[j], theirs[j]) && IsWord(bitfield[j])
        invariant forall j :: i <= j < bitfield.Length ==> bitfield[j] == mine[j] && other.bitfield[j] == theirs[j]
      {
        OrFits(mine[i], theirs[i], WORD);
        bitfield[i] := BitOr(bitfield[i], other.bitfield[i]);
      }
      forall k: nat | k / WORD < |mine|
        ensures Has(bitfield[..], k) <==> Has(mine, k) || Has(theirs, k)
      {
        OrBit(mine[k / WORD], theirs[k / WORD], k % WORD);
      }
    }

    /** `&=`. */
    method Intersect(other: Bitset)
      requires Valid() && other.Valid() && length == other.length
      modifies bitfield
      ensures Valid() && Indices() == old(Indices()) * old(other.Indices())
    {
      ghost var mine, theirs := bitfield[..], other.bitfield[..];
      for i := 0 to bitfield.Length
        invariant forall j :: 0 <= j < i ==> bitfield[j] == BitAnd(mine[j], theirs[j]) && IsWord(bitfield[j])
        invariant forall j :: i <= j < bitfield.Length ==> bitfield[j] == mine[j] && other.bitfield[j] == theirs[j]
      {
        AndFits(mine[i], theirs[i], WORD);
        bitfield[i] := BitAnd(bitfield[i], other.bitfield[i]);
      }
      forall k: nat | k / WORD < |mine|
        ensures Has(bitfield[..], k) <==> Has(mine, k) && Has(theirs, k)
      {
        AndBit(mine[k / WORD], theirs[k / WORD], k % WORD);
      }
    }

    method Copy() returns (copy: Bitset)
      requires Valid()
      ensures fresh(copy) && fresh(copy.bitfield) && copy.Valid() && copy.length == length
      ensures copy.Indices() == Indices()
    {
      copy := new Bitset(length);
      for i := 0 to bitfield.Length
        invariant fresh(copy.bitfield) && copy.bitfield.Length == bitfield.Length
        invariant forall j :: 0 <= j < i ==> copy.bitfield[j] == bitfield[j]
        invariant forall j :: 0 <= j < bitfield.Length ==> bitfield[j] == old(bitfield[j])
      {
        copy.bitfield[i] := bitfield[i];
      }
      assert copy.bitfield[..] == bitfield[..];
    }

    /** `|`, which leaves both operands alone. */
    method Union(other: Bitset) returns (both: Bitset)
      requires Valid() && other.Valid() && length == other.length
      ensures fresh(both) && fresh(both.bitfield) && both.Valid() && both.length == length
      ensures both.Indices() == Indices() + other.Indices()
    {
      both := Copy();
      both.Unite(other);
    }

    /** `&`. */
    method Common(other: Bitset) returns (both: Bitset)
      requires Valid() && other.Valid() && length == other.length
      ensures fresh(both) && fresh(both.bitfield) && both.Valid() && both.length == length
      ensures both.Indices() == Indices() * other.Indices()
    {
      both := Copy();
      both.Intersect(other);
    }

    method ResetSet()
      requires Valid()
      modifies bitfield
      ensures Valid() && Indices() == {}
    {
      MaskIsWord(0);
      for i := 0 to bitfield.Length
        invariant forall j :: 0 <= j < i ==> bitfield[j] == 0
      {
        bitfield[i] := 0;
      }
      forall k | 0 <= k < WORD * bitfield.Length
        ensures !Has(bitfield[..], k)
      {
        ZeroBit(k % WORD);
      }
    }
  }
}
