/** The fixed ring that forgets its oldest entry instead of refusing a new one (src/Client/overwritable_cache.hpp). */
module OverwritableCache {
  // ---------------------------------------------------------------------------
  // The bounded double-ended sequence the ring stands for
  // ---------------------------------------------------------------------------

  /** The last n of a sequence. */
  function Last<T>(s: seq<T>, n: nat): (r: seq<T>) {
    if |s| <= n then s else s[|s| - n..]
  }

  datatype Op<T> = Push(val: T) | StalePop | FreshPop

  /** The contents after one operation; a pop of nothing changes nothing. */
  function Apply<T>(s: seq<T>, op: Op<T>, n: nat): seq<T> {
    match op
    case Push(val) => Last(s + [val], n)
    case StalePop => if s == [] then s else s[1..]
    case FreshPop => if s == [] then s else s[..|s| - 1]
  }

  function Run<T>(s: seq<T>, ops: seq<Op<T>>, n: nat): seq<T>
    decreases |ops|
  {
    if ops == [] then s else Run(Apply(s, ops[0], n), ops[1..], n)
  }

  function Pushes<T>(vals: seq<T>): (ops: seq<Op<T>>)
    ensures |ops| == |vals|
  {
    if vals == [] then [] else [Push(vals[0])] + Pushes(vals[1..])
  }

  /** However many values are pushed, the newest n of all stay. */
  lemma {:induction false} PushesKeepNewest<T>(s: seq<T>, vals: seq<T>, n: nat)
    requires |s| <= n
    ensures Run(s, Pushes(vals), n) == Last(s + vals, n)
    decreases |vals|
  {
    if vals == [] {
      assert s + vals == s;
    } else {
      var head, tail := vals[0], vals[1..];
      PushesKeepNewest(Last(s + [head], n), tail, n);
      RunPushes(s, vals, n);
      assert s + vals == (s + [head]) + tail;
      LastOfLast(s + [head], tail, n);
    }
  }

  lemma RunPushes<T>(s: seq<T>, vals: seq<T>, n: nat)
    requires vals != []
    ensures Run(s, Pushes(vals), n) == Run(Last(s + [vals[0]], n), Pushes(vals[1..]), n)
  {
    assert Pushes(vals)[0] == Push(vals[0]) && Pushes(vals)[1..] == Pushes(vals[1..]);
  }

  lemma LastOfLast<T>(a: seq<T>, b: seq<T>, n: nat)
    ensures Last(Last(a, n) + b, n) == Last(a + b, n)
  {
  }

  ghost predicate Rising(s: seq<int>, above: int) {
    (forall j, k :: 0 <= j < k < |s| ==> s[j] < s[k]) && (forall j :: 0 <= j < |s| ==> s[j] <= above)
  }

  lemma ApplyKeepsOrder(s: seq<int>, op: Op<int>, n: nat, above: int)
    requires |s| <= n && Rising(s, above) && (op.Push? ==> op.val > above)
    ensures |Apply(s, op, n)| <= n && Rising(Apply(s, op, n), if op.Push? then op.val else above)
  {
    if op.Push? {
      assert Rising(s + [op.val], op.val);
    }
  }

  /** Every push brings a number above all earlier ones, as the numbering of the pushes does. */
  ghost predicate RisingPushes(ops: seq<Op<int>>, above: int)
    decreases |ops|
  {
    ops == [] ||
    if ops[0].Push? then ops[0].val > above && RisingPushes(ops[1..], ops[0].val) else RisingPushes(ops[1..], above)
  }

  /** Over every mixed run the entries stay within the capacity and in the order of their pushes: so a stale pop always
      takes the earliest push still held, and a fresh pop the latest. */
  lemma {:induction false} RunsKeepPushOrder(s: seq<int>, ops: seq<Op<int>>, n: nat, above: int)
    requires |s| <= n && Rising(s, above) && RisingPushes(ops, above)
    ensures |Run(s, ops, n)| <= n && exists top :: Rising(Run(s, ops, n), top)
    decreases |ops|
  {
    if ops != [] {
      ApplyKeepsOrder(s, ops[0], n, above);
      RunsKeepPushOrder(Apply(s, ops[0], n), ops[1..], n, if ops[0].Push? then ops[0].val else above);
    }
  }

  /** A fresh pop undoes a push exactly when the push had room; into a full ring it costs the oldest entry. */
  lemma FreshPopUndoesPush<T>(s: seq<T>, val: T, n: nat)
    requires |s| <= n && n > 0
    ensures var after := Run(s, [Push(val), FreshPop], n);
            && (after == s <==> |s| < n)
            && (|s| == n ==> after == s[1..])
  {
    var ops := [Push(val), FreshPop];
    assert Run(s, ops, n) == Run(Apply(s, Push(val), n), ops[1..], n);
    assert Apply(Apply(s, Push(val), n), FreshPop, n) == Run(Apply(s, Push(val), n), ops[1..], n);
  }

  // ---------------------------------------------------------------------------
  // The ring
  // ---------------------------------------------------------------------------

  /** The n cells from `read` on, wrapping around. */
  function Window<T>(cells: seq<T>, read: nat, n: nat): (r: seq<T>)
    requires read < |cells| && n <= |cells|
    ensures |r| == n
  {
    if read + n <= |cells| then cells[read..read + n] else cells[read..] + cells[..read + n - |cells|]
  }

  /** Where the n-th cell from `read` on lies. */
  function Cell(read: nat, n: nat, size: nat): nat
    requires read < size && n <= size
  {
    if read + n < size then read + n else read + n - size
  }

  lemma WindowGrows<T>(cells: seq<T>, read: nat, n: nat, val: T)
    requires read < |cells| && n < |cells|
    ensures Window(cells[Cell(read, n, |cells|) := val], read, n + 1) == Window(cells, read, n) + [val]
  {
  }

  lemma WindowSlides<T>(cells: seq<T>, read: nat, val: T)
    requires read < |cells|
    ensures Window(cells[read := val], Cell(read, 1, |cells|), |cells|) == Window(cells, read, |cells|)[1..] + [val]
  {
  }

  lemma WindowShrinks<T>(cells: seq<T>, read: nat, n: nat)
    requires read < |cells| && 0 < n <= |cells|
    ensures Window(cells, read, n)[0] == cells[read]
    ensures Window(cells, Cell(read, 1, |cells|), n - 1) == Window(cells, read, n)[1..]
    ensures Window(cells, read, n)[n - 1] == cells[Cell(read, n - 1, |cells|)]
    ensures Window(cells, read, n - 1) == Window(cells, read, n)[..n - 1]
  {
  }

  class Cache<T> {
    const cache: array<T>
    var write: nat
    var read: nat
    var size: nat

    ghost predicate Valid()
      reads this
    {
      && cache.Length > 0
      && size <= cache.Length
      && read < cache.Length
      && write == Cell(read, size, cache.Length)
    }

    ghost function Contents(): seq<T>
      reads this, cache
      requires Valid()
    {
      Window(cache[..], read, size)
    }

    constructor (n: nat, blank: T)
      requires n > 0
      ensures Valid() && fresh(cache) && cache.Length == n && Contents() == []
    {
      cache := new T[n](_ => blank);
      write, read, size := 0, 0, 0;
    }

    function PlusMask(num: nat): (r: nat)
      requires num < cache.Length
      ensures r == Cell(num, 1, cache.Length)
    {
      if num + 1 == cache.Length then 0 else num + 1
    }

    function MinusMask(num: nat): (r: nat)
      requires num < cache.Length
      ensures r < cache.Length && PlusMask(r) == num
    {
      if num == 0 then cache.Length - 1 else num - 1
    }

    predicate IsEmpty()
      reads this
    {
      size == 0
    }

    method PushVal(val: T)
      requires Valid()
      modifies this, cache
      ensures Valid() && Contents() == Apply(old(Contents()), Push(val), cache.Length)
      ensures Contents() == (if old(size) < cache.Length then old(Contents()) else old(Contents())[1..]) + [val]
    {
      ghost var cells := cache[..];
      if size < cache.Length {
        WindowGrows(cells, read, size, val);
      } else {
        WindowSlides(cells, read, val);
      }
      cache[write] := val;
      assert cache[..] == cells[write := val];
      write := PlusMask(write);
      if size < cache.Length {
        size := size + 1;
      } else {
        read := PlusMask(read);
      }
    }

    method TakeStale(val: T) returns (ok: bool, taken: T)
      requires Valid()
      modifies this
      ensures Valid() && Contents() == Apply(old(Contents()), StalePop, cache.Length)
      ensures ok == (old(Contents()) != [])
      ensures if ok then old(Contents()) == [taken] + Contents() else taken == val && Contents() == []
    {
      ok, taken := !IsEmpty(), val;
      if ok {
        WindowShrinks(cache[..], read, size);
        taken := cache[read];
        size := size - 1;
        read := PlusMask(read);
      }
    }

    method TakeFresh(val: T) returns (ok: bool, taken: T)
      requires Valid()
      modifies this
      ensures Valid() && Contents() == Apply(old(Contents()), FreshPop, cache.Length)
      ensures ok == (old(Contents()) != [])
      ensures if ok then old(Contents()) == Contents() + [taken] else taken == val && Contents() == []
    {
      ok, taken := !IsEmpty(), val;
      if ok {
        WindowShrinks(cache[..], read, size);
        write := MinusMask(write);
        taken := cache[write];
        size := size - 1;
      }
    }
  }
}
