/** The slot-recycling pool with generations (src/Client/slot_pool.hpp). */
module SlotPool {

  datatype Slot<T> = Slot(value: T, generation: nat)

  /** The pool's state: every slot, the stack of free indices, and the occupancy bits. */
  datatype Pool<T> = Pool(slots: seq<Slot<T>>, free: seq<nat>, occupied: set<nat>) {
    /** The free stack and the occupancy bits partition the indices, and no index is on the stack twice. */
    ghost predicate Valid() {
      && (forall i <- occupied :: i < |slots|)
      && (forall k :: 0 <= k < |free| ==> free[k] < |slots| && free[k] !in occupied)
      && (forall j, k :: 0 <= j < k < |free| ==> free[j] != free[k])
      && |free| + |occupied| == |slots|
    }

    function Available(): nat {
      |free|
    }

    function Active(): int {
      |slots| - Available()
    }

    /** Takes the most recently freed slot. */
    function Acquired(): (p: Pool<T>)
      requires free != []
    {
      Pool(slots, free[..|free| - 1], occupied + {free[|free| - 1]})
    }

    function NextSlot(): nat
      requires free != []
    {
      free[|free| - 1]
    }

    /** Frees an occupied slot and advances its generation. */
    function Released(slot: nat): (p: Pool<T>)
      requires slot < |slots|
    {
      Pool(slots[slot := Slot(slots[slot].value, slots[slot].generation + 1)], free + [slot], occupied - {slot})
    }

    /** The caller writing through a slot's pointer: generations are out of its reach. */
    function Stored(slot: nat, value: T): (p: Pool<T>)
      requires slot < |slots|
    {
      this.(slots := slots[slot := Slot(value, slots[slot].generation)])
    }

    lemma AcquiredValid()
      requires Valid() && free != []
      ensures Acquired().Valid() && NextSlot() < |slots| && NextSlot() !in occupied
      ensures Acquired().Active() == Active() + 1
    {
    }

    lemma ReleasedValid(slot: nat)
      requires Valid() && slot in occupied
      ensures Released(slot).Valid()
      ensures Released(slot).Active() == Active() - 1
    {
    }
  }

  function NewPool<T>(n: nat, blank: T): (p: Pool<T>)
    ensures |p.slots| == |p.free| == n && p.occupied == {}
  {
    Pool(seq(n, _ => Slot(blank, 0)), seq(n, i => i), {})
  }

  lemma NewPoolValid<T>(n: nat, blank: T)
    ensures NewPool(n, blank).Valid()
  {
  }

  /** Everything indexed below n is in the set: a counting argument. */
  lemma {:induction false} BelowCount(s: set<nat>, n: nat)
    requires forall i <- s :: i < n
    ensures |s| <= n
    ensures |s| == n ==> forall i: nat :: i < n ==> i in s
  {
    if n > 0 {
      BelowCount(s - {n - 1}, n - 1);
    }
  }

  /** The stack holds exactly the unoccupied indices. */
  lemma FreeIsVacant<T>(p: Pool<T>, i: nat)
    requires p.Valid() && i < |p.slots|
    ensures i in p.free <==> i !in p.occupied
  {
    var onStack := set k | 0 <= k < |p.free| :: p.free[k];
    DistinctCount(p.free);
    assert |onStack + p.occupied| == |onStack| + |p.occupied| by {
      assert onStack !! p.occupied;
    }
    BelowCount(onStack + p.occupied, |p.slots|);
    assert i in onStack + p.occupied;
  }

  lemma {:induction false} DistinctCount(s: seq<nat>)
    requires forall j, k :: 0 <= j < k < |s| ==> s[j] != s[k]
    ensures |set k | 0 <= k < |s| :: s[k]| == |s|
  {
    if s != [] {
      var n := |s| - 1;
      DistinctCount(s[..n]);
      assert (set k | 0 <= k < |s| :: s[k]) == (set k | 0 <= k < n :: s[..n][k]) + {s[n]};
    }
  }

  // ---------------------------------------------------------------------------
  // The pool object
  // ---------------------------------------------------------------------------

  class SlotRecyclingPool<T(0)> {
    const N: nat
    const pool: array<Slot<T>>
    var availableSlots: seq<nat>
    var occupied: set<nat>

    ghost function State(): Pool<T>
      reads this, pool
    {
      Pool(pool[..], availableSlots, occupied)
    }

    ghost predicate Valid()
      reads this, pool
    {
      pool.Length == N && State().Valid()
    }

    constructor (n: nat, blank: T)
      requires n > 0
      ensures Valid() && fresh(pool) && State() == NewPool(n, blank)
    {
      N := n;
      pool := new Slot<T>[n](_ => Slot(blank, 0));
      availableSlots := seq(n, i => i);
      occupied := {};
      new;
      NewPoolValid(n, blank);
      assert pool[..] == NewPool(n, blank).slots;
    }

    method Acquire() returns (successful: bool, slot: nat)
      requires Valid()
      modifies this
      ensures Valid() && successful == (old(State()).Available() > 0)
      ensures !successful ==> State() == old(State())
      ensures successful ==> State() == old(State()).Acquired() && slot == old(State()).NextSlot()
      ensures successful ==> slot < N && slot !in old(occupied) && occupied == old(occupied) + {slot}
      ensures successful ==> old(availableSlots) == availableSlots + [slot]
    {
      if availableSlots == [] {
        return false, 0;
      }
      State().AcquiredValid();
      slot := availableSlots[|availableSlots| - 1];
      availableSlots := availableSlots[..|availableSlots| - 1];
      occupied := occupied + {slot};
      successful := true;
    }

    method Release(slot: nat)
      requires Valid() && slot in occupied
      modifies this, pool
      ensures Valid() && State() == old(State()).Released(slot)
      ensures availableSlots == old(availableSlots) + [slot] && occupied == old(occupied) - {slot}
      ensures pool[slot].generation == old(pool[slot].generation) + 1
    {
      State().ReleasedValid(slot);
      pool[slot] := Slot(pool[slot].value, pool[slot].generation + 1);
      availableSlots := availableSlots + [slot];
      occupied := occupied - {slot};
    }

    method Store(slot: nat, value: T)
      requires Valid() && slot in occupied
      modifies pool
      ensures Valid() && State() == old(State()).Stored(slot, value)
    {
      pool[slot] := Slot(value, pool[slot].generation);
    }
  }

  // ---------------------------------------------------------------------------
  // Generations over whole runs
  // ---------------------------------------------------------------------------

  datatype PoolOp<T> = Acquire | Release(slot: nat) | Store(at: nat, value: T)

  predicate Legal<T>(p: Pool<T>, op: PoolOp<T>) {
    match op
    case Acquire => p.free != []
    case Release(slot) => slot in p.occupied
    case Store(at, _) => at in p.occupied
  }

  function Perform<T>(p: Pool<T>, op: PoolOp<T>): (p': Pool<T>)
    requires p.Valid() && Legal(p, op)
    ensures p'.Valid() && |p'.slots| == |p.slots|
  {
    match op
    case Acquire => p.AcquiredValid(); p.Acquired()
    case Release(slot) => p.ReleasedValid(slot); p.Released(slot)
    case Store(at, value) => p.Stored(at, value)
  }

  ghost predicate LegalRun<T>(p: Pool<T>, ops: seq<PoolOp<T>>)
    requires p.Valid()
    decreases |ops|
  {
    ops == [] || (Legal(p, ops[0]) && LegalRun(Perform(p, ops[0]), ops[1..]))
  }

  function PerformAll<T>(p: Pool<T>, ops: seq<PoolOp<T>>): (p': Pool<T>)
    requires p.Valid() && LegalRun(p, ops)
    ensures p'.Valid() && |p'.slots| == |p.slots|
    decreases |ops|
  {
    if ops == [] then p else PerformAll(Perform(p, ops[0]), ops[1..])
  }

  function Releases<T>(ops: seq<PoolOp<T>>, slot: nat): nat {
    if ops == [] then 0
    else (if ops[0].Release? && ops[0].slot == slot then 1 else 0) + Releases(ops[1..], slot)
  }

  /** A generation counts the releases of its slot, whatever else happened. */
  lemma {:induction false} GenerationCountsReleases<T>(p: Pool<T>, ops: seq<PoolOp<T>>, slot: nat)
    requires p.Valid() && LegalRun(p, ops) && slot < |p.slots|
    ensures PerformAll(p, ops).slots[slot].generation == p.slots[slot].generation + Releases(ops, slot)
    decreases |ops|
  {
    if ops != [] {
      GenerationCountsReleases(Perform(p, ops[0]), ops[1..], slot);
    }
  }

  /** Held from the start and never released: still held. */
  lemma {:induction false} HeldWhileUnreleased<T>(p: Pool<T>, ops: seq<PoolOp<T>>, slot: nat)
    requires p.Valid() && LegalRun(p, ops) && slot in p.occupied && Releases(ops, slot) == 0
    ensures slot in PerformAll(p, ops).occupied
    decreases |ops|
  {
    if ops != [] {
      HeldWhileUnreleased(Perform(p, ops[0]), ops[1..], slot);
    }
  }

  lemma {:induction false} RunSplits<T>(p: Pool<T>, ops: seq<PoolOp<T>>, k: nat)
    requires p.Valid() && LegalRun(p, ops) && k <= |ops|
    ensures LegalRun(p, ops[..k]) && LegalRun(PerformAll(p, ops[..k]), ops[k..])
    ensures PerformAll(p, ops) == PerformAll(PerformAll(p, ops[..k]), ops[k..])
    decreases |ops|
  {
    if k == 0 {
      assert ops[..0] == [] && ops[0..] == ops;
    } else {
      RunSplits(Perform(p, ops[0]), ops[1..], k - 1);
      assert ops[..k][1..] == ops[1..][..k - 1] && ops[1..][k - 1..] == ops[k..];
    }
  }

  lemma {:induction false} ReleasesSplit<T>(ops: seq<PoolOp<T>>, k: nat, slot: nat)
    requires k <= |ops|
    ensures Releases(ops, slot) == Releases(ops[..k], slot) + Releases(ops[k..], slot)
  {
    if k == 0 {
      assert ops[..0] == [] && ops[0..] == ops;
    } else {
      ReleasesSplit(ops[1..], k - 1, slot);
      assert ops[..k][1..] == ops[1..][..k - 1] && ops[1..][k - 1..] == ops[k..];
    }
  }

  /**
   * A handle (slot, generation) taken while the slot is held passes the generation test later exactly when the
   * slot has not been released in between; and then it has been held at every moment since.
   */
  lemma StaleHandleCaught<T>(p: Pool<T>, ops: seq<PoolOp<T>>, slot: nat)
    requires p.Valid() && LegalRun(p, ops) && slot in p.occupied
    ensures PerformAll(p, ops).slots[slot].generation == p.slots[slot].generation <==> Releases(ops, slot) == 0
    ensures PerformAll(p, ops).slots[slot].generation == p.slots[slot].generation ==>
              forall k :: 0 <= k <= |ops| ==> LegalRun(p, ops[..k]) && slot in PerformAll(p, ops[..k]).occupied
  {
    GenerationCountsReleases(p, ops, slot);
    if Releases(ops, slot) == 0 {
      forall k | 0 <= k <= |ops|
        ensures LegalRun(p, ops[..k]) && slot in PerformAll(p, ops[..k]).occupied
      {
        RunSplits(p, ops, k);
        ReleasesSplit(ops, k, slot);
        HeldWhileUnreleased(p, ops[..k], slot);
      }
    }
  }

  /** Two acquisitions of the same slot, however far apart, carry different generations. */
  lemma {:induction false} AcquisitionsDiffer<T>(p: Pool<T>, ops: seq<PoolOp<T>>, slot: nat)
    requires p.Valid() && LegalRun(p, ops) && p.free != [] && p.NextSlot() == slot
    requires ops != [] && ops[0].Acquire?
    requires PerformAll(p, ops).free != [] && PerformAll(p, ops).NextSlot() == slot
    ensures PerformAll(p, ops).slots[slot].generation > p.slots[slot].generation
  {
    var q := Perform(p, ops[0]);
    assert slot in q.occupied;
    if Releases(ops[1..], slot) == 0 {
      HeldWhileUnreleased(q, ops[1..], slot);
      PerformAll(q, ops[1..]).AcquiredValid();
      assert false;
    }
    GenerationCountsReleases(q, ops[1..], slot);
  }
}
