/** The lock-free single-producer single-consumer queue (src/Client/spsc_queue.hpp), one atomic step at a time. */
module SpscQueue {
  import RB = RingBuffer

  // ---------------------------------------------------------------------------
  // Ring indices of unbounded positions
  // ---------------------------------------------------------------------------

  lemma NextIndex(a: nat, n: nat)
    requires n > 0
    ensures (a + 1) % n == if a % n + 1 == n then 0 else a % n + 1
  {
    var q, r := a / n, a % n;
    assert a == n * q + r;
    if r + 1 == n {
      assert a + 1 == n * (q + 1) + 0;
      RB.RemainderUnique(a + 1, n, q + 1, 0);
    } else {
      RB.RemainderUnique(a + 1, n, q, r + 1);
    }
  }

  /** Positions less than a lap apart have different indices. */
  lemma DistinctIndices(a: nat, b: nat, n: nat)
    requires n > 0 && a < b < a + n
    ensures a % n != b % n
  {
    var d := b / n - a / n;
    assert a == n * (a / n) + a % n && b == n * (b / n) + b % n;
    if a % n == b % n {
      assert b - a == n * d;
      RB.MultipleApart(n, d);
      assert false;
    }
  }

  // ---------------------------------------------------------------------------
  // The protocol
  // ---------------------------------------------------------------------------

  /** Where a push is: between calls, about to reload the read index, to write its slot, or to publish. */
  datatype Producer<T> =
    | Idle
    | Refreshing(value: T, index: nat, next: nat)
    | Writing(value: T, index: nat, next: nat)
    | Publishing(value: T, next: nat)

  /** Where a pop is. */
  datatype Consumer<T> =
    | Resting
    | Reloading(index: nat)
    | Reading(index: nat)
    | Releasing(value: T, next: nat)

  /**
   * The four index fields and the slots, the positions of both threads, and the history: what has been published
   * and handed out, and up to where each side has seen the other.
   */
  datatype Queue<T> = Queue(
    slots: seq<T>,
    readIdx: nat, cachedReadIdx: nat,
    writeIdx: nat, cachedWriteIdx: nat,
    producer: Producer<T>, consumer: Consumer<T>,
    pushed: seq<T>, popped: seq<T>,
    seenPops: nat, seenPushes: nat)

  /** Atomic steps. An acquire load may return any value between the last one seen and the current one. */
  datatype Step<T> =
    | PushStart(value: T)
    | PushRefresh(seen: nat)
    | PushWrite
    | PushPublish
    | PopStart
    | PopReload(seen: nat)
    | PopRead
    | PopRelease

  function Advance(index: nat, n: nat): nat {
    if index + 1 == n then 0 else index + 1
  }

  predicate Enabled<T>(q: Queue<T>, s: Step<T>) {
    match s
    case PushStart(_) => q.producer.Idle?
    case PushRefresh(k) => q.producer.Refreshing? && q.seenPops <= k <= |q.popped|
    case PushWrite => q.producer.Writing? && q.producer.index < |q.slots|
    case PushPublish => q.producer.Publishing?
    case PopStart => q.consumer.Resting?
    case PopReload(k) => q.consumer.Reloading? && q.seenPushes <= k <= |q.pushed|
    case PopRead => q.consumer.Reading? && q.consumer.index < |q.slots|
    case PopRelease => q.consumer.Releasing?
  }

  function Apply<T>(q: Queue<T>, s: Step<T>): (t: Queue<T>)
    requires Enabled(q, s) && |q.slots| > 0
    ensures |t.slots| == |q.slots|
  {
    var n := |q.slots|;
    match s
    case PushStart(v) =>
      var next := Advance(q.writeIdx, n);
      if next == q.cachedReadIdx then q.(producer := Refreshing(v, q.writeIdx, next))
      else q.(producer := Writing(v, q.writeIdx, next))
    case PushRefresh(k) =>
      var p := q.producer;
      var q1 := q.(cachedReadIdx := k % n, seenPops := k);
      if p.next == k % n then q1.(producer := Idle) else q1.(producer := Writing(p.value, p.index, p.next))
    case PushWrite =>
      var p := q.producer;
      q.(slots := q.slots[p.index := p.value], producer := Publishing(p.value, p.next))
    case PushPublish =>
      q.(writeIdx := q.producer.next, pushed := q.pushed + [q.producer.value], producer := Idle)
    case PopStart =>
      if q.readIdx == q.cachedWriteIdx then q.(consumer := Reloading(q.readIdx)) else q.(consumer := Reading(q.readIdx))
    case PopReload(k) =>
      var c := q.consumer;
      var q1 := q.(cachedWriteIdx := k % n, seenPushes := k);
      if c.index == k % n then q1.(consumer := Resting) else q1.(consumer := Reading(c.index))
    case PopRead =>
      q.(consumer := Releasing(q.slots[q.consumer.index], Advance(q.consumer.index, n)))
    case PopRelease =>
      q.(readIdx := q.consumer.next, popped := q.popped + [q.consumer.value], consumer := Resting)
  }

  /** A fresh queue: one slot more than its capacity. */
  function New<T>(slots: seq<T>): Queue<T> {
    Queue(slots, 0, 0, 0, 0, Idle, Resting, [], [], 0, 0)
  }

  /** The undelivered positions sit in their slots. */
  ghost predicate SlotsOk<T>(q: Queue<T>)
    requires |q.slots| > 0
  {
    forall i :: |q.popped| <= i < |q.pushed| ==> q.slots[i % |q.slots|] == q.pushed[i]
  }

  ghost predicate ProducerOk<T>(q: Queue<T>)
    requires |q.slots| > 0
  {
    var n := |q.slots|;
    match q.producer
    case Idle => true
    case Refreshing(_, w, next) => w == q.writeIdx && next == (|q.pushed| + 1) % n
    case Writing(_, w, next) =>
      w == q.writeIdx && next == (|q.pushed| + 1) % n && |q.pushed| + 1 - q.seenPops < n
    case Publishing(v, next) =>
      next == (|q.pushed| + 1) % n && |q.pushed| + 1 - q.seenPops < n && q.slots[|q.pushed| % n] == v
  }

  ghost predicate ConsumerOk<T>(q: Queue<T>)
    requires |q.slots| > 0
  {
    var n := |q.slots|;
    match q.consumer
    case Resting => true
    case Reloading(r) => r == q.readIdx
    case Reading(r) => r == q.readIdx && |q.popped| < q.seenPushes
    case Releasing(v, next) =>
      next == (|q.popped| + 1) % n && |q.popped| < q.seenPushes <= |q.pushed| && v == q.pushed[|q.popped|]
  }

  ghost predicate CountersOk<T>(q: Queue<T>)
    requires |q.slots| > 0
  {
    var n := |q.slots|;
    && q.seenPops <= |q.popped| <= q.seenPushes <= |q.pushed| < q.seenPops + n
    && q.popped == q.pushed[..|q.popped|]
    && q.readIdx == |q.popped| % n && q.writeIdx == |q.pushed| % n
    && q.cachedReadIdx == q.seenPops % n && q.cachedWriteIdx == q.seenPushes % n
  }

  ghost predicate Inv<T>(q: Queue<T>) {
    |q.slots| > 0 && CountersOk(q) && SlotsOk(q) && ProducerOk(q) && ConsumerOk(q)
  }

  lemma NewInv<T>(slots: seq<T>)
    requires slots != []
    ensures Inv(New(slots))
  {
  }

  // ---------------------------------------------------------------------------
  // Every step keeps the invariant
  // ---------------------------------------------------------------------------

  lemma PushStartKeeps<T>(q: Queue<T>, v: T)
    requires Inv(q) && Enabled(q, PushStart(v))
    ensures Inv(Apply(q, PushStart(v)))
  {
    NextIndex(|q.pushed|, |q.slots|);
    if |q.pushed| + 1 == q.seenPops + |q.slots| {
      Lap(q.seenPops, |q.slots|);
    }
  }

  /** A lap ahead is the same index. */
  lemma Lap(a: nat, n: nat)
    requires n > 0
    ensures (a + n) % n == a % n
  {
    assert a + n == n * (a / n + 1) + a % n;
    RB.RemainderUnique(a + n, n, a / n + 1, a % n);
  }

  /** Reloading the read index fails exactly when the consumer was last seen a full ring behind. */
  lemma PushRefreshFull<T>(q: Queue<T>, k: nat)
    requires Inv(q) && Enabled(q, PushRefresh(k))
    ensures q.producer.next == k % |q.slots| <==> |q.pushed| + 1 == k + |q.slots|
  {
    var n := |q.slots|;
    if |q.pushed| + 1 == k + n {
      Lap(k, n);
    } else {
      DistinctIndices(k, |q.pushed| + 1, n);
    }
  }

  lemma PushRefreshKeeps<T>(q: Queue<T>, k: nat)
    requires Inv(q) && Enabled(q, PushRefresh(k))
    ensures Inv(Apply(q, PushRefresh(k)))
  {
    PushRefreshFull(q, k);
  }

  /** The slot a push writes is none that still holds an undelivered value. */
  lemma WriteSlotIsFree<T>(q: Queue<T>, i: nat)
    requires Inv(q) && q.producer.Writing? && |q.popped| <= i < |q.pushed|
    ensures q.producer.index != i % |q.slots|
  {
    DistinctIndices(i, |q.pushed|, |q.slots|);
  }

  lemma PushWriteKeeps<T>(q: Queue<T>)
    requires Inv(q) && Enabled(q, PushWrite)
    ensures Inv(Apply(q, PushWrite))
  {
    var t := Apply(q, PushWrite);
    forall i | |q.popped| <= i < |q.pushed|
      ensures t.slots[i % |t.slots|] == t.pushed[i]
    {
      WriteSlotIsFree(q, i);
    }
  }

  lemma PushPublishKeeps<T>(q: Queue<T>)
    requires Inv(q) && Enabled(q, PushPublish)
    ensures Inv(Apply(q, PushPublish))
  {
  }

  lemma PopStartKeeps<T>(q: Queue<T>)
    requires Inv(q) && Enabled(q, PopStart)
    ensures Inv(Apply(q, PopStart))
  {
  }

  /** Reloading the write index fails exactly when nothing published has been seen beyond what was popped. */
  lemma PopReloadEmpty<T>(q: Queue<T>, k: nat)
    requires Inv(q) && Enabled(q, PopReload(k))
    ensures q.consumer.index == k % |q.slots| <==> k == |q.popped|
  {
    if k > |q.popped| {
      DistinctIndices(|q.popped|, k, |q.slots|);
    }
  }

  lemma PopReloadKeeps<T>(q: Queue<T>, k: nat)
    requires Inv(q) && Enabled(q, PopReload(k))
    ensures Inv(Apply(q, PopReload(k)))
  {
    PopReloadEmpty(q, k);
  }

  lemma PopReadKeeps<T>(q: Queue<T>)
    requires Inv(q) && Enabled(q, PopRead)
    ensures Inv(Apply(q, PopRead))
  {
    NextIndex(|q.popped|, |q.slots|);
  }

  lemma PopReleaseKeeps<T>(q: Queue<T>)
    requires Inv(q) && Enabled(q, PopRelease)
    ensures Inv(Apply(q, PopRelease))
  {
    assert q.pushed[..|q.popped| + 1] == q.pushed[..|q.popped|] + [q.pushed[|q.popped|]];
  }

  lemma ApplyKeeps<T>(q: Queue<T>, s: Step<T>)
    requires Inv(q) && Enabled(q, s)
    ensures Inv(Apply(q, s))
  {
    match s
    case PushStart(v) => PushStartKeeps(q, v);
    case PushRefresh(k) => PushRefreshKeeps(q, k);
    case PushWrite => PushWriteKeeps(q);
    case PushPublish => PushPublishKeeps(q);
    case PopStart => PopStartKeeps(q);
    case PopReload(k) => PopReloadKeeps(q, k);
    case PopRead => PopReadKeeps(q);
    case PopRelease => PopReleaseKeeps(q);
  }

  // ---------------------------------------------------------------------------
  // Every interleaving
  // ---------------------------------------------------------------------------

  /** Any scheduler: a step of a thread that is elsewhere does nothing. */
  function Run<T>(q: Queue<T>, steps: seq<Step<T>>): (t: Queue<T>)
    requires |q.slots| > 0
    ensures |t.slots| == |q.slots|
    decreases |steps|
  {
    if steps == [] then q
    else if !Enabled(q, steps[0]) then Run(q, steps[1..])
    else Run(Apply(q, steps[0]), steps[1..])
  }

  lemma {:induction false} RunKeeps<T>(q: Queue<T>, steps: seq<Step<T>>)
    requires Inv(q)
    ensures Inv(Run(q, steps))
    decreases |steps|
  {
    if steps != [] {
      if Enabled(q, steps[0]) {
        ApplyKeeps(q, steps[0]);
        RunKeeps(Apply(q, steps[0]), steps[1..]);
      } else {
        RunKeeps(q, steps[1..]);
      }
    }
  }

  /** `count` values read off the ring from an index. */
  function Window<T>(slots: seq<T>, index: nat, count: nat): (w: seq<T>)
    requires index < |slots|
    ensures |w| == count
    decreases count
  {
    if count == 0 then [] else [slots[index]] + Window(slots, Advance(index, |slots|), count - 1)
  }

  lemma {:induction false} WindowIsRest<T>(q: Queue<T>, from: nat)
    requires Inv(q) && |q.popped| <= from <= |q.pushed|
    ensures Window(q.slots, from % |q.slots|, |q.pushed| - from) == q.pushed[from..]
    decreases |q.pushed| - from
  {
    if from < |q.pushed| {
      NextIndex(from, |q.slots|);
      WindowIsRest(q, from + 1);
      assert q.pushed[from..] == [q.pushed[from]] + q.pushed[from + 1..];
    }
  }

  /**
   * Whatever the interleaving and however stale the loads: what was popped is a prefix of what was pushed, the rest
   * is exactly what the ring holds from the read index on, and there is never more of it than the capacity.
   */
  lemma FifoInEveryRun<T>(slots: seq<T>, steps: seq<Step<T>>)
    requires slots != []
    ensures var q := Run(New(slots), steps);
            && |q.slots| == |slots| && q.readIdx < |slots| && q.writeIdx < |slots|
            && q.popped <= q.pushed
            && q.pushed == q.popped + Window(q.slots, q.readIdx, |q.pushed| - |q.popped|)
            && |q.pushed| - |q.popped| < |slots|
            && q.writeIdx == (q.readIdx + (|q.pushed| - |q.popped|)) % |slots|
  {
    NewInv(slots);
    RunKeeps(New(slots), steps);
    var q := Run(New(slots), steps);
    WindowIsRest(q, |q.popped|);
    assert q.pushed == q.pushed[..|q.popped|] + q.pushed[|q.popped|..];
    AddedIndex(|q.popped|, |q.pushed| - |q.popped|, |slots|);
  }

  lemma AddedIndex(a: nat, d: nat, n: nat)
    requires n > 0
    ensures (a % n + d) % n == (a + d) % n
  {
    var q, r := (a % n + d) / n, (a % n + d) % n;
    assert a == n * (a / n) + a % n;
    assert a + d == n * (a / n + q) + r;
    RB.RemainderUnique(a + d, n, a / n + q, r);
  }

  /** A slot is never written while it may be read: the write goes to no undelivered slot, so not to the one being
      popped. */
  lemma NoSlotRace<T>(slots: seq<T>, steps: seq<Step<T>>)
    requires slots != []
    ensures var q := Run(New(slots), steps);
            q.producer.Writing? ==>
              && q.producer.index < |slots|
              && (forall i :: |q.popped| <= i < |q.pushed| ==> q.producer.index != i % |slots|)
              && (q.consumer.Reading? ==> q.producer.index != q.consumer.index)
  {
    NewInv(slots);
    RunKeeps(New(slots), steps);
    var q := Run(New(slots), steps);
    if q.producer.Writing? {
      forall i | |q.popped| <= i < |q.pushed|
        ensures q.producer.index != i % |slots|
      {
        WriteSlotIsFree(q, i);
      }
      if q.consumer.Reading? {
        WriteSlotIsFree(q, |q.popped|);
      }
    }
  }

  /** A push gives up exactly when its reload shows all of the capacity undelivered; a pop, when it shows nothing
      new. */
  lemma RefusalsAreExact<T>(slots: seq<T>, steps: seq<Step<T>>, seen: nat)
    requires slots != []
    ensures var q := Run(New(slots), steps);
            && (Enabled(q, PushRefresh(seen)) ==>
                 (Apply(q, PushRefresh(seen)).producer.Idle? <==> |q.pushed| - seen == |slots| - 1))
            && (Enabled(q, PopReload(seen)) ==>
                 (Apply(q, PopReload(seen)).consumer.Resting? <==> seen == |q.popped|))
  {
    NewInv(slots);
    RunKeeps(New(slots), steps);
    var q := Run(New(slots), steps);
    if Enabled(q, PushRefresh(seen)) {
      PushRefreshFull(q, seen);
    }
    if Enabled(q, PopReload(seen)) {
      PopReloadEmpty(q, seen);
    }
  }

  /** The other side's index is loaded again exactly when the last value seen shows a full queue, or an empty one. */
  lemma ReloadsAreExact<T>(slots: seq<T>, steps: seq<Step<T>>, value: T)
    requires slots != []
    ensures var q := Run(New(slots), steps);
            && (Enabled(q, PushStart(value)) ==>
                 (Apply(q, PushStart(value)).producer.Refreshing? <==> |q.pushed| - q.seenPops == |slots| - 1))
            && (Enabled(q, PopStart) ==>
                 (Apply(q, PopStart).consumer.Reloading? <==> q.seenPushes == |q.popped|))
  {
    NewInv(slots);
    RunKeeps(New(slots), steps);
    var q := Run(New(slots), steps);
    LookFull(q);
    LookEmpty(q);
  }

  lemma LookFull<T>(q: Queue<T>)
    requires Inv(q)
    ensures Advance(q.writeIdx, |q.slots|) == q.cachedReadIdx <==> |q.pushed| - q.seenPops == |q.slots| - 1
  {
    var n := |q.slots|;
    NextIndex(|q.pushed|, n);
    if |q.pushed| + 1 == q.seenPops + n {
      Lap(q.seenPops, n);
    } else {
      DistinctIndices(q.seenPops, |q.pushed| + 1, n);
    }
  }

  lemma LookEmpty<T>(q: Queue<T>)
    requires Inv(q)
    ensures q.readIdx == q.cachedWriteIdx <==> q.seenPushes == |q.popped|
  {
    if q.seenPushes > |q.popped| {
      DistinctIndices(|q.popped|, q.seenPushes, |q.slots|);
    }
  }

  // ---------------------------------------------------------------------------
  // Whole calls
  // ---------------------------------------------------------------------------

  /** The steps of one push with no step of the other side in between. */
  function WholePush<T>(q: Queue<T>, v: T): (Queue<T>, bool)
    requires Inv(q) && q.producer.Idle?
  {
    PushStartKeeps(q, v);
    var a := Apply(q, PushStart(v));
    if a.producer.Writing? then (PublishWhole(a), true)
    else
      PushRefreshKeeps(a, |a.popped|);
      var b := Apply(a, PushRefresh(|a.popped|));
      if b.producer.Writing? then (PublishWhole(b), true) else (b, false)
  }

  function PublishWhole<T>(q: Queue<T>): Queue<T>
    requires Inv(q) && q.producer.Writing?
  {
    Apply(Apply(q, PushWrite), PushPublish)
  }

  function WholePop<T>(q: Queue<T>): (Queue<T>, bool)
    requires Inv(q) && q.consumer.Resting?
  {
    PopStartKeeps(q);
    var a := Apply(q, PopStart);
    if a.consumer.Reading? then (ReleaseWhole(a), true)
    else
      PopReloadKeeps(a, |a.pushed|);
      var b := Apply(a, PopReload(|a.pushed|));
      if b.consumer.Reading? then (ReleaseWhole(b), true) else (b, false)
  }

  function ReleaseWhole<T>(q: Queue<T>): Queue<T>
    requires Inv(q) && q.consumer.Reading?
  {
    Apply(Apply(q, PopRead), PopRelease)
  }

  /** A push running alone succeeds exactly when fewer values than the capacity are undelivered. */
  lemma WholePushWorks<T>(q: Queue<T>, v: T)
    requires Inv(q) && q.producer.Idle?
    ensures var (t, ok) := WholePush(q, v);
            && Inv(t) && t.producer.Idle? && t.consumer == q.consumer && |t.slots| == |q.slots|
            && (ok <==> |q.pushed| - |q.popped| < |q.slots| - 1)
            && t.pushed == (if ok then q.pushed + [v] else q.pushed) && t.popped == q.popped
  {
    PushStartKeeps(q, v);
    var a := Apply(q, PushStart(v));
    if a.producer.Writing? {
      PublishWorks(a);
    } else {
      PushRefreshKeeps(a, |a.popped|);
      PushRefreshFull(a, |a.popped|);
      var b := Apply(a, PushRefresh(|a.popped|));
      if b.producer.Writing? {
        PublishWorks(b);
      }
    }
  }

  lemma PublishWorks<T>(q: Queue<T>)
    requires Inv(q) && q.producer.Writing?
    ensures var t := PublishWhole(q);
            && Inv(t) && t.producer.Idle? && t.consumer == q.consumer && |t.slots| == |q.slots|
            && t.pushed == q.pushed + [q.producer.value] && t.popped == q.popped
  {
    PushWriteKeeps(q);
    PushPublishKeeps(Apply(q, PushWrite));
  }

  /** A pop running alone succeeds exactly when something is undelivered, and delivers the oldest. */
  lemma WholePopWorks<T>(q: Queue<T>)
    requires Inv(q) && q.consumer.Resting?
    ensures var (t, ok) := WholePop(q);
            && Inv(t) && t.consumer.Resting? && t.producer == q.producer && |t.slots| == |q.slots|
            && (ok <==> |q.popped| < |q.pushed|)
            && t.popped == (if ok then q.popped + [q.pushed[|q.popped|]] else q.popped) && t.pushed == q.pushed
  {
    PopStartKeeps(q);
    var a := Apply(q, PopStart);
    if a.consumer.Reading? {
      ReleaseWorks(a);
    } else {
      PopReloadKeeps(a, |a.pushed|);
      PopReloadEmpty(a, |a.pushed|);
      var b := Apply(a, PopReload(|a.pushed|));
      if b.consumer.Reading? {
        ReleaseWorks(b);
      }
    }
  }

  lemma ReleaseWorks<T>(q: Queue<T>)
    requires Inv(q) && q.consumer.Reading?
    ensures var t := ReleaseWhole(q);
            && Inv(t) && t.consumer.Resting? && t.producer == q.producer && |t.slots| == |q.slots|
            && t.popped == q.popped + [q.pushed[|q.popped|]] && t.pushed == q.pushed
  {
    PopReadKeeps(q);
    PopReleaseKeeps(Apply(q, PopRead));
  }

  /** The queue object, between calls. */
  class SpscRing<T(0)> {
    const capacity: nat
    const queue: array<T>
    var readIdx: nat
    var cachedReadIdx: nat
    var writeIdx: nat
    var cachedWriteIdx: nat
    ghost var pushed: seq<T>
    ghost var popped: seq<T>
    ghost var seenPops: nat
    ghost var seenPushes: nat

    ghost function State(): Queue<T>
      reads this, queue
    {
      Queue(queue[..], readIdx, cachedReadIdx, writeIdx, cachedWriteIdx, Idle, Resting,
            pushed, popped, seenPops, seenPushes)
    }

    ghost predicate Valid()
      reads this, queue
    {
      queue.Length == capacity + 1 && Inv(State())
    }

    /** The values pushed and not yet popped, oldest first. */
    ghost function Contents(): seq<T>
      requires Valid()
      reads this, queue
    {
      Waiting(State())
    }

    constructor (size: nat)
      ensures Valid() && capacity == size && Contents() == [] && fresh(queue)
    {
      capacity := size;
      queue := new T[size + 1];
      readIdx, cachedReadIdx, writeIdx, cachedWriteIdx := 0, 0, 0, 0;
      pushed, popped, seenPops, seenPushes := [], [], 0, 0;
    }

    /** The undelivered values of a queue. */
    static ghost function Waiting(q: Queue<T>): seq<T>
      requires |q.popped| <= |q.pushed|
    {
      q.pushed[|q.popped|..]
    }

    static lemma PushContents(q: Queue<T>, v: T)
      requires Inv(q) && q.producer.Idle?
      ensures var (t, ok) := WholePush(q, v);
              && Inv(t) && ok == (|Waiting(q)| < |q.slots| - 1)
              && Waiting(t) == if ok then Waiting(q) + [v] else Waiting(q)
    {
      WholePushWorks(q, v);
    }

    static lemma PopContents(q: Queue<T>)
      requires Inv(q) && q.consumer.Resting?
      ensures var (t, ok) := WholePop(q);
              && Inv(t) && ok == (Waiting(q) != [])
              && (if ok then |t.popped| > 0 && Waiting(q) == [t.popped[|t.popped| - 1]] + Waiting(t)
                  else Waiting(t) == Waiting(q))
    {
      WholePopWorks(q);
    }

    /** Accepts a value exactly when fewer than `capacity` are waiting; the state is that of the uninterrupted steps. */
    method Push(val: T) returns (ok: bool)
      requires Valid()
      modifies this, queue
      ensures Valid() && ok == (|old(Contents())| < capacity)
      ensures Contents() == if ok then old(Contents()) + [val] else old(Contents())
      ensures (State(), ok) == WholePush(old(State()), val)
    {
      PushContents(State(), val);
      var writeIndex := writeIdx;
      var nextWriteIndex := writeIndex + 1;
      if nextWriteIndex == queue.Length {
        nextWriteIndex := 0;
      }
      if nextWriteIndex == cachedReadIdx {
        cachedReadIdx, seenPops := readIdx, |popped|;
        if nextWriteIndex == cachedReadIdx {
          return false;
        }
      }
      queue[writeIndex] := val;
      writeIdx, pushed := nextWriteIndex, pushed + [val];
      ok := true;
    }

    /** Delivers the oldest waiting value, if any; the state is that of the uninterrupted steps. */
    method Pop(into: T) returns (ok: bool, val: T)
      requires Valid()
      modifies this
      ensures Valid() && ok == (old(Contents()) != [])
      ensures Contents() == if ok then old(Contents())[1..] else old(Contents())
      ensures val == if ok then old(Contents())[0] else into
      ensures (State(), ok) == WholePop(old(State()))
    {
      PopContents(State());
      val := into;
      ok := Fetch();
      if ok {
        val := queue[readIdx];
        ghost var q := State();
        Deliver(val);
        assert State() == q.(readIdx := Advance(q.readIdx, |q.slots|), popped := q.popped + [val]);
      }
    }

    /** The empty test, with its reload of the write index. */
    method Fetch() returns (ok: bool)
      requires Valid()
      modifies `cachedWriteIdx, `seenPushes
      ensures Valid() && ok == (readIdx != cachedWriteIdx)
      ensures State() == if old(readIdx == cachedWriteIdx)
                         then old(State()).(cachedWriteIdx := writeIdx, seenPushes := |pushed|) else old(State())
    {
      PopStartKeeps(State());
      if readIdx == cachedWriteIdx {
        PopReloadKeeps(Apply(State(), PopStart), |pushed|);
        cachedWriteIdx, seenPushes := writeIdx, |pushed|;
      }
      ok := readIdx != cachedWriteIdx;
    }

    /** The release of the slot just read. */
    method Deliver(ghost val: T)
      requires queue.Length > 0
      modifies `readIdx, `popped
      ensures State() == old(State()).(readIdx := Advance(old(readIdx), queue.Length), popped := old(popped) + [val])
    {
      var nextReadIndex := readIdx + 1;
      if nextReadIndex == queue.Length {
        nextReadIndex := 0;
      }
      readIdx, popped := nextReadIndex, popped + [val];
    }
  }
}
