/** The fixed-capacity circular buffer behind the event store. It keeps a
    count of valid items and the index the next enqueue writes to; when full,
    an enqueue overwrites the oldest item. */
module RingQueues {
  import opened Common

  // ---------------------------------------------------------------------
  // Specification on values

  function Min(a: nat, b: nat): nat { if a <= b then a else b }

  /** The last `n` elements of `s` (all of them if there are fewer). */
  function Last<T>(s: seq<T>, n: nat): seq<T>
  {
    s[|s| - Min(n, |s|)..]
  }

  /** The logical contents after one enqueue into a queue of `capacity`:
      `x` is appended, and when the queue was full its oldest item is gone. */
  function Enqueued<T>(s: seq<T>, capacity: nat, x: T): seq<T>
    requires 0 < capacity && |s| <= capacity
  {
    if |s| < capacity then s + [x] else s[1..] + [x]
  }

  /** The logical contents after enqueueing `xs` one by one. */
  function EnqueuedAll<T>(s: seq<T>, capacity: nat, xs: seq<T>): (r: seq<T>)
    requires 0 < capacity && |s| <= capacity
    ensures |r| <= capacity
    decreases |xs|
  {
    if xs == [] then s else EnqueuedAll(Enqueued(s, capacity, xs[0]), capacity, xs[1..])
  }

  /** One enqueue keeps exactly the newest `capacity` items. */
  lemma EnqueuedIsLast<T>(s: seq<T>, capacity: nat, x: T)
    requires 0 < capacity && |s| <= capacity
    ensures Enqueued(s, capacity, x) == Last(s + [x], capacity)
  {
    if |s| == capacity {
      assert (s + [x])[1..] == s[1..] + [x];
    }
  }

  /** Taking the last `n` twice, with more appended in between, is taking
      the last `n` of everything. */
  lemma LastOfLast<T>(t: seq<T>, u: seq<T>, n: nat)
    ensures Last(Last(t, n) + u, n) == Last(t + u, n)
  {
    var m := Min(n, |t|);
    assert Last(t, n) + u == (t + u)[|t| - m..];
  }

  /** Enqueueing any number of items into a queue keeps exactly the newest
      `capacity` of all the items, oldest first: the overwrite policy. */
  lemma {:induction false} EnqueuedAllIsLast<T>(s: seq<T>, capacity: nat, xs: seq<T>)
    requires 0 < capacity && |s| <= capacity
    ensures EnqueuedAll(s, capacity, xs) == Last(s + xs, capacity)
    decreases |xs|
  {
    if xs == [] {
      assert s + xs == s;
    } else {
      var s' := Enqueued(s, capacity, xs[0]);
      EnqueuedIsLast(s, capacity, xs[0]);
      EnqueuedAllIsLast(s', capacity, xs[1..]);
      LastOfLast(s + [xs[0]], xs[1..], capacity);
      assert s + [xs[0]] + xs[1..] == s + xs;
    }
  }

  /** With room to spare nothing is lost: the queue holds every item. */
  lemma EnqueuedAllWithinCapacity<T>(capacity: nat, xs: seq<T>)
    requires 0 < capacity && |xs| <= capacity
    ensures EnqueuedAll([], capacity, xs) == xs
  {
    EnqueuedAllIsLast([], capacity, xs);
    assert [] + xs == xs;
  }

  // ---------------------------------------------------------------------
  // The queue

  class RingQueue<T> {
    /** The maximum number of items held. */
    const capacity: nat
    /** The backing storage; a slot is `None` until first written. */
    const buffer: array<Option<T>>
    /** The number of valid items. */
    var count: nat
    /** The slot the next enqueue writes to. */
    var idx: nat
    /** The valid items, oldest first. */
    ghost var Contents: seq<T>

    /** The slot of the `i`-th oldest item: `count` slots behind `idx`,
        wrapped around the end of the buffer once. */
    function Slot(i: int): int
      reads this
    {
      SlotAt(idx, count, capacity, i)
    }

    ghost predicate Valid()
      reads this, buffer
    {
      && buffer.Length == capacity
      && count <= capacity
      && |Contents| == count
      && (if capacity == 0 then idx == 0 else idx < capacity)
      && forall i :: 0 <= i < count ==> buffer[Slot(i)] == Some(Contents[i])
    }

    /** `init(withCapacity:)`: an empty queue of exactly `capacity` slots. */
    constructor (capacity: nat)
      ensures Valid() && fresh(buffer)
      ensures this.capacity == capacity && Contents == []
      ensures count == 0 && idx == 0
      ensures forall k :: 0 <= k < capacity ==> buffer[k] == None
    {
      this.capacity := capacity;
      count := 0;
      idx := 0;
      buffer := new Option<T>[capacity](_ => None);
      Contents := [];
    }

    /** `removeAll`: only the count is reset; the cursor and the slots stay. */
    method RemoveAll()
      requires Valid()
      modifies this
      ensures Valid() && Contents == [] && count == 0
      ensures idx == old(idx)
    {
      count := 0;
      Contents := [];
    }

    /** `isEmpty`. */
    function IsEmpty(): (b: bool)
      reads this, buffer
      requires Valid()
      ensures b <==> Contents == []
    {
      count == 0
    }

    /** `enqueue`: writes at the cursor, advances it modulo the capacity and
        grows the count only while there is room. A queue of capacity 0
        traps in Swift (index out of range, then modulo by zero). */
    method Enqueue(item: T)
      requires Valid() && 0 < capacity
      modifies this, buffer
      ensures Valid()
      ensures Contents == Enqueued(old(Contents), capacity, item)
      ensures idx == (old(idx) + 1) % capacity
      ensures count == if old(count) < capacity then old(count) + 1 else old(count)
    {
      ghost var cursor, before := idx, count;
      NextIndex(idx, capacity);
      buffer[idx] := Some(item);
      idx := (idx + 1) % capacity;
      if count < capacity {
        count := count + 1;
      }
      Contents := Enqueued(Contents, capacity, item);
      forall i | 0 <= i < count
        ensures buffer[Slot(i)] == Some(Contents[i])
      {
        EnqueueSlots(cursor, before, capacity, i);
        if i == count - 1 {
          assert Slot(i) == cursor;
        } else if before < capacity {
          assert Slot(i) == SlotAt(cursor, before, capacity, i) != cursor;
          assert old(buffer[SlotAt(cursor, before, capacity, i)]) == Some(old(Contents)[i]);
        } else {
          assert Slot(i) == SlotAt(cursor, before, capacity, i + 1) != cursor;
          assert old(buffer[SlotAt(cursor, before, capacity, i + 1)]) == Some(old(Contents)[i + 1]);
        }
      }
    }

    /** `dequeue`: the oldest item, or `None` with nothing changed when
        empty. The cursor stays where it is. */
    method Dequeue() returns (item: Option<T>)
      requires Valid()
      modifies this
      ensures Valid() && idx == old(idx)
      ensures old(Contents) == [] ==> item == None && Contents == [] && count == 0
      ensures old(Contents) != [] ==>
        item == Some(old(Contents)[0]) && Contents == old(Contents)[1..] && count == old(count) - 1
    {
      if count == 0 {
        return None;
      }
      var oldest := if idx - count < 0 then capacity + idx - count else idx - count;
      assert oldest == Slot(0);
      item := buffer[oldest];
      count := count - 1;
      Contents := Contents[1..];
    }

    /** `takeAll`: every item, oldest first, read from at most two runs of
        the buffer; afterwards the queue is empty and the cursor unchanged.
        Each slot read is unwrapped, as the force-unwrap in Swift does, and
        the invariant shows that none of them is `None`. */
    method TakeAll() returns (result: seq<T>)
      requires Valid()
      modifies this
      ensures Valid()
      ensures result == old(Contents)
      ensures Contents == [] && count == 0 && idx == old(idx)
    {
      result := [];
      if idx - count < 0 {
        // The oldest items sit at the end of the buffer.
        var pos := capacity + idx - count;
        var k := pos;
        while k < capacity
          invariant pos <= k <= capacity
          invariant result == Contents[..k - pos]
        {
          assert Slot(k - pos) == k;
          var item := buffer[k];
          result := result + [item.value];
          k := k + 1;
        }
        k := 0;
        while k < idx
          invariant 0 <= k <= idx
          invariant result == Contents[..capacity - pos + k]
        {
          assert Slot(capacity - pos + k) == k;
          var item := buffer[k];
          result := result + [item.value];
          k := k + 1;
        }
      } else {
        // The items are one contiguous run ending just before the cursor.
        var pos := idx - count;
        var k := pos;
        while k < idx
          invariant pos <= k <= idx
          invariant result == Contents[..k - pos]
        {
          assert Slot(k - pos) == k;
          var item := buffer[k];
          result := result + [item.value];
          k := k + 1;
        }
      }
      assert result == Contents;
      count := 0;
      Contents := [];
    }
  }

  /** The buffer slot of the `i`-th oldest of `count` items written before
      the cursor `idx`, wrapped around the end of the buffer once. */
  function SlotAt(idx: int, count: int, capacity: int, i: int): int
  {
    var k := idx - count + i;
    if k < 0 then k + capacity else k
  }

  /** Where the `i`-th item is after one enqueue: below capacity every old
      item keeps its slot and the new one sits at the old cursor; at
      capacity every item but the oldest moves one position down and the
      new one takes the oldest's slot, which is the old cursor. No
      surviving item sits at the old cursor. */
  lemma EnqueueSlots(idx: nat, count: nat, capacity: nat, i: nat)
    requires idx < capacity && count <= capacity
    ensures var next := if idx + 1 == capacity then 0 else idx + 1;
      && (count < capacity ==> SlotAt(next, count + 1, capacity, count) == idx)
      && (count < capacity && i < count ==>
            && SlotAt(next, count + 1, capacity, i) == SlotAt(idx, count, capacity, i)
            && SlotAt(idx, count, capacity, i) != idx)
      && (count == capacity ==> SlotAt(next, count, capacity, count - 1) == idx)
      && (count == capacity && i + 1 < count ==>
            && SlotAt(next, count, capacity, i) == SlotAt(idx, count, capacity, i + 1)
            && SlotAt(idx, count, capacity, i + 1) != idx)
  {
  }

  /** Advancing the cursor modulo the capacity moves it one slot, back to 0
      from the last slot. */
  lemma NextIndex(i: nat, capacity: nat)
    requires i < capacity
    ensures (i + 1) % capacity == if i + 1 == capacity then 0 else i + 1
  {
    if i + 1 == capacity {
      assert (i + 1) % capacity == 0;
    }
  }

  // ---------------------------------------------------------------------
  // The unit tests of the queue, as clients of its contract

  /** Capacity 3, four items: the count saturates at 3 and `takeAll` gives
      the newest three in order, then the queue is empty. */
  method EnqueueOverCapacity() returns (n: nat, taken: seq<int>, after: nat)
    ensures n == 3 && taken == [675, 435, 214] && after == 0
  {
    var q := new RingQueue<int>(3);
    q.Enqueue(987);
    q.Enqueue(675);
    q.Enqueue(435);
    q.Enqueue(214);
    n := q.count;
    taken := q.TakeAll();
    after := q.count;
  }

  /** Successive dequeues after an overflow give 675, 435, 214, then none. */
  method DequeuesOldestWithinCapacity() returns (a: Option<int>, b: Option<int>, c: Option<int>, d: Option<int>)
    ensures a == Some(675) && b == Some(435) && c == Some(214) && d == None
  {
    var q := new RingQueue<int>(3);
    q.Enqueue(987);
    q.Enqueue(675);
    q.Enqueue(435);
    q.Enqueue(214);
    a := q.Dequeue();
    b := q.Dequeue();
    c := q.Dequeue();
    d := q.Dequeue();
  }

  /** After one dequeue from a once full queue, `takeAll` returns exactly
      the remaining items. */
  method TakeAllWithOnceFullQueue() returns (first: Option<int>, rest: seq<int>)
    ensures first == Some(675) && rest == [435, 214]
  {
    var q := new RingQueue<int>(3);
    q.Enqueue(987);
    q.Enqueue(675);
    q.Enqueue(435);
    q.Enqueue(214);
    first := q.Dequeue();
    rest := q.TakeAll();
  }

  /** Below capacity `takeAll` returns everything; `removeAll` empties the
      queue without moving the cursor, and the next items enqueued are all
      that `takeAll` then returns. */
  method TakeAllLessThanFullAndRemoveAll() returns (taken: seq<int>, cleared: nat, later: seq<int>)
    ensures taken == [987, 675] && cleared == 0 && later == [1]
  {
    var q := new RingQueue<int>(3);
    q.Enqueue(987);
    q.Enqueue(675);
    taken := q.TakeAll();
    q.Enqueue(435);
    q.Enqueue(214);
    q.RemoveAll();
    cleared := q.count;
    q.Enqueue(1);
    later := q.TakeAll();
  }
}
