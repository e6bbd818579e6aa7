/** The store every collector saves into, and the iterator the reporter
    drains it with. */
module Storage {
  import opened Common
  import opened Datasource
  import opened RingQueues

  /** `Config().queueSize`. */
  const DefaultQueueSize: nat := 2048

  class TrapStorage {
    /** The one queue shared by the store and every iterator it makes. */
    const queue: RingQueue<Event>

    ghost predicate Valid()
      reads this, queue, queue.buffer
    {
      queue.Valid()
    }

    /** `init(withConfig:)`: an empty queue of `config.queueSize` slots. */
    constructor (queueSize: nat)
      ensures Valid() && fresh(queue) && fresh(queue.buffer)
      ensures queue.capacity == queueSize && queue.Contents == []
    {
      queue := new RingQueue<Event>(queueSize);
    }

    /** `save(sequence:data:)`: enqueues the pair and nothing else. */
    method Save(sequence: int, data: DataType)
      requires Valid() && 0 < queue.capacity
      modifies queue, queue.buffer
      ensures Valid()
      ensures queue.Contents == Enqueued(old(queue.Contents), queue.capacity, (sequence, data))
    {
      queue.Enqueue((sequence, data));
    }

    /** `makeIterator`: a new iterator over the same queue. */
    method MakeIterator() returns (it: TrapDatasourceIterator)
      ensures fresh(it) && it.storage == queue
    {
      it := new TrapDatasourceIterator(queue);
    }
  }

  class TrapDatasourceIterator {
    const storage: RingQueue<Event>

    constructor (storage: RingQueue<Event>)
      ensures this.storage == storage
    {
      this.storage := storage;
    }

    /** `next`: removes and returns the oldest pair, `None` when empty. */
    method Next() returns (e: Option<Event>)
      requires storage.Valid()
      modifies storage
      ensures storage.Valid()
      ensures old(storage.Contents) == [] ==> e == None && storage.Contents == []
      ensures old(storage.Contents) != [] ==>
        e == Some(old(storage.Contents)[0]) && storage.Contents == old(storage.Contents)[1..]
    {
      e := storage.Dequeue();
    }
  }

  /** Iterating an iterator to its end, as `for ... in` and `sorted` do:
      `next` until it returns `None`. The result is the queue's contents
      oldest first, and the queue is left empty. */
  method DrainAll(it: TrapDatasourceIterator) returns (events: seq<Event>)
    requires it.storage.Valid()
    modifies it.storage
    ensures it.storage.Valid()
    ensures events == old(it.storage.Contents) && it.storage.Contents == []
  {
    events := [];
    while true
      invariant it.storage.Valid()
      invariant events + it.storage.Contents == old(it.storage.Contents)
      decreases |it.storage.Contents|
    {
      ghost var before := it.storage.Contents;
      var e := it.Next();
      if e.None? {
        assert events + [] == events;
        return;
      }
      events := events + [e.value];
      assert events + it.storage.Contents == old(it.storage.Contents) by {
        assert before == [e.value] + it.storage.Contents;
      }
    }
  }

  /** The unit test of the store: `save(1, .int(1))`, then the iterator's
      `next` gives that pair back. */
  method StoreRetrieve() returns (e: Option<Event>)
    ensures e == Some((1, Int(1)))
  {
    var storage := new TrapStorage(DefaultQueueSize);
    storage.Save(1, Int(1));
    var it := storage.MakeIterator();
    e := it.Next();
  }

  /** Every iterator reads the one shared queue: after one iterator is run
      to its end, a second one, made before or after, finds nothing. */
  method IteratorsShareTheQueue(saved: seq<Event>) returns (drained: seq<Event>, other: Option<Event>, later: Option<Event>)
    requires 0 < |saved| <= DefaultQueueSize
    ensures drained == saved && other == None && later == None
  {
    var storage := new TrapStorage(DefaultQueueSize);
    var i := 0;
    while i < |saved|
      invariant 0 <= i <= |saved|
      invariant storage.Valid() && fresh(storage.queue) && fresh(storage.queue.buffer)
      invariant storage.queue.capacity == DefaultQueueSize
      invariant storage.queue.Contents == saved[..i]
    {
      storage.Save(saved[i].0, saved[i].1);
      assert saved[..i + 1] == saved[..i] + [saved[i]];
      i := i + 1;
    }
    assert saved[..i] == saved;
    var first := storage.MakeIterator();
    var second := storage.MakeIterator();
    drained := DrainAll(first);
    other := second.Next();
    var third := storage.MakeIterator();
    later := third.Next();
  }
}
