/** The many-producers/one-consumer channel: one `WakerQueue` shared by a
    cloneable `Sender` and a unique `Receiver`, whose drop closes it. Object
    references stand for the shared (`Arc`) ownership. */
module Mpsc {
  import opened Prelude
  import opened ConcurrentQueues
  import opened WakerQueues

  class Sender<T> {
    const queue: WakerQueue<T>

    constructor (queue: WakerQueue<T>)
      ensures this.queue == queue
    {
      this.queue := queue;
    }

    /** A clone shares the queue; nothing in the queue changes. */
    method Clone() returns (s: Sender<T>)
      ensures fresh(s) && s.queue == queue
    {
      s := new Sender(queue);
    }
  }

  class Receiver<T> {
    const queue: WakerQueue<T>

    constructor (queue: WakerQueue<T>)
      ensures this.queue == queue
    {
      this.queue := queue;
    }

    /** Dropping the receiver closes the shared queue, exactly as `Close`
        does: the items stay and no one is woken. */
    method Drop()
      modifies queue
      ensures queue.queue.closed
      ensures queue.queue.items == old(queue.queue.items) && queue.queue.cap == old(queue.queue.cap)
      ensures queue.waker == old(queue.waker) && queue.woken == old(queue.woken)
      ensures old(queue.Valid()) ==> queue.Valid()
    {
      queue.Close();
    }
  }

  /** A channel over one fresh, empty, open queue of capacity `size`. */
  method Bounded<T>(size: nat) returns (s: Sender<T>, r: Receiver<T>)
    ensures fresh(s) && fresh(r) && fresh(s.queue) && s.queue == r.queue
    ensures s.queue.Valid() && s.queue.queue == ConcurrentQueue<T>.Bounded(size)
    ensures s.queue.waker == None && s.queue.woken == []
  {
    var q := new WakerQueue<T>.Bounded(size);
    s := new Sender(q);
    r := new Receiver(q);
  }

  /** A channel over one fresh, empty, open queue without a bound. */
  method Unbounded<T>() returns (s: Sender<T>, r: Receiver<T>)
    ensures fresh(s) && fresh(r) && fresh(s.queue) && s.queue == r.queue
    ensures s.queue.Valid() && s.queue.queue == ConcurrentQueue<T>.Unbounded()
    ensures s.queue.waker == None && s.queue.woken == []
  {
    var q := new WakerQueue<T>.Unbounded();
    s := new Sender(q);
    r := new Receiver(q);
  }

  /** Once the receiver is dropped, a push through any sender of the same
      channel, however the queue was used before, is refused as `Closed`
      with its own value, and leaves the queue's items as they were. */
  method SendAfterDrop<T>(s: Sender<T>, r: Receiver<T>, v: T) returns (res: Result<(), PushError<T>>)
    requires s.queue == r.queue
    modifies s.queue
    ensures res == Err(PushError.Closed(v))
    ensures s.queue.queue.closed && s.queue.queue.items == old(s.queue.queue.items)
  {
    r.Drop();
    res := s.queue.TryPush(v);
  }

  /** What a sender pushes into a fresh unbounded channel, the receiver pops. */
  method SendThenReceive<T>(v: T) returns (sent: Result<(), PushError<T>>, received: Result<T, PopError>)
    ensures sent == Ok(()) && received == Ok(v)
  {
    var s, r := Unbounded<T>();
    sent := s.queue.TryPush(v);
    received := r.queue.TryPop();
  }

  /** Three senders (the original and two clones) each push into a fresh
      unbounded channel; the receiver pops the three values in push order,
      then `Empty`. After the receiver is dropped, each sender's next push
      is refused as `Closed`. */
  method ClonedSendersShareOneQueue<T>(a: T, b: T, c: T)
    returns (received: seq<Result<T, PopError>>, after: seq<Result<(), PushError<T>>>)
    ensures received == [Ok(a), Ok(b), Ok(c), Err(Empty)]
    ensures after == [Err(PushError.Closed(a)), Err(PushError.Closed(b)), Err(PushError.Closed(c))]
  {
    var s1, r := Unbounded<T>();
    var s2 := s1.Clone();
    var s3 := s2.Clone();
    var _ := s1.queue.TryPush(a);
    var _ := s2.queue.TryPush(b);
    var _ := s3.queue.TryPush(c);
    var x1 := r.queue.TryPop();
    var x2 := r.queue.TryPop();
    var x3 := r.queue.TryPop();
    var x4 := r.queue.TryPop();
    received := [x1, x2, x3, x4];
    r.Drop();
    var y1 := s1.queue.TryPush(a);
    var y2 := s2.queue.TryPush(b);
    var y3 := s3.queue.TryPush(c);
    after := [y1, y2, y3];
  }
}
