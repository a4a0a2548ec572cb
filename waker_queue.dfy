/** `WakerQueue`: the container plus a single waker slot, and the policy of
    when a push or a pop wakes the task registered in that slot; with the
    `Push` and `Pop` futures that suspend on a full or an empty queue. */
module WakerQueues {
  import opened Prelude
  import opened ConcurrentQueues

  /** The tasks a wake of `slot` reaches: the registered one, if any. */
  function Delivered(slot: Option<WakerId>): (ws: seq<WakerId>)
  {
    if slot.Some? then [slot.value] else []
  }

  class WakerQueue<T> {
    var queue: ConcurrentQueue<T>
    /** The single waker slot (`AtomicWaker`). */
    var waker: Option<WakerId>
    /** Every task woken through this queue, in order: the scheduler's side
        of `wake`, kept so that the model can say who was woken. */
    var woken: seq<WakerId>

    /** The capacity invariant of the container. */
    ghost predicate Valid()
      reads this
    {
      queue.Valid()
    }

    constructor Bounded(size: nat)
      ensures Valid() && queue == ConcurrentQueue<T>.Bounded(size)
      ensures waker == None && woken == []
    {
      queue := ConcurrentQueue<T>.Bounded(size);
      waker := None;
      woken := [];
    }

    constructor Unbounded()
      ensures Valid() && queue == ConcurrentQueue<T>.Unbounded()
      ensures waker == None && woken == []
    {
      queue := ConcurrentQueue<T>.Unbounded();
      waker := None;
      woken := [];
    }

    function IsEmpty(): (r: bool)
      reads this
      ensures r <==> queue.items == []
    {
      queue.IsEmpty()
    }

    function IsFull(): (r: bool)
      reads this
      ensures r <==> queue.cap.Some? && |queue.items| >= queue.cap.value
      ensures r ==> queue.cap.Some?
    {
      queue.IsFull()
    }

    function Len(): (r: nat)
      reads this
      ensures r == |queue.items|
    {
      |queue.items|
    }

    function Capacity(): (r: Option<nat>)
      reads this
      ensures r == queue.cap
    {
      queue.cap
    }

    function IsClosed(): (r: bool)
      reads this
      ensures r == queue.closed
    {
      queue.closed
    }

    /** Closes the container and nothing else: the waker slot is neither
        woken nor cleared. Closing twice is the same as closing once. */
    method Close()
      modifies this
      ensures queue.closed && queue.items == old(queue.items) && queue.cap == old(queue.cap)
      ensures old(queue.closed) ==> queue == old(queue)
      ensures waker == old(waker) && woken == old(woken)
      ensures old(Valid()) ==> Valid()
    {
      queue := queue.Close();
    }

    /** `Close` followed by `Wake`: what closing must do so that a task
        suspended on this queue learns that it was closed. */
    method CloseWake()
      modifies this
      ensures queue.closed && queue.items == old(queue.items) && queue.cap == old(queue.cap)
      ensures waker == None && woken == old(woken) + Delivered(old(waker))
      ensures old(Valid()) ==> Valid()
    {
      Close();
      Wake();
    }

    /** The container's push, without any wake. */
    method TryPush(value: T) returns (r: Result<(), PushError<T>>)
      modifies this
      ensures (queue, r) == old(queue).Push(value)
      ensures old(queue.closed) ==> r == Err(PushError.Closed(value))
      ensures waker == old(waker) && woken == old(woken)
      ensures old(Valid()) ==> Valid()
    {
      var (q, res) := queue.Push(value);
      queue, r := q, res;
    }

    /** Pushes exactly as `TryPush` does, then wakes the slot if and only if
        the push succeeded and `wake` holds. */
    method TryPushWake(value: T, wake: bool) returns (r: Result<(), PushError<T>>)
      modifies this
      ensures (queue, r) == old(queue).Push(value)
      ensures r.Ok? && wake ==> waker == None && woken == old(woken) + Delivered(old(waker))
      ensures !(r.Ok? && wake) ==> waker == old(waker) && woken == old(woken)
      ensures old(Valid()) ==> Valid()
    {
      r := TryPush(value);
      WakeIf(r.Ok? && wake);
    }

    /** Wakes only when the push succeeded into a queue that was empty just
        before it. */
    method TryPushWakeEmpty(value: T) returns (r: Result<(), PushError<T>>)
      modifies this
      ensures (queue, r) == old(queue).Push(value)
      ensures r.Ok? && old(queue.items) == [] ==> waker == None && woken == old(woken) + Delivered(old(waker))
      ensures !(r.Ok? && old(queue.items) == []) ==> waker == old(waker) && woken == old(woken)
      ensures old(Valid()) ==> Valid()
    {
      var empty := IsEmpty();
      r := TryPushWake(value, empty);
    }

    /** Asks to wake when the queue was full before the push; but, one call
        at a time, a full queue refuses the push, so this never wakes anyone.
        (Concurrently, a pop landing between the read and the push could
        let it succeed and wake.) */
    method TryPushWakeFull(value: T) returns (r: Result<(), PushError<T>>)
      modifies this
      ensures (queue, r) == old(queue).Push(value)
      ensures waker == old(waker) && woken == old(woken)
      ensures old(Valid()) ==> Valid()
    {
      var full := IsFull();
      r := TryPushWake(value, full);
    }

    /** The container's pop, without any wake. */
    method TryPop() returns (r: Result<T, PopError>)
      modifies this
      ensures (queue, r) == old(queue).Pop()
      ensures waker == old(waker) && woken == old(woken)
      ensures old(Valid()) ==> Valid()
    {
      var (q, res) := queue.Pop();
      queue, r := q, res;
    }

    /** Pops exactly as `TryPop` does, then wakes the slot if and only if the
        pop succeeded and `wake` holds. */
    method TryPopWake(wake: bool) returns (r: Result<T, PopError>)
      modifies this
      ensures (queue, r) == old(queue).Pop()
      ensures r.Ok? && wake ==> waker == None && woken == old(woken) + Delivered(old(waker))
      ensures !(r.Ok? && wake) ==> waker == old(waker) && woken == old(woken)
      ensures old(Valid()) ==> Valid()
    {
      r := TryPop();
      WakeIf(r.Ok? && wake);
    }

    /** Asks to wake when the queue was empty before the pop; but, one call
        at a time, an empty queue has nothing to pop, so this never wakes
        anyone. (Concurrently, a push landing between the read and the pop
        could let it succeed and wake.) */
    method TryPopWakeEmpty() returns (r: Result<T, PopError>)
      modifies this
      ensures (queue, r) == old(queue).Pop()
      ensures waker == old(waker) && woken == old(woken)
      ensures old(Valid()) ==> Valid()
    {
      var empty := IsEmpty();
      r := TryPopWake(empty);
    }

    /** Wakes only when the pop succeeded from a queue that was full just
        before it. */
    method TryPopWakeFull() returns (r: Result<T, PopError>)
      modifies this
      ensures (queue, r) == old(queue).Pop()
      ensures r.Ok? && old(IsFull()) ==> waker == None && woken == old(woken) + Delivered(old(waker))
      ensures !(r.Ok? && old(IsFull())) ==> waker == old(waker) && woken == old(woken)
      ensures old(Valid()) ==> Valid()
    {
      var full := IsFull();
      r := TryPopWake(full);
    }

    /** A future that will push `value` into this queue. */
    method Push(value: T) returns (f: PushFuture<T>)
      ensures fresh(f) && f.queue == this && f.value == Some(value)
    {
      f := new PushFuture(this, value);
    }

    /** A future that will pop from this queue. */
    method Pop() returns (f: PopFuture<T>)
      ensures fresh(f) && f.queue == this
    {
      f := new PopFuture(this);
    }

    /** Last writer wins: the slot holds `w` and nothing else changes. */
    method Register(w: WakerId)
      modifies this
      ensures waker == Some(w)
      ensures queue == old(queue) && woken == old(woken)
      ensures old(Valid()) ==> Valid()
    {
      waker := Some(w);
    }

    /** Wakes the registered task, if any, and empties the slot. */
    method Wake()
      modifies this
      ensures waker == None && woken == old(woken) + Delivered(old(waker))
      ensures queue == old(queue)
      ensures old(Valid()) ==> Valid()
    {
      if waker.Some? {
        woken := woken + [waker.value];
      }
      waker := None;
    }

    method WakeIf(wake: bool)
      modifies this
      ensures wake ==> waker == None && woken == old(woken) + Delivered(old(waker))
      ensures !wake ==> waker == old(waker) && woken == old(woken)
      ensures queue == old(queue)
      ensures old(Valid()) ==> Valid()
    {
      if wake {
        Wake();
      }
    }
  }

  /** The items a value is made of, for stating that a value is neither lost
      nor duplicated. */
  ghost function HeldBy<T>(value: Option<T>): (m: multiset<T>)
  {
    if value.Some? then multiset{value.value} else multiset{}
  }

  ghost function ReturnedBy<T>(p: Poll<Result<(), PushError<T>>>): (m: multiset<T>)
  {
    if p.Ready? && p.result.Err? then multiset{p.result.error.value} else multiset{}
  }

  /** The `Push` future: owns the value until the push resolves. */
  class PushFuture<T> {
    const queue: WakerQueue<T>
    var value: Option<T>

    constructor (queue: WakerQueue<T>, value: T)
      ensures this.queue == queue && this.value == Some(value)
    {
      this.queue := queue;
      this.value := Some(value);
    }

    /** One poll: take the value and try to push it. Ok resolves; Closed
        resolves with the value handed back; Full registers `cx`, puts the
        value back and stays pending. The queue's wake log never changes, and
        the value ends up in exactly one place. Polling after completion
        (no value held) is a caller error. */
    method Poll(cx: WakerId) returns (p: Poll<Result<(), PushError<T>>>)
      requires value.Some?
      modifies this, queue
      ensures var (q, r) := old(queue.queue).Push(old(value.value));
              queue.queue == q &&
              (r.Ok? ==> p == Ready(Ok(())) && value == None) &&
              (r.Err? && r.error.Closed? ==> p == Ready(r) && value == None) &&
              (r.Err? && r.error.Full? ==> p == Pending && value == old(value))
      ensures p.Pending? ==> queue.waker == Some(cx)
      ensures p.Ready? ==> queue.waker == old(queue.waker)
      ensures queue.woken == old(queue.woken)
      ensures multiset(queue.queue.items) + HeldBy(value) + ReturnedBy(p)
           == multiset(old(queue.queue.items)) + HeldBy(old(value))
      ensures old(queue.Valid()) ==> queue.Valid()
    {
      var v := value.value;
      value := None;
      var r := queue.TryPush(v);
      if r.Ok? {
        p := Ready(Ok(()));
      } else if r.error.Closed? {
        p := Ready(Err(PushError.Closed(r.error.value)));
      } else {
        queue.Register(cx);
        value := Some(r.error.value);
        p := Pending;
      }
    }

    /** `Poll` with the push that wakes a consumer waiting on an empty
        queue (`TryPushWakeEmpty` in place of `TryPush`); otherwise the same. */
    method PollWake(cx: WakerId) returns (p: Poll<Result<(), PushError<T>>>)
      requires value.Some?
      modifies this, queue
      ensures var (q, r) := old(queue.queue).Push(old(value.value));
              queue.queue == q &&
              (r.Ok? ==> p == Ready(Ok(())) && value == None) &&
              (r.Err? && r.error.Closed? ==> p == Ready(r) && value == None) &&
              (r.Err? && r.error.Full? ==> p == Pending && value == old(value))
      ensures p.Pending? ==> queue.waker == Some(cx) && queue.woken == old(queue.woken)
      ensures p.Ready? && p.result.Ok? && old(queue.queue.items) == [] ==>
                queue.waker == None && queue.woken == old(queue.woken) + Delivered(old(queue.waker))
      ensures p.Ready? && !(p.result.Ok? && old(queue.queue.items) == []) ==>
                queue.waker == old(queue.waker) && queue.woken == old(queue.woken)
      ensures multiset(queue.queue.items) + HeldBy(value) + ReturnedBy(p)
           == multiset(old(queue.queue.items)) + HeldBy(old(value))
      ensures old(queue.Valid()) ==> queue.Valid()
    {
      var v := value.value;
      value := None;
      var r := queue.TryPushWakeEmpty(v);
      if r.Ok? {
        p := Ready(Ok(()));
      } else if r.error.Closed? {
        p := Ready(Err(PushError.Closed(r.error.value)));
      } else {
        queue.Register(cx);
        value := Some(r.error.value);
        p := Pending;
      }
    }
  }

  /** The `Pop` future: holds no value between polls. */
  class PopFuture<T> {
    const queue: WakerQueue<T>

    constructor (queue: WakerQueue<T>)
      ensures this.queue == queue
    {
      this.queue := queue;
    }

    /** One poll: register `cx` first, then try to pop. A value or Closed
        resolves; Empty stays pending. Whatever the outcome the slot holds
        `cx` afterwards, and nothing is woken. */
    method Poll(cx: WakerId) returns (p: Poll<Result<T, PopError>>)
      modifies queue
      ensures var (q, r) := old(queue.queue).Pop();
              queue.queue == q &&
              p == (if r == Err(Empty) then Pending else Ready(r))
      ensures p.Pending? <==> old(queue.queue.items) == [] && !old(queue.queue.closed)
      ensures queue.waker == Some(cx) && queue.woken == old(queue.woken)
      ensures old(queue.Valid()) ==> queue.Valid()
    {
      queue.Register(cx);
      var r := queue.TryPop();
      if r.Ok? {
        p := Ready(Ok(r.value));
      } else if r.error.Closed? {
        p := Ready(Err(PopError.Closed));
      } else {
        p := Pending;
      }
    }

    /** `Poll` with the pop that wakes a producer waiting on a full queue
        (`TryPopWakeFull` in place of `TryPop`). Registering first would
        overwrite that producer's waker in the single slot before the pop
        could wake it, so this pops first and, only on `Empty`, registers
        `cx` and checks again before answering `Pending`: the registration
        still precedes the check that reports not ready. */
    method PollWake(cx: WakerId) returns (p: Poll<Result<T, PopError>>)
      modifies queue
      ensures var (q, r) := old(queue.queue).Pop();
              queue.queue == q &&
              p == (if r == Err(Empty) then Pending else Ready(r))
      ensures p.Pending? <==> old(queue.queue.items) == [] && !old(queue.queue.closed)
      ensures p.Pending? ==> queue.waker == Some(cx) && queue.woken == old(queue.woken)
      ensures p.Ready? && p.result.Ok? && old(queue.IsFull()) ==>
                queue.waker == None && queue.woken == old(queue.woken) + Delivered(old(queue.waker))
      ensures p.Ready? && !(p.result.Ok? && old(queue.IsFull())) ==>
                queue.waker == old(queue.waker) && queue.woken == old(queue.woken)
      ensures old(queue.Valid()) ==> queue.Valid()
    {
      var r := queue.TryPopWakeFull();
      if r == Err(Empty) {
        queue.Register(cx);
        r := queue.TryPopWakeFull();
      }
      if r.Ok? {
        p := Ready(Ok(r.value));
      } else if r.error.Closed? {
        p := Ready(Err(PopError.Closed));
      } else {
        p := Pending;
      }
    }
  }

  /** No lost wakeup: a `Pop` poll that stays pending leaves its own waker in
      the slot, so the next successful `TryPushWakeEmpty` wakes exactly that
      task. The push can fail there only on a queue of capacity 0. */
  method PendingPopThenPushWakeEmpty<T>(f: PopFuture<T>, cx: WakerId, v: T)
    returns (p: Poll<Result<T, PopError>>, r: Result<(), PushError<T>>)
    modifies f.queue
    ensures p.Pending? ==> (r.Ok? <==> old(f.queue.queue.cap) != Some(0))
    ensures p.Pending? && r.Ok? ==> f.queue.woken == old(f.queue.woken) + [cx] && f.queue.queue.items == [v]
  {
    p := f.Poll(cx);
    r := f.queue.TryPushWakeEmpty(v);
  }

  /** As written, `Close` wakes nobody: a consumer pending on an empty queue
      stays registered and unwoken, although its next poll would resolve
      with `Closed`. */
  method CloseLeavesPendingPopAsleep<T>(cx: WakerId)
    returns (first: Poll<Result<T, PopError>>, woken: seq<WakerId>, slot: Option<WakerId>,
             second: Poll<Result<T, PopError>>)
    ensures first == Pending && woken == [] && slot == Some(cx)
    ensures second == Ready(Err(PopError.Closed))
  {
    var q := new WakerQueue<T>.Unbounded();
    var f := q.Pop();
    first := f.Poll(cx);
    q.Close();
    woken, slot := q.woken, q.waker;
    second := f.Poll(cx);
  }

  /** With `CloseWake`, the task pending on the empty queue is woken by the close. */
  method CloseWakeWakesPendingPop<T>(cx: WakerId)
    returns (first: Poll<Result<T, PopError>>, woken: seq<WakerId>)
    ensures first == Pending && woken == [cx]
  {
    var q := new WakerQueue<T>.Unbounded();
    var f := q.Pop();
    first := f.Poll(cx);
    q.CloseWake();
    woken := q.woken;
  }

  /** As written, a `Push` future never wakes: a consumer pending on the empty
      queue is not woken when a producer's push completes, although the item
      is there for its next poll. */
  method PushLeavesPendingPopAsleep<T>(consumer: WakerId, producer: WakerId, v: T)
    returns (first: Poll<Result<T, PopError>>, pushed: Poll<Result<(), PushError<T>>>,
             woken: seq<WakerId>, second: Poll<Result<T, PopError>>)
    ensures first == Pending && pushed == Ready(Ok(())) && woken == []
    ensures second == Ready(Ok(v))
  {
    var q := new WakerQueue<T>.Unbounded();
    var pop := q.Pop();
    first := pop.Poll(consumer);
    var push := q.Push(v);
    pushed := push.Poll(producer);
    woken := q.woken;
    second := pop.Poll(consumer);
  }

  /** With `PollWake`, the completed push wakes the pending consumer. */
  method PollWakeWakesPendingPop<T>(consumer: WakerId, producer: WakerId, v: T)
    returns (first: Poll<Result<T, PopError>>, pushed: Poll<Result<(), PushError<T>>>,
             woken: seq<WakerId>)
    ensures first == Pending && pushed == Ready(Ok(())) && woken == [consumer]
  {
    var q := new WakerQueue<T>.Unbounded();
    var pop := q.Pop();
    first := pop.Poll(consumer);
    var push := q.Push(v);
    pushed := push.PollWake(producer);
    woken := q.woken;
  }

  /** A queue of capacity 1: push `a` succeeds, a `Push` future for `b`
      suspends on Full holding `b`, a pop returns `a`, and re-polling the
      suspended push then completes it, so the queue holds exactly `b`.
      Nothing in this sequence wakes the suspended producer: it completes
      only because it is polled again. */
  method BoundedOneHandoff<T>(a: T, b: T, producer: WakerId, consumer: WakerId)
    returns (first: Result<(), PushError<T>>, suspended: Poll<Result<(), PushError<T>>>,
             popped: Poll<Result<T, PopError>>, resumed: Poll<Result<(), PushError<T>>>,
             items: seq<T>, woken: seq<WakerId>)
    ensures first == Ok(()) && suspended == Pending && popped == Ready(Ok(a))
    ensures resumed == Ready(Ok(())) && items == [b] && woken == []
  {
    var q := new WakerQueue<T>.Bounded(1);
    first := q.TryPush(a);
    var push := q.Push(b);
    suspended := push.Poll(producer);
    var pop := q.Pop();
    popped := pop.Poll(consumer);
    resumed := push.Poll(producer);
    items, woken := q.queue.items, q.woken;
  }

  /** A push suspended on a full, open queue of capacity at least 1
      completes once a pop makes room: the pop returns the front item, and
      re-polling the push appends its value. As written, nothing in this
      wakes the suspended producer; it completes because it is polled again. */
  method PopMakesRoomForSuspendedPush<T>(push: PushFuture<T>, pop: PopFuture<T>, producer: WakerId, consumer: WakerId)
    returns (suspended: Poll<Result<(), PushError<T>>>, popped: Poll<Result<T, PopError>>,
             resumed: Poll<Result<(), PushError<T>>>)
    requires push.queue == pop.queue && push.value.Some? && push.queue.Valid()
    requires push.queue.IsFull() && !push.queue.IsClosed() && push.queue.Capacity() != Some(0)
    modifies push, push.queue
    ensures suspended == Pending && resumed == Ready(Ok(()))
    ensures popped == Ready(Ok(old(push.queue.queue.items)[0]))
    ensures push.queue.queue.items == old(push.queue.queue.items)[1..] + [old(push.value.value)]
    ensures push.value == None && push.queue.woken == old(push.queue.woken)
  {
    suspended := push.Poll(producer);
    popped := pop.Poll(consumer);
    resumed := push.Poll(producer);
  }

  /** With `PopFuture.PollWake`, in the capacity-1 handoff the pop of `a`
      wakes the producer suspended on the full queue. */
  method PollWakeWakesPendingPush<T>(a: T, b: T, producer: WakerId, consumer: WakerId)
    returns (suspended: Poll<Result<(), PushError<T>>>, popped: Poll<Result<T, PopError>>,
             woken: seq<WakerId>)
    ensures suspended == Pending && popped == Ready(Ok(a)) && woken == [producer]
  {
    var q := new WakerQueue<T>.Bounded(1);
    var _ := q.TryPush(a);
    var push := q.Push(b);
    suspended := push.Poll(producer);
    var pop := q.Pop();
    popped := pop.PollWake(consumer);
    woken := q.woken;
  }
}
