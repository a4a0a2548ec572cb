/** The lock-free FIFO container the channel is built on (the external
    `concurrent_queue::ConcurrentQueue`), seen from one thread at a time:
    the items in order, an optional capacity and a one-way closed flag. */
module ConcurrentQueues {
  import opened Prelude

  /** Why a push failed; either way the value comes back to the caller. */
  datatype PushError<T> = Full(value: T) | Closed(value: T)

  /** Why a pop failed. */
  datatype PopError = Empty | Closed

  datatype ConcurrentQueue<T> = ConcurrentQueue(items: seq<T>, cap: Option<nat>, closed: bool)
  {
    /** A bounded queue never holds more items than its capacity. */
    ghost predicate Valid() {
      cap.Some? ==> |items| <= cap.value
    }

    static function Bounded(size: nat): (q: ConcurrentQueue<T>)
      ensures q.Valid() && q.items == [] && q.cap == Some(size) && !q.closed
    {
      ConcurrentQueue([], Some(size), false)
    }

    static function Unbounded(): (q: ConcurrentQueue<T>)
      ensures q.Valid() && q.items == [] && q.cap == None && !q.closed
    {
      ConcurrentQueue([], None, false)
    }

    predicate IsEmpty() {
      |items| == 0
    }

    /** An unbounded queue is never full. */
    predicate IsFull() {
      cap.Some? && |items| >= cap.value
    }

    /** Closing is one-way and touches nothing but the flag. */
    function Close(): (r: ConcurrentQueue<T>)
      ensures r.closed && r.items == items && r.cap == cap
      ensures closed ==> r == this
    {
      this.(closed := true)
    }

    /** Appends `v` unless the queue is closed (checked first) or full; a
        rejected value is handed back unchanged and the queue is untouched. */
    function Push(v: T): (r: (ConcurrentQueue<T>, Result<(), PushError<T>>))
      ensures r.1.Ok? <==> !closed && !IsFull()
      ensures r.1.Ok? ==> r.0.items == items + [v] && r.0.cap == cap && r.0.closed == closed
      ensures r.1.Err? ==> r.0 == this && r.1.error.value == v
      ensures r.1.Err? ==> (r.1.error.Closed? <==> closed)
      ensures Valid() ==> r.0.Valid()
    {
      if closed then (this, Err(PushError.Closed(v)))
      else if IsFull() then (this, Err(Full(v)))
      else (this.(items := items + [v]), Ok(()))
    }

    /** Takes the front item whenever there is one, closed or not; an empty
        queue answers `Closed` once closed and `Empty` before. */
    function Pop(): (r: (ConcurrentQueue<T>, Result<T, PopError>))
      ensures r.1.Ok? <==> items != []
      ensures r.1.Ok? ==> [r.1.value] + r.0.items == items && r.0.cap == cap && r.0.closed == closed
      ensures r.1.Err? ==> r.0 == this && (r.1.error == PopError.Closed <==> closed)
      ensures Valid() ==> r.0.Valid()
    {
      if items != [] then (this.(items := items[1..]), Ok(items[0]))
      else if closed then (this, Err(PopError.Closed))
      else (this, Err(Empty))
    }
  }

  /** One call on the container, for reasoning about sequences of calls. */
  datatype Op<T> = PushOp(v: T) | PopOp | CloseOp

  /** The queue after a run of calls, the values it accepted and the values
      it gave out, each in call order. */
  datatype Trace<T> = Trace(last: ConcurrentQueue<T>, accepted: seq<T>, popped: seq<T>)

  function Step<T>(q: ConcurrentQueue<T>, op: Op<T>): (t: Trace<T>)
  {
    match op
    case PushOp(v) =>
      var (q', r) := q.Push(v);
      Trace(q', if r.Ok? then [v] else [], [])
    case PopOp =>
      var (q', r) := q.Pop();
      Trace(q', [], if r.Ok? then [r.value] else [])
    case CloseOp => Trace(q.Close(), [], [])
  }

  function Run<T>(q: ConcurrentQueue<T>, ops: seq<Op<T>>): (t: Trace<T>)
    decreases |ops|
  {
    if ops == [] then Trace(q, [], [])
    else
      var s := Step(q, ops[0]);
      var t := Run(s.last, ops[1..]);
      Trace(t.last, s.accepted + t.accepted, s.popped + t.popped)
  }

  function PushOps<T>(xs: seq<T>): (ops: seq<Op<T>>)
    ensures |ops| == |xs|
  {
    if xs == [] then [] else [PushOp(xs[0])] + PushOps(xs[1..])
  }

  function PopOps<T>(n: nat): (ops: seq<Op<T>>)
  {
    if n == 0 then [] else [PopOp] + PopOps(n - 1)
  }

  /** One call keeps the FIFO balance: what it gives out followed by what is
      left equals what was there followed by what it accepted. */
  lemma StepIsFifo<T>(q: ConcurrentQueue<T>, op: Op<T>)
    ensures Step(q, op).popped + Step(q, op).last.items == q.items + Step(q, op).accepted
  {
    match op
    case PushOp(v) =>
    case PopOp =>
      var r := q.Pop();
      if r.1.Ok? {
        assert [r.1.value] + r.0.items == q.items;
      }
    case CloseOp =>
  }

  /** FIFO with nothing lost or duplicated: over any run of pushes, pops and
      closes, what was popped followed by what is left is exactly what was
      there followed by what was accepted. */
  lemma {:induction false} RunIsFifo<T>(q: ConcurrentQueue<T>, ops: seq<Op<T>>)
    ensures Run(q, ops).popped + Run(q, ops).last.items == q.items + Run(q, ops).accepted
    decreases |ops|
  {
    if ops != [] {
      var s := Step(q, ops[0]);
      StepIsFifo(q, ops[0]);
      RunIsFifo(s.last, ops[1..]);
      var t := Run(s.last, ops[1..]);
      BalanceComposes(s.popped, t.popped, t.last.items, s.last.items, q.items, s.accepted, t.accepted);
    }
  }

  /** Two balances chained through the intermediate contents `mid`. */
  lemma BalanceComposes<T>(p1: seq<T>, p2: seq<T>, rest: seq<T>, mid: seq<T>, start: seq<T>, a1: seq<T>, a2: seq<T>)
    requires p1 + mid == start + a1 && p2 + rest == mid + a2
    ensures (p1 + p2) + rest == start + (a1 + a2)
  {
    calc {
      (p1 + p2) + rest;
      p1 + (p2 + rest);
      p1 + (mid + a2);
      (p1 + mid) + a2;
      (start + a1) + a2;
    }
  }

  /** The capacity invariant holds across any run, and the capacity never changes. */
  lemma {:induction false} RunKeepsValid<T>(q: ConcurrentQueue<T>, ops: seq<Op<T>>)
    requires q.Valid()
    ensures Run(q, ops).last.Valid() && Run(q, ops).last.cap == q.cap
    decreases |ops|
  {
    if ops != [] {
      RunKeepsValid(Step(q, ops[0]).last, ops[1..]);
    }
  }

  /** Closed is terminal: once closed, the queue stays closed and accepts
      nothing more, whatever is called. */
  lemma {:induction false} ClosedIsTerminal<T>(q: ConcurrentQueue<T>, ops: seq<Op<T>>)
    requires q.closed
    ensures Run(q, ops).last.closed && Run(q, ops).accepted == []
    decreases |ops|
  {
    if ops != [] {
      ClosedIsTerminal(Step(q, ops[0]).last, ops[1..]);
    }
  }

  /** Pushing into an open queue with room for all of `xs` accepts every one
      of them, in order. */
  lemma {:induction false} PushAllAccepted<T>(q: ConcurrentQueue<T>, xs: seq<T>)
    requires !q.closed && (q.cap.Some? ==> |q.items| + |xs| <= q.cap.value)
    ensures Run(q, PushOps(xs)) == Trace(q.(items := q.items + xs), xs, [])
    decreases |xs|
  {
    if xs != [] {
      var ops := PushOps(xs);
      assert ops[0] == PushOp(xs[0]) && ops[1..] == PushOps(xs[1..]);
      var q1 := q.(items := q.items + [xs[0]]);
      StepPushAccepted(q, xs[0]);
      var s := Step(q, ops[0]);
      assert s == Trace(q1, [xs[0]], []);
      PushAllAccepted(q1, xs[1..]);
      var t := Run(s.last, ops[1..]);
      assert t == Trace(q1.(items := q1.items + xs[1..]), xs[1..], []);
      assert Run(q, ops) == Trace(t.last, s.accepted + t.accepted, s.popped + t.popped);
      assert q1.items + xs[1..] == q.items + xs;
      assert [xs[0]] + xs[1..] == xs;
    }
  }

  /** A push into an open queue with room is accepted and appended. */
  lemma StepPushAccepted<T>(q: ConcurrentQueue<T>, v: T)
    requires !q.closed && !q.IsFull()
    ensures Step(q, PushOp(v)) == Trace(q.(items := q.items + [v]), [v], [])
  {
  }

  /** A bounded queue of capacity `n` takes exactly `n` pushes: afterwards it
      is full and the next push is refused with its own value. */
  lemma FillToCapacity<T>(n: nat, xs: seq<T>, v: T)
    requires |xs| == n
    ensures var t := Run(ConcurrentQueue<T>.Bounded(n), PushOps(xs));
            t.accepted == xs && t.last.items == xs && t.last.IsFull() &&
            t.last.Push(v) == (t.last, Err(Full(v)))
  {
    PushAllAccepted(ConcurrentQueue<T>.Bounded(n), xs);
  }

  /** `n` pops on a queue holding at least `n` items give out its first `n`
      items in order. */
  lemma {:induction false} PopAllGiven<T>(q: ConcurrentQueue<T>, n: nat)
    requires n <= |q.items|
    ensures Run(q, PopOps(n)) == Trace(q.(items := q.items[n..]), [], q.items[..n])
    decreases n
  {
    if n > 0 {
      var q1 := q.(items := q.items[1..]);
      assert Step(q, PopOp) == Trace(q1, [], [q.items[0]]);
      PopAllGiven(q1, n - 1);
      assert q1.items[n - 1..] == q.items[n..];
      assert [q.items[0]] + q1.items[..n - 1] == q.items[..n];
    }
  }

  /** After close, pops still drain every queued item in order, and only then
      report `Closed`. */
  lemma DrainAfterClose<T>(q: ConcurrentQueue<T>)
    ensures var t := Run(q.Close(), PopOps(|q.items|));
            t.popped == q.items && t.last.items == [] &&
            t.last.Pop() == (t.last, Err(PopError.Closed))
  {
    PopAllGiven(q.Close(), |q.items|);
    assert q.items[..|q.items|] == q.items;
  }
}
