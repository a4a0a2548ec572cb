# async-channels: the waker queue, modelled in Dafny

This project models the core of the `async-channels` Rust crate: the
`WakerQueue` (src/waker_queue.rs), which puts a single waker slot and a wake
policy on top of a lock-free FIFO container, the hand-written `Push` and
`Pop` futures that suspend on a full or an empty queue, and the
many-producers/one-consumer channel of src/mpsc.rs, whose unique receiver
closes the shared queue when dropped.

Everything is modelled sequentially, one call at a time.

- `prelude.dfy` (module `Prelude`): `Option`, `Result`, the `Poll` a future
  answers, and `WakerId`, a number standing for a task's `Waker`.
- `concurrent_queue.dfy` (module `ConcurrentQueues`): the external
  `ConcurrentQueue` as a value. It has the items in order, an optional
  capacity (`Some(n)` for `bounded(n)`, `None` for `unbounded`) and a one-way
  closed flag. A push is refused as `Closed(v)` when the queue is closed,
  then as `Full(v)` when it is at capacity. A pop returns the front item
  whenever there is one, even after close. Sequences of calls (`Op`, `Run`)
  carry the lemmas about FIFO order, capacity and closing.
- `waker_queue.dfy` (module `WakerQueues`): class `WakerQueue` holds the
  container (`queue`), the waker slot (`waker: Option<WakerId>`) and `woken`,
  the list of tasks woken so far. `Register` overwrites the slot; `Wake`
  appends the held id to `woken` and empties the slot. Classes `PushFuture`
  and `PopFuture` model `Push` and `Pop`, and `Poll(cx)` takes the polling
  task's waker id. Every method states its new state in terms of the
  container functions.
- `mpsc.dfy` (module `Mpsc`): `Sender` and `Receiver` objects that refer to
  one `WakerQueue` object, with `Clone`, `Drop` and the two constructors.

What the contracts establish, in the crate's terms:

- `try_push_wake(v, w)` returns exactly what `try_push(v)` returns. It wakes
  the slot if and only if the push succeeded and `w` holds. `try_pop_wake`
  is the same for pops. A failed call leaves the slot and `woken` alone.
- `try_push_wake_empty` reads `is_empty()` before pushing, so it wakes only
  after a successful push into a queue that was empty. `try_pop_wake_full`
  wakes only after a successful pop from a queue that was full.
- In this one-call-at-a-time model, `try_push_wake_full` can never wake
  anyone, because a full queue refuses the push. For the same reason
  `try_pop_wake_empty` never wakes anyone. In the crate, another thread's
  call landing between the `is_full()`/`is_empty()` read and the push or
  pop can still make them wake.
- `close()` sets the flag, is idempotent, and changes neither the items
  nor the slot. It does not wake.
- `Push::poll` keeps its value in exactly one place. After an `Ok` the value
  is in the queue; after `Closed` it is handed back; after `Full` it is held
  again and the caller's waker is registered. The multiset of items in the
  queue, held by the future and handed back is the same before and after.
- `Pop::poll` registers before it pops, so whatever it answers, the slot
  then holds the caller's waker. When it answers `Pending`, a following
  successful `try_push_wake_empty` wakes that exact task.
- A push suspended on a full, open queue of capacity at least 1 completes
  when it is polled again after a pop has made room.
- Neither poll ever wakes anyone.
- Over any run of pushes, pops and closes, the popped values followed by the
  remaining items equal the initial items followed by the accepted values.
  So the queue is FIFO and nothing is lost or duplicated. The capacity is
  never exceeded. Once closed, a queue stays closed and accepts nothing.
  After close, pops drain the remaining items in order and then report
  `Closed`.
- `bounded(n)` accepts exactly `n` pushes; the next push is refused as
  `Full` with its own value.
- Dropping the `Receiver` closes the queue shared with every `Sender` and
  clone. Every later push through any of them returns `Closed(v)`.

Where the crate's intended design and its code disagree, the model follows
the code. By design, `close()` wakes the registered task, but
src/waker_queue.rs:46-48 only closes the container. By design, a push or a
pop notifies the other side, but the futures call only the non-waking
`try_push` and `try_pop` (src/waker_queue.rs:133, 163). Each of the three
places (close, the push poll, the pop poll) has its own row under
"## Findings", with the code as written and a corrected version.

## Model

| member | source | states |
|---|---|---|
| `ConcurrentQueues.ConcurrentQueue.Bounded` | src/waker_queue.rs:18 | the container starts empty, open, with capacity `Some(size)` |
| `ConcurrentQueues.ConcurrentQueue.Unbounded` | src/waker_queue.rs:25 | the container starts empty, open, with no capacity |
| `ConcurrentQueues.ConcurrentQueue.Close` | src/waker_queue.rs:47 | closing sets the flag, keeps items and capacity, and changes nothing on a closed queue |
| `ConcurrentQueues.ConcurrentQueue.Push` | src/waker_queue.rs:54-56 | a push succeeds iff the queue is open and not full, and then appends the value; otherwise the queue is unchanged and the error carries the same value, `Closed` exactly when the queue is closed; capacity is respected |
| `ConcurrentQueues.ConcurrentQueue.Pop` | src/waker_queue.rs:72-74 | a pop succeeds iff there is an item, closed or not, and returns the front item; an empty queue answers `Closed` exactly when closed, else `Empty` |
| `ConcurrentQueues.RunIsFifo` | src/waker_queue.rs:54-74 | over any run of pushes, pops and closes, popped values followed by the remaining items equal the initial items followed by the accepted values (FIFO, no loss, no duplication) |
| `ConcurrentQueues.RunKeepsValid` | src/waker_queue.rs:54-74 | no run of calls takes a bounded queue past its capacity or changes the capacity |
| `ConcurrentQueues.ClosedIsTerminal` | src/waker_queue.rs:46-56 | once closed, a queue stays closed and accepts no push, whatever is called |
| `ConcurrentQueues.PushAllAccepted` | src/waker_queue.rs:54-56 | pushes into an open queue with room for all of them are all accepted, in order |
| `ConcurrentQueues.FillToCapacity` | src/waker_queue.rs:16-21 | `bounded(n)` accepts `n` pushes, is then full, and refuses the next push as `Full` with its own value |
| `ConcurrentQueues.PopAllGiven` | src/waker_queue.rs:72-74 | `n` pops on a queue of at least `n` items return its first `n` items in order |
| `ConcurrentQueues.DrainAfterClose` | src/waker_queue.rs:46-74 | after close, pops return every queued item in order and then `Closed` |
| `WakerQueues.WakerQueue.Bounded` | src/waker_queue.rs:16-21 | a fresh queue is empty, open, of capacity `Some(size)`, with an empty slot and nobody woken |
| `WakerQueues.WakerQueue.Unbounded` | src/waker_queue.rs:23-28 | a fresh queue is empty, open, unbounded, with an empty slot and nobody woken |
| `WakerQueues.WakerQueue.IsEmpty` | src/waker_queue.rs:30-32 | true iff there are no items |
| `WakerQueues.WakerQueue.IsFull` | src/waker_queue.rs:34-36 | true iff the queue is bounded and holds its capacity; an unbounded queue is never full |
| `WakerQueues.WakerQueue.Len` | src/waker_queue.rs:38-40 | the number of items |
| `WakerQueues.WakerQueue.Capacity` | src/waker_queue.rs:42-44 | the capacity, `None` when unbounded |
| `WakerQueues.WakerQueue.IsClosed` | src/waker_queue.rs:50-52 | the closed flag |
| `WakerQueues.WakerQueue.Close` | src/waker_queue.rs:46-48 | sets the closed flag, idempotent, keeps items, capacity and slot, wakes nobody |
| `WakerQueues.WakerQueue.CloseWake` | src/waker_queue.rs:46-48 | corrected close: closes and wakes the registered task, emptying the slot |
| `WakerQueues.WakerQueue.TryPush` | src/waker_queue.rs:54-56 | the container's push and nothing else; on a closed queue it returns `Closed(value)` |
| `WakerQueues.WakerQueue.TryPushWake` | src/waker_queue.rs:58-62 | returns what `TryPush` returns; wakes the slot iff the push succeeded and `wake` holds; otherwise slot and log unchanged |
| `WakerQueues.WakerQueue.TryPushWakeEmpty` | src/waker_queue.rs:64-66 | wakes iff the push succeeded into a queue that was empty before it |
| `WakerQueues.WakerQueue.TryPushWakeFull` | src/waker_queue.rs:68-70 | pushes as `TryPush` and never wakes, since a full queue refuses the push |
| `WakerQueues.WakerQueue.TryPop` | src/waker_queue.rs:72-74 | the container's pop and nothing else |
| `WakerQueues.WakerQueue.TryPopWake` | src/waker_queue.rs:76-80 | returns what `TryPop` returns; wakes the slot iff the pop succeeded and `wake` holds; otherwise slot and log unchanged |
| `WakerQueues.WakerQueue.TryPopWakeEmpty` | src/waker_queue.rs:82-84 | pops as `TryPop` and never wakes, since an empty queue has nothing to pop |
| `WakerQueues.WakerQueue.TryPopWakeFull` | src/waker_queue.rs:86-88 | wakes iff the pop succeeded from a queue that was full before it |
| `WakerQueues.WakerQueue.Push` | src/waker_queue.rs:90-92 | returns a new `Push` future on this queue holding the value |
| `WakerQueues.WakerQueue.Pop` | src/waker_queue.rs:94-96 | returns a new `Pop` future on this queue |
| `WakerQueues.WakerQueue.Register` | src/waker_queue.rs:98-100 | the slot holds the new waker, overwriting any earlier one; nothing else changes |
| `WakerQueues.WakerQueue.Wake` | src/waker_queue.rs:102-104 | the registered task, if any, is woken and the slot emptied; the items are unchanged |
| `WakerQueues.WakerQueue.WakeIf` | src/waker_queue.rs:106-108 | wakes exactly when `wake` holds, otherwise changes nothing |
| `WakerQueues.PushFuture.constructor` | src/waker_queue.rs:122-124 | a new `Push` future holds its value |
| `WakerQueues.PushFuture.Poll` | src/waker_queue.rs:130-142 | requires a held value; `Ok` resolves with the value appended, `Closed` resolves handing the same value back, `Full` registers the caller and keeps the value pending; the value is in exactly one place; nothing is woken |
| `WakerQueues.PushFuture.PollWake` | src/waker_queue.rs:130-142 | corrected poll: the same outcomes and the same conservation of the value; a successful push into an empty queue wakes the registered task, and on every other resolution slot and log are unchanged |
| `WakerQueues.PopFuture.constructor` | src/waker_queue.rs:152-154 | a new `Pop` future refers to its queue |
| `WakerQueues.PopFuture.Poll` | src/waker_queue.rs:160-168 | registers first, then pops: a value or `Closed` resolves, `Empty` is pending (exactly when the queue is empty and open); the slot then holds the caller's waker; nothing is woken |
| `WakerQueues.PopFuture.PollWake` | src/waker_queue.rs:160-168 | corrected poll: pops with `try_pop_wake_full` first and, only on `Empty`, registers the caller and checks again; the same outcomes as `Poll`; when pending the slot holds the caller; a pop from a full queue wakes the registered task, and otherwise slot and log are unchanged |
| `WakerQueues.PendingPopThenPushWakeEmpty` | src/waker_queue.rs:160-168 | a pending pop followed by a successful `try_push_wake_empty` wakes exactly that pop's task; the push fails there only at capacity 0 |
| `WakerQueues.CloseLeavesPendingPopAsleep` | src/waker_queue.rs:46-48 | a pop pending on an empty queue is not woken by `close`, though re-polling it would give `Closed` |
| `WakerQueues.CloseWakeWakesPendingPop` | src/waker_queue.rs:46-48 | with the corrected close, the pending pop's task is woken |
| `WakerQueues.PushLeavesPendingPopAsleep` | src/waker_queue.rs:130-142 | a completed `Push` future does not wake a pop pending on the empty queue, though the item is there for its next poll |
| `WakerQueues.PollWakeWakesPendingPop` | src/waker_queue.rs:130-142 | with the corrected poll, the completed push wakes the pending pop's task |
| `WakerQueues.BoundedOneHandoff` | src/waker_queue.rs:130-168 | capacity 1: push `a` succeeds, a push of `b` suspends, a pop returns `a`, re-polling the push completes it and the queue holds `[b]`; nobody is woken |
| `WakerQueues.PopMakesRoomForSuspendedPush` | src/waker_queue.rs:130-168 | for any queue that is full, open and of capacity at least 1: a push suspends, a pop returns the front item, and re-polling the push completes it with its value appended; nobody is woken |
| `WakerQueues.PollWakeWakesPendingPush` | src/waker_queue.rs:160-168 | with the corrected pop poll, popping from the full capacity-1 queue wakes the suspended producer |
| `Mpsc.Sender.constructor` | src/mpsc.rs:7 | a sender refers to the shared queue |
| `Mpsc.Sender.Clone` | src/mpsc.rs:15-18 | a clone is a new sender on the same queue; the queue does not change |
| `Mpsc.Receiver.constructor` | src/mpsc.rs:7 | the receiver refers to the shared queue |
| `Mpsc.Receiver.Drop` | src/mpsc.rs:39-43 | dropping the receiver closes the shared queue, keeps its items, and wakes nobody |
| `Mpsc.Bounded` | src/mpsc.rs:5-8 | sender and receiver share one fresh queue, empty, open, of capacity `Some(size)` |
| `Mpsc.Unbounded` | src/mpsc.rs:10-13 | sender and receiver share one fresh queue, empty, open, unbounded |
| `Mpsc.SendAfterDrop` | src/mpsc.rs:39-43 | after the receiver is dropped, a push through a sender of the same channel returns `Closed(v)` and changes no items |
| `Mpsc.SendThenReceive` | src/mpsc.rs:10-13 | what a sender pushes into a fresh unbounded channel, the receiver pops |
| `Mpsc.ClonedSendersShareOneQueue` | src/mpsc.rs:15-43 | three senders (one and two clones) feed one receiver in push order; after the receiver is dropped, each one's push returns `Closed` with its value |

## Left out

- The container's lock-free internals and memory ordering, and every interleaving of threads. Each call is modelled as one atomic step.
- The internals of `AtomicWaker`, including a `register` that races with a `wake`. The slot is modelled sequentially.
- `woken` records which tasks were woken. Running the woken task is the scheduler's job and is not modelled.
- The `Future`, `Pin`, `pin_project!` and `Context` machinery. `Poll` takes the polling task's waker id instead of a `Context`.
- `Arc` reference counting and freeing. Shared object references stand in for shared ownership. A `Sender` has no `Drop`, so dropping one needs no member.
- The ownership rule that a dropped `Receiver` is not used again. Rust's type system enforces it, and the model does not.
- Dropping a suspended `Push` future loses its value. The model has no drop for futures, since a drop does nothing to the queue.
- The `unsafe impl Send/Sync` and the `Debug` derives.
- ConcurrentQueues.ConcurrentQueue.Bounded: admits capacity 0, a queue that is always full; the container library rejects capacity 0 with a panic, which is not part of this model.
- `usize` lengths and capacities are modelled as unbounded naturals; no queue here can hold enough items to overflow them.
- src/spmc.rs builds its shared queue exactly as src/mpsc.rs does and adds no behaviour; it is not part of this model.
- src/lib.rs only delegates four free functions to `try_push`, `try_pop`, `push` and `pop`; it is not part of this model. src/spsc.rs is not part of this model either.

## Findings

| source | as written | input that shows it | evidently intended | confidence | as-written member | corrected member |
|---|---|---|---|---|---|---|
| src/waker_queue.rs:46-48 | `close()` only closes the container and never wakes the slot | an unbounded queue; a `Pop` future polled by task `cx` answers `Pending`; then `close()`: `cx` is never woken, and its next poll would return `Closed` | closing wakes the registered task so that it observes `Closed` | medium; not executed | `WakerQueues.CloseLeavesPendingPopAsleep` | `WakerQueues.WakerQueue.CloseWake` |
| src/waker_queue.rs:133 | `Push::poll` calls `try_push`, which never wakes, so a successful push into an empty queue does not wake a consumer waiting on it | an unbounded queue; a `Pop` future polled by task `consumer` answers `Pending`; a `Push` future of `v` then resolves `Ready(Ok)`: `consumer` is never woken, and its next poll would return `v` | a push into an empty queue wakes the waiting consumer, as `try_push_wake_empty` does | medium; not executed | `WakerQueues.PushLeavesPendingPopAsleep` | `WakerQueues.PushFuture.PollWake` |
| src/waker_queue.rs:163 | `Pop::poll` calls `try_pop`, which never wakes, so a pop from a full queue does not wake a producer suspended on it | a queue of capacity 1 holding `a`; a `Push` future of `b` polled by task `producer` answers `Pending`; a `Pop` future then resolves `Ready(Ok(a))`: `producer` is never woken, and its next poll would complete | a pop from a full queue wakes the waiting producer, as `try_pop_wake_full` does; because the slot is shared, the pop must not overwrite that producer's waker before waking it | medium; not executed | `WakerQueues.BoundedOneHandoff` | `WakerQueues.PopFuture.PollWake` |
