/** Standard-library shapes the channel code is written against: Rust's
    `Option`, `Result`, the `Poll` a future returns, and the scheduler's
    waker, which the model identifies by a number. */
module Prelude {

  datatype Option<T> = None | Some(value: T)

  datatype Result<R, E> = Ok(value: R) | Err(error: E)

  /** What `Future::poll` answers: not ready yet, or resolved with a result. */
  datatype Poll<R> = Pending | Ready(result: R)

  /** A task's waker (`std::task::Waker`); two wakers are the same task when
      their ids are equal. */
  type WakerId = nat
}
