/** What a caller-supplied function does when the core invokes it. */
module Callbacks {
  import opened Values
  import opened Throwables

  /** A callback either returns a value or throws `error`. As the result of
      a combinator, `Raised` means the error propagates to the caller. */
  datatype Outcome<+U> = Returned(value: U) | Raised(error: Err)

  /** Continue with `k` when `o` returned; propagate what `o` threw. */
  function Then<U, V>(o: Outcome<U>, k: U -> Outcome<V>): Outcome<V>
  {
    match o
    case Returned(u) => k(u)
    case Raised(e) => Raised(e)
  }

  /** Which of the callbacks of `ifSuccess`/`ifSuccessOrElse` runs. */
  datatype Fired<+T> = Action(arg: Option<T>) | Failsafe | Neither
}
