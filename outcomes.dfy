/** Failure-carrying results shared by the whole scoring engine. */
module Outcomes {

  /** The two ways a knock is refused (both raised as ValueError by kata.py). */
  datatype Error =
    | InvalidTry       // a third knock on a frame that already has two
    | InvalidHitCount  // more hits than the pins standing, or than the frame's total

  datatype Option<T> = None | Some(value: T)

  datatype Result<T> = Ok(value: T) | Err(error: Error)
}
