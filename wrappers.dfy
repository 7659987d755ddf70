/** Failure-carrying values shared by the model: a nullable value, the outcome
    of a validating setter, and the result of a validating constructor. */
module Wrappers {

  /** A value that may be null: `None` stands for a null reference. */
  datatype Option<+T> = None | Some(value: T)

  /** What a validating setter does: assign (`Pass`) or throw an
      ArgumentException carrying `message` (`Fail`). */
  datatype Outcome = Pass | Fail(message: string)

  /** What a validating constructor does: produce an object, or throw an
      ArgumentException carrying `error`. */
  datatype Result<+R> = Success(value: R) | Failure(error: string)

  /** Runs `first`, and `second` only when `first` did not throw: the first
      exception raised is the one the caller sees. */
  function AndThen(first: Outcome, second: Outcome): (o: Outcome)
    ensures o.Pass? <==> first.Pass? && second.Pass?
    ensures first.Fail? ==> o == first
    ensures first.Pass? ==> o == second
  {
    if first.Fail? then first else second
  }
}
