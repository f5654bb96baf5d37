/** Java's Optional, and the exceptions of the modelled code as error values. */
module Wrappers {

  /** java.util.Optional: a value that is either absent or present (never null). */
  datatype Optional<+T> = Empty | Of(value: T) {

    predicate IsPresent() {
      Of?
    }

    /** Optional.orElse: the contained value, or the given default when absent. */
    function OrElse(default: T): T {
      match this
      case Of(v) => v
      case Empty => default
    }
  }

  /** The exceptions the modelled code can raise. */
  datatype Error =
    | NullPointer                        // Objects.requireNonNull on a null argument
    | NoSuchElement                      // Optional.get on an empty Optional
    | SpeedmentException(message: string)

  /** The outcome of a call that either returns a value or throws. */
  datatype Result<+R> = Success(value: R) | Failure(error: Error)

  /** The outcome of a void call that either returns or throws. */
  datatype Outcome = Pass | Fail(error: Error)
}
