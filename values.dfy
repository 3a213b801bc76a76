/**
 * The PHP values the resizer's configuration layer inspects, and the
 * success/failure results that stand in for its exceptions.
 */
module PhpValues {

  /**
   * A PHP value as far as the validation code can tell values apart:
   * `null`, an integer, a string, or anything else (a boolean, a float,
   * an array), which every check of the resizer rejects.
   */
  datatype Value = Null | Int(n: int) | Str(s: string) | Other

  /**
   * InvalidValue stands for ImageResizerInvalidValueException, thrown by the
   * setters; UnknownMode for the runtime exception `process` throws when the
   * merged configuration names no known mode.
   */
  datatype Error = InvalidValue | UnknownMode

  /** The outcome of an operation that either produces a value or throws. */
  datatype Result<T> = Success(value: T) | Failure(error: Error) {
    predicate IsFailure() {
      Failure?
    }

    function PropagateFailure<U>(): Result<U>
      requires Failure?
    {
      Failure(error)
    }

    function Extract(): T
      requires Success?
    {
      value
    }
  }

  /** The outcome of a setter, which in PHP returns `$this` or throws. */
  datatype Outcome = Pass | Fail(error: Error)

  datatype Option<T> = None | Some(value: T)
}
