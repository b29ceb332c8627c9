/**
 The two ways the inference pipeline can fail, and a failure-compatible
 result type so that `:-` propagates them the way a Python exception
 unwinds the script.
 */
module Results {

  datatype Error =
    /** A dict subscript on a label that is not a key (Python's KeyError). */
    | UnknownCategory(key: string)
    /** Assigning a block of columns whose width differs from the number of
        target columns (the ValueError pandas raises). */
    | ShapeMismatch(expected: nat, actual: nat)

  datatype Result<+T> = Ok(value: T) | Err(error: Error) {

    predicate IsFailure() {
      Err?
    }

    function PropagateFailure<U>(): Result<U>
      requires Err?
    {
      Err(error)
    }

    function Extract(): T
      requires Ok?
    {
      value
    }
  }
}
