/** Types shared by every module: optional values, the errors the library raises, and
    results that carry either a value or the error that interrupted the computation. */
module Common {
  datatype Option<T> = None | Some(value: T)

  /** The exceptions the library lets escape: `KeyError` for a missing attribute or
      library item, `ValueError` from `int()`, and `InvalidFLAFile` on load. */
  datatype Error =
    | KeyError(key: string)
    | ValueError(text: string)
    | InvalidFlaFile(path: string)

  datatype Result<T> = Ok(value: T) | Err(error: Error) {
    predicate IsFailure() { Err? }

    function PropagateFailure<U>(): Result<U>
      requires Err?
    {
      Err(error)
    }

    function Extract(): T
      requires Ok?
    {
      value
    }
  }
}
