/** The exceptions the client can raise, and a failure-compatible Result
    that carries them. Python raises; the model returns `Err`. */
module Errors {

  datatype Error =
    /** `requests.HTTPError`, raised by `raise_for_status` for the response status. */
    | HttpError(status: int)
    /** Subscripting a dict with a key it does not hold. */
    | KeyError(key: string)
    /** Subscripting a value that is not a dict with a string key, or
        iterating a value that is not iterable. */
    | TypeError

  datatype Result<+T> = Ok(value: T) | Err(error: Error) {
    predicate IsFailure() { Err? }

    function PropagateFailure<U>(): Result<U>
      requires Err?
    {
      Err(error)
    }

    function Extract(): T
      requires Ok?
    {
      value
    }
  }
}
