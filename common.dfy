/** Failure-compatible wrappers and the exception kinds the modelled code raises. */
module Common {

  datatype Option<+T> = None | Some(value: T)

  /** The Python exceptions raised by the modelled code, with their messages. */
  datatype Error =
    | TypeError(msg: string)
    | ValueError(msg: string)
      /** `fast_find_first` found no occurrence of `value` (its message is not part of this model). */
    | NotFound(value: real)

  /** Either a value or the exception that aborted the computation. */
  datatype Result<+T> = Success(value: T) | Failure(error: Error) {

    predicate IsFailure() {
      Failure?
    }

    function PropagateFailure<U>(): Result<U>
      requires Failure?
    {
      Failure(error)
    }

    function Extract(): T
      requires Success?
    {
      value
    }
  }

  function Min(a: nat, b: nat): nat {
    if a <= b then a else b
  }
}
