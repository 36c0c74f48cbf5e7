/** Optional values and the Python exceptions the pipeline can raise. */
module Wrappers {
  datatype Option<T> = None | Some(value: T)

  /** The exception classes the modelled code raises or catches, the
      application's own `exit()` after an error dialog, and a call that never
      returns (an unbounded scan that finds nothing). */
  datatype Error =
    | ValueError(what: string)
    | KeyError(key: string)
    | IndexError(what: string)
    | TypeError(what: string)
    | NameError(name: string)
    | AttributeError(what: string)
    | StopIteration(what: string)
    | AppExit(what: string)
    | NeverReturns(what: string)

  datatype Result<T> = Ok(value: T) | Err(error: Error)
  {
    predicate IsFailure() { Err? }
    function PropagateFailure<U>(): Result<U>
      requires Err?
    { Err(error) }
    function Extract(): T
      requires Ok?
    { value }
  }
}
