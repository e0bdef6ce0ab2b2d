/** Optional values and the failures of the collection pipeline. */
module Wrappers {

  datatype Option<+T> = None | Some(value: T)

  /** Why a step stopped: a remote call was rejected (network failure or
      non-success status), a page lacked a node that the extraction
      dereferences unconditionally, or a file of the checkpoint directory
      that is not a party's record list was read as one (both JavaScript
      TypeErrors). */
  datatype Error = RemoteError | MalformedPage | BadCheckpoint

  /** A value or the error that prevented it; usable with `:-`. */
  datatype Result<+T> = Ok(value: T) | Err(error: Error) {
    predicate IsFailure() { Err? }

    function PropagateFailure<U>(): Result<U>
      requires Err?
    {
      Err(error)
    }

    function Extract(): T
      requires Ok?
    {
      value
    }
  }
}
