/**
 * The crate's error value, as far as the block runtime uses it: an optional
 * message, an optional underlying cause, and the block it is attributed to.
 */
module Errors {
  import opened Wrappers

  /** The kind name and instance id of the block an error happened in. */
  datatype BlockTag = BlockTag(name: string, id: nat)

  datatype Error = Error(message: Option<string>, cause: Option<string>, block: Option<BlockTag>)
  {
    /** Attributes the error to block `name` with instance id `id`. */
    function InBlock(name: string, id: nat): (e: Error)
      ensures e.block == Some(BlockTag(name, id))
      ensures e.message == message && e.cause == cause
    {
      this.(block := Some(BlockTag(name, id)))
    }
  }

  /** `Result<T>` of the crate: the error type is always `Error`. */
  datatype Result<+T> = Ok(value: T) | Err(error: Error)

  /** `in_block` lifted to results: a success passes through, an error is attributed. */
  function ResultInBlock<T>(r: Result<T>, name: string, id: nat): (r': Result<T>)
    ensures r.Ok? ==> r' == r
    ensures r.Err? ==> r'.Err? && r'.error == r.error.InBlock(name, id)
  {
    match r
    case Ok(_) => r
    case Err(e) => Err(e.InBlock(name, id))
  }

  /** An error that wraps a foreign error described by `cause` under `message`
      (the `.error(message)` and `.or_error(..)` conversions). */
  function Contextual(message: string, cause: Option<string>): (e: Error)
    ensures e.message == Some(message) && e.cause == cause && e.block == None
  {
    Error(Some(message), cause, None)
  }
}
