/** Optional values and the success/error results that stand for thrown
    JavaScript errors (an error carries the Error's message). */
module Outcomes {

  datatype Option<+T> = None | Some(value: T)

  datatype Result<+T> = Ok(value: T) | Err(error: string)

  /** A byte of a file's contents. */
  newtype byte = x: int | 0 <= x < 256

  type Bytes = seq<byte>
}
