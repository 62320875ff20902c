/** Failure-carrying values shared by the modules of this model. */
module Wrappers {
  /** A value that may be absent: JavaScript's `null`/`undefined`, Python's `None`. */
  datatype Option<T> = None | Some(value: T)

  /** The outcome of an operation that throws on some inputs. */
  datatype Result<T> = Ok(value: T) | Err(message: string)
}
