/** Small result types shared by the other modules. */
module Wrappers {

  datatype Option<+T> = None | Some(value: T)

  /** A computation that either completes with a value or raises. */
  datatype Result<+T> = Ok(value: T) | Raised(reason: string)
}
