/** Optional values and results, used for optional record fields and for the
    generator's one error path. */
module Wrappers {

  /** An optional value: the TypeScript `field?: T` of a record. */
  datatype Option<+T> = None | Some(value: T)

  /** A computation that either yields a value or raises an error. */
  datatype Result<+R, +E> = Success(value: R) | Failure(error: E)
}
