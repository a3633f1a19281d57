/** Optional values and success/failure results shared by the route generator model. */
module Wrappers {

  /** An optional value; `None` stands for an absent (undefined) option key. */
  datatype Option<+T> = None | Some(value: T)

  /** The outcome of generating a route table: the routes, or the error that was thrown. */
  datatype Result<+T, +E> = Success(value: T) | Failure(error: E)
}
