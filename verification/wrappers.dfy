/** Option and Result types shared by the blog model. */
module Wrappers {

  /** An optional value, used where the source yields "no value" rather than an error. */
  datatype Option<+T> = None | Some(value: T)

  /** Either a value or the reason it could not be produced. */
  datatype Result<+R, +E> = Success(value: R) | Failure(error: E)
}
