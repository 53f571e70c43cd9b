/** Result and option types shared by the models; `Failure` stands for the errors the source raises or returns. */
module Wrappers {

  datatype Option<+T> = None | Some(value: T)

  datatype Result<+T, +E> = Success(value: T) | Failure(error: E)
}
