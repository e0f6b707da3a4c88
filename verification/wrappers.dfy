/** Option, Result and Outcome datatypes used throughout the model.
    - Option<T> stands for a Python value of type `T | None`.
    - Result<T, E> is either a returned value or a raised exception.
    - Outcome<E> is a call that returns nothing or raises.
 */
module Wrappers {

  datatype Option<+T> = None | Some(value: T)

  datatype Result<+T, +E> = Success(value: T) | Failure(error: E)

  datatype Outcome<+E> = Pass | Fail(error: E)
}
