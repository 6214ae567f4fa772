/** Option and Result: the error paths of the training script as values. */
module Wrappers {

  datatype Option<+T> = None | Some(value: T)

  datatype Result<+R, +E> = Success(value: R) | Failure(error: E)

  /** The Python exceptions the training script can raise on the paths modelled here. */
  datatype PyError =
    | IndexError            // list index out of range
    | ZeroDivisionError     // `%` by a zero period
    | ValueError            // int() of a malformed string
    | NameError(name: string)
    | TypeError             // `%f` applied to a list
}
