/** Plain wrapper datatypes used across the model: an optional value, a value-or-error
    result and a pass-or-fail outcome. */
module Wrappers {

  datatype Option<+T> = None | Some(value: T)

  datatype Result<+R, +E> = Success(value: R) | Failure(error: E)

  datatype Outcome<+E> = Pass | Fail(error: E)
}

/** Raw bytes as the counting engine and the input streams see them (`unsigned char`). */
module Bytes {

  type byte = bv8
}

/** The exceptions the core raises (src/exception/exception.hpp and std::runtime_error). */
module Exceptions {

  datatype Exception =
    | FileOperationException(message: string)    // a failing size query of a file
    | InvalidArgumentException(message: string)  // an unknown command-line flag
    | RuntimeError(message: string)              // a file that cannot be memory-mapped
}
