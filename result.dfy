/** Errors raised by the signature library, and a Result type carrying them. */
module Outcome {

  /** The failures the library reports. Every one of them is a RangeError or
      a math-library error in the original; the model names them apart. */
  datatype Error =
    | DimensionMismatch      // index and shape lengths differ, or two points of different dimension
    | IndexOutOfRange        // flat index not below the product of the shape
    | IncompatibleShape      // reindexing between shapes of different total size
    | EmptyShape             // the product of an empty shape is refused
    | CallStackExceeded      // unbounded recursion of the index conversion on an empty index
    | NotAMatrix             // the path is not an N by d array
    | NonPositiveDimension   // the points of the path have no coordinates

  datatype Result<+T> = Ok(value: T) | Err(error: Error) {
    predicate IsFailure() {
      Err?
    }

    function PropagateFailure<U>(): Result<U>
      requires Err?
    {
      Err(error)
    }

    function Extract(): T
      requires Ok?
    {
      value
    }
  }
}
