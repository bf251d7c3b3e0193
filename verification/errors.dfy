/** Failure values of the geometry library.

    The library signals every problem by raising; here each raise becomes a
    `Failure` carrying one of the error kinds below, and `Result` is
    failure-compatible so that `:-` propagates an error exactly as an
    uncaught exception would. */
module Errors {

  /** Which half of a coordinate failed its range check. */
  datatype Axis = Latitude | Longitude

  datatype GeoError =
    | LengthMismatch     // dot product / angle of vectors of different lengths
    | InvalidDimension   // cross product of an operand whose length is not 3
    | OutOfRange(axis: Axis)  // latitude or longitude outside its domain
    | IndexOutOfRange    // list lookup with an index the list does not have

  datatype Result<+T> = Success(value: T) | Failure(error: GeoError) {

    predicate IsFailure() {
      Failure?
    }

    function PropagateFailure<U>(): Result<U>
      requires Failure?
    {
      Failure(error)
    }

    function Extract(): T
      requires Success?
    {
      value
    }
  }
}
