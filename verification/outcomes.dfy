/** Failure-carrying datatypes shared by the vector, line and plane models.

    The library signals every failure with a Python exception; here each
    exception becomes one `Error` value, so callers branch on an enumerated
    kind instead of comparing exception messages.
 */
module Outcomes {

  /** A value that may be absent: `None` is Python's `None` (a missing
      argument, a missing basepoint, a cross product that falls through). */
  datatype Option<+T> = None | Some(value: T)

  /** The exceptions the modelled operations raise, one constructor each. */
  datatype Error =
    | EmptyCoordinates          // ValueError: a vector needs at least one coordinate
    | ZeroMagnitude             // normalising, or projecting onto, the zero vector
    | BasepointIndexOutOfRange  // IndexError: first nonzero normal index past the dimension
    | MissingBasepoint          // AttributeError: a nonzero normal without a basepoint
    | NotTwoDimensional         // ValueError: unpacking a normal that is not a pair

  /** Either a value or the error that the source would have raised. */
  datatype Result<+T> = Ok(value: T) | Err(error: Error)
}
