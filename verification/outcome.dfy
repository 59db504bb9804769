/** Failure-carrying values shared by the whole controller model.

    Python signals every failure of the controller by raising an exception;
    here a raised exception is a value: `Err` for an operation that would have
    returned something, `Raised` for one that is run only for its effects.
 */
module Outcome {

  /** The optional value of a lookup or a parse. */
  datatype Option<+T> = None | Some(value: T)

  /** Either the value a Python call returns or the exception it raises. */
  datatype Result<+T, +E> = Ok(value: T) | Err(error: E)

  /** How a call made only for its effects ended: normally, or by raising. */
  datatype Status<+E> = Done | Raised(error: E)
}
