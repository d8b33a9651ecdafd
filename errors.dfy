/**
 * The ways the colour code can fail, as values: a computation that would
 * raise returns Err instead of a result. NonFinite is not a Python exception:
 * it stands for the inf or nan a float division by zero produces, which the
 * exact-real model cannot carry on with.
 */
module Errors {

  datatype Failure =
    | LinAlgError     // numpy.linalg reports a singular matrix
    | AssertionError  // a Python `assert` fails
    | NameError       // a name that is defined nowhere is called
    | NonFinite       // a float division by zero, which numpy turns into inf or nan

  datatype Result<+T> = Ok(value: T) | Err(error: Failure)
}
