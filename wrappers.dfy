/** Optional values and Python-style failures shared by every module of the model. */
module Wrappers {

  /** A value that may be absent (Python's `None`). */
  datatype Option<T> = None | Some(value: T)

  /** The Python exceptions the modelled code can raise. */
  datatype PyError =
    | KeyError        // a missing DataFrame column or dictionary key
    | IndexError      // a positional row index past the end
    | ValueError      // an ambiguous truth value, an empty CSV
    | TypeError       // subscripting a `None` IK result
    | AttributeError  // an attribute the class never defines
    | RobotError      // the robot SDK refused to connect
    | KeyboardInterrupt  // the operator pressed Ctrl-C

  /** The outcome of a computation that may raise. */
  datatype Result<T> = Success(value: T) | Failure(error: PyError)
}
