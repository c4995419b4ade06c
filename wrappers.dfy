/** Option, the shape the model uses in place of Go's nil pointers. */
module Wrappers {

  datatype Option<+T> = None | Some(value: T) {
    function GetOr(default: T): T {
      match this
      case Some(v) => v
      case None => default
    }
  }
}

/** Result, the shape the model uses in place of Go's (value, error) pairs. It lives
    apart from Option so that a module with a `Result` of its own (Run) can use Option
    without two meanings of `Result` in scope. */
module Results {

  datatype Result<+T, +E> = Ok(value: T) | Err(error: E)
}
