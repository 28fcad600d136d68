/** Rust's `Option` and `Result`, and the outcome of code that may panic. */
module Wrappers {

  /** `std::option::Option<T>`. */
  datatype Option<+T> = None | Some(value: T)

  /** `std::result::Result<T, E>`. */
  datatype Result<+T, +E> = Ok(value: T) | Err(error: E) {

    /** `Result::ok`: keeps the success value and drops the error. */
    function ToOption(): (o: Option<T>)
      ensures o.Some? <==> Ok?
      ensures o.Some? ==> o.value == value
    {
      match this
      case Ok(v) => Some(v)
      case Err(_) => None
    }
  }

  /** The outcome of code guarded by `assert!`: it either completes with a
      value or panics with the assertion's message (a usage error, never an
      `Err` value the caller could handle). */
  datatype Checked<+T> = Completed(value: T) | Panicked(message: string)
}
