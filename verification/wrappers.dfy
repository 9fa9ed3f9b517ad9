/** An optional value (Python's `Optional`) and a result that is either a
    value or the exception the script raises. */
module Wrappers {

  datatype Option<+T> = None | Some(value: T) {

    /** This option when present, otherwise `other`. */
    function OrElse(other: Option<T>): Option<T>
    {
      if Some? then this else other
    }
  }

  datatype Result<+T, +E> = Success(value: T) | Failure(error: E)
}
