/** Shared wrappers: Python's None and Python's raised exceptions as values. */
module Common {

  /** A value that may be Python's None. */
  datatype Option<+T> = None | Some(value: T)

  /** The outcome of a Python call that may raise: it returns a value, or
      it raises an exception whose `str(e)` is `error`. */
  datatype Outcome<+T> = Value(value: T) | Raised(error: string)
}
