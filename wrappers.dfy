/** Small failure-carrying datatypes shared by every module. */
module Wrappers {

  /** A Python value that may be `None`. */
  datatype Option<T> = None | Some(value: T)

  /** The result of calling a Python operation: it either returned a value or raised an exception. */
  datatype Outcome<T> = Returned(value: T) | Raised

  /** Python's `None` for an `Optional[Optional[T]]` collapsed into one level, as when a retried
      operation that may itself return `None` is awaited. */
  function Flatten<T>(o: Option<Option<T>>): (r: Option<T>)
    ensures r.Some? <==> o.Some? && o.value.Some?
    ensures r.Some? ==> r.value == o.value.value
  {
    match o
    case Some(Some(v)) => Some(v)
    case _ => None
  }
}
