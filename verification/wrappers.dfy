/** Option and Result, the two failure-carrying shapes the model uses in
    place of Ruby's `nil` and Ruby's raised exceptions. */
module Wrappers {

  /** `None` stands for Ruby's `nil` in an optional argument or attribute. */
  datatype Option<+T> = None | Some(value: T) {

    /** Ruby's `x || fallback` for a value that is never `false`:
        the fallback is taken only when this is `None`. */
    function OrElse(fallback: Option<T>): (r: Option<T>)
      ensures Some? ==> r == this
      ensures None? ==> r == fallback
    {
      match this
      case Some(_) => this
      case None => fallback
    }

    function GetOr(default: T): T {
      match this
      case Some(v) => v
      case None => default
    }
  }

  /** A call that either returns `value` or raises `error`. */
  datatype Result<+R, +E> = Success(value: R) | Failure(error: E)
}
