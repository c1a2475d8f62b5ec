/** The two wrapper types shared by the model: `Option` for Ruby's
    nil-or-value results and `Result` for "returns a value or raises". */
module Wrappers {

  datatype Option<+T> = None | Some(value: T) {

    /** The value, or `default` when None (Ruby's `x || default`). */
    function GetOr(default: T): (r: T)
      ensures Some? ==> r == value
      ensures None? ==> r == default
    {
      match this
      case Some(v) => v
      case None => default
    }
  }

  datatype Result<+R, +E> = Success(value: R) | Failure(error: E)
}
