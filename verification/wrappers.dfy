/** Option and Result: the null-or-value and value-or-error shapes the dashboard code
    expresses with `T | null` and with thrown `Error`s. */
module Wrappers {

  datatype Option<+T> = None | Some(value: T) {

    /** `value ?? default` */
    function GetOr(default: T): T {
      match this
      case Some(v) => v
      case None => default
    }
  }

  datatype Result<+T, +E> = Ok(value: T) | Err(error: E)
}
