/** Option and Result values used where the Python source returns None or raises. */
module Wrappers {

  datatype Option<+T> = None | Some(value: T) {
    function GetOr(default: T): T {
      match this
      case Some(v) => v
      case None => default
    }
  }

  /** `Failure` stands for a Python exception escaping the modelled call. */
  datatype Result<+T> = Success(value: T) | Failure(error: string)
}
