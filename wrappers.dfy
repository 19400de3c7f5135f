/** Optional values and results with an error message, shared by every module. */
module Wrappers {

  /** A value that may be absent; also stands for a dictionary key that is not present. */
  datatype Option<T> = None | Some(value: T)
  {
    function GetOr(default: T): (r: T)
      ensures this.Some? ==> r == value
      ensures this.None? ==> r == default
    {
      match this
      case Some(v) => v
      case None => default
    }
  }

  /** The outcome of an operation that can raise: `Failure` carries the exception text. */
  datatype Result<T> = Success(value: T) | Failure(error: string)
}
