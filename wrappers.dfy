/** Optional values (a Java reference that may be null) and results of
    operations that may throw (a Java exception becomes an Err value). */
module Wrappers {

  datatype Option<+T> = None | Some(value: T) {
    function GetOr(default: T): T {
      match this
      case Some(v) => v
      case None => default
    }
  }

  /** The exception kinds the modelled code raises or catches (the last
      one is the JavaScript error of reading an undeclared name).
      EmptyResult is what CAP's Result.single throws when no row matched;
      its text is CAP's own, so the model carries the key looked up in its
      place. */
  datatype Failure =
    | BusinessException(message: string)
    | IllegalArgument(message: string)
    | UnsupportedOperation(message: string)
    | ClassNotFound(message: string)
    | ClassCast(message: string)
    | Runtime(message: string)
    | Interrupted(message: string)
    | ReferenceError(message: string)
    | EmptyResult(message: string)

  datatype Result<+T> = Ok(value: T) | Err(error: Failure)
}
