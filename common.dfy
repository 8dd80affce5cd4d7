/** Option and Result, the two wrappers every other module uses for JavaScript's
    `null`/`undefined` and for thrown errors. */
module Common {

  /** `None` stands for JavaScript's `null` or `undefined`. */
  datatype Option<+T> = None | Some(value: T) {
    function GetOr(default: T): T {
      match this
      case Some(v) => v
      case None => default
    }
  }

  /** `Failure` stands for a thrown `Error` (or a rejected promise) and carries its message. */
  datatype Result<+R, +E> = Success(value: R) | Failure(error: E)
}
