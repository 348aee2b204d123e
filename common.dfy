/** Small value wrappers shared by the other modules: TypeScript's `T | null`
    fields become `Option<T>`, and tagged success/failure results become
    `Result<T, E>`. */
module Common {

  datatype Option<+T> = None | Some(value: T) {
    /** The wrapped value, or `default` when there is none. */
    function GetOr(default: T): T {
      match this
      case Some(v) => v
      case None => default
    }
  }

  datatype Result<+T, +E> = Success(value: T) | Failure(error: E)
}
