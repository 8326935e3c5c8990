/** Small failure-carrying wrappers shared by every module of the model.
    C# `null` becomes `None`; a caught exception becomes `Err` with its message. */
module Common {

  datatype Option<+T> = None | Some(value: T) {
    /** The C# `x ?? fallback` operator. */
    function GetOr(fallback: T): T {
      match this
      case Some(v) => v
      case None => fallback
    }
  }

  datatype Result<+T, +E> = Ok(value: T) | Err(error: E)
}
