/** Failure-carrying values shared by the layer models. */
module Wrappers {

  /** A JavaScript value that may be null or undefined. */
  datatype Option<+T> = None | Some(value: T)
  {
    /** The `(null != x) ? x : fallback` idiom of the layers. */
    function GetOr(fallback: T): T
    {
      match this
      case Some(v) => v
      case None => fallback
    }
  }

  /** The JavaScript exceptions the modelled code can raise. */
  datatype JsError = TypeError

  /** The result of a call that either returns a value or throws. */
  datatype Result<+T> = Ok(value: T) | Err(error: JsError)

  /** The result of a call that returns nothing of interest or throws. */
  datatype Outcome = Pass | Fail(error: JsError)
}
