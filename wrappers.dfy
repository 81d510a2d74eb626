/** Failure-carrying datatypes shared by the whole model.

    The application signals failures with Python exceptions. Only one
    distinction between them matters to the control flow: the brief and
    article orchestrators catch `ValueError` and nothing narrower, every other
    exception is caught only by the generic `except Exception` handlers. */
module Wrappers {

  datatype Option<+T> = None | Some(value: T)

  /** A raised exception, reduced to its class and its `str(exc)` text. */
  datatype Exception =
    | ValueError(msg: string)
    | OtherError(msg: string)
  {
    /** `str(exc)` */
    function Message(): string {
      msg
    }
  }

  /** The outcome of a call that may raise. */
  datatype Result<+T> = Ok(value: T) | Err(error: Exception)
}
