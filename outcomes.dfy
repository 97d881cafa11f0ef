/** Optional values, the exceptions the promotion stage can raise, and results that carry them. */
module Outcomes {

  /** Python's `Optional[T]`: `None` or a value. */
  datatype Option<T> = None | Some(value: T) {

    /** The value, or `default` when there is none (`default if x is None else x`). */
    function GetOr(default: T): T {
      match this
      case Some(v) => v
      case None => default
    }
  }

  /** The exceptions the stage distinguishes. */
  datatype Error =
    | FileNotFound(path: string)   // FileNotFoundError: no file at `path`
    | SameFile(path: string)       // shutil.SameFileError: source and destination are one file
    | Unpickling(path: string)     // pickle.load could not rebuild an object from the stored bytes
    | KeyError(key: string)        // pandas: the frame has no column `key`
    | CastError(column: string)    // pandas astype(int): a value of `column` has no integer form
    | MyException(cause: Error)    // the project's own exception, wrapping the one it caught

  /** A value, or the exception raised instead of returning it. */
  datatype Result<T> = Ok(value: T) | Err(error: Error)

  /** Completion of an operation that returns nothing. */
  datatype Outcome = Pass | Fail(error: Error)

  /** `except Exception as e: raise MyException(e, sys)` around a call that returns `r`. */
  function Reraise<T>(r: Result<T>): (w: Result<T>)
    ensures w.Ok? <==> r.Ok?
    ensures w.Ok? ==> w.value == r.value
    ensures w.Err? ==> w.error == MyException(r.error) && w.error.cause == r.error
  {
    match r
    case Ok(v) => Ok(v)
    case Err(e) => Err(MyException(e))
  }
}
