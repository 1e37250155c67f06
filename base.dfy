/** Failure-carrying results for the library's synchronous exceptions. */
module Base {

  /** An optional argument or attribute (Python `None` or a value). */
  datatype Option<+T> = None | Some(value: T) {
    function GetOr(default: T): T {
      match this
      case Some(v) => v
      case None => default
    }
  }

  /** The two exception kinds the core raises. */
  datatype Error = TypeError(message: string) | ValueError(message: string)

  /** A call that either returned or raised. */
  datatype Result<+T> = Success(value: T) | Failure(error: Error)

  /** A call whose return value is `self` (a setter) or nothing: it only succeeds or raises. */
  datatype Outcome = Pass | Fail(error: Error)

  /** The error of a two-name unpacking `a, b = xs` when `xs` has `n` values instead of two. */
  function PairUnpackError(n: nat): (e: Error)
    requires n != 2
    ensures e.ValueError?
  {
    if n > 2 then ValueError("too many values to unpack (expected 2)")
    else if n == 1 then ValueError("not enough values to unpack (expected 2, got 1)")
    else ValueError("not enough values to unpack (expected 2, got 0)")
  }
}
