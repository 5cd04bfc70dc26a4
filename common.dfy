/** Small datatypes shared by every module: nullable values and results
    of operations that can be rejected. */
module Common {

  /** A column or variable that may hold `null` (or `undefined`). */
  datatype Option<+T> = None | Some(value: T) {
    /** JavaScript `x ?? d` (and `x || d` when `x` cannot be falsy). */
    function GetOr(default: T): T {
      match this
      case Some(v) => v
      case None => default
    }
  }

  /** The outcome of an operation that either succeeds with a value or is
      rejected with a message (a thrown `Error` in the source). */
  datatype Result<+R> = Ok(value: R) | Err(message: string)

  /** JavaScript `x || 0` on a nullable integer column. */
  function OrZero(x: Option<int>): int {
    x.GetOr(0)
  }
}
