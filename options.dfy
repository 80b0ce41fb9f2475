/** The JavaScript `null`-or-value shape used throughout the tracker's records. */
module Options {

  datatype Option<T> = None | Some(value: T)

  /** `x || 0` on a number that may be missing: a missing value counts as 0. */
  function OrZero(x: Option<int>): (r: int)
  {
    match x
    case None => 0
    case Some(v) => v
  }
}
