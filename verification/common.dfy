/** Values shared by every part of the dashboard model. */
module Common {

  /** A value that may be absent: `null`/`undefined` in the dashboard's own code. */
  datatype Option<+T> = None | Some(value: T)

  /** `q` is `n / d` rounded half up to a whole number. */
  predicate RoundedQuotient(n: int, d: int, q: int) {
    2 * d * q - d <= 2 * n < 2 * d * q + d
  }
}
