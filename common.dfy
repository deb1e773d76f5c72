/** Small shared vocabulary: nullable values, typed failures and identifiers. */
module Common {

  /** A Java reference that may be `null`. */
  datatype Option<+T> = None | Some(value: T)

  /** The outcome of a pure transition: the new value, or the exception the service throws. */
  datatype Result<+T, +E> = Ok(value: T) | Err(error: E)

  /** The outcome of a `void` service method: it returned, or it threw. */
  datatype Outcome<+E> = Pass | Fail(error: E)

  /** A user is identified by the key of its row; `User.equals` compares users by identity. */
  type UserId = nat

  /** The product registration number (`pdNum`), an opaque token. */
  type PdNum = string

  /** The order number (`orderNum`), an opaque token; here a counter value. */
  type OrderNum = nat

  /** A point in time, in whole minutes. */
  type Minutes = int
}
