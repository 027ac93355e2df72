/** Small value wrappers shared by every module of the dashboard model. */
module Common {

  /** A value that may be absent (a JavaScript `null`). */
  datatype Option<+T> = None | Some(value: T)

  /** How a promise settles: with a value, or rejected with an error message. */
  datatype Settled<+T> = Fulfilled(value: T) | Rejected(reason: string)

  function Min(a: int, b: int): int { if a <= b then a else b }

  function MinReal(a: real, b: real): real { if a <= b then a else b }

  function MaxReal(a: real, b: real): real { if a >= b then a else b }
}
