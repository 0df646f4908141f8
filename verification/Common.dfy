/** Values shared by every module: optional values, outcomes, and instants. */
module Common {

  datatype Option<+T> = None | Some(value: T)

  datatype Result<+T, +E> = Ok(value: T) | Err(error: E)

  /** An instant, in milliseconds since the Unix epoch. */
  type Time = nat

  /** A reference string issued by Campay; only equality matters. */
  type Ref = nat

  function Bit(b: bool): int { if b then 1 else 0 }
}
