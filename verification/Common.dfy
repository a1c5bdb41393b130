/** Small shared datatypes and arithmetic. */
module Common {
  datatype Option<+T> = None | Some(value: T)

  datatype Result<+T, +E> = Ok(value: T) | Err(error: E)

  /** A second in nanoseconds. */
  const SECOND := 1_000_000_000

  function Pow2(n: nat): nat { if n == 0 then 1 else 2 * Pow2(n - 1) }
}
