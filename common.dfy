/** Shared value types: optional values, results, the error kinds of the
    toolkit and the fixed-width integer ranges the Rust code uses. */
module Common {

  datatype Option<+T> = None | Some(value: T)

  datatype Result<+T, +E> = Ok(value: T) | Err(error: E)

  /** The recoverable error kinds (`GymError`). */
  datatype GymError =
    | InvalidAction(msg: string)
    | InvalidObservation(msg: string)
    | NotReady(msg: string)
    | NotSupported(msg: string)
    | Other(msg: string)

  const U64_LIMIT: int := 0x1_0000_0000_0000_0000
  const U32_LIMIT: int := 0x1_0000_0000

  type u8 = x: int | 0 <= x < 256
  type u32 = x: int | 0 <= x < 0x1_0000_0000
  type u64 = x: int | 0 <= x < 0x1_0000_0000_0000_0000

  /** `a.min(b)` / `a.max(b)` on integers. */
  function Min(a: int, b: int): int { if a <= b then a else b }
  function Max(a: int, b: int): int { if a <= b then b else a }
}
