/** Shared vocabulary: results, identifiers, and the microsecond clock.

    Every clock reading of the server is an integer number of microseconds since the Unix
    epoch, the resolution of the database's timestamp columns. */
module Base {
  datatype Option<+T> = None | Some(value: T)

  datatype Result<+T, +E> = Ok(value: T) | Err(error: E)

  type ID = nat
  type Time = int

  const SECOND: int := 1_000_000
  const MINUTE: int := 60 * SECOND
  const DAY: int := 86400 * SECOND

  function Max(a: int, b: int): int { if a < b then b else a }

  function Min(a: int, b: int): int { if a < b then a else b }
}
