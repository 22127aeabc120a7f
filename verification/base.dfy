/** Optional values and results shared by every module of the model. */
module Base {

  /** Python's `None` / JavaScript's `null` as an explicit alternative. */
  datatype Option<+T> = None | Some(value: T) {
    function GetOr(default: T): T {
      match this
      case Some(v) => v
      case None => default
    }
  }

  /** A value or the error that the source raises or returns instead. */
  datatype Result<+T, +E> = Ok(value: T) | Err(error: E)

  /** The `priority` tag ('high', 'medium', 'low') of a suggestion or recommendation. */
  datatype Priority = High | Medium | Low

  function Min(a: int, b: int): int { if a <= b then a else b }
  function Max(a: int, b: int): int { if a >= b then a else b }
  function MinReal(a: real, b: real): real { if a <= b then a else b }
}
