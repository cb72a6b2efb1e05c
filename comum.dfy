/** Shared result types of the combat engine. */
module Comum {

  /** An optional value: the engine's "not found" sentinel (Python's None). */
  datatype Option<+T> = None | Some(value: T)

  /** A value or the error that aborted the operation (Python's raised exception). */
  datatype Result<+T> = Ok(value: T) | Err(error: Erro)

  /** Errors the engine can surface.
      DanoNegativo: receber_dano was given a negative amount (the source raises ValueError).
      RolagensEsgotadas: the supplied sequence of random outcomes ran out before the battle ended. */
  datatype Erro = DanoNegativo | RolagensEsgotadas
}
