/** The dice of one action (Dado.rolar, random.random), supplied from outside. */
module Dado {

  /** The outcomes one attack or ability may draw: the d4, d6, d8 and d20 rolls of
      Dado.rolar(1, n) and the Orc's critical-hit draw, already decided. Each
      formula reads only the fields it needs. */
  datatype Dados = Dados(d4: int, d6: int, d8: int, d20: int, critico: bool) {

    /** Every roll lies in the inclusive range of its die. */
    predicate Validos() {
      1 <= d4 <= 4 && 1 <= d6 <= 6 && 1 <= d8 <= 8 && 1 <= d20 <= 20
    }
  }
}
