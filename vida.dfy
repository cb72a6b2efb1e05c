/** Hit points: the clamping `hp` setter and the damage and healing rules built on it. */
module Vida {
  import opened Comum

  /** The value the `hp` setter stores when asked to store `valor`. */
  function Clamp(valor: int, hpMax: int): (r: int)
    requires 0 <= hpMax
    ensures 0 <= r <= hpMax
    ensures 0 <= valor <= hpMax ==> r == valor
    ensures valor < 0 ==> r == 0
    ensures valor > hpMax ==> r == hpMax
  {
    if valor < 0 then 0
    else if valor > hpMax then hpMax
    else valor
  }

  /** The stored value is the point of [0, hpMax] closest to the requested one. */
  lemma ClampMaisProximo(valor: int, hpMax: int, y: int)
    requires 0 <= hpMax && 0 <= y <= hpMax
    ensures Distancia(Clamp(valor, hpMax), valor) <= Distancia(y, valor)
  {
  }

  function Distancia(x: int, y: int): nat {
    if x <= y then y - x else x - y
  }

  /** Storing twice is storing once. */
  lemma ClampIdempotente(valor: int, hpMax: int)
    requires 0 <= hpMax
    ensures Clamp(Clamp(valor, hpMax), hpMax) == Clamp(valor, hpMax)
  {
  }

  /** The hp that `receber_dano(dano)` leaves behind, or its error: negative damage is
      refused, other damage lowers hp and floors it at zero. */
  function AposDano(hp: int, hpMax: int, dano: int): (r: Result<int>)
    requires 0 <= hp <= hpMax
    ensures r.Err? <==> dano < 0
    ensures r.Err? ==> r.error == DanoNegativo
    ensures r.Ok? ==> r.value == (if hp - dano < 0 then 0 else hp - dano)
    ensures r.Ok? ==> 0 <= r.value <= hp
  {
    if dano < 0 then Err(DanoNegativo) else Ok(Clamp(hp - dano, hpMax))
  }

  /** The hp a potion of `cura` leaves behind (through the same setter). */
  function AposCura(hp: int, hpMax: int, cura: int): (r: int)
    requires 0 <= hp <= hpMax
    ensures 0 <= r <= hpMax
    ensures 0 <= cura ==> r == (if hp + cura > hpMax then hpMax else hp + cura)
    ensures cura < 0 ==> r == (if hp + cura < 0 then 0 else hp + cura)
  {
    Clamp(hp + cura, hpMax)
  }
}
