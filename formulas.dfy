/** The damage formulas of the character archetypes and of the two abilities, as
    functions of the attacker's stats and of the dice of the action. */
module Formulas {
  import opened Comum
  import opened Dado

  /** The concrete character classes. Goblin inherits Monstro's attack; the Orc's
      critical chance is a float and is replaced by the `critico` draw in Dados. */
  datatype Arquetipo =
    | Guerreiro
    | Mago(poderMagico: int)
    | Arqueiro(precisao: int)
    | Monstro
    | Goblin
    | Orc

  /** The stateless abilities. */
  datatype Habilidade = AtaqueForte | BolaDeFogo

  /** The ability's class name, which lookup by name compares against. */
  function NomeDaClasse(h: Habilidade): string {
    match h
    case AtaqueForte => "AtaqueForte"
    case BolaDeFogo => "BolaDeFogo"
  }

  /** `int(forca * 1.8)`: Python's int() truncates toward zero. */
  function ForcaVezes18(forca: int): (r: int)
    ensures 0 <= forca ==> 0 <= r && 5 * r <= 9 * forca < 5 * r + 5
    ensures forca < 0 ==> r <= 0 && 9 * forca <= 5 * r < 9 * forca + 5
  {
    if forca >= 0 then (forca * 9) / 5 else -((-forca * 9) / 5)
  }

  /** `getattr(usuario, "poder_magico", 10)`: only a Mage carries a magic power. */
  function PoderMagico(tipo: Arquetipo): int {
    if tipo.Mago? then tipo.poderMagico else 10
  }

  /** The damage of `atacar`, given the attacker's archetype and attack power;
      None when the Archer's d20 exceeds its precision and the shot misses. */
  function DanoAtaque(tipo: Arquetipo, poder: int, d: Dados): (r: Option<int>)
    requires d.Validos()
    ensures r.None? <==> tipo.Arqueiro? && d.d20 > tipo.precisao
    ensures (tipo.Guerreiro? || tipo.Arqueiro? || tipo.Monstro? || tipo.Goblin?) && r.Some? ==>
              poder + 1 <= r.value <= poder + 4
    ensures r.Some? && tipo.Mago? ==> tipo.poderMagico + 1 <= r.value <= tipo.poderMagico + 6
    ensures r.Some? && tipo.Orc? ==>
              var base := if d.critico then 2 * poder else poder;
              base + 1 <= r.value <= base + 6
  {
    match tipo
    case Guerreiro => Some(poder + d.d4)
    case Mago(m) => Some(m + d.d6)
    case Arqueiro(precisao) => if d.d20 <= precisao then Some(poder + d.d4) else None
    case Monstro => Some(poder + d.d4)
    case Goblin => Some(poder + d.d4)
    case Orc => Some((if d.critico then 2 * poder else poder) + d.d6)
  }

  /** The damage of an ability used by a character of archetype `tipo` and strength `forca`. */
  function DanoHabilidade(h: Habilidade, tipo: Arquetipo, forca: int, d: Dados): (r: int)
    requires d.Validos()
    ensures h.AtaqueForte? ==> ForcaVezes18(forca) + 1 <= r <= ForcaVezes18(forca) + 4
    ensures h.BolaDeFogo? ==> PoderMagico(tipo) + 6 <= r <= PoderMagico(tipo) + 13
  {
    match h
    case AtaqueForte => ForcaVezes18(forca) + d.d4
    case BolaDeFogo => PoderMagico(tipo) + d.d8 + 5
  }

  /** A Mage's attack ignores the attack power, hence the weapon. */
  lemma MagoIgnoraArma(m: int, poder1: int, poder2: int, d: Dados)
    requires d.Validos()
    ensures DanoAtaque(Mago(m), poder1, d) == DanoAtaque(Mago(m), poder2, d)
  {
  }

  /** A Goblin hits exactly like the Monster it derives from. */
  lemma GoblinComoMonstro(poder: int, d: Dados)
    requires d.Validos()
    ensures DanoAtaque(Goblin, poder, d) == DanoAtaque(Monstro, poder, d)
  {
  }

  /** The Orc's critical hit doubles the base before the d6 is added: with the same d6
      it deals exactly one attack power more than a normal hit. */
  lemma OrcCriticoDobraBase(poder: int, d: Dados)
    requires d.Validos()
    ensures DanoAtaque(Orc, poder, d.(critico := true)).value
         == DanoAtaque(Orc, poder, d.(critico := false)).value + poder
  {
  }

  /** With non-negative stats every hit and every ability deals non-negative damage,
      so the negative-damage error of receber_dano is never reached. */
  lemma DanoNaoNegativo(tipo: Arquetipo, forca: int, poder: int, h: Habilidade, d: Dados)
    requires d.Validos() && 0 <= forca && 0 <= poder
    requires tipo.Mago? ==> 0 <= tipo.poderMagico
    ensures DanoAtaque(tipo, poder, d).Some? ==> 0 <= DanoAtaque(tipo, poder, d).value
    ensures 0 <= DanoHabilidade(h, tipo, forca, d)
  {
  }
}
