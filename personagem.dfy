/** Items, the inventory and the character: the mutable state of the combat engine. */
module Personagens {
  import opened Comum
  import opened Dado
  import opened Vida
  import opened Listas
  import opened Formulas

  /** A weapon: immutable after construction, shareable between characters. */
  class Arma {
    const nome: string
    const dano: int

    constructor (nome: string, dano: int)
      ensures this.nome == nome && this.dano == dano
    {
      this.nome := nome;
      this.dano := dano;
    }
  }

  /** What an action reports: the damage dealt with the target's hp before and after,
      an Archer's miss with its d20, or a heal with hp before and after. */
  datatype Relato =
    | Golpe(dano: int, antes: int, depois: int)
    | Errou(rolagem: int)
    | Cura(antes: int, depois: int)

  /** A potion heals its target by `cura` through the clamping setter. */
  class Pocao {
    const nome: string
    const cura: int

    constructor (nome: string, cura: int)
      ensures this.nome == nome && this.cura == cura
    {
      this.nome := nome;
      this.cura := cura;
    }

    method Usar(alvo: Personagem) returns (r: Relato)
      requires alvo.Valid()
      modifies alvo`hp
      ensures alvo.Valid()
      ensures alvo.hp == AposCura(old(alvo.hp), alvo.hpMax, cura)
      ensures r == Cura(old(alvo.hp), alvo.hp)
    {
      var anterior := alvo.hp;
      alvo.SetHp(alvo.hp + cura);
      r := Cura(anterior, alvo.hp);
    }
  }

  /** What an inventory can hold; equality of items is identity of the objects. */
  datatype Item = ItemArma(arma: Arma) | ItemPocao(pocao: Pocao)

  /** No potion among the first `n` items. */
  predicate SemPocaoAte(itens: seq<Item>, n: nat)
    requires n <= |itens|
  {
    forall j :: 0 <= j < n ==> !itens[j].ItemPocao?
  }

  /** An ordered collection of items. */
  class Inventario {
    var itens: seq<Item>

    constructor ()
      ensures itens == []
    {
      itens := [];
    }

    method Adicionar(item: Item)
      modifies this`itens
      ensures itens == old(itens) + [item]
    {
      itens := itens + [item];
    }

    /** Removes the first occurrence of `item` and says whether there was one. */
    method Remover(item: Item) returns (ok: bool)
      modifies this`itens
      ensures ok <==> item in old(itens)
      ensures itens == SemPrimeira(old(itens), item)
    {
      if item in itens {
        itens := SemPrimeira(itens, item);
        ok := true;
      } else {
        ok := false;
      }
    }

    /** A copy of the items in insertion order (a value: later changes do not reach it). */
    method Listar() returns (r: seq<Item>)
      ensures |r| == |itens| && forall i :: 0 <= i < |r| ==> r[i] == itens[i]
    {
      r := itens;
    }

    /** The first potion in list order, or None when there is none. */
    method EncontrarPocao() returns (r: Option<Pocao>)
      ensures r.None? <==> SemPocaoAte(itens, |itens|)
      ensures r.Some? ==> exists i :: 0 <= i < |itens| && itens[i] == ItemPocao(r.value) && SemPocaoAte(itens, i)
    {
      var i := 0;
      while i < |itens|
        invariant 0 <= i <= |itens|
        invariant SemPocaoAte(itens, i)
      {
        if itens[i].ItemPocao? {
          return Some(itens[i].pocao);
        }
        i := i + 1;
      }
      return None;
    }
  }

  /** `receber_dano` on values: the report and the target's new hp that damage `dano`
      produces from `antes`. Negative damage is the only error and leaves hp alone;
      other damage lowers hp, floored at 0, and the report records it. */
  function Receber(antes: int, hpMax: int, dano: int): (o: (Result<Relato>, int))
    requires 0 <= antes <= hpMax
    ensures o.0.Err? <==> dano < 0
    ensures o.0.Err? ==> o == (Err(DanoNegativo), antes)
    ensures o.0.Ok? ==> o.1 == (if antes - dano < 0 then 0 else antes - dano) && o.0 == Ok(Golpe(dano, antes, o.1))
  {
    match AposDano(antes, hpMax, dano)
    case Err(e) => (Err(e), antes)
    case Ok(h) => (Ok(Golpe(dano, antes, h)), h)
  }

  /** The report and the target's new hp of an attack: a miss (None) reports its d20 and
      changes nothing, a hit is `receber_dano` of its damage. An attack never heals, and
      it fails exactly when its damage is negative. */
  function Resolver(golpe: Option<int>, d: Dados, antes: int, hpMax: int): (o: (Result<Relato>, int))
    requires 0 <= antes <= hpMax
    ensures 0 <= o.1 <= antes
    ensures o.0.Err? ==> o.0 == Err(DanoNegativo)
  {
    match golpe
    case None => (Ok(Errou(d.d20)), antes)
    case Some(dano) => Receber(antes, hpMax, dano)
  }

  /** A character. The archetype tag stands for the subclass; only hp, the weapon and
      the ability list change after construction. */
  class Personagem {
    const nome: string
    const hpMax: int
    var hp: int
    const forca: int
    var arma: Arma?
    const inventario: Inventario
    var habilidades: seq<Habilidade>
    const tipo: Arquetipo

    /** The hp invariant: 0 <= hp <= hp_max. */
    predicate Valid()
      reads this`hp
    {
      0 <= hp <= hpMax
    }

    /** The state a fresh character starts in: full hp, no weapon, no abilities, an empty inventory. */
    predicate Inicial(nome: string, hpMax: int, forca: int, tipo: Arquetipo)
      reads this, inventario
    {
      this.nome == nome && this.hpMax == hpMax && hp == hpMax && this.forca == forca
      && this.tipo == tipo && arma == null && habilidades == [] && inventario.itens == []
    }

    constructor (nome: string, hpMax: int, forca: int, tipo: Arquetipo)
      requires 0 <= hpMax
      ensures Valid() && Inicial(nome, hpMax, forca, tipo) && fresh(inventario)
    {
      this.nome, this.hpMax, this.hp, this.forca := nome, hpMax, hpMax, forca;
      this.arma, this.habilidades, this.tipo := null, [], tipo;
      this.inventario := new Inventario();
    }

    constructor NovoGuerreiro(nome: string, hpMax: int := 120, forca: int := 15)
      requires 0 <= hpMax
      ensures Valid() && Inicial(nome, hpMax, forca, Arquetipo.Guerreiro) && fresh(inventario)
    {
      this.nome, this.hpMax, this.hp, this.forca := nome, hpMax, hpMax, forca;
      this.arma, this.habilidades, this.tipo := null, [], Arquetipo.Guerreiro;
      this.inventario := new Inventario();
    }

    constructor NovoMago(nome: string, hpMax: int := 80, forca: int := 8, poderMagico: int := 20)
      requires 0 <= hpMax
      ensures Valid() && Inicial(nome, hpMax, forca, Arquetipo.Mago(poderMagico)) && fresh(inventario)
    {
      this.nome, this.hpMax, this.hp, this.forca := nome, hpMax, hpMax, forca;
      this.arma, this.habilidades, this.tipo := null, [], Arquetipo.Mago(poderMagico);
      this.inventario := new Inventario();
    }

    constructor NovoArqueiro(nome: string, hpMax: int := 90, forca: int := 10, precisao: int := 14)
      requires 0 <= hpMax
      ensures Valid() && Inicial(nome, hpMax, forca, Arquetipo.Arqueiro(precisao)) && fresh(inventario)
    {
      this.nome, this.hpMax, this.hp, this.forca := nome, hpMax, hpMax, forca;
      this.arma, this.habilidades, this.tipo := null, [], Arquetipo.Arqueiro(precisao);
      this.inventario := new Inventario();
    }

    constructor NovoGoblin(nome: string := "Goblin", hpMax: int := 50, forca: int := 8)
      requires 0 <= hpMax
      ensures Valid() && Inicial(nome, hpMax, forca, Arquetipo.Goblin) && fresh(inventario)
    {
      this.nome, this.hpMax, this.hp, this.forca := nome, hpMax, hpMax, forca;
      this.arma, this.habilidades, this.tipo := null, [], Arquetipo.Goblin;
      this.inventario := new Inventario();
    }

    constructor NovoOrc(nome: string := "Orc", hpMax: int := 100, forca: int := 12)
      requires 0 <= hpMax
      ensures Valid() && Inicial(nome, hpMax, forca, Arquetipo.Orc) && fresh(inventario)
    {
      this.nome, this.hpMax, this.hp, this.forca := nome, hpMax, hpMax, forca;
      this.arma, this.habilidades, this.tipo := null, [], Arquetipo.Orc;
      this.inventario := new Inventario();
    }

    /** The `hp` setter: every change of hp goes through it. */
    method SetHp(valor: int)
      requires 0 <= hpMax
      modifies this`hp
      ensures Valid()
      ensures hp == Clamp(valor, hpMax)
    {
      hp := Clamp(valor, hpMax);
    }

    predicate EstaVivo()
      reads this`hp
    {
      hp > 0
    }

    /** Strength plus the damage of the equipped weapon, if any. */
    function PoderAtaque(): int
      reads this`arma
    {
      forca + (if arma != null then arma.dano else 0)
    }

    method EquiparArma(a: Arma)
      modifies this`arma
      ensures arma == a
      ensures PoderAtaque() == forca + a.dano
    {
      arma := a;
    }

    /** Negative damage is refused and leaves hp alone; other damage lowers hp, floored at 0. */
    method ReceberDano(dano: int) returns (r: Result<Relato>)
      requires Valid()
      modifies this`hp
      ensures Valid()
      ensures (r, hp) == Receber(old(hp), hpMax, dano)
    {
      if dano < 0 {
        return Err(DanoNegativo);
      }
      var anterior := hp;
      SetHp(hp - dano);
      r := Ok(Golpe(dano, anterior, hp));
    }

    /** The archetype's own attack against `alvo`; only the target's hp changes. */
    method Atacar(alvo: Personagem, d: Dados) returns (r: Result<Relato>)
      requires alvo.Valid() && d.Validos()
      modifies alvo`hp
      ensures alvo.Valid()
      ensures (r, alvo.hp) == Resolver(DanoAtaque(tipo, PoderAtaque(), d), d, old(alvo.hp), alvo.hpMax)
    {
      var golpe := DanoAtaque(tipo, PoderAtaque(), d);
      match golpe
      case None =>
        r := Ok(Errou(d.d20));
      case Some(dano) =>
        r := alvo.ReceberDano(dano);
    }
  }
}
