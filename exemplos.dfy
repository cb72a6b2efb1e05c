/** The engine's own test scenarios, replayed through the model's contracts. */
module Exemplos {
  import opened Comum
  import opened Formulas
  import opened Personagens
  import opened Habilidades
  import opened Dado
  import opened Batalhas

  /** Strength 10 and no weapon give attack power 10; a weapon of damage 5 makes it 15. */
  method PoderComEsemArma() returns (semArma: int, comArma: int)
    ensures semArma == 10 && comArma == 15
  {
    var g := new Personagem.NovoGuerreiro("SemArma", 50, 10);
    semArma := g.PoderAtaque();
    var arma := new Arma("Teste", 5);
    g.EquiparArma(arma);
    comArma := g.PoderAtaque();
  }

  /** A Mage with hp_max 10 taking 50 damage ends at hp 0, dead. */
  method MagoRecebeDanoLetal() returns (hp: int, vivo: bool)
    ensures hp == 0 && !vivo
  {
    var m := new Personagem.NovoMago("M", 10, 2, 5);
    var r := m.ReceberDano(50);
    hp, vivo := m.hp, m.EstaVivo();
  }

  /** Negative damage raises and leaves hp alone. */
  method DanoNegativoRecusado() returns (r: Result<Relato>, hp: int)
    ensures r == Err(DanoNegativo) && hp == 80
  {
    var m := new Personagem.NovoMago("M");
    r := m.ReceberDano(-1);
    hp := m.hp;
  }

  /** A Warrior who owns AtaqueForte finds it as "ataqueforte" and hits an Orc. */
  method AtaqueFortePorNome(d: Dados) returns (achou: bool)
    requires d.Validos()
    ensures achou
  {
    var heroi := new Personagem.NovoGuerreiro("Her");
    heroi.habilidades := heroi.habilidades + [AtaqueForte];
    var orc := new Personagem.NovoOrc();
    AtaqueForteSemCaixa();
    var res := UsarHabilidadePorNome(heroi, "ataqueforte", orc, d);
    achou := res.Some?;
  }

  /** A duel between a fresh Warrior and a default Goblin returns a character, when the
      rolls last: one of the two fighters, alive. */
  method DueloDevolvePersonagem(turnos: seq<Turno>) returns (r: Result<Vencedor>, heroi: Personagem, monstro: Personagem)
    requires TurnosValidos(turnos, 2)
    ensures r.Ok? ==> (r == Ok(Campeao(heroi)) || r == Ok(Campeao(monstro))) && r.value.p.EstaVivo()
  {
    heroi := new Personagem.NovoGuerreiro("Her");
    monstro := new Personagem.NovoGoblin();
    var batalha := new Batalha(Um(heroi), Um(monstro));
    ghost var log;
    r, log := batalha.Iniciar(turnos);
  }

  /** An innate attack whose d4 comes up 4 (the other rolls go unused). */
  const Quatro := Turno(2, 0, 0, Dados(4, 1, 1, 1, false))

  /** Five such attacks. */
  const Quatros := [Quatro, Quatro, Quatro, Quatro, Quatro]

  /** Hits of 15 + 4 by the Warrior and 8 + 4 by the Goblin, the Warrior first: the
      Goblin falls on the fifth action, with the Warrior at 120 - 2 * 12. */
  lemma DueloDeQuatros(h: Personagem, g: Personagem, F: map<Personagem, Ficha>, s0: map<Personagem, int>)
    requires h != g && h.tipo == Arquetipo.Guerreiro && h.forca == 15 && h.hpMax == 120
    requires g.tipo == Arquetipo.Goblin && g.forca == 8 && g.hpMax == 50
    requires h in F && g in F && F[h] == Ficha(15, []) && F[g] == Ficha(8, [])
    requires h in s0 && g in s0 && s0[h] == 120 && s0[g] == 50
    ensures TurnosValidos(Quatros, 2)
    ensures var o := Combate(Um(h), Um(g), F, s0, Quatros);
            var fim := Estado(o.1, s0);
            o.0 == Ok(Campeao(h)) && h in fim && g in fim && fim[h] == 96 && fim[g] == 0
  {
    var T, fh, fg := Quatros, F[h], F[g];
    assert T[0] == T[1] == T[2] == T[3] == T[4] == Quatro;
    var e0 := Executar(h, g, Quatro, fh, s0);
    assert e0.hpAlvoDepois == 31;
    var s1 := e0.Depois();
    var e1 := Executar(g, h, Quatro, fg, s1);
    assert e1.hpAlvoDepois == 108;
    var s2 := e1.Depois();
    var e2 := Executar(h, g, Quatro, fh, s2);
    assert e2.hpAlvoDepois == 12;
    var s3 := e2.Depois();
    var e3 := Executar(g, h, Quatro, fg, s3);
    assert e3.hpAlvoDepois == 96;
    var s4 := e3.Depois();
    var e4 := Executar(h, g, Quatro, fh, s4);
    assert e4.hpAlvoDepois == 0;
    var s5 := e4.Depois();
    assert s5[h] == 96 && s5[g] == 0;
    assert Duelar(h, g, fh, fg, s5, T, 5) == (Ok(h), []);
    assert [e4] + [] == [e4];
    assert Duelar(h, g, fh, fg, s4, T, 4) == (Ok(h), [e4]);
    assert [e3] + [e4] == [e3, e4];
    assert Duelar(h, g, fh, fg, s3, T, 3) == (Ok(h), [e3, e4]);
    assert [e2] + [e3, e4] == [e2, e3, e4];
    assert Duelar(h, g, fh, fg, s2, T, 2) == (Ok(h), [e2, e3, e4]);
    assert [e1] + [e2, e3, e4] == [e1, e2, e3, e4];
    assert Duelar(h, g, fh, fg, s1, T, 1) == (Ok(h), [e1, e2, e3, e4]);
    assert [e0] + [e1, e2, e3, e4] == [e0, e1, e2, e3, e4];
    assert Duelar(h, g, fh, fg, s0, T, 0) == (Ok(h), [e0, e1, e2, e3, e4]);
  }

  /** The duel of `DueloDevolvePersonagem` on rolls of 4: the Warrior wins at 96 hp and
      the Goblin ends at 0. */
  method DueloVencidoPeloGuerreiro() returns (r: Result<Vencedor>, heroi: Personagem, monstro: Personagem)
    ensures r == Ok(Campeao(heroi)) && heroi.hp == 96 && monstro.hp == 0
  {
    heroi := new Personagem.NovoGuerreiro("Her");
    monstro := new Personagem.NovoGoblin();
    var batalha := new Batalha(Um(heroi), Um(monstro));
    ghost var todos := [heroi] + [monstro];
    assert heroi in todos && monstro in todos;
    DueloDeQuatros(heroi, monstro, FichasDe(todos), HpDe(todos));
    ghost var log;
    r, log := batalha.Iniciar(Quatros);
    assert HpDe(todos)[heroi] == heroi.hp && HpDe(todos)[monstro] == monstro.hp;
  }
}
