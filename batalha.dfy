/** The battle orchestrator: one-on-one duels and team battles. */
module Batalhas {
  import opened Comum
  import opened Dado
  import opened Formulas
  import opened Personagens
  import opened Habilidades

  /** The random outcomes of one action, supplied in order: the roll that decides
      between an ability and the innate attack (1 means ability), the index behind
      random.choice of the ability and of the target (taken modulo the list's length),
      and the dice of the attack or ability itself. */
  datatype Turno = Turno(rolagemHab: int, hab: nat, alvo: nat, dados: Dados)

  /** Every roll in range; `faces` is 2 in a duel (Dado.rolar(1, 2)) and 3 in a team battle. */
  predicate TurnosValidos(turnos: seq<Turno>, faces: int) {
    forall i :: 0 <= i < |turnos| ==> 1 <= turnos[i].rolagemHab <= faces && turnos[i].dados.Validos()
  }


  /** One action of a battle: who acted on whom, the Turno it consumed, the attacker's
      Ficha, the hp of every participant just before it, the target's hp just after it,
      and what it reported. */
  datatype Acao = Acao(atacante: Personagem, alvo: Personagem, turno: Turno, ficha: Ficha,
                       antes: map<Personagem, int>, hpAlvoDepois: int, resultado: Result<Relato>)
  {
    /** The attacker's hp just before the action (0 for a character `antes` omits). */
    function HpAtacante(): int {
      if atacante in antes then antes[atacante] else 0
    }

    /** The target's hp just before the action (0 for a character `antes` omits). */
    function HpAlvo(): int {
      if alvo in antes then antes[alvo] else 0
    }

    /** The hp of every participant just after the action: only the target's moves. */
    function Depois(): map<Personagem, int> {
      antes[alvo := hpAlvoDepois]
    }
  }

  predicate AlgumVivo(xs: seq<Personagem>)
    reads xs
  {
    exists i :: 0 <= i < |xs| && xs[i].EstaVivo()
  }

  predicate TodosValidos(xs: seq<Personagem>)
    reads xs
  {
    forall i :: 0 <= i < |xs| ==> xs[i].Valid()
  }

  /** The two teams share no character. */
  predicate Disjuntas(a: seq<Personagem>, b: seq<Personagem>) {
    forall i, j :: 0 <= i < |a| && 0 <= j < |b| ==> a[i] != b[j]
  }

  /** `[p for p in xs if p.esta_vivo()]`. */
  function Vivos(xs: seq<Personagem>): (r: seq<Personagem>)
    reads xs
    ensures forall i :: 0 <= i < |r| ==> r[i] in xs && r[i].EstaVivo()
    ensures forall i :: 0 <= i < |xs| && xs[i].EstaVivo() ==> xs[i] in r
    ensures |r| > 0 <==> AlgumVivo(xs)
  {
    if xs == [] then []
    else (if xs[0].EstaVivo() then [xs[0]] else []) + Vivos(xs[1..])
  }

  /** What an action depends on in its attacker besides the archetype and strength: the
      attack power, weapon included, and the abilities. */
  datatype Ficha = Ficha(poder: int, habilidades: seq<Habilidade>)

  function FichaDe(p: Personagem): Ficha
    reads p`arma, p`habilidades
  {
    Ficha(p.PoderAtaque(), p.habilidades)
  }

  /** The damage an action deals: an ability chosen by `k` when `usaHab` holds and the
      attacker has abilities, otherwise the attacker's own attack (None: a miss). */
  function DanoDaAcao(tipo: Arquetipo, forca: int, f: Ficha, usaHab: bool, k: nat, d: Dados): Option<int>
    requires d.Validos()
  {
    if usaHab && |f.habilidades| > 0
    then Some(DanoHabilidade(f.habilidades[k % |f.habilidades|], tipo, forca, d))
    else DanoAtaque(tipo, f.poder, d)
  }

  /** One action: a random owned ability or the innate attack, against `alvo`. An action
      never raises the target's hp. */
  method Agir(atacante: Personagem, alvo: Personagem, usaHab: bool, k: nat, d: Dados) returns (r: Result<Relato>)
    requires alvo.Valid() && d.Validos()
    modifies alvo`hp
    ensures alvo.Valid()
    ensures alvo.hp <= old(alvo.hp)
    ensures (r, alvo.hp) == Resolver(DanoDaAcao(atacante.tipo, atacante.forca, FichaDe(atacante), usaHab, k, d),
                                     d, old(alvo.hp), alvo.hpMax)
  {
    if usaHab && |atacante.habilidades| > 0 {
      var h := atacante.habilidades[k % |atacante.habilidades|];
      r := Usar(h, atacante, alvo, d);
    } else {
      r := atacante.Atacar(alvo, d);
    }
  }


  /** The action did what its Turno dictates: the damage `DanoDaAcao` gives for the
      attacker's Ficha, applied to the hp the target had, as `Resolver` computes it. */
  ghost predicate Resolvida(e: Acao) {
    e.turno.dados.Validos() && 0 <= e.HpAlvo() <= e.alvo.hpMax &&
    (e.resultado, e.hpAlvoDepois)
    == Resolver(DanoDaAcao(e.atacante.tipo, e.atacante.forca, e.ficha, e.turno.rolagemHab == 1, e.turno.hab, e.turno.dados),
                e.turno.dados, e.HpAlvo(), e.alvo.hpMax)
  }

  /** Entry k of `log` consumed turnos[pos + k] and resolved it. */
  ghost predicate Executadas(log: seq<Acao>, turnos: seq<Turno>, pos: nat) {
    pos + |log| <= |turnos| &&
    forall k :: 0 <= k < |log| ==> log[k].turno == turnos[pos + k] && Resolvida(log[k])
  }

  /** The first action found the hp in `h0`, and every later one found the hp the action
      before it left; each found its attacker and its target among the participants. */
  ghost predicate Encadeadas(log: seq<Acao>, h0: map<Personagem, int>) {
    (|log| > 0 ==> log[0].antes == h0) &&
    (forall k :: 0 < k < |log| ==> log[k].antes == log[k - 1].Depois()) &&
    (forall k :: 0 <= k < |log| ==> log[k].atacante in log[k].antes && log[k].alvo in log[k].antes)
  }

  /** The hp of every participant once the actions of `log` are done, from `h0`. */
  ghost function Estado(log: seq<Acao>, h0: map<Personagem, int>): map<Personagem, int> {
    if log == [] then h0 else log[|log| - 1].Depois()
  }

  /** The hp of every member of `xs`. */
  function HpDe(xs: seq<Personagem>): map<Personagem, int>
    reads xs
  {
    map q | q in xs :: q.hp
  }

  /** The Ficha of every member of `xs`. */
  function FichasDe(xs: seq<Personagem>): map<Personagem, Ficha>
    reads xs
  {
    map q | q in xs :: FichaDe(q)
  }

  /** `s` gives every member of `xs` an hp within 0..hp_max. */
  ghost predicate Cobre(s: map<Personagem, int>, xs: seq<Personagem>) {
    forall q :: q in xs ==> q in s && 0 <= s[q] <= q.hpMax
  }

  /** `s` gives both fighters of a duel an hp within 0..hp_max. */
  ghost predicate Lutam(s: map<Personagem, int>, p1: Personagem, p2: Personagem) {
    p1 in s && p2 in s && 0 <= s[p1] <= p1.hpMax && 0 <= s[p2] <= p2.hpMax
  }

  /** Every action found its attacker and its target alive. */
  ghost predicate Vivas(log: seq<Acao>) {
    forall k :: 0 <= k < |log| ==> log[k].HpAtacante() > 0 && log[k].HpAlvo() > 0
  }

  /** Every action reported a hit or a miss. */
  ghost predicate TodasOk(log: seq<Acao>) {
    forall k :: 0 <= k < |log| ==> log[k].resultado.Ok?
  }

  /** Every action reported a hit or a miss, except that an action raising
      DanoNegativo is the last one and its error is the battle's. */
  predicate ErroDaUltima<T>(log: seq<Acao>, r: Result<T>) {
    if r.Err? && r.error == DanoNegativo
    then |log| > 0 && log[|log| - 1].resultado == Err(DanoNegativo) &&
         forall k :: 0 <= k < |log| - 1 ==> log[k].resultado.Ok?
    else forall k :: 0 <= k < |log| ==> log[k].resultado.Ok?
  }

  /** Every action of `log` was a member of `equipe` acting on a member of `inimigos`. */
  ghost predicate DeContra(log: seq<Acao>, equipe: seq<Personagem>, inimigos: seq<Personagem>) {
    forall k :: 0 <= k < |log| ==> log[k].atacante in equipe && log[k].alvo in inimigos
  }

  /** Every action of `log` was a member of one team acting on a member of the other. */
  ghost predicate EntreEquipes(log: seq<Acao>, ea: seq<Personagem>, eb: seq<Personagem>) {
    forall k :: 0 <= k < |log| ==>
      (log[k].atacante in ea && log[k].alvo in eb) || (log[k].atacante in eb && log[k].alvo in ea)
  }

  /** Entry t of a duel's log, played on turn `inicio + t`, is p1's against p2 when that
      turn is even, p2's against p1 otherwise. */
  ghost predicate Alterna(log: seq<Acao>, p1: Personagem, p2: Personagem, inicio: nat) {
    forall t :: 0 <= t < |log| ==>
      log[t].atacante == (if (inicio + t) % 2 == 0 then p1 else p2) &&
      log[t].alvo == (if (inicio + t) % 2 == 0 then p2 else p1)
  }

  /** Every turn of a duel starts from the hp the turn before left: the attacker has the
      hp the previous action left it, the target the hp it had when it attacked. */
  ghost predicate EmCadeia(log: seq<Acao>) {
    forall t :: 0 <= t < |log| - 1 ==>
      log[t + 1].HpAtacante() == log[t].hpAlvoDepois && log[t + 1].HpAlvo() == log[t].HpAtacante()
  }

  /** The members of `xs` alive by the hp in `hp`: `Vivos` read off a map. */
  ghost function VivosSegundo(xs: seq<Personagem>, hp: map<Personagem, int>): (r: seq<Personagem>)
    ensures forall q :: q in r ==> q in xs && q in hp && hp[q] > 0
    ensures r == [] <==> forall q :: q in xs && q in hp ==> hp[q] <= 0
  {
    if xs == [] then []
    else (if xs[0] in hp && hp[xs[0]] > 0 then [xs[0]] else []) + VivosSegundo(xs[1..], hp)
  }

  /** Each action of `log` hit the enemy its roll picks among those alive just before it. */
  ghost predicate Sorteados(log: seq<Acao>, inimigos: seq<Personagem>) {
    forall k :: 0 <= k < |log| ==>
      var vivos := VivosSegundo(inimigos, log[k].antes);
      |vivos| > 0 && log[k].alvo == vivos[log[k].turno.alvo % |vivos|]
  }

  /** A half round: action k was the k-th of `atacantes`, a member of `equipe` alive, against
      the living enemy its roll picks. */
  ghost predicate RodadaAte(log: seq<Acao>, equipe: seq<Personagem>, inimigos: seq<Personagem>, atacantes: seq<Personagem>) {
    |log| <= |atacantes| && (forall k :: 0 <= k < |log| ==> log[k].atacante == atacantes[k]) &&
    DeContra(log, equipe, inimigos) && Vivas(log) && Sorteados(log, inimigos)
  }

  /** The outcome `o` of what follows, with the actions of `log` done before it. */
  function Antecede<T>(log: seq<Acao>, o: (Result<T>, seq<Acao>)): (Result<T>, seq<Acao>) {
    (o.0, log + o.1)
  }

  /** The action `atacante` takes on `alvo` with Turno `t`, the attacker's Ficha `f` and
      the hp in `s`. */
  ghost function Executar(atacante: Personagem, alvo: Personagem, t: Turno, f: Ficha, s: map<Personagem, int>): (e: Acao)
    requires alvo in s && 0 <= s[alvo] <= alvo.hpMax && t.dados.Validos()
    ensures 0 <= e.hpAlvoDepois <= s[alvo]
    ensures e.resultado.Err? ==> e.resultado == Err(DanoNegativo)
  {
    var o := Resolver(DanoDaAcao(atacante.tipo, atacante.forca, f, t.rolagemHab == 1, t.hab, t.dados),
                      t.dados, s[alvo], alvo.hpMax);
    Acao(atacante, alvo, t, f, s, o.1, o.0)
  }

  /** A half round on values: from Turno `p` on, each of `atacantes` in order hits the
      living member of `inimigos` its roll picks, starting from the hp in `s`, until no
      enemy is alive; (the next Turno position or the error, the actions taken). */
  ghost function Rodada(atacantes: seq<Personagem>, inimigos: seq<Personagem>, F: map<Personagem, Ficha>,
                        s: map<Personagem, int>, turnos: seq<Turno>, p: nat): (Result<nat>, seq<Acao>)
    requires p <= |turnos| && TurnosValidos(turnos, 3)
    requires (forall q :: q in atacantes ==> q in F) && Cobre(s, inimigos)
    decreases |atacantes|
  {
    var vivos := VivosSegundo(inimigos, s);
    if atacantes == [] || vivos == [] then (Ok(p), [])
    else if p == |turnos| then (Err(RolagensEsgotadas), [])
    else
      var t := turnos[p];
      var e := Executar(atacantes[0], vivos[t.alvo % |vivos|], t, F[atacantes[0]], s);
      if e.resultado.Err? then (Err(e.resultado.error), [e])
      else
        var o := Rodada(atacantes[1..], inimigos, F, e.Depois(), turnos, p + 1);
        (o.0, [e] + o.1)
  }

  /** One action of a half round keeps the participants and the enemies' hp bounds. */
  lemma CobreUma(e: Acao, s: map<Personagem, int>, inimigos: seq<Personagem>)
    requires Cobre(s, inimigos) && e.antes == s && e.alvo in inimigos && 0 <= e.hpAlvoDepois <= s[e.alvo]
    ensures Cobre(e.Depois(), inimigos) && (forall q :: q in e.Depois() <==> q in s)
  {
  }

  /** One duel turn keeps the participants and both fighters' hp bounds. */
  lemma LutamApos(e: Acao, s: map<Personagem, int>, p1: Personagem, p2: Personagem)
    requires Lutam(s, p1, p2) && e.antes == s && (e.alvo == p1 || e.alvo == p2)
    requires 0 <= e.hpAlvoDepois <= s[e.alvo]
    ensures Lutam(e.Depois(), p1, p2) && (forall q :: q in e.Depois() <==> q in s)
  {
  }

  /** A duel on values: from turn `turno` on, the fighter whose turn it is hits the other,
      starting from the hp in `s`, until one of them is dead; (the survivor or the error,
      the actions taken). */
  ghost function Duelar(p1: Personagem, p2: Personagem, f1: Ficha, f2: Ficha, s: map<Personagem, int>,
                        turnos: seq<Turno>, turno: nat): (Result<Personagem>, seq<Acao>)
    requires turno <= |turnos| && TurnosValidos(turnos, 2) && Lutam(s, p1, p2)
    decreases |turnos| - turno
  {
    if !(s[p1] > 0 && s[p2] > 0) then (Ok(if s[p1] > 0 then p1 else p2), [])
    else if turno == |turnos| then (Err(RolagensEsgotadas), [])
    else
      var par := turno % 2 == 0;
      var e := Executar(if par then p1 else p2, if par then p2 else p1, turnos[turno], if par then f1 else f2, s);
      LutamApos(e, s, p1, p2);
      if e.resultado.Err? then (Err(e.resultado.error), [e])
      else
        var o := Duelar(p1, p2, f1, f2, e.Depois(), turnos, turno + 1);
        (o.0, [e] + o.1)
  }

  /** A team battle on values: while both teams have a living member, a half round of A's
      living members against B, then one of B's against A. */
  ghost function Equipes(ea: seq<Personagem>, eb: seq<Personagem>, F: map<Personagem, Ficha>,
                         s: map<Personagem, int>, turnos: seq<Turno>, pos: nat): (Result<Rotulo>, seq<Acao>)
    requires pos <= |turnos| && TurnosValidos(turnos, 3)
    requires (forall q :: q in ea + eb ==> q in F) && Cobre(s, ea) && Cobre(s, eb)
    decreases |turnos| - pos
  {
    var vivosA, vivosB := VivosSegundo(ea, s), VivosSegundo(eb, s);
    if vivosA == [] || vivosB == [] then (Ok(if vivosA != [] then LadoA else LadoB), [])
    else
      var o1 := Rodada(vivosA, eb, F, s, turnos, pos);
      if o1.0.Err? then (Err(o1.0.error), o1.1)
      else
        RodadaEstado(vivosA, eb, F, s, turnos, pos);
        var s1 := Estado(o1.1, s);
        var vivosB1 := VivosSegundo(eb, s1);
        var o2 := Rodada(vivosB1, ea, F, s1, turnos, o1.0.value);
        if o2.0.Err? then (Err(o2.0.error), o1.1 + o2.1)
        else
          RodadaEstado(vivosB1, ea, F, s1, turnos, o1.0.value);
          var o3 := Equipes(ea, eb, F, Estado(o2.1, s1), turnos, o2.0.value);
          (o3.0, o1.1 + o2.1 + o3.1)
  }

  /** `iniciar` on values: a duel when both sides are single characters, otherwise a team
      battle with each single character as a one-member team. */
  ghost function Combate(a: Lado, b: Lado, F: map<Personagem, Ficha>, s: map<Personagem, int>,
                         turnos: seq<Turno>): (Result<Vencedor>, seq<Acao>)
    requires TurnosValidos(turnos, if a.Equipe? || b.Equipe? then 3 else 2)
    requires (forall q :: q in Membros(a) + Membros(b) ==> q in F) && Cobre(s, Membros(a)) && Cobre(s, Membros(b))
  {
    if a.Equipe? || b.Equipe? then
      var o := Equipes(Membros(a), Membros(b), F, s, turnos, 0);
      (match o.0 case Ok(lado) => Ok(Ganhou(lado)) case Err(e) => Err(e), o.1)
    else
      var o := Duelar(a.p, b.p, F[a.p], F[b.p], s, turnos, 0);
      (match o.0 case Ok(p) => Ok(Campeao(p)) case Err(e) => Err(e), o.1)
  }

  lemma {:induction false} VivosNoMapa(xs: seq<Personagem>, hp: map<Personagem, int>)
    requires forall q :: q in xs ==> q in hp && hp[q] == q.hp
    ensures Vivos(xs) == VivosSegundo(xs, hp)
  {
    if xs != [] {
      VivosNoMapa(xs[1..], hp);
    }
  }

  /** The state after two logs in a row is the second's, from the first's. */
  lemma EstadoConcat(l1: seq<Acao>, l2: seq<Acao>, h0: map<Personagem, int>)
    ensures Estado(l1 + l2, h0) == Estado(l2, Estado(l1, h0))
  {
    if l2 == [] {
      assert l1 + l2 == l1;
    } else {
      assert (l1 + l2)[|l1 + l2| - 1] == l2[|l2| - 1];
    }
  }

  /** A single action that found the hp in `h0`, its participants among them. */
  lemma EncadeadaUma(e: Acao, h0: map<Personagem, int>)
    requires e.antes == h0 && e.atacante in h0 && e.alvo in h0
    ensures Encadeadas([e], h0) && Estado([e], h0) == e.Depois()
  {
  }

  /** Two chained logs, the second starting where the first left the hp, chain. */
  lemma EncadeadasConcat(l1: seq<Acao>, l2: seq<Acao>, h0: map<Personagem, int>)
    requires Encadeadas(l1, h0) && Encadeadas(l2, Estado(l1, h0))
    ensures Encadeadas(l1 + l2, h0)
  {
    var l := l1 + l2;
    forall k | 0 <= k < |l|
      ensures l[k] == if k < |l1| then l1[k] else l2[k - |l1|]
    {
    }
  }

  lemma ExecutadasConcat(l1: seq<Acao>, l2: seq<Acao>, turnos: seq<Turno>, pos: nat, n: nat)
    requires Executadas(l1, turnos, pos) && n == pos + |l1| && Executadas(l2, turnos, n)
    ensures Executadas(l1 + l2, turnos, pos)
  {
    var l := l1 + l2;
    forall k | 0 <= k < |l|
      ensures l[k].turno == turnos[pos + k] && Resolvida(l[k])
    {
      if k < |l1| {
        assert l[k] == l1[k];
      } else {
        assert l[k] == l2[k - |l1|];
      }
    }
  }

  lemma ErroDaUltimaConcat<T, U>(l1: seq<Acao>, l2: seq<Acao>, r: Result<T>, r2: Result<U>)
    requires TodasOk(l1) && ErroDaUltima(l2, r) && r2.Err? == r.Err? && (r.Err? ==> r2.error == r.error)
    ensures ErroDaUltima(l1 + l2, r2)
  {
    var l := l1 + l2;
    forall k | 0 <= k < |l|
      ensures l[k] == if k < |l1| then l1[k] else l2[k - |l1|]
    {
    }
  }

  /** Battle logs between the same two teams join into one. */
  lemma EntreEquipesConcat(l1: seq<Acao>, l2: seq<Acao>, ea: seq<Personagem>, eb: seq<Personagem>)
    requires EntreEquipes(l1, ea, eb) && Vivas(l1) && EntreEquipes(l2, ea, eb) && Vivas(l2)
    ensures EntreEquipes(l1 + l2, ea, eb) && Vivas(l1 + l2)
  {
    var l := l1 + l2;
    forall k | 0 <= k < |l|
      ensures l[k] == if k < |l1| then l1[k] else l2[k - |l1|]
    {
    }
  }

  /** One more action, first in a half round, by the first attacker, against the enemy
      the roll picks among the living. */
  lemma RodadaAteCons(e: Acao, l: seq<Acao>, equipe: seq<Personagem>, inimigos: seq<Personagem>, atacantes: seq<Personagem>)
    requires atacantes != [] && RodadaAte(l, equipe, inimigos, atacantes[1..])
    requires e.atacante == atacantes[0] && e.atacante in equipe && e.alvo in inimigos
    requires e.HpAtacante() > 0 && e.HpAlvo() > 0
    requires var vivos := VivosSegundo(inimigos, e.antes);
             |vivos| > 0 && e.alvo == vivos[e.turno.alvo % |vivos|]
    ensures RodadaAte([e] + l, equipe, inimigos, atacantes)
  {
    var l' := [e] + l;
    forall k | 0 <= k < |l'|
      ensures l'[k] == (if k == 0 then e else l[k - 1]) && atacantes[k] == (if k == 0 then e.atacante else atacantes[1..][k - 1])
    {
    }
  }

  /** A half round moves the Turno position by one per action; with an attacker and a
      living enemy, an Ok half round takes at least one action. */
  lemma {:induction false} RodadaPosicao(atacantes: seq<Personagem>, inimigos: seq<Personagem>, F: map<Personagem, Ficha>,
                                          s: map<Personagem, int>, turnos: seq<Turno>, p: nat)
    requires p <= |turnos| && TurnosValidos(turnos, 3)
    requires (forall q :: q in atacantes ==> q in F) && Cobre(s, inimigos)
    ensures var o := Rodada(atacantes, inimigos, F, s, turnos, p);
            p + |o.1| <= |turnos| && (o.0.Ok? ==> o.0.value == p + |o.1|) &&
            (atacantes != [] && VivosSegundo(inimigos, s) != [] && o.0.Ok? ==> |o.1| > 0)
    decreases |atacantes|
  {
    var vivos := VivosSegundo(inimigos, s);
    if atacantes != [] && vivos != [] && p < |turnos| {
      var t := turnos[p];
      var e := Executar(atacantes[0], vivos[t.alvo % |vivos|], t, F[atacantes[0]], s);
      CobreUma(e, s, inimigos);
      if e.resultado.Ok? {
        RodadaPosicao(atacantes[1..], inimigos, F, e.Depois(), turnos, p + 1);
      }
    }
  }

  /** A half round keeps the participants and the hp bounds of the enemies, and changes
      no one else's hp. */
  lemma {:induction false} RodadaMapa(atacantes: seq<Personagem>, inimigos: seq<Personagem>, F: map<Personagem, Ficha>,
                                       s: map<Personagem, int>, turnos: seq<Turno>, p: nat)
    requires p <= |turnos| && TurnosValidos(turnos, 3)
    requires (forall q :: q in atacantes ==> q in F) && Cobre(s, inimigos)
    ensures var fim := Estado(Rodada(atacantes, inimigos, F, s, turnos, p).1, s);
            (forall q :: q in fim <==> q in s) &&
            (forall q :: q in s && q !in inimigos ==> fim[q] == s[q]) &&
            Cobre(fim, inimigos)
    decreases |atacantes|
  {
    var vivos := VivosSegundo(inimigos, s);
    if atacantes != [] && vivos != [] && p < |turnos| {
      var t := turnos[p];
      var e := Executar(atacantes[0], vivos[t.alvo % |vivos|], t, F[atacantes[0]], s);
      CobreUma(e, s, inimigos);
      if e.resultado.Ok? {
        RodadaMapa(atacantes[1..], inimigos, F, e.Depois(), turnos, p + 1);
        EstadoConcat([e], Rodada(atacantes[1..], inimigos, F, e.Depois(), turnos, p + 1).1, s);
      }
    }
  }

  /** A half round keeps the participants and the hp bounds of the enemies, changes no one
      else's hp, and moves the Turno position by one per action; with an attacker and a
      living enemy, an Ok half round takes at least one action. */
  lemma RodadaEstado(atacantes: seq<Personagem>, inimigos: seq<Personagem>, F: map<Personagem, Ficha>,
                     s: map<Personagem, int>, turnos: seq<Turno>, p: nat)
    requires p <= |turnos| && TurnosValidos(turnos, 3)
    requires (forall q :: q in atacantes ==> q in F) && Cobre(s, inimigos)
    ensures var o := Rodada(atacantes, inimigos, F, s, turnos, p);
            var fim := Estado(o.1, s);
            p + |o.1| <= |turnos| && (o.0.Ok? ==> o.0.value == p + |o.1|) &&
            (atacantes != [] && VivosSegundo(inimigos, s) != [] && o.0.Ok? ==> |o.1| > 0) &&
            (forall q :: q in fim <==> q in s) &&
            (forall q :: q in s && q !in inimigos ==> fim[q] == s[q]) &&
            Cobre(fim, inimigos)
  {
    RodadaPosicao(atacantes, inimigos, F, s, turnos, p);
    RodadaMapa(atacantes, inimigos, F, s, turnos, p);
  }

  /** A single action that consumed turnos[p] and resolved it. */
  lemma ExecutadaUma(atacante: Personagem, alvo: Personagem, t: Turno, f: Ficha, s: map<Personagem, int>,
                     turnos: seq<Turno>, p: nat)
    requires alvo in s && 0 <= s[alvo] <= alvo.hpMax && p < |turnos| && t == turnos[p] && t.dados.Validos()
    ensures Executadas([Executar(atacante, alvo, t, f, s)], turnos, p)
  {
  }

  /** Every action of a half round consumed the next Turno, in order, and resolved it. */
  lemma {:induction false} RodadaExecutada(atacantes: seq<Personagem>, inimigos: seq<Personagem>, F: map<Personagem, Ficha>,
                                            s: map<Personagem, int>, turnos: seq<Turno>, p: nat)
    requires p <= |turnos| && TurnosValidos(turnos, 3)
    requires (forall q :: q in atacantes ==> q in F) && Cobre(s, inimigos)
    ensures var o := Rodada(atacantes, inimigos, F, s, turnos, p);
            Executadas(o.1, turnos, p)
    decreases |atacantes|, 1
  {
    if atacantes != [] && VivosSegundo(inimigos, s) != [] && p < |turnos| {
      RodadaExecutadaPasso(atacantes, inimigos, F, s, turnos, p);
    }
  }

  /** The case of `RodadaExecutada` in which one more action is played. */
  lemma {:induction false} RodadaExecutadaPasso(atacantes: seq<Personagem>, inimigos: seq<Personagem>, F: map<Personagem, Ficha>,
                                                 s: map<Personagem, int>, turnos: seq<Turno>, p: nat)
    requires p < |turnos| && TurnosValidos(turnos, 3)
    requires (forall q :: q in atacantes ==> q in F) && Cobre(s, inimigos)
    requires atacantes != [] && VivosSegundo(inimigos, s) != []
    ensures var o := Rodada(atacantes, inimigos, F, s, turnos, p);
            Executadas(o.1, turnos, p)
    decreases |atacantes|, 0
  {
    var vivos := VivosSegundo(inimigos, s);
    var t := turnos[p];
    var e := Executar(atacantes[0], vivos[t.alvo % |vivos|], t, F[atacantes[0]], s);
    CobreUma(e, s, inimigos);
    ExecutadaUma(atacantes[0], vivos[t.alvo % |vivos|], t, F[atacantes[0]], s, turnos, p);
    if e.resultado.Ok? {
      RodadaExecutada(atacantes[1..], inimigos, F, e.Depois(), turnos, p + 1);
      var o := Rodada(atacantes[1..], inimigos, F, e.Depois(), turnos, p + 1);
      ExecutadasConcat([e], o.1, turnos, p, p + 1);
    }
  }

  /** Each action of a half round found the hp the actions before it left. */
  lemma {:induction false} RodadaEncadeada(atacantes: seq<Personagem>, inimigos: seq<Personagem>, F: map<Personagem, Ficha>,
                                            s: map<Personagem, int>, turnos: seq<Turno>, p: nat)
    requires p <= |turnos| && TurnosValidos(turnos, 3)
    requires (forall q :: q in atacantes ==> q in F && q in s) && Cobre(s, inimigos)
    ensures var o := Rodada(atacantes, inimigos, F, s, turnos, p);
            Encadeadas(o.1, s)
    decreases |atacantes|
  {
    var vivos := VivosSegundo(inimigos, s);
    if atacantes != [] && vivos != [] && p < |turnos| {
      var t := turnos[p];
      var e := Executar(atacantes[0], vivos[t.alvo % |vivos|], t, F[atacantes[0]], s);
      CobreUma(e, s, inimigos);
      if e.resultado.Ok? {
        RodadaEncadeada(atacantes[1..], inimigos, F, e.Depois(), turnos, p + 1);
        var o := Rodada(atacantes[1..], inimigos, F, e.Depois(), turnos, p + 1);
        EncadeadaUma(e, s);
        EncadeadasConcat([e], o.1, s);
      } else {
        EncadeadaUma(e, s);
      }
    }
  }

  /** Only the last action of a half round may fail, and then with DanoNegativo. */
  lemma {:induction false} RodadaErro(atacantes: seq<Personagem>, inimigos: seq<Personagem>, F: map<Personagem, Ficha>,
                                            s: map<Personagem, int>, turnos: seq<Turno>, p: nat)
    requires p <= |turnos| && TurnosValidos(turnos, 3)
    requires (forall q :: q in atacantes ==> q in F) && Cobre(s, inimigos)
    ensures var o := Rodada(atacantes, inimigos, F, s, turnos, p);
            ErroDaUltima(o.1, o.0)
    decreases |atacantes|, 1
  {
    var vivos := VivosSegundo(inimigos, s);
    if atacantes != [] && vivos != [] && p < |turnos| {
      RodadaErroPasso(atacantes, inimigos, F, s, turnos, p);
    }
  }

  /** The case of `RodadaErro` in which one more action is played. */
  lemma {:induction false} RodadaErroPasso(atacantes: seq<Personagem>, inimigos: seq<Personagem>, F: map<Personagem, Ficha>,
                                                 s: map<Personagem, int>, turnos: seq<Turno>, p: nat)
    requires p <= |turnos| && TurnosValidos(turnos, 3)
    requires (forall q :: q in atacantes ==> q in F) && Cobre(s, inimigos)
    requires atacantes != [] && VivosSegundo(inimigos, s) != [] && p < |turnos|
    ensures var o := Rodada(atacantes, inimigos, F, s, turnos, p);
            ErroDaUltima(o.1, o.0)
    decreases |atacantes|, 0
  {
    var vivos := VivosSegundo(inimigos, s);
    var t := turnos[p];
    var e := Executar(atacantes[0], vivos[t.alvo % |vivos|], t, F[atacantes[0]], s);
    CobreUma(e, s, inimigos);
    if e.resultado.Ok? {
      RodadaErro(atacantes[1..], inimigos, F, e.Depois(), turnos, p + 1);
      var o := Rodada(atacantes[1..], inimigos, F, e.Depois(), turnos, p + 1);
      ErroDaUltimaConcat([e], o.1, o.0, o.0);
    }
  }

  /** Action k of a half round is the k-th of `atacantes`, alive, against the living enemy
      its roll picks. */
  lemma {:induction false} RodadaOrdem(atacantes: seq<Personagem>, equipe: seq<Personagem>, inimigos: seq<Personagem>,
                                        F: map<Personagem, Ficha>, s: map<Personagem, int>, turnos: seq<Turno>, p: nat)
    requires p <= |turnos| && TurnosValidos(turnos, 3)
    requires (forall q :: q in atacantes ==> q in F) && Cobre(s, inimigos)
    requires forall q :: q in atacantes ==> q in equipe && q !in inimigos && q in s && s[q] > 0
    ensures RodadaAte(Rodada(atacantes, inimigos, F, s, turnos, p).1, equipe, inimigos, atacantes)
    decreases |atacantes|
  {
    var vivos := VivosSegundo(inimigos, s);
    if atacantes != [] && vivos != [] && p < |turnos| {
      var t := turnos[p];
      var e := Executar(atacantes[0], vivos[t.alvo % |vivos|], t, F[atacantes[0]], s);
      CobreUma(e, s, inimigos);
      if e.resultado.Ok? {
        RodadaOrdem(atacantes[1..], equipe, inimigos, F, e.Depois(), turnos, p + 1);
        RodadaAteCons(e, Rodada(atacantes[1..], inimigos, F, e.Depois(), turnos, p + 1).1, equipe, inimigos, atacantes);
      } else {
        RodadaAteCons(e, [], equipe, inimigos, atacantes);
      }
    }
  }

  /** An Ok half round ends when every attacker has acted or no enemy is left; running
      out of Turnos leaves an attacker to act and an enemy alive. */
  lemma {:induction false} RodadaFim(atacantes: seq<Personagem>, inimigos: seq<Personagem>, F: map<Personagem, Ficha>,
                                      s: map<Personagem, int>, turnos: seq<Turno>, p: nat)
    requires p <= |turnos| && TurnosValidos(turnos, 3)
    requires (forall q :: q in atacantes ==> q in F) && Cobre(s, inimigos)
    ensures var o := Rodada(atacantes, inimigos, F, s, turnos, p);
            var fim := Estado(o.1, s);
            (o.0.Ok? ==> |o.1| == |atacantes| || VivosSegundo(inimigos, fim) == []) &&
            (o.0 == Err(RolagensEsgotadas) ==>
               |o.1| < |atacantes| && VivosSegundo(inimigos, fim) != [] && p + |o.1| == |turnos|)
    decreases |atacantes|
  {
    var vivos := VivosSegundo(inimigos, s);
    if atacantes != [] && vivos != [] && p < |turnos| {
      var t := turnos[p];
      var e := Executar(atacantes[0], vivos[t.alvo % |vivos|], t, F[atacantes[0]], s);
      CobreUma(e, s, inimigos);
      if e.resultado.Ok? {
        RodadaFim(atacantes[1..], inimigos, F, e.Depois(), turnos, p + 1);
        EstadoConcat([e], Rodada(atacantes[1..], inimigos, F, e.Depois(), turnos, p + 1).1, s);
      }
    }
  }

  /** What a half round leaves of a team's hp bounds: members it did not target keep their
      hp, the targets stay within bounds. */
  lemma CobreApos(xs: seq<Personagem>, inimigos: seq<Personagem>, s: map<Personagem, int>, fim: map<Personagem, int>)
    requires Cobre(s, xs) && Cobre(fim, inimigos)
    requires (forall q :: q in fim <==> q in s) && (forall q :: q in s && q !in inimigos ==> fim[q] == s[q])
    ensures Cobre(fim, xs)
  {
  }

  /** Every action of a team battle consumed the next Turno, in order, and resolved it. */
  lemma {:induction false} EquipesExecutada(ea: seq<Personagem>, eb: seq<Personagem>, F: map<Personagem, Ficha>,
                                             s: map<Personagem, int>, turnos: seq<Turno>, pos: nat)
    requires pos <= |turnos| && TurnosValidos(turnos, 3)
    requires (forall q :: q in ea + eb ==> q in F) && Cobre(s, ea) && Cobre(s, eb)
    ensures Executadas(Equipes(ea, eb, F, s, turnos, pos).1, turnos, pos)
    decreases |turnos| - pos
  {
    var vivosA, vivosB := VivosSegundo(ea, s), VivosSegundo(eb, s);
    if vivosA != [] && vivosB != [] {
      var o1 := Rodada(vivosA, eb, F, s, turnos, pos);
      RodadaEstado(vivosA, eb, F, s, turnos, pos);
      RodadaExecutada(vivosA, eb, F, s, turnos, pos);
      if o1.0.Ok? {
        var s1 := Estado(o1.1, s);
        var vivosB1 := VivosSegundo(eb, s1);
        CobreApos(ea, eb, s, s1);
        var o2 := Rodada(vivosB1, ea, F, s1, turnos, o1.0.value);
        RodadaEstado(vivosB1, ea, F, s1, turnos, o1.0.value);
        RodadaExecutada(vivosB1, ea, F, s1, turnos, o1.0.value);
        ExecutadasConcat(o1.1, o2.1, turnos, pos, o1.0.value);
        if o2.0.Ok? {
          var s2 := Estado(o2.1, s1);
          CobreApos(eb, ea, s1, s2);
          EquipesExecutada(ea, eb, F, s2, turnos, o2.0.value);
          ExecutadasConcat(o1.1 + o2.1, Equipes(ea, eb, F, s2, turnos, o2.0.value).1, turnos, pos, o2.0.value);
        }
      }
    }
  }

  /** Each action of a team battle found the hp the actions before it left. */
  lemma {:induction false} EquipesEncadeada(ea: seq<Personagem>, eb: seq<Personagem>, F: map<Personagem, Ficha>,
                                             s: map<Personagem, int>, turnos: seq<Turno>, pos: nat)
    requires pos <= |turnos| && TurnosValidos(turnos, 3)
    requires (forall q :: q in ea + eb ==> q in F) && Cobre(s, ea) && Cobre(s, eb)
    ensures Encadeadas(Equipes(ea, eb, F, s, turnos, pos).1, s)
    decreases |turnos| - pos
  {
    var vivosA, vivosB := VivosSegundo(ea, s), VivosSegundo(eb, s);
    if vivosA != [] && vivosB != [] {
      var o1 := Rodada(vivosA, eb, F, s, turnos, pos);
      RodadaEstado(vivosA, eb, F, s, turnos, pos);
      RodadaEncadeada(vivosA, eb, F, s, turnos, pos);
      if o1.0.Ok? {
        var s1 := Estado(o1.1, s);
        var vivosB1 := VivosSegundo(eb, s1);
        CobreApos(ea, eb, s, s1);
        var o2 := Rodada(vivosB1, ea, F, s1, turnos, o1.0.value);
        RodadaEstado(vivosB1, ea, F, s1, turnos, o1.0.value);
        RodadaEncadeada(vivosB1, ea, F, s1, turnos, o1.0.value);
        EncadeadasConcat(o1.1, o2.1, s);
        EstadoConcat(o1.1, o2.1, s);
        if o2.0.Ok? {
          var s2 := Estado(o2.1, s1);
          CobreApos(eb, ea, s1, s2);
          EquipesEncadeada(ea, eb, F, s2, turnos, o2.0.value);
          EncadeadasConcat(o1.1 + o2.1, Equipes(ea, eb, F, s2, turnos, o2.0.value).1, s);
        }
      }
    }
  }

  /** Only the last action of a team battle may fail, and then with DanoNegativo, which
      is the battle's error. */
  lemma {:induction false} EquipesErro(ea: seq<Personagem>, eb: seq<Personagem>, F: map<Personagem, Ficha>,
                                        s: map<Personagem, int>, turnos: seq<Turno>, pos: nat)
    requires pos <= |turnos| && TurnosValidos(turnos, 3)
    requires (forall q :: q in ea + eb ==> q in F) && Cobre(s, ea) && Cobre(s, eb)
    ensures var o := Equipes(ea, eb, F, s, turnos, pos); ErroDaUltima(o.1, o.0)
    decreases |turnos| - pos
  {
    var vivosA, vivosB := VivosSegundo(ea, s), VivosSegundo(eb, s);
    if vivosA != [] && vivosB != [] {
      var o1 := Rodada(vivosA, eb, F, s, turnos, pos);
      RodadaEstado(vivosA, eb, F, s, turnos, pos);
      RodadaErro(vivosA, eb, F, s, turnos, pos);
      if o1.0.Ok? {
        var s1 := Estado(o1.1, s);
        var vivosB1 := VivosSegundo(eb, s1);
        CobreApos(ea, eb, s, s1);
        var o2 := Rodada(vivosB1, ea, F, s1, turnos, o1.0.value);
        RodadaEstado(vivosB1, ea, F, s1, turnos, o1.0.value);
        RodadaErro(vivosB1, ea, F, s1, turnos, o1.0.value);
        if o2.0.Ok? {
          var s2 := Estado(o2.1, s1);
          CobreApos(eb, ea, s1, s2);
          var o3 := Equipes(ea, eb, F, s2, turnos, o2.0.value);
          EquipesErro(ea, eb, F, s2, turnos, o2.0.value);
          ErroDaUltimaConcat(o1.1, o2.1, o2.0, o2.0);
          ErroDaUltimaConcat(o1.1 + o2.1, o3.1, o3.0, o3.0);
        } else {
          ErroDaUltimaConcat(o1.1, o2.1, o2.0, Equipes(ea, eb, F, s, turnos, pos).0);
        }
      } else {
        ErroDaUltimaConcat([], o1.1, o1.0, Equipes(ea, eb, F, s, turnos, pos).0);
        assert [] + o1.1 == o1.1;
      }
    }
  }

  /** The living members of a team, read off `s`, are members of that team only. */
  lemma AtacantesVivos(xs: seq<Personagem>, outros: seq<Personagem>, s: map<Personagem, int>)
    requires Disjuntas(xs, outros) || Disjuntas(outros, xs)
    ensures forall q :: q in VivosSegundo(xs, s) ==> q in xs && q !in outros && q in s && s[q] > 0
  {
  }

  /** A half round's actions go between the two teams. */
  lemma DeContraEntre(l: seq<Acao>, ea: seq<Personagem>, eb: seq<Personagem>)
    requires DeContra(l, ea, eb) || DeContra(l, eb, ea)
    ensures EntreEquipes(l, ea, eb)
  {
  }

  /** A half round of either of two disjoint teams goes between them, living fighters only. */
  lemma RodadaEntre(xs: seq<Personagem>, ys: seq<Personagem>, ea: seq<Personagem>, eb: seq<Personagem>,
                    F: map<Personagem, Ficha>, s: map<Personagem, int>, turnos: seq<Turno>, p: nat)
    requires p <= |turnos| && TurnosValidos(turnos, 3) && Disjuntas(ea, eb)
    requires (xs == ea && ys == eb) || (xs == eb && ys == ea)
    requires (forall q :: q in xs ==> q in F) && Cobre(s, ys)
    ensures var o := Rodada(VivosSegundo(xs, s), ys, F, s, turnos, p); EntreEquipes(o.1, ea, eb) && Vivas(o.1)
  {
    AtacantesVivos(xs, ys, s);
    RodadaOrdem(VivosSegundo(xs, s), xs, ys, F, s, turnos, p);
    DeContraEntre(Rodada(VivosSegundo(xs, s), ys, F, s, turnos, p).1, ea, eb);
  }

  /** Every action of a team battle between disjoint teams was a living member of one team
      acting on a living member of the other. */
  lemma {:induction false} EquipesEntre(ea: seq<Personagem>, eb: seq<Personagem>, F: map<Personagem, Ficha>,
                                         s: map<Personagem, int>, turnos: seq<Turno>, pos: nat)
    requires pos <= |turnos| && TurnosValidos(turnos, 3) && Disjuntas(ea, eb)
    requires (forall q :: q in ea + eb ==> q in F) && Cobre(s, ea) && Cobre(s, eb)
    ensures var o := Equipes(ea, eb, F, s, turnos, pos); EntreEquipes(o.1, ea, eb) && Vivas(o.1)
    decreases |turnos| - pos
  {
    var vivosA, vivosB := VivosSegundo(ea, s), VivosSegundo(eb, s);
    if vivosA != [] && vivosB != [] {
      var o1 := Rodada(vivosA, eb, F, s, turnos, pos);
      RodadaEstado(vivosA, eb, F, s, turnos, pos);
      RodadaEntre(ea, eb, ea, eb, F, s, turnos, pos);
      if o1.0.Ok? {
        var s1 := Estado(o1.1, s);
        var vivosB1 := VivosSegundo(eb, s1);
        CobreApos(ea, eb, s, s1);
        var o2 := Rodada(vivosB1, ea, F, s1, turnos, o1.0.value);
        RodadaEstado(vivosB1, ea, F, s1, turnos, o1.0.value);
        RodadaEntre(eb, ea, ea, eb, F, s1, turnos, o1.0.value);
        EntreEquipesConcat(o1.1, o2.1, ea, eb);
        if o2.0.Ok? {
          var s2 := Estado(o2.1, s1);
          CobreApos(eb, ea, s1, s2);
          EquipesEntre(ea, eb, F, s2, turnos, o2.0.value);
          EntreEquipesConcat(o1.1 + o2.1, Equipes(ea, eb, F, s2, turnos, o2.0.value).1, ea, eb);
        }
      }
    }
  }

  /** How a finished team battle ends: "A" when A has a survivor and B none, "B" when A
      has none; then B has a survivor whenever someone was alive at the start. */
  lemma {:induction false} EquipesFim(ea: seq<Personagem>, eb: seq<Personagem>, F: map<Personagem, Ficha>,
                                       s: map<Personagem, int>, turnos: seq<Turno>, pos: nat)
    requires pos <= |turnos| && TurnosValidos(turnos, 3) && Disjuntas(ea, eb)
    requires (forall q :: q in ea + eb ==> q in F) && Cobre(s, ea) && Cobre(s, eb)
    ensures var o := Equipes(ea, eb, F, s, turnos, pos);
            var fim := Estado(o.1, s);
            (o.0 == Ok(LadoA) ==> VivosSegundo(ea, fim) != [] && VivosSegundo(eb, fim) == []) &&
            (o.0 == Ok(LadoB) ==> VivosSegundo(ea, fim) == []) &&
            (o.0 == Ok(LadoB) && (VivosSegundo(ea, s) != [] || VivosSegundo(eb, s) != []) ==> VivosSegundo(eb, fim) != [])
    decreases |turnos| - pos
  {
    var vivosA, vivosB := VivosSegundo(ea, s), VivosSegundo(eb, s);
    if vivosA != [] && vivosB != [] {
      var o1 := Rodada(vivosA, eb, F, s, turnos, pos);
      RodadaEstado(vivosA, eb, F, s, turnos, pos);
      if o1.0.Ok? {
        var s1 := Estado(o1.1, s);
        var vivosB1 := VivosSegundo(eb, s1);
        CobreApos(ea, eb, s, s1);
        var o2 := Rodada(vivosB1, ea, F, s1, turnos, o1.0.value);
        RodadaEstado(vivosB1, ea, F, s1, turnos, o1.0.value);
        if o2.0.Ok? {
          var s2 := Estado(o2.1, s1);
          CobreApos(eb, ea, s1, s2);
          var o3 := Equipes(ea, eb, F, s2, turnos, o2.0.value);
          EquipesFim(ea, eb, F, s2, turnos, o2.0.value);
          EstadoConcat(o1.1, o2.1, s);
          EstadoConcat(o1.1 + o2.1, o3.1, s);
          AtacantesVivos(ea, eb, s);
          var q0 := vivosA[0];
          assert q0 in ea && s1[q0] == s[q0] > 0;
          if vivosB1 != [] {
            AtacantesVivos(eb, ea, s1);
            var q1 := vivosB1[0];
            assert q1 in eb && s2[q1] == s1[q1] > 0;
          } else {
            assert s2 == s1;
          }
        }
      }
    }
  }

  /** A half round of a team that runs out of Turnos leaves that team and the enemy team
      with a survivor, every Turno consumed. */
  lemma RodadaEsgotada(xs: seq<Personagem>, ys: seq<Personagem>, F: map<Personagem, Ficha>,
                       s: map<Personagem, int>, turnos: seq<Turno>, p: nat)
    requires p <= |turnos| && TurnosValidos(turnos, 3) && (Disjuntas(xs, ys) || Disjuntas(ys, xs))
    requires (forall q :: q in xs ==> q in F) && Cobre(s, ys)
    ensures var o := Rodada(VivosSegundo(xs, s), ys, F, s, turnos, p);
            var fim := Estado(o.1, s);
            o.0 == Err(RolagensEsgotadas) ==>
              VivosSegundo(xs, fim) != [] && VivosSegundo(ys, fim) != [] && p + |o.1| == |turnos|
  {
    var vivos := VivosSegundo(xs, s);
    var o := Rodada(vivos, ys, F, s, turnos, p);
    RodadaEstado(vivos, ys, F, s, turnos, p);
    RodadaFim(vivos, ys, F, s, turnos, p);
    if o.0 == Err(RolagensEsgotadas) {
      AtacantesVivos(xs, ys, s);
      var q := vivos[|o.1|];
      assert q in xs && Estado(o.1, s)[q] == s[q] > 0;
    }
  }

  /** A team battle that runs out of Turnos leaves both teams with a survivor, every
      Turno consumed. */
  lemma {:induction false} EquipesEsgotada(ea: seq<Personagem>, eb: seq<Personagem>, F: map<Personagem, Ficha>,
                                            s: map<Personagem, int>, turnos: seq<Turno>, pos: nat)
    requires pos <= |turnos| && TurnosValidos(turnos, 3) && Disjuntas(ea, eb)
    requires (forall q :: q in ea + eb ==> q in F) && Cobre(s, ea) && Cobre(s, eb)
    ensures var o := Equipes(ea, eb, F, s, turnos, pos);
            var fim := Estado(o.1, s);
            o.0 == Err(RolagensEsgotadas) ==>
              VivosSegundo(ea, fim) != [] && VivosSegundo(eb, fim) != [] && pos + |o.1| == |turnos|
    decreases |turnos| - pos
  {
    var vivosA, vivosB := VivosSegundo(ea, s), VivosSegundo(eb, s);
    if vivosA != [] && vivosB != [] {
      var o1 := Rodada(vivosA, eb, F, s, turnos, pos);
      RodadaEstado(vivosA, eb, F, s, turnos, pos);
      RodadaEsgotada(ea, eb, F, s, turnos, pos);
      if o1.0.Ok? {
        var s1 := Estado(o1.1, s);
        var vivosB1 := VivosSegundo(eb, s1);
        CobreApos(ea, eb, s, s1);
        var o2 := Rodada(vivosB1, ea, F, s1, turnos, o1.0.value);
        RodadaEstado(vivosB1, ea, F, s1, turnos, o1.0.value);
        RodadaEsgotada(eb, ea, F, s1, turnos, o1.0.value);
        EstadoConcat(o1.1, o2.1, s);
        if o2.0.Ok? {
          var s2 := Estado(o2.1, s1);
          CobreApos(eb, ea, s1, s2);
          var o3 := Equipes(ea, eb, F, s2, turnos, o2.0.value);
          EquipesEsgotada(ea, eb, F, s2, turnos, o2.0.value);
          EstadoConcat(o1.1 + o2.1, o3.1, s);
        }
      }
    }
  }

  /** A duel keeps its participants and their hp bounds, and consumes at most the Turnos
      left. */
  lemma {:induction false} DuelarEstado(p1: Personagem, p2: Personagem, f1: Ficha, f2: Ficha, s: map<Personagem, int>,
                                         turnos: seq<Turno>, turno: nat)
    requires turno <= |turnos| && TurnosValidos(turnos, 2) && Lutam(s, p1, p2)
    ensures var o := Duelar(p1, p2, f1, f2, s, turnos, turno);
            var fim := Estado(o.1, s);
            turno + |o.1| <= |turnos| && (forall q :: q in fim <==> q in s) && Lutam(fim, p1, p2)
    decreases |turnos| - turno
  {
    if s[p1] > 0 && s[p2] > 0 && turno < |turnos| {
      var par := turno % 2 == 0;
      var e := Executar(if par then p1 else p2, if par then p2 else p1, turnos[turno], if par then f1 else f2, s);
      LutamApos(e, s, p1, p2);
      if e.resultado.Ok? {
        DuelarEstado(p1, p2, f1, f2, e.Depois(), turnos, turno + 1);
        EstadoConcat([e], Duelar(p1, p2, f1, f2, e.Depois(), turnos, turno + 1).1, s);
      }
    }
  }

  /** Every turn of a duel consumed the next Turno, in order, and resolved it. */
  lemma {:induction false} DuelarExecutada(p1: Personagem, p2: Personagem, f1: Ficha, f2: Ficha, s: map<Personagem, int>,
                                            turnos: seq<Turno>, turno: nat)
    requires turno <= |turnos| && TurnosValidos(turnos, 2) && Lutam(s, p1, p2)
    ensures var o := Duelar(p1, p2, f1, f2, s, turnos, turno); Executadas(o.1, turnos, turno)
    decreases |turnos| - turno, 1
  {
    if s[p1] > 0 && s[p2] > 0 && turno < |turnos| {
      DuelarExecutadaPasso(p1, p2, f1, f2, s, turnos, turno);
    }
  }

  /** The case of `DuelarExecutada` in which one more action is played. */
  lemma {:induction false} DuelarExecutadaPasso(p1: Personagem, p2: Personagem, f1: Ficha, f2: Ficha, s: map<Personagem, int>,
                                                 turnos: seq<Turno>, turno: nat)
    requires turno <= |turnos| && TurnosValidos(turnos, 2) && Lutam(s, p1, p2)
    requires s[p1] > 0 && s[p2] > 0 && turno < |turnos|
    ensures var o := Duelar(p1, p2, f1, f2, s, turnos, turno); Executadas(o.1, turnos, turno)
    decreases |turnos| - turno, 0
  {
    var par := turno % 2 == 0;
    var e := Executar(if par then p1 else p2, if par then p2 else p1, turnos[turno], if par then f1 else f2, s);
    LutamApos(e, s, p1, p2);
    ExecutadaUma(if par then p1 else p2, if par then p2 else p1, turnos[turno], if par then f1 else f2, s, turnos, turno);
    if e.resultado.Ok? {
      var o := Duelar(p1, p2, f1, f2, e.Depois(), turnos, turno + 1);
      DuelarExecutada(p1, p2, f1, f2, e.Depois(), turnos, turno + 1);
      ExecutadasConcat([e], o.1, turnos, turno, turno + 1);
    }
  }

  /** Every turn of a duel found the hp the turns before it left. */
  lemma {:induction false} DuelarEncadeada(p1: Personagem, p2: Personagem, f1: Ficha, f2: Ficha, s: map<Personagem, int>,
                                            turnos: seq<Turno>, turno: nat)
    requires turno <= |turnos| && TurnosValidos(turnos, 2) && Lutam(s, p1, p2)
    ensures var o := Duelar(p1, p2, f1, f2, s, turnos, turno); Encadeadas(o.1, s)
    decreases |turnos| - turno
  {
    if s[p1] > 0 && s[p2] > 0 && turno < |turnos| {
      var par := turno % 2 == 0;
      var e := Executar(if par then p1 else p2, if par then p2 else p1, turnos[turno], if par then f1 else f2, s);
      LutamApos(e, s, p1, p2);
      if e.resultado.Ok? {
        var o := Duelar(p1, p2, f1, f2, e.Depois(), turnos, turno + 1);
        DuelarEncadeada(p1, p2, f1, f2, e.Depois(), turnos, turno + 1);
        EncadeadaUma(e, s);
        EncadeadasConcat([e], o.1, s);
      } else {
        EncadeadaUma(e, s);
      }
    }
  }

  /** Only the last turn of a duel may fail, and then with DanoNegativo. */
  lemma {:induction false} DuelarErro(p1: Personagem, p2: Personagem, f1: Ficha, f2: Ficha, s: map<Personagem, int>,
                                            turnos: seq<Turno>, turno: nat)
    requires turno <= |turnos| && TurnosValidos(turnos, 2) && Lutam(s, p1, p2)
    ensures var o := Duelar(p1, p2, f1, f2, s, turnos, turno); ErroDaUltima(o.1, o.0)
    decreases |turnos| - turno
  {
    if s[p1] > 0 && s[p2] > 0 && turno < |turnos| {
      var par := turno % 2 == 0;
      var e := Executar(if par then p1 else p2, if par then p2 else p1, turnos[turno], if par then f1 else f2, s);
      LutamApos(e, s, p1, p2);
      if e.resultado.Ok? {
        var o := Duelar(p1, p2, f1, f2, e.Depois(), turnos, turno + 1);
        DuelarErro(p1, p2, f1, f2, e.Depois(), turnos, turno + 1);
        ErroDaUltimaConcat([e], o.1, o.0, o.0);
      }
    }
  }

  /** One more duel turn, played on turn `inicio`, before the turns from `inicio + 1` on. */
  lemma AlternaCons(e: Acao, l: seq<Acao>, p1: Personagem, p2: Personagem, inicio: nat)
    requires Alterna(l, p1, p2, inicio + 1) && Vivas(l) && e.HpAtacante() > 0 && e.HpAlvo() > 0
    requires e.atacante == (if inicio % 2 == 0 then p1 else p2) && e.alvo == (if inicio % 2 == 0 then p2 else p1)
    ensures Alterna([e] + l, p1, p2, inicio) && Vivas([e] + l)
  {
    var l' := [e] + l;
    forall t | 0 <= t < |l'|
      ensures l'[t] == (if t == 0 then e else l[t - 1])
      ensures t > 0 ==> inicio + t == (inicio + 1) + (t - 1)
    {
    }
  }

  /** Turn t of a duel from turn `turno` is p1's against p2 when turno + t is even, p2's
      against p1 otherwise, and both were alive. */
  lemma {:induction false} DuelarAlterna(p1: Personagem, p2: Personagem, f1: Ficha, f2: Ficha, s: map<Personagem, int>,
                                          turnos: seq<Turno>, turno: nat)
    requires turno <= |turnos| && TurnosValidos(turnos, 2) && Lutam(s, p1, p2)
    ensures var o := Duelar(p1, p2, f1, f2, s, turnos, turno); Alterna(o.1, p1, p2, turno) && Vivas(o.1)
    decreases |turnos| - turno
  {
    if s[p1] > 0 && s[p2] > 0 && turno < |turnos| {
      var par := turno % 2 == 0;
      var e := Executar(if par then p1 else p2, if par then p2 else p1, turnos[turno], if par then f1 else f2, s);
      LutamApos(e, s, p1, p2);
      if e.resultado.Ok? {
        DuelarAlterna(p1, p2, f1, f2, e.Depois(), turnos, turno + 1);
        AlternaCons(e, Duelar(p1, p2, f1, f2, e.Depois(), turnos, turno + 1).1, p1, p2, turno);
      } else {
        AlternaCons(e, [], p1, p2, turno);
      }
    }
  }

  /** How a duel ends: Ok with exactly one fighter alive, `p1 if p1 alive else p2`;
      running out of Turnos leaves both alive, every Turno consumed. */
  lemma {:induction false} DuelarFim(p1: Personagem, p2: Personagem, f1: Ficha, f2: Ficha, s: map<Personagem, int>,
                                      turnos: seq<Turno>, turno: nat)
    requires p1 != p2 && turno <= |turnos| && TurnosValidos(turnos, 2) && Lutam(s, p1, p2)
    ensures var o := Duelar(p1, p2, f1, f2, s, turnos, turno);
            var fim := Estado(o.1, s);
            Lutam(fim, p1, p2) &&
            (o.0.Ok? ==> !(fim[p1] > 0 && fim[p2] > 0) && o.0.value == (if fim[p1] > 0 then p1 else p2)) &&
            (o.0 == Err(RolagensEsgotadas) ==> fim[p1] > 0 && fim[p2] > 0 && turno + |o.1| == |turnos|)
    decreases |turnos| - turno
  {
    DuelarEstado(p1, p2, f1, f2, s, turnos, turno);
    if s[p1] > 0 && s[p2] > 0 && turno < |turnos| {
      var par := turno % 2 == 0;
      var e := Executar(if par then p1 else p2, if par then p2 else p1, turnos[turno], if par then f1 else f2, s);
      LutamApos(e, s, p1, p2);
      if e.resultado.Ok? {
        var o := Duelar(p1, p2, f1, f2, e.Depois(), turnos, turno + 1);
        DuelarFim(p1, p2, f1, f2, e.Depois(), turnos, turno + 1);
        EstadoConcat([e], o.1, s);
      }
    }
  }

  /** A duel both fighters start alive and that ends Ok was won by the last attack:
      its attacker is the champion, alive, and the other fighter is at hp 0. */
  lemma {:induction false} DuelarUltimo(p1: Personagem, p2: Personagem, f1: Ficha, f2: Ficha, s: map<Personagem, int>,
                                         turnos: seq<Turno>, turno: nat)
    requires p1 != p2 && turno <= |turnos| && TurnosValidos(turnos, 2) && Lutam(s, p1, p2)
    ensures var o := Duelar(p1, p2, f1, f2, s, turnos, turno);
            var fim := Estado(o.1, s);
            o.0.Ok? && s[p1] > 0 && s[p2] > 0 ==>
              |o.1| > 0 && o.0.value == o.1[|o.1| - 1].atacante && o.0.value in fim && Outro(p1, p2, o.0.value) in fim &&
              fim[o.0.value] > 0 && fim[Outro(p1, p2, o.0.value)] == 0
    decreases |turnos| - turno, 1
  {
    if s[p1] > 0 && s[p2] > 0 && turno < |turnos| {
      DuelarUltimoPasso(p1, p2, f1, f2, s, turnos, turno);
    }
  }

  /** The case of `DuelarUltimo` in which one more action is played. */
  lemma {:induction false} DuelarUltimoPasso(p1: Personagem, p2: Personagem, f1: Ficha, f2: Ficha, s: map<Personagem, int>,
                                              turnos: seq<Turno>, turno: nat)
    requires p1 != p2 && turno <= |turnos| && TurnosValidos(turnos, 2) && Lutam(s, p1, p2)
    requires s[p1] > 0 && s[p2] > 0 && turno < |turnos|
    ensures var o := Duelar(p1, p2, f1, f2, s, turnos, turno);
            var fim := Estado(o.1, s);
            o.0.Ok? && s[p1] > 0 && s[p2] > 0 ==>
              |o.1| > 0 && o.0.value == o.1[|o.1| - 1].atacante && o.0.value in fim && Outro(p1, p2, o.0.value) in fim &&
              fim[o.0.value] > 0 && fim[Outro(p1, p2, o.0.value)] == 0
    decreases |turnos| - turno, 0
  {
    var par := turno % 2 == 0;
    var e := Executar(if par then p1 else p2, if par then p2 else p1, turnos[turno], if par then f1 else f2, s);
    LutamApos(e, s, p1, p2);
    if e.resultado.Ok? {
      var s1 := e.Depois();
      var o := Duelar(p1, p2, f1, f2, s1, turnos, turno + 1);
      var todo := Duelar(p1, p2, f1, f2, s, turnos, turno);
      assert todo == (o.0, [e] + o.1);
      EncadeadaUma(e, s);
      EstadoConcat([e], o.1, s);
      assert Estado(todo.1, s) == Estado(o.1, s1);
      if s1[p1] > 0 && s1[p2] > 0 {
        DuelarUltimo(p1, p2, f1, f2, s1, turnos, turno + 1);
        if o.0.Ok? {
          assert todo.1[|todo.1| - 1] == o.1[|o.1| - 1];
        }
      } else {
        assert o == (Ok(if s1[p1] > 0 then p1 else p2), []);
        assert s1[e.atacante] == s[e.atacante] > 0;
      }
    }
  }

  /** A team battle keeps its participants and every member's hp within bounds. */
  lemma {:induction false} EquipesEstado(ea: seq<Personagem>, eb: seq<Personagem>, F: map<Personagem, Ficha>,
                                          s: map<Personagem, int>, turnos: seq<Turno>, pos: nat)
    requires pos <= |turnos| && TurnosValidos(turnos, 3)
    requires (forall q :: q in ea + eb ==> q in F) && Cobre(s, ea) && Cobre(s, eb)
    ensures var fim := Estado(Equipes(ea, eb, F, s, turnos, pos).1, s);
            (forall q :: q in fim <==> q in s) && Cobre(fim, ea) && Cobre(fim, eb)
    decreases |turnos| - pos
  {
    var vivosA, vivosB := VivosSegundo(ea, s), VivosSegundo(eb, s);
    if vivosA != [] && vivosB != [] {
      var o1 := Rodada(vivosA, eb, F, s, turnos, pos);
      RodadaEstado(vivosA, eb, F, s, turnos, pos);
      var s1 := Estado(o1.1, s);
      CobreApos(ea, eb, s, s1);
      if o1.0.Ok? {
        var vivosB1 := VivosSegundo(eb, s1);
        var o2 := Rodada(vivosB1, ea, F, s1, turnos, o1.0.value);
        RodadaEstado(vivosB1, ea, F, s1, turnos, o1.0.value);
        var s2 := Estado(o2.1, s1);
        CobreApos(eb, ea, s1, s2);
        EstadoConcat(o1.1, o2.1, s);
        if o2.0.Ok? {
          var o3 := Equipes(ea, eb, F, s2, turnos, o2.0.value);
          EquipesEstado(ea, eb, F, s2, turnos, o2.0.value);
          EstadoConcat(o1.1 + o2.1, o3.1, s);
        }
      }
    }
  }

  /** In a duel each turn starts from the hp the turn before left: the new attacker
      has what the last action left it, the new target what it had when it attacked. */
  lemma DueloEncadeado(log: seq<Acao>, p1: Personagem, p2: Personagem, h0: map<Personagem, int>, inicio: nat)
    requires p1 != p2 && Encadeadas(log, h0) && Alterna(log, p1, p2, inicio)
    ensures EmCadeia(log)
  {
    forall t | 0 <= t < |log| - 1
      ensures log[t + 1].HpAtacante() == log[t].hpAlvoDepois && log[t + 1].HpAlvo() == log[t].HpAtacante()
    {
      assert log[t + 1].antes == log[t].Depois();
      assert inicio + (t + 1) == (inicio + t) + 1;
      assert log[t + 1].atacante == log[t].alvo && log[t + 1].alvo == log[t].atacante;
    }
  }

  /** A duel's log read as a battle between one-member teams. */
  lemma AlternaEntre(log: seq<Acao>, p1: Personagem, p2: Personagem, inicio: nat)
    requires Alterna(log, p1, p2, inicio)
    ensures EntreEquipes(log, [p1], [p2])
  {
  }

  /** The record of a team battle (see `CombateRegistro`). */
  lemma EquipesRegistro(ea: seq<Personagem>, eb: seq<Personagem>, F: map<Personagem, Ficha>,
                        s: map<Personagem, int>, turnos: seq<Turno>)
    requires TurnosValidos(turnos, 3)
    requires (forall q :: q in ea + eb ==> q in F) && Cobre(s, ea) && Cobre(s, eb) && Disjuntas(ea, eb)
    ensures var o := Equipes(ea, eb, F, s, turnos, 0);
            Executadas(o.1, turnos, 0) && Encadeadas(o.1, s) && ErroDaUltima(o.1, o.0) &&
            EntreEquipes(o.1, ea, eb) && Vivas(o.1)
  {
    EquipesExecutada(ea, eb, F, s, turnos, 0);
    EquipesEncadeada(ea, eb, F, s, turnos, 0);
    EquipesErro(ea, eb, F, s, turnos, 0);
    EquipesEntre(ea, eb, F, s, turnos, 0);
  }

  /** The record of a duel (see `CombateRegistro`). */
  lemma DuelarRegistro(p1: Personagem, p2: Personagem, f1: Ficha, f2: Ficha, s: map<Personagem, int>, turnos: seq<Turno>)
    requires p1 != p2 && TurnosValidos(turnos, 2) && Lutam(s, p1, p2)
    ensures var o := Duelar(p1, p2, f1, f2, s, turnos, 0);
            Executadas(o.1, turnos, 0) && Encadeadas(o.1, s) && ErroDaUltima(o.1, o.0) &&
            EntreEquipes(o.1, [p1], [p2]) && Vivas(o.1) && Alterna(o.1, p1, p2, 0) && EmCadeia(o.1)
  {
    var o := Duelar(p1, p2, f1, f2, s, turnos, 0);
    DuelarExecutada(p1, p2, f1, f2, s, turnos, 0);
    DuelarEncadeada(p1, p2, f1, f2, s, turnos, 0);
    DuelarErro(p1, p2, f1, f2, s, turnos, 0);
    DuelarAlterna(p1, p2, f1, f2, s, turnos, 0);
    AlternaEntre(o.1, p1, p2, 0);
    DueloEncadeado(o.1, p1, p2, s, 0);
  }

  /** `CombateRegistro` for a team battle. */
  lemma RegistroEquipes(a: Lado, b: Lado, F: map<Personagem, Ficha>, s: map<Personagem, int>, turnos: seq<Turno>)
    requires a.Equipe? || b.Equipe?
    requires TurnosValidos(turnos, 3)
    requires (forall q :: q in Membros(a) + Membros(b) ==> q in F) && Cobre(s, Membros(a)) && Cobre(s, Membros(b))
    requires Disjuntas(Membros(a), Membros(b))
    ensures var o := Combate(a, b, F, s, turnos);
            Executadas(o.1, turnos, 0) && Encadeadas(o.1, s) && ErroDaUltima(o.1, o.0) &&
            EntreEquipes(o.1, Membros(a), Membros(b)) && Vivas(o.1)
  {
    var o := Equipes(Membros(a), Membros(b), F, s, turnos, 0);
    EquipesRegistro(Membros(a), Membros(b), F, s, turnos);
    ErroDaUltimaConcat([], o.1, o.0, Combate(a, b, F, s, turnos).0);
    assert [] + o.1 == o.1;
  }

  /** `CombateRegistro` for a duel. */
  lemma RegistroDuelo(a: Lado, b: Lado, F: map<Personagem, Ficha>, s: map<Personagem, int>, turnos: seq<Turno>)
    requires a.Um? && b.Um?
    requires TurnosValidos(turnos, 2)
    requires (forall q :: q in Membros(a) + Membros(b) ==> q in F) && Cobre(s, Membros(a)) && Cobre(s, Membros(b))
    requires Disjuntas(Membros(a), Membros(b))
    ensures var o := Combate(a, b, F, s, turnos);
            Executadas(o.1, turnos, 0) && Encadeadas(o.1, s) && ErroDaUltima(o.1, o.0) &&
            EntreEquipes(o.1, Membros(a), Membros(b)) && Vivas(o.1) && Alterna(o.1, a.p, b.p, 0) && EmCadeia(o.1)
  {
    assert Membros(a) == [a.p] && Membros(b) == [b.p] && Membros(a)[0] == a.p && Membros(b)[0] == b.p;
    var o := Duelar(a.p, b.p, F[a.p], F[b.p], s, turnos, 0);
    DuelarRegistro(a.p, b.p, F[a.p], F[b.p], s, turnos);
    ErroDaUltimaConcat([], o.1, o.0, Combate(a, b, F, s, turnos).0);
    assert [] + o.1 == o.1;
  }

  /** What every battle's log records: each action consumed the next Turno and resolved
      it on the hp the actions before it left, went from a living member of one side to a
      living member of the other, and only the last may fail, with the battle's
      DanoNegativo; a duel alternates its two fighters, each turn starting where the
      previous one left them. */
  lemma CombateRegistro(a: Lado, b: Lado, F: map<Personagem, Ficha>, s: map<Personagem, int>, turnos: seq<Turno>)
    requires TurnosValidos(turnos, if a.Equipe? || b.Equipe? then 3 else 2)
    requires (forall q :: q in Membros(a) + Membros(b) ==> q in F) && Cobre(s, Membros(a)) && Cobre(s, Membros(b))
    requires Disjuntas(Membros(a), Membros(b))
    ensures var o := Combate(a, b, F, s, turnos);
            Executadas(o.1, turnos, 0) && Encadeadas(o.1, s) && ErroDaUltima(o.1, o.0) &&
            EntreEquipes(o.1, Membros(a), Membros(b)) && Vivas(o.1) &&
            (!(a.Equipe? || b.Equipe?) ==> Alterna(o.1, a.p, b.p, 0) && EmCadeia(o.1))
  {
    if a.Equipe? || b.Equipe? {
      RegistroEquipes(a, b, F, s, turnos);
    } else {
      RegistroDuelo(a, b, F, s, turnos);
    }
  }

  /** `CombateDesfecho` for a team battle: its outcomes are sides. */
  lemma DesfechoEquipes(a: Lado, b: Lado, F: map<Personagem, Ficha>, s: map<Personagem, int>, turnos: seq<Turno>)
    requires a.Equipe? || b.Equipe?
    requires TurnosValidos(turnos, 3)
    requires (forall q :: q in Membros(a) + Membros(b) ==> q in F) && Cobre(s, Membros(a)) && Cobre(s, Membros(b))
    requires Disjuntas(Membros(a), Membros(b))
    ensures var o := Combate(a, b, F, s, turnos);
            var fim := Estado(o.1, s);
            Cobre(fim, Membros(a)) && Cobre(fim, Membros(b)) &&
            (o.0.Ok? ==> o.0.value.Ganhou?) &&
            (o.0 == Ok(Ganhou(LadoA)) ==> VivosSegundo(Membros(a), fim) != [] && VivosSegundo(Membros(b), fim) == []) &&
            (o.0 == Ok(Ganhou(LadoB)) ==> VivosSegundo(Membros(a), fim) == []) &&
            (o.0 == Ok(Ganhou(LadoB)) && (VivosSegundo(Membros(a), s) != [] || VivosSegundo(Membros(b), s) != []) ==>
               VivosSegundo(Membros(b), fim) != []) &&
            (o.0 == Err(RolagensEsgotadas) ==>
               VivosSegundo(Membros(a), fim) != [] && VivosSegundo(Membros(b), fim) != [] && |o.1| == |turnos|)
  {
    EquipesEstado(Membros(a), Membros(b), F, s, turnos, 0);
    EquipesFim(Membros(a), Membros(b), F, s, turnos, 0);
    EquipesEsgotada(Membros(a), Membros(b), F, s, turnos, 0);
  }

  /** `CombateDesfecho` for a duel: its outcomes are champions. */
  lemma DesfechoDuelo(a: Lado, b: Lado, F: map<Personagem, Ficha>, s: map<Personagem, int>, turnos: seq<Turno>)
    requires a.Um? && b.Um?
    requires TurnosValidos(turnos, 2)
    requires (forall q :: q in Membros(a) + Membros(b) ==> q in F) && Cobre(s, Membros(a)) && Cobre(s, Membros(b))
    requires Disjuntas(Membros(a), Membros(b))
    ensures var o := Combate(a, b, F, s, turnos);
            var fim := Estado(o.1, s);
            Cobre(fim, Membros(a)) && Cobre(fim, Membros(b)) &&
            (o.0.Ok? ==> o.0.value.Campeao?) &&
            (o.0.Ok? ==>
               a.p in fim && b.p in fim &&
               !(fim[a.p] > 0 && fim[b.p] > 0) && o.0.value.p == (if fim[a.p] > 0 then a.p else b.p)) &&
            (o.0.Ok? && s[a.p] > 0 && s[b.p] > 0 ==>
               fim[o.0.value.p] > 0 && fim[Outro(a.p, b.p, o.0.value.p)] == 0) &&
            (o.0 == Err(RolagensEsgotadas) ==>
               VivosSegundo(Membros(a), fim) != [] && VivosSegundo(Membros(b), fim) != [] && |o.1| == |turnos|)
  {
    assert Membros(a) == [a.p] && Membros(b) == [b.p] && Membros(a)[0] == a.p && Membros(b)[0] == b.p;
    var o := Duelar(a.p, b.p, F[a.p], F[b.p], s, turnos, 0);
    DuelarEstado(a.p, b.p, F[a.p], F[b.p], s, turnos, 0);
    DuelarFim(a.p, b.p, F[a.p], F[b.p], s, turnos, 0);
    DuelarUltimo(a.p, b.p, F[a.p], F[b.p], s, turnos, 0);
    var fim := Estado(o.1, s);
    assert fim[a.p] > 0 ==> a.p in VivosSegundo(Membros(a), fim);
    assert fim[b.p] > 0 ==> b.p in VivosSegundo(Membros(b), fim);
  }

  /** How every battle ends, read off the final hp: a duel's champion is one of its two
      fighters, `a if a alive else b`, with at most one alive, and when both started
      alive the champion is alive and the other at hp 0; a team battle says "A" when A has
      a survivor and B none, "B" when A has none, and then B has a survivor if anyone was
      alive at the start; running out of Turnos leaves both sides with a survivor. */
  lemma CombateDesfecho(a: Lado, b: Lado, F: map<Personagem, Ficha>, s: map<Personagem, int>, turnos: seq<Turno>)
    requires TurnosValidos(turnos, if a.Equipe? || b.Equipe? then 3 else 2)
    requires (forall q :: q in Membros(a) + Membros(b) ==> q in F) && Cobre(s, Membros(a)) && Cobre(s, Membros(b))
    requires Disjuntas(Membros(a), Membros(b))
    ensures var o := Combate(a, b, F, s, turnos);
            var fim := Estado(o.1, s);
            Cobre(fim, Membros(a)) && Cobre(fim, Membros(b)) &&
            (o.0.Ok? ==> (o.0.value.Campeao? <==> !(a.Equipe? || b.Equipe?))) &&
            (o.0.Ok? && o.0.value.Campeao? ==>
               a.Um? && b.Um? && a.p in fim && b.p in fim &&
               !(fim[a.p] > 0 && fim[b.p] > 0) && o.0.value.p == (if fim[a.p] > 0 then a.p else b.p)) &&
            (o.0.Ok? && o.0.value.Campeao? && s[a.p] > 0 && s[b.p] > 0 ==>
               fim[o.0.value.p] > 0 && fim[Outro(a.p, b.p, o.0.value.p)] == 0) &&
            (o.0 == Ok(Ganhou(LadoA)) ==> VivosSegundo(Membros(a), fim) != [] && VivosSegundo(Membros(b), fim) == []) &&
            (o.0 == Ok(Ganhou(LadoB)) ==> VivosSegundo(Membros(a), fim) == []) &&
            (o.0 == Ok(Ganhou(LadoB)) && (VivosSegundo(Membros(a), s) != [] || VivosSegundo(Membros(b), s) != []) ==>
               VivosSegundo(Membros(b), fim) != []) &&
            (o.0 == Err(RolagensEsgotadas) ==>
               VivosSegundo(Membros(a), fim) != [] && VivosSegundo(Membros(b), fim) != [] && |o.1| == |turnos|)
  {
    if a.Equipe? || b.Equipe? {
      DesfechoEquipes(a, b, F, s, turnos);
    } else {
      DesfechoDuelo(a, b, F, s, turnos);
    }
  }

  /** Prepending two logs in turn prepends their concatenation. */
  lemma AntecedeJunta<T>(log: seq<Acao>, l: seq<Acao>, o: (Result<T>, seq<Acao>))
    ensures Antecede(log, Antecede(l, o)) == Antecede(log + l, o)
  {
    assert log + (l + o.1) == (log + l) + o.1;
  }

  /** Valid characters give `HpDe` of any list holding them an hp within bounds. */
  lemma ValidosCobre(xs: seq<Personagem>, ys: seq<Personagem>)
    requires TodosValidos(xs) && forall q :: q in xs ==> q in ys
    ensures Cobre(HpDe(ys), xs)
  {
    forall q | q in xs
      ensures q in HpDe(ys) && 0 <= HpDe(ys)[q] <= q.hpMax
    {
      var i :| 0 <= i < |xs| && xs[i] == q;
    }
  }

  /** A duel's two fighters hold the hp of the map that has exactly them as keys. */
  lemma NoHeap2(p1: Personagem, p2: Personagem, s: map<Personagem, int>)
    requires s.Keys == {p1, p2} && p1.hp == s[p1] && p2.hp == s[p2]
    ensures HpDe([p1, p2]) == s
  {
  }

  /** How a duel ends: with the survivor when someone is dead, with RolagensEsgotadas
      when both are alive and no Turno is left. */
  lemma DuelarFinal(p1: Personagem, p2: Personagem, f1: Ficha, f2: Ficha, s: map<Personagem, int>,
                    turnos: seq<Turno>, turno: nat, log: seq<Acao>)
    requires turno <= |turnos| && TurnosValidos(turnos, 2) && Lutam(s, p1, p2)
    ensures !(s[p1] > 0 && s[p2] > 0) ==>
              Antecede(log, Duelar(p1, p2, f1, f2, s, turnos, turno)) == (Ok(if s[p1] > 0 then p1 else p2), log)
    ensures s[p1] > 0 && s[p2] > 0 && turno == |turnos| ==>
              Antecede(log, Duelar(p1, p2, f1, f2, s, turnos, turno)) == (Err(RolagensEsgotadas), log)
  {
    assert log + [] == log;
  }

  /** One turn of a duel, as the loop of `Batalha.Duelo` takes it: the turn's action,
      then the rest of the duel from the state it leaves, unless it failed. */
  lemma DuelarPasso(p1: Personagem, p2: Personagem, f1: Ficha, f2: Ficha, s: map<Personagem, int>,
                    turnos: seq<Turno>, turno: nat, log: seq<Acao>, e: Acao)
    requires turno < |turnos| && TurnosValidos(turnos, 2) && Lutam(s, p1, p2) && s[p1] > 0 && s[p2] > 0
    requires e == Executar(if turno % 2 == 0 then p1 else p2, if turno % 2 == 0 then p2 else p1, turnos[turno],
                           if turno % 2 == 0 then f1 else f2, s)
    ensures Lutam(e.Depois(), p1, p2) && e.Depois().Keys == s.Keys
    ensures e.resultado.Err? ==>
              Antecede(log, Duelar(p1, p2, f1, f2, s, turnos, turno)) == (Err(e.resultado.error), log + [e])
    ensures e.resultado.Ok? ==>
              Antecede(log, Duelar(p1, p2, f1, f2, s, turnos, turno))
              == Antecede(log + [e], Duelar(p1, p2, f1, f2, e.Depois(), turnos, turno + 1))
  {
    LutamApos(e, s, p1, p2);
    assert e.Depois().Keys == s.Keys;
    if e.resultado.Ok? {
      var resto := Duelar(p1, p2, f1, f2, e.Depois(), turnos, turno + 1);
      AntecedeJunta(log, [e], resto);
    }
  }

  /** One action of a half round, as the loop of `Batalha.SubRodada` takes it. */
  lemma RodadaPasso(atacantes: seq<Personagem>, inimigos: seq<Personagem>, F: map<Personagem, Ficha>,
                    s: map<Personagem, int>, turnos: seq<Turno>, p: nat, log: seq<Acao>, e: Acao)
    requires p < |turnos| && TurnosValidos(turnos, 3)
    requires (forall q :: q in atacantes ==> q in F) && Cobre(s, inimigos)
    requires atacantes != [] && VivosSegundo(inimigos, s) != []
    requires e == Executar(atacantes[0], VivosSegundo(inimigos, s)[turnos[p].alvo % |VivosSegundo(inimigos, s)|],
                           turnos[p], F[atacantes[0]], s)
    ensures Cobre(e.Depois(), inimigos) && e.Depois().Keys == s.Keys
    ensures e.resultado.Err? ==>
              Antecede(log, Rodada(atacantes, inimigos, F, s, turnos, p)) == (Err(e.resultado.error), log + [e])
    ensures e.resultado.Ok? ==>
              Antecede(log, Rodada(atacantes, inimigos, F, s, turnos, p))
              == Antecede(log + [e], Rodada(atacantes[1..], inimigos, F, e.Depois(), turnos, p + 1))
  {
    assert e.Depois().Keys == s.Keys;
    if e.resultado.Ok? {
      var resto := Rodada(atacantes[1..], inimigos, F, e.Depois(), turnos, p + 1);
      AntecedeJunta(log, [e], resto);
    }
  }

  /** How a half round ends: at position `p` once no attacker or no enemy is left, with
      RolagensEsgotadas when both are left and no Turno is. */
  lemma RodadaFinal(atacantes: seq<Personagem>, inimigos: seq<Personagem>, F: map<Personagem, Ficha>,
                    s: map<Personagem, int>, turnos: seq<Turno>, p: nat, log: seq<Acao>)
    requires p <= |turnos| && TurnosValidos(turnos, 3)
    requires (forall q :: q in atacantes ==> q in F) && Cobre(s, inimigos)
    ensures atacantes == [] || VivosSegundo(inimigos, s) == [] ==>
              Antecede(log, Rodada(atacantes, inimigos, F, s, turnos, p)) == (Ok(p), log)
    ensures atacantes != [] && VivosSegundo(inimigos, s) != [] && p == |turnos| ==>
              Antecede(log, Rodada(atacantes, inimigos, F, s, turnos, p)) == (Err(RolagensEsgotadas), log)
  {
    assert log + [] == log;
  }

  /** One round of a team battle, as the loop of `Batalha.BatalharEquipes` takes it: A's
      half round, then B's from the state A's leaves, then the rest of the battle. */
  lemma EquipesPasso(ea: seq<Personagem>, eb: seq<Personagem>, F: map<Personagem, Ficha>,
                     s: map<Personagem, int>, turnos: seq<Turno>, pos: nat, log: seq<Acao>)
    requires pos <= |turnos| && TurnosValidos(turnos, 3)
    requires (forall q :: q in ea + eb ==> q in F) && Cobre(s, ea) && Cobre(s, eb)
    requires VivosSegundo(ea, s) != [] && VivosSegundo(eb, s) != []
    ensures var o1 := Rodada(VivosSegundo(ea, s), eb, F, s, turnos, pos);
            var s1 := Estado(o1.1, s);
            Cobre(s1, ea) && Cobre(s1, eb) &&
            (o1.0.Err? ==> Antecede(log, Equipes(ea, eb, F, s, turnos, pos)) == (Err(o1.0.error), log + o1.1)) &&
            (o1.0.Ok? ==>
               pos < o1.0.value <= |turnos| &&
               var o2 := Rodada(VivosSegundo(eb, s1), ea, F, s1, turnos, o1.0.value);
               var s2 := Estado(o2.1, s1);
               Cobre(s2, ea) && Cobre(s2, eb) &&
               (o2.0.Err? ==> Antecede(log, Equipes(ea, eb, F, s, turnos, pos)) == (Err(o2.0.error), log + (o1.1 + o2.1))) &&
               (o2.0.Ok? ==>
                  o1.0.value <= o2.0.value <= |turnos| &&
                  Antecede(log, Equipes(ea, eb, F, s, turnos, pos))
                  == Antecede(log + (o1.1 + o2.1), Equipes(ea, eb, F, s2, turnos, o2.0.value))))
  {
    var vivosA := VivosSegundo(ea, s);
    var o1 := Rodada(vivosA, eb, F, s, turnos, pos);
    RodadaEstado(vivosA, eb, F, s, turnos, pos);
    var s1 := Estado(o1.1, s);
    CobreApos(ea, eb, s, s1);
    if o1.0.Err? {
      assert Equipes(ea, eb, F, s, turnos, pos) == (Err(o1.0.error), o1.1);
    } else {
      var vivosB1 := VivosSegundo(eb, s1);
      var o2 := Rodada(vivosB1, ea, F, s1, turnos, o1.0.value);
      RodadaEstado(vivosB1, ea, F, s1, turnos, o1.0.value);
      var s2 := Estado(o2.1, s1);
      CobreApos(eb, ea, s1, s2);
      if o2.0.Err? {
        assert Equipes(ea, eb, F, s, turnos, pos) == (Err(o2.0.error), o1.1 + o2.1);
      } else {
        var resto := Equipes(ea, eb, F, s2, turnos, o2.0.value);
        assert Equipes(ea, eb, F, s, turnos, pos) == (resto.0, o1.1 + o2.1 + resto.1);
        AntecedeJunta(log, o1.1 + o2.1, resto);
      }
    }
  }

  /** How a team battle ends once a side has no living member. */
  lemma EquipesFinal(ea: seq<Personagem>, eb: seq<Personagem>, F: map<Personagem, Ficha>,
                     s: map<Personagem, int>, turnos: seq<Turno>, pos: nat, log: seq<Acao>)
    requires pos <= |turnos| && TurnosValidos(turnos, 3)
    requires (forall q :: q in ea + eb ==> q in F) && Cobre(s, ea) && Cobre(s, eb)
    requires VivosSegundo(ea, s) == [] || VivosSegundo(eb, s) == []
    ensures Antecede(log, Equipes(ea, eb, F, s, turnos, pos))
            == (Ok(if VivosSegundo(ea, s) != [] then LadoA else LadoB), log)
  {
    assert log + [] == log;
  }

  /** Characters holding the hp of a map that keeps them within bounds are valid. */
  lemma ValidosDoMapa(xs: seq<Personagem>, ys: seq<Personagem>, s: map<Personagem, int>)
    requires Cobre(s, xs) && (forall q :: q in ys ==> q in s && q.hp == s[q]) && forall q :: q in xs ==> q in ys
    ensures TodosValidos(xs)
  {
    assert forall i :: 0 <= i < |xs| ==> xs[i] in ys;
  }

  /** No member of one of two disjoint teams belongs to the other. */
  lemma Fora(a: seq<Personagem>, b: seq<Personagem>)
    requires Disjuntas(a, b)
    ensures forall q :: q in a ==> q !in b
  {
    forall q | q in a
      ensures q !in b
    {
      var i :| 0 <= i < |a| && a[i] == q;
      assert forall j :: 0 <= j < |b| ==> b[j] != a[i];
    }
  }

  /** Two teams holding the hp of a map over exactly their members, within bounds: the
      map is their state and every member is valid. */
  lemma Fecho(ea: seq<Personagem>, eb: seq<Personagem>, s: map<Personagem, int>)
    requires forall q :: q in s <==> q in ea + eb
    requires Cobre(s, ea) && Cobre(s, eb)
    requires (forall q :: q in ea ==> q.hp == s[q]) && (forall q :: q in eb ==> q.hp == s[q])
    ensures HpDe(ea + eb) == s && TodosValidos(ea) && TodosValidos(eb)
  {
    ValidosDoMapa(ea, ea, s);
    ValidosDoMapa(eb, eb, s);
  }

  /** A round whose first half round fails ends the team battle with its error. */
  lemma EquipesRondaErro(ea: seq<Personagem>, eb: seq<Personagem>, F: map<Personagem, Ficha>,
                         s: map<Personagem, int>, turnos: seq<Turno>, pos: nat, log: seq<Acao>,
                         r1: Result<nat>, l1: seq<Acao>)
    requires pos <= |turnos| && TurnosValidos(turnos, 3)
    requires (forall q :: q in ea + eb ==> q in F) && Cobre(s, ea) && Cobre(s, eb)
    requires VivosSegundo(ea, s) != [] && VivosSegundo(eb, s) != []
    requires (r1, l1) == Rodada(VivosSegundo(ea, s), eb, F, s, turnos, pos) && r1.Err?
    ensures Antecede(log, Equipes(ea, eb, F, s, turnos, pos)) == (Err(r1.error), log + l1)
  {
    EquipesPasso(ea, eb, F, s, turnos, pos, log);
  }

  /** A round whose first half round succeeds: the second half round's error ends the
      team battle, and otherwise the battle goes on from the state both leave. */
  lemma EquipesRondaOk(ea: seq<Personagem>, eb: seq<Personagem>, F: map<Personagem, Ficha>,
                       s: map<Personagem, int>, turnos: seq<Turno>, pos: nat, log: seq<Acao>,
                       r1: Result<nat>, l1: seq<Acao>, r2: Result<nat>, l2: seq<Acao>)
    requires pos <= |turnos| && TurnosValidos(turnos, 3)
    requires (forall q :: q in ea + eb ==> q in F) && Cobre(s, ea) && Cobre(s, eb)
    requires VivosSegundo(ea, s) != [] && VivosSegundo(eb, s) != []
    requires (r1, l1) == Rodada(VivosSegundo(ea, s), eb, F, s, turnos, pos) && r1.Ok?
    requires r1.value <= |turnos| && Cobre(Estado(l1, s), ea)
    requires (r2, l2) == Rodada(VivosSegundo(eb, Estado(l1, s)), ea, F, Estado(l1, s), turnos, r1.value)
    requires Cobre(Estado(l1 + l2, s), ea) && Cobre(Estado(l1 + l2, s), eb)
    ensures r2.Err? ==> Antecede(log, Equipes(ea, eb, F, s, turnos, pos)) == (Err(r2.error), log + (l1 + l2))
    ensures r2.Ok? ==>
              pos < r2.value <= |turnos| &&
              Antecede(log, Equipes(ea, eb, F, s, turnos, pos))
              == Antecede(log + (l1 + l2), Equipes(ea, eb, F, Estado(l1 + l2, s), turnos, r2.value))
  {
    EquipesPasso(ea, eb, F, s, turnos, pos, log);
    EstadoConcat(l1, l2, s);
  }

  /** The state a team battle starts from: the hp and the Fichas of both teams, with
      every member within bounds and holding what the maps give it. */
  lemma Preparo(ea: seq<Personagem>, eb: seq<Personagem>)
    requires Disjuntas(ea, eb) && TodosValidos(ea) && TodosValidos(eb)
    ensures forall q :: q in ea ==> q !in eb
    ensures forall q :: q in HpDe(ea + eb) <==> q in ea + eb
    ensures Cobre(HpDe(ea + eb), ea) && Cobre(HpDe(ea + eb), eb)
    ensures (forall q :: q in ea ==> q.hp == HpDe(ea + eb)[q]) && (forall q :: q in eb ==> q.hp == HpDe(ea + eb)[q])
    ensures (forall q :: q in ea ==> q in FichasDe(ea + eb) && FichasDe(ea + eb)[q] == FichaDe(q))
    ensures (forall q :: q in eb ==> q in FichasDe(ea + eb) && FichasDe(ea + eb)[q] == FichaDe(q))
  {
    ValidosCobre(ea, ea + eb);
    ValidosCobre(eb, ea + eb);
    Fora(ea, eb);
  }

  /** Characters holding the hp of the map `HpDe` built from them: a team has a member
      alive by the map exactly when it has one alive. */
  lemma NoFim(ea: seq<Personagem>, eb: seq<Personagem>, fim: map<Personagem, int>)
    requires HpDe(ea + eb) == fim
    ensures (VivosSegundo(ea, fim) != [] <==> AlgumVivo(ea)) && (VivosSegundo(eb, fim) != [] <==> AlgumVivo(eb))
    ensures forall q :: q in ea + eb ==> q in fim && q.hp == fim[q]
  {
    VivosNoMapa(ea, fim);
    VivosNoMapa(eb, fim);
  }

  /** What `Combate` promises, read off the characters once they hold the hp its log
      leaves: the log is a record of the battle and the outcome names the survivors. */
  lemma CombateNoHeap(a: Lado, b: Lado, F: map<Personagem, Ficha>, s: map<Personagem, int>, turnos: seq<Turno>,
                      r: Result<Vencedor>, log: seq<Acao>)
    requires TurnosValidos(turnos, if a.Equipe? || b.Equipe? then 3 else 2)
    requires (forall q :: q in Membros(a) + Membros(b) ==> q in F) && Cobre(s, Membros(a)) && Cobre(s, Membros(b))
    requires Disjuntas(Membros(a), Membros(b))
    requires (r, log) == Combate(a, b, F, s, turnos) && HpDe(Membros(a) + Membros(b)) == Estado(log, s)
    ensures Executadas(log, turnos, 0) && Encadeadas(log, s) && ErroDaUltima(log, r)
    ensures EntreEquipes(log, Membros(a), Membros(b)) && Vivas(log)
    ensures !(a.Equipe? || b.Equipe?) ==> Alterna(log, a.p, b.p, 0) && EmCadeia(log)
    ensures r.Ok? ==> (r.value.Campeao? <==> !(a.Equipe? || b.Equipe?))
    ensures r.Ok? && r.value.Campeao? ==>
              a.Um? && b.Um? && !(a.p.EstaVivo() && b.p.EstaVivo()) && r.value.p == (if a.p.EstaVivo() then a.p else b.p)
    ensures r.Ok? && r.value.Campeao? && a.Um? && b.Um? && s[a.p] > 0 && s[b.p] > 0 ==>
              r.value.p.EstaVivo() && Outro(a.p, b.p, r.value.p).hp == 0
    ensures r == Ok(Ganhou(LadoA)) ==> AlgumVivo(Membros(a)) && !AlgumVivo(Membros(b))
    ensures r == Ok(Ganhou(LadoB)) ==> !AlgumVivo(Membros(a))
    ensures r == Ok(Ganhou(LadoB)) && (VivosSegundo(Membros(a), s) != [] || VivosSegundo(Membros(b), s) != []) ==>
              AlgumVivo(Membros(b))
    ensures r == Err(RolagensEsgotadas) ==> AlgumVivo(Membros(a)) && AlgumVivo(Membros(b)) && |log| == |turnos|
  {
    CombateRegistro(a, b, F, s, turnos);
    CombateDesfecho(a, b, F, s, turnos);
    NoFim(Membros(a), Membros(b), Estado(log, s));
  }

  /** A battle between two sides, each a character or a team. */
  class Batalha {
    const a: Lado
    const b: Lado

    constructor (a: Lado, b: Lado)
      ensures this.a == a && this.b == b
    {
      this.a := a;
      this.b := b;
    }

    /** Team mode when either side is a list. */
    predicate EhEquipes() {
      a.Equipe? || b.Equipe?
    }

    /** One action on the heap: what `Agir` does is the `Executar` of the attacker's Ficha
        on the hp `s` gives the target. */
    method Executado(atacante: Personagem, alvo: Personagem, t: Turno, ghost f: Ficha, ghost s: map<Personagem, int>)
      returns (res: Result<Relato>, ghost e: Acao)
      requires alvo in s && alvo.hp == s[alvo] && alvo.Valid() && t.dados.Validos()
      requires FichaDe(atacante) == f
      modifies alvo`hp
      ensures e == Executar(atacante, alvo, t, f, s)
      ensures res == e.resultado && alvo.hp == e.hpAlvoDepois
    {
      e := Executar(atacante, alvo, t, f, s);
      res := Agir(atacante, alvo, t.rolagemHab == 1, t.hab, t.dados);
    }

    /** One turn of `duelo` on the heap: p1 attacks on even turns, p2 on odd ones. */
    method Vez(p1: Personagem, p2: Personagem, t: Turno, turno: nat, ghost f1: Ficha, ghost f2: Ficha,
               ghost s: map<Personagem, int>)
      returns (res: Result<Relato>, ghost e: Acao)
      requires p1 != p2 && Lutam(s, p1, p2) && s.Keys == {p1, p2} && p1.hp == s[p1] && p2.hp == s[p2]
      requires FichaDe(p1) == f1 && FichaDe(p2) == f2 && t.dados.Validos()
      modifies p1`hp, p2`hp
      ensures e == Executar(if turno % 2 == 0 then p1 else p2, if turno % 2 == 0 then p2 else p1, t,
                            if turno % 2 == 0 then f1 else f2, s)
      ensures res == e.resultado
      ensures p1.hp == e.Depois()[p1] && p2.hp == e.Depois()[p2]
    {
      if turno % 2 == 0 {
        res, e := Executado(p1, p2, t, f1, s);
      } else {
        res, e := Executado(p2, p1, t, f2, s);
      }
    }

    /** `duelo`: the fighters take turns, p1 on even turns, until one is dead. The
        outcome and the log are those of `Duelar` from the fighters' Fichas and hp at the
        start, and the fighters end with the hp the log leaves. */
    method Duelo(p1: Personagem, p2: Personagem, turnos: seq<Turno>) returns (r: Result<Personagem>, ghost log: seq<Acao>)
      requires p1 != p2 && p1.Valid() && p2.Valid() && TurnosValidos(turnos, 2)
      modifies p1`hp, p2`hp
      ensures p1.Valid() && p2.Valid()
      ensures (r, log) == Duelar(p1, p2, old(FichaDe(p1)), old(FichaDe(p2)), old(HpDe([p1, p2])), turnos, 0)
      ensures HpDe([p1, p2]) == Estado(log, old(HpDe([p1, p2])))
    {
      ghost var f1, f2 := FichaDe(p1), FichaDe(p2);
      ghost var h0 := HpDe([p1, p2]);
      assert h0.Keys == {p1, p2};
      ghost var s: map<Personagem, int> := h0;
      ghost var total := Duelar(p1, p2, f1, f2, h0, turnos, 0);
      assert [] + total.1 == total.1;
      var turno := 0;
      log := [];
      while p1.EstaVivo() && p2.EstaVivo()
        invariant 0 <= turno <= |turnos|
        invariant Lutam(s, p1, p2) && s.Keys == {p1, p2}
        invariant p1.hp == s[p1] && p2.hp == s[p2]
        invariant s == Estado(log, h0)
        invariant total == Antecede(log, Duelar(p1, p2, f1, f2, s, turnos, turno))
        decreases |turnos| - turno
      {
        if turno == |turnos| {
          DuelarFinal(p1, p2, f1, f2, s, turnos, turno, log);
          NoHeap2(p1, p2, s);
          return Err(RolagensEsgotadas), log;
        }
        ghost var e;
        var res;
        res, e := Vez(p1, p2, turnos[turno], turno, f1, f2, s);
        DuelarPasso(p1, p2, f1, f2, s, turnos, turno, log, e);
        log, s := log + [e], e.Depois();
        if res.Err? {
          NoHeap2(p1, p2, s);
          return Err(res.error), log;
        }
        turno := turno + 1;
      }
      DuelarFinal(p1, p2, f1, f2, s, turnos, turno, log);
      NoHeap2(p1, p2, s);
      r := Ok(if p1.EstaVivo() then p1 else p2);
    }

    /** `[q for q in inimigos if q.esta_vivo()]`: the living enemies, by the hp in `s`
        that they hold. */
    method Alvos(inimigos: seq<Personagem>, ghost s: map<Personagem, int>) returns (alvos: seq<Personagem>)
      requires forall q :: q in inimigos ==> q in s && q.hp == s[q]
      ensures alvos == VivosSegundo(inimigos, s)
    {
      alvos := Vivos(inimigos);
      VivosNoMapa(inimigos, s);
    }

    /** One action of a half round on the heap: `restantes[0]` hits the living enemy the
        roll picks among `alvos`. The hp and the rest of the half round follow `RodadaPasso`. */
    method Investir(restantes: seq<Personagem>, inimigos: seq<Personagem>, alvos: seq<Personagem>, turnos: seq<Turno>,
                    p: nat, ghost F: map<Personagem, Ficha>, ghost s: map<Personagem, int>, ghost log: seq<Acao>)
      returns (res: Result<Relato>, ghost e: Acao)
      requires p < |turnos| && TurnosValidos(turnos, 3)
      requires restantes != [] && (forall q :: q in restantes ==> q in F) && F[restantes[0]] == FichaDe(restantes[0])
      requires Cobre(s, inimigos) && forall q :: q in inimigos ==> q.hp == s[q]
      requires alvos == VivosSegundo(inimigos, s) && alvos != []
      modifies inimigos`hp
      ensures e.resultado == res && Cobre(e.Depois(), inimigos) && e.Depois().Keys == s.Keys
      ensures forall q :: q in inimigos ==> q.hp == e.Depois()[q]
      ensures res.Err? ==>
                Antecede(log, Rodada(restantes, inimigos, F, s, turnos, p)) == (Err(res.error), log + [e])
      ensures res.Ok? ==>
                Antecede(log, Rodada(restantes, inimigos, F, s, turnos, p))
                == Antecede(log + [e], Rodada(restantes[1..], inimigos, F, e.Depois(), turnos, p + 1))
    {
      var t := turnos[p];
      var alvo := alvos[t.alvo % |alvos|];
      assert alvo in alvos;
      res, e := Executado(restantes[0], alvo, t, F[restantes[0]], s);
      RodadaPasso(restantes, inimigos, F, s, turnos, p, log, e);
    }

    /** One pass of the `for` loop of a half round: the living enemies are listed; with
        none left, or no Turno left, the half round ends; otherwise `restantes[0]` hits the
        one the roll picks. `fim` is the half round's outcome when it ends here, and `e`
        the actions taken (none or one), as `Rodada` says. */
    method Investida(restantes: seq<Personagem>, inimigos: seq<Personagem>, turnos: seq<Turno>, p: nat,
                     ghost F: map<Personagem, Ficha>, ghost s: map<Personagem, int>, ghost log: seq<Acao>)
      returns (fim: Option<Result<nat>>, ghost e: seq<Acao>)
      requires p <= |turnos| && TurnosValidos(turnos, 3) && restantes != []
      requires (forall q :: q in restantes ==> q in F) && F[restantes[0]] == FichaDe(restantes[0])
      requires Cobre(s, inimigos) && forall q :: q in inimigos ==> q.hp == s[q]
      modifies inimigos`hp
      ensures Estado(e, s).Keys == s.Keys && Cobre(Estado(e, s), inimigos)
      ensures forall q :: q in inimigos ==> q.hp == Estado(e, s)[q]
      ensures fim.Some? ==> Antecede(log, Rodada(restantes, inimigos, F, s, turnos, p)) == (fim.value, log + e)
      ensures fim.None? ==>
                p < |turnos| &&
                Antecede(log, Rodada(restantes, inimigos, F, s, turnos, p))
                == Antecede(log + e, Rodada(restantes[1..], inimigos, F, Estado(e, s), turnos, p + 1))
    {
      var alvos := Alvos(inimigos, s);
      if alvos == [] || p == |turnos| {
        RodadaFinal(restantes, inimigos, F, s, turnos, p, log);
        return Some(if alvos == [] then Ok(p) else Err(RolagensEsgotadas)), [];
      }
      var res;
      ghost var a;
      res, a := Investir(restantes, inimigos, alvos, turnos, p, F, s, log);
      e := [a];
      fim := if res.Err? then Some(Err(res.error)) else None;
    }

    /** The `for` loop of a half round of `batalhar_equipes`: each of `atacantes`, in
        order, hits the living enemy the roll picks, until no enemy is left. `s0` is the
        hp of every participant at the start, which the enemies hold. The outcome and
        the log are those of `Rodada` from `s0`, and the enemies end with the hp the log
        leaves. */
    method Ataques(atacantes: seq<Personagem>, inimigos: seq<Personagem>, turnos: seq<Turno>, pos: nat,
                   ghost F: map<Personagem, Ficha>, ghost s0: map<Personagem, int>)
      returns (r: Result<nat>, ghost log: seq<Acao>)
      requires pos <= |turnos| && TurnosValidos(turnos, 3)
      requires forall q :: q in atacantes ==> q in F && F[q] == FichaDe(q)
      requires Cobre(s0, inimigos) && forall q :: q in inimigos ==> q.hp == s0[q]
      modifies inimigos`hp
      ensures (r, log) == Rodada(atacantes, inimigos, F, s0, turnos, pos)
      ensures Estado(log, s0).Keys == s0.Keys && forall q :: q in inimigos ==> q.hp == Estado(log, s0)[q]
    {
      var restantes := atacantes;
      ghost var s := s0;
      ghost var total := Rodada(restantes, inimigos, F, s, turnos, pos);
      assert [] + total.1 == total.1;
      var p := pos;
      log := [];
      while restantes != []
        invariant pos <= p <= |turnos| && forall q :: q in restantes ==> q in atacantes
        invariant Cobre(s, inimigos) && s.Keys == s0.Keys && s == Estado(log, s0)
        invariant forall q :: q in inimigos ==> q.hp == s[q]
        invariant total == Antecede(log, Rodada(restantes, inimigos, F, s, turnos, p))
        decreases |restantes|
      {
        var fim;
        ghost var e;
        fim, e := Investida(restantes, inimigos, turnos, p, F, s, log);
        EstadoConcat(log, e, s0);
        log, s := log + e, Estado(e, s);
        if fim.Some? {
          return fim.value, log;
        }
        p, restantes := p + 1, restantes[1..];
      }
      RodadaFinal(restantes, inimigos, F, s, turnos, p, log);
      r := Ok(p);
    }

    /** One side's half of a round of `batalhar_equipes`: the members of `equipe` alive at
        its start, in list order, take their `Ataques` against the disjoint `inimigos`.
        `s` is the hp of every participant at the start, which both sides hold. Both
        sides end with the hp the log leaves, which keeps them in range; the acting
        side's hp and every Ficha are as they were. */
    method SubRodada(equipe: seq<Personagem>, inimigos: seq<Personagem>, turnos: seq<Turno>, pos: nat,
                     ghost F: map<Personagem, Ficha>, ghost s: map<Personagem, int>)
      returns (r: Result<nat>, ghost l: seq<Acao>)
      requires pos <= |turnos| && TurnosValidos(turnos, 3) && forall q :: q in equipe ==> q !in inimigos
      requires (forall q :: q in equipe ==> q in F && F[q] == FichaDe(q)) && (forall q :: q in inimigos ==> q in F && F[q] == FichaDe(q))
      requires Cobre(s, equipe) && Cobre(s, inimigos)
      requires (forall q :: q in equipe ==> q.hp == s[q]) && (forall q :: q in inimigos ==> q.hp == s[q])
      modifies inimigos`hp
      ensures (r, l) == Rodada(VivosSegundo(equipe, s), inimigos, F, s, turnos, pos)
      ensures r.Ok? ==> pos <= r.value <= |turnos|
      ensures Estado(l, s).Keys == s.Keys && Cobre(Estado(l, s), equipe) && Cobre(Estado(l, s), inimigos)
      ensures forall q :: q in s && q !in inimigos ==> Estado(l, s)[q] == s[q]
      ensures (forall q :: q in equipe ==> q.hp == Estado(l, s)[q]) && (forall q :: q in inimigos ==> q.hp == Estado(l, s)[q])
    {
      var vivos := Vivos(equipe);
      VivosNoMapa(equipe, s);
      RodadaEstado(vivos, inimigos, F, s, turnos, pos);
      r, l := Ataques(vivos, inimigos, turnos, pos, F, s);
      CobreApos(equipe, inimigos, s, Estado(l, s));
    }

    /** One round of `batalhar_equipes` (one pass of its `while`): A's living members
        act, then B's. `s` is the hp every member holds at its start. The outcome and the
        actions `l` are one step of `Equipes`, and every member ends with the hp `l` leaves. */
    method RodadaCompleta(ea: seq<Personagem>, eb: seq<Personagem>, turnos: seq<Turno>, pos: nat,
                          ghost F: map<Personagem, Ficha>, ghost s: map<Personagem, int>, ghost log: seq<Acao>)
      returns (r: Result<nat>, ghost l: seq<Acao>)
      requires pos <= |turnos| && TurnosValidos(turnos, 3) && forall q :: q in ea ==> q !in eb
      requires (forall q :: q in ea ==> q in F && F[q] == FichaDe(q)) && (forall q :: q in eb ==> q in F && F[q] == FichaDe(q))
      requires Cobre(s, ea) && Cobre(s, eb)
      requires (forall q :: q in ea ==> q.hp == s[q]) && (forall q :: q in eb ==> q.hp == s[q])
      requires VivosSegundo(ea, s) != [] && VivosSegundo(eb, s) != []
      modifies ea`hp, eb`hp
      ensures Estado(l, s).Keys == s.Keys && Cobre(Estado(l, s), ea) && Cobre(Estado(l, s), eb)
      ensures (forall q :: q in ea ==> q.hp == Estado(l, s)[q]) && (forall q :: q in eb ==> q.hp == Estado(l, s)[q])
      ensures (forall q :: q in ea ==> F[q] == FichaDe(q)) && (forall q :: q in eb ==> F[q] == FichaDe(q))
      ensures r.Err? ==> Antecede(log, Equipes(ea, eb, F, s, turnos, pos)) == (Err(r.error), log + l)
      ensures r.Ok? ==>
                pos < r.value <= |turnos| &&
                Antecede(log, Equipes(ea, eb, F, s, turnos, pos))
                == Antecede(log + l, Equipes(ea, eb, F, Estado(l, s), turnos, r.value))
    {
      var r1, l1 := SubRodada(ea, eb, turnos, pos, F, s);
      if r1.Err? {
        EquipesRondaErro(ea, eb, F, s, turnos, pos, log, r1, l1);
        return r1, l1;
      }
      ghost var s1 := Estado(l1, s);
      var r2, l2 := SubRodada(eb, ea, turnos, r1.value, F, s1);
      EstadoConcat(l1, l2, s);
      EquipesRondaOk(ea, eb, F, s, turnos, pos, log, r1, l1, r2, l2);
      r, l := r2, l1 + l2;
    }

    /** `batalhar_equipes`: rounds in which A's living members act, then B's, until one
        side has no living member. The outcome and the log are those of `Equipes` from the
        Fichas and hp at the start, and every member ends with the hp the log leaves. */
    method BatalharEquipes(ea: seq<Personagem>, eb: seq<Personagem>, turnos: seq<Turno>)
      returns (r: Result<Rotulo>, ghost log: seq<Acao>)
      requires Disjuntas(ea, eb) && TodosValidos(ea) && TodosValidos(eb) && TurnosValidos(turnos, 3)
      modifies ea`hp, eb`hp
      ensures TodosValidos(ea) && TodosValidos(eb)
      ensures Cobre(old(HpDe(ea + eb)), ea) && Cobre(old(HpDe(ea + eb)), eb)
      ensures (r, log) == Equipes(ea, eb, old(FichasDe(ea + eb)), old(HpDe(ea + eb)), turnos, 0)
      ensures HpDe(ea + eb) == Estado(log, old(HpDe(ea + eb)))
    {
      Preparo(ea, eb);
      ghost var F := FichasDe(ea + eb);
      ghost var h0 := HpDe(ea + eb);
      ghost var s := h0;
      ghost var total := Equipes(ea, eb, F, h0, turnos, 0);
      assert [] + total.1 == total.1;
      var pos := 0;
      log := [];
      while AlgumVivo(ea) && AlgumVivo(eb)
        invariant pos <= |turnos|
        invariant (forall q :: q in ea ==> F[q] == FichaDe(q)) && (forall q :: q in eb ==> F[q] == FichaDe(q))
        invariant s.Keys == h0.Keys && Cobre(s, ea) && Cobre(s, eb)
        invariant (forall q :: q in ea ==> q.hp == s[q]) && (forall q :: q in eb ==> q.hp == s[q])
        invariant s == Estado(log, h0)
        invariant total == Antecede(log, Equipes(ea, eb, F, s, turnos, pos))
        decreases |turnos| - pos
      {
        VivosNoMapa(ea, s);
        VivosNoMapa(eb, s);
        ghost var l;
        var res;
        res, l := RodadaCompleta(ea, eb, turnos, pos, F, s, log);
        EstadoConcat(log, l, h0);
        log, s := log + l, Estado(l, s);
        if res.Err? {
          Fecho(ea, eb, s);
          return Err(res.error), log;
        }
        pos := res.value;
      }
      VivosNoMapa(ea, s);
      VivosNoMapa(eb, s);
      EquipesFinal(ea, eb, F, s, turnos, pos, log);
      Fecho(ea, eb, s);
      r := Ok(if AlgumVivo(ea) then LadoA else LadoB);
    }

    /** The dispatch of `iniciar`: a duel when both sides are single characters,
        otherwise a team battle with each single character as a one-member team. Its
        outcome and log are those of `Combate` from the Fichas and hp at the start. */
    method Disputar(turnos: seq<Turno>) returns (r: Result<Vencedor>, ghost log: seq<Acao>)
      requires Disjuntas(Membros(a), Membros(b)) && TodosValidos(Membros(a)) && TodosValidos(Membros(b))
      requires TurnosValidos(turnos, if EhEquipes() then 3 else 2)
      modifies Membros(a)`hp, Membros(b)`hp
      ensures TodosValidos(Membros(a)) && TodosValidos(Membros(b))
      ensures (r, log) == Combate(a, b, old(FichasDe(Membros(a) + Membros(b))), old(HpDe(Membros(a) + Membros(b))), turnos)
      ensures HpDe(Membros(a) + Membros(b)) == Estado(log, old(HpDe(Membros(a) + Membros(b))))
    {
      Preparo(Membros(a), Membros(b));
      if EhEquipes() {
        var res;
        res, log := BatalharEquipes(Membros(a), Membros(b), turnos);
        r := match res case Ok(lado) => Ok(Ganhou(lado)) case Err(e) => Err(e);
      } else {
        assert Membros(a) + Membros(b) == [a.p, b.p] && Membros(a)[0] == a.p && Membros(b)[0] == b.p;
        var res;
        res, log := Duelo(a.p, b.p, turnos);
        r := match res case Ok(p) => Ok(Campeao(p)) case Err(e) => Err(e);
      }
    }

    /** `iniciar`: the battle `Disputar` plays, with what `Combate` promises read off
        the characters afterwards: the log is a proper record of the battle and the
        outcome names the survivors. */
    method Iniciar(turnos: seq<Turno>) returns (r: Result<Vencedor>, ghost log: seq<Acao>)
      requires Disjuntas(Membros(a), Membros(b)) && TodosValidos(Membros(a)) && TodosValidos(Membros(b))
      requires TurnosValidos(turnos, if EhEquipes() then 3 else 2)
      modifies Membros(a)`hp, Membros(b)`hp
      ensures TodosValidos(Membros(a)) && TodosValidos(Membros(b))
      ensures (r, log) == Combate(a, b, old(FichasDe(Membros(a) + Membros(b))), old(HpDe(Membros(a) + Membros(b))), turnos)
      ensures HpDe(Membros(a) + Membros(b)) == Estado(log, old(HpDe(Membros(a) + Membros(b))))
      ensures Executadas(log, turnos, 0) && Encadeadas(log, old(HpDe(Membros(a) + Membros(b)))) && ErroDaUltima(log, r)
      ensures EntreEquipes(log, Membros(a), Membros(b)) && Vivas(log)
      ensures !EhEquipes() ==> Alterna(log, a.p, b.p, 0) && EmCadeia(log)
      ensures r.Ok? ==> (r.value.Campeao? <==> !EhEquipes())
      ensures r.Ok? && r.value.Campeao? ==>
                a.Um? && b.Um? && !(a.p.EstaVivo() && b.p.EstaVivo()) && r.value.p == (if a.p.EstaVivo() then a.p else b.p)
      ensures r.Ok? && r.value.Campeao? && a.Um? && b.Um? && old(a.p.hp) > 0 && old(b.p.hp) > 0 ==>
                r.value.p.EstaVivo() && Outro(a.p, b.p, r.value.p).hp == 0
      ensures r == Ok(Ganhou(LadoA)) ==> AlgumVivo(Membros(a)) && !AlgumVivo(Membros(b))
      ensures r == Ok(Ganhou(LadoB)) ==> !AlgumVivo(Membros(a))
      ensures r == Ok(Ganhou(LadoB)) && old(AlgumVivo(Membros(a)) || AlgumVivo(Membros(b))) ==> AlgumVivo(Membros(b))
      ensures r == Err(RolagensEsgotadas) ==> AlgumVivo(Membros(a)) && AlgumVivo(Membros(b)) && |log| == |turnos|
    {
      ghost var F, h0 := FichasDe(Membros(a) + Membros(b)), HpDe(Membros(a) + Membros(b));
      Preparo(Membros(a), Membros(b));
      NoFim(Membros(a), Membros(b), h0);
      r, log := Disputar(turnos);
      CombateNoHeap(a, b, F, h0, turnos, r, log);
    }
  }

  /** A side of a battle: one character or a list of them. */
  datatype Lado = Um(p: Personagem) | Equipe(membros: seq<Personagem>)

  /** The team a side stands for (a single character becomes a one-member team). */
  function Membros(l: Lado): seq<Personagem> {
    match l
    case Um(p) => [p]
    case Equipe(ms) => ms
  }

  /** The label of the side that won a team battle. */
  datatype Rotulo = LadoA | LadoB

  /** What a battle returns: the surviving character of a duel, or the winning side. */
  datatype Vencedor = Campeao(p: Personagem) | Ganhou(lado: Rotulo)

  /** The victim of the duel's winner. */
  function Outro(p1: Personagem, p2: Personagem, p: Personagem): Personagem {
    if p == p1 then p2 else p1
  }

}
