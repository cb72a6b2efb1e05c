# A verified model of the kayo.py combat engine

`kayo.py` is a small turn-based RPG combat simulator. Characters have hit points, strength, an
optional weapon, an inventory and a list of abilities. Five archetypes (Guerreiro, Mago,
Arqueiro, Goblin, Orc, the last two built on Monstro) each have their own dice-based attack.
Two abilities (AtaqueForte, BolaDeFogo) use the stats of whoever uses them. A `Batalha`
either runs a one-on-one duel or a team battle until one side has no living member.

This project models that engine in Dafny and proves what its code promises:

- hit points always stay in `[0, hp_max]`, because every write goes through the clamping setter;
- negative damage is an error and changes nothing;
- each archetype and ability deals exactly its formula as a function of the dice;
- the inventory removes the first occurrence only and finds the first potion;
- lookup of an ability by name ignores case and reports "no match" without touching anyone;
- a duel alternates strictly, and its returned winner is alive while the loser is dead;
- in a team battle only living characters act, only living enemies are hit, and the reported side is consistent with who is still alive.

Modules, leaves first:

- `Comum` (comum.dfy): `Option`, `Result` and the engine's errors.
- `Dado` (dado.dfy): the dice of one action, each roll in the range of its die.
- `Vida` (vida.dfy): the hp setter as a function, and the damage and healing rules.
- `Texto` (texto.dfy): lower-casing for name comparison.
- `Listas` (listas.dfy): first index and remove-first, as Python's list does them.
- `Formulas` (formulas.dfy): archetypes, abilities and their damage formulas.
- `Personagens` (personagem.dfy): `Arma`, `Pocao`, `Inventario` and the `Personagem` class.
- `Habilidades` (habilidades.dfy): using abilities, and looking one up by name.
- `Batalhas` (batalha.dfy): the `Batalha` class, with the duel, team rounds and `iniciar`.
- `Exemplos` (exemplos.dfy): the engine's own assertion scenarios, replayed against the contracts.

Randomness is an input. Each action of a battle consumes one `Turno` from a supplied
sequence. A `Turno` holds four things:

- the d2 or d3 roll that chooses an ability over the innate attack;
- the indices behind `random.choice`, applied modulo the list's length;
- the d4/d6/d8/d20 rolls;
- the Orc's critical draw.

The formulas are then deterministic. A battle that outlives its sequence of outcomes returns
`Err(RolagensEsgotadas)`. This is the model's bound on the source's unbounded `while` loops:
two Archers can miss each other forever.

Behaviour of the code worth knowing:

- An empty list given as a team stays empty (kayo.py:285-286 only wraps non-lists). It is not
  turned into a one-member roster, so a battle against an empty team A ends at once with "B".
- The duel returns `p2` when `p1` is dead at the start, even if `p2` is dead too
  (kayo.py:250). The winner is only guaranteed alive when both start alive.
- When both teams start with no living member, the result is "B" (kayo.py:280).

The battle methods are proved against ghost functions that play the same battle on
values: `Duelar` (the duel), `Rodada` (one side's half of a round), `Equipes` (the team
battle) and `Combate` (`iniciar`). Each returns the outcome and a log: one `Acao` per
action, in order. An `Acao` records these:

- the attacker and the target;
- the `Turno` consumed;
- the attacker's `Ficha` (attack power with the weapon, and its abilities);
- `antes`, the hp of every participant just before the action;
- the target's hp just after it;
- the report.

Each method returns the log as a ghost out-parameter. It ensures that its outcome and
log equal the function's, from the Fichas and hp the characters hold at the start
(`Antecede(log, o)` is outcome `o` preceded by the actions of `log`). It also ensures
that the characters end with the hp the log leaves (`Estado`). Lemmas about the
functions say what the log records and how a battle ends, and `Iniciar` restates them
about the characters.

## Model

| member | source | states |
|---|---|---|
| `Vida.Clamp` | kayo.py:80-89 | the stored hp is always in `[0, hp_max]`; a value in range is stored unchanged, a negative one as 0, a larger one as `hp_max` |
| `Vida.ClampMaisProximo` | kayo.py:80-89 | the stored value is the point of `[0, hp_max]` nearest to the requested one |
| `Vida.ClampIdempotente` | kayo.py:80-89 | storing an already stored value changes nothing |
| `Vida.AposDano` | kayo.py:108-114 | negative damage is an error (`DanoNegativo`); otherwise hp becomes `max(0, hp - dano)`, never more than before |
| `Vida.AposCura` | kayo.py:27-31 | a heal of `cura >= 0` gives `min(hp_max, hp + cura)`; a negative one floors at 0; the result stays in range |
| `Texto.Minusculas` | kayo.py:224 | lower-casing keeps the length |
| `Texto.MinusculasSemMaiusculas` | kayo.py:224 | no upper-case letter survives lower-casing |
| `Texto.MinusculasIdempotente` | kayo.py:224 | lower-casing twice is lower-casing once |
| `Listas.IndiceDe` | kayo.py:50-51 | the index found holds the item, and no earlier index does |
| `Listas.SemPrimeira` | kayo.py:49-53 | removing an absent item leaves the list as it is; otherwise exactly the first occurrence is cut out, everything else keeps its order |
| `Listas.SemPrimeiraMultiset` | kayo.py:49-53 | a removal takes out exactly one copy of the item and shortens the list by one |
| `Listas.SemPrimeiraDoAcrescentado` | kayo.py:46-53 | adding an item that was not there and removing it again gives back the original list |
| `Formulas.ForcaVezes18` | kayo.py:210 | `int(forca * 1.8)` truncates toward zero: for `forca >= 0` it is the largest `r` with `5r <= 9 forca`, and symmetrically for negative strength |
| `Formulas.DanoAtaque` | kayo.py:129-198 | the Archer misses exactly when its d20 exceeds its precision, and nobody else misses; Warrior, Archer, Monster and Goblin deal power + 1..4; Mage deals magic + 1..6; Orc deals (2 × power on a crit, else power) + 1..6 |
| `Formulas.DanoHabilidade` | kayo.py:207-219 | AtaqueForte deals `int(forca * 1.8)` + 1..4; BolaDeFogo deals magic power (default 10) + 6..13 |
| `Formulas.MagoIgnoraArma` | kayo.py:143-148 | a Mage's attack does not depend on the attack power, hence not on the weapon |
| `Formulas.GoblinComoMonstro` | kayo.py:169-181 | a Goblin attacks exactly as its Monstro base class |
| `Formulas.OrcCriticoDobraBase` | kayo.py:188-198 | with the same d6, a critical hit deals exactly one attack power more than a normal one: the base is doubled before the die is added |
| `Formulas.DanoNaoNegativo` | kayo.py:129-219 | with non-negative strength, weapon and magic power, no attack or ability deals negative damage, so the error of `receber_dano` is then unreachable |
| `Personagens.Arma.constructor` | kayo.py:15-17 | a weapon keeps its name and damage |
| `Personagens.Pocao.constructor` | kayo.py:23-25 | a potion keeps its name and heal amount |
| `Personagens.Pocao.Usar` | kayo.py:27-31 | the target's hp becomes the clamped `hp + cura`, the report carries hp before and after, and no other field of the target changes |
| `Personagens.Inventario.constructor` | kayo.py:43-44 | a new inventory is empty |
| `Personagens.Inventario.Adicionar` | kayo.py:46-47 | the item is appended at the end |
| `Personagens.Inventario.Remover` | kayo.py:49-53 | returns true exactly when the item was present, and the items become the list with its first occurrence removed (unchanged when absent) |
| `Personagens.Inventario.Listar` | kayo.py:55-56 | returns the items in insertion order, as a value the inventory's later changes cannot reach |
| `Personagens.Inventario.EncontrarPocao` | kayo.py:58-62 | None exactly when no item is a potion; otherwise a potion at some index with no potion before it |
| `Personagens.Personagem.constructor` | kayo.py:66-73 | a character starts at full hp with no weapon, no abilities and a fresh empty inventory |
| `Personagens.Personagem.NovoGuerreiro` | kayo.py:126-127 | Warrior defaults: hp 120, strength 15 |
| `Personagens.Personagem.NovoMago` | kayo.py:139-141 | Mage defaults: hp 80, strength 8, magic power 20 |
| `Personagens.Personagem.NovoArqueiro` | kayo.py:151-153 | Archer defaults: hp 90, strength 10, precision 14 |
| `Personagens.Personagem.NovoGoblin` | kayo.py:175-176 | Goblin defaults: name "Goblin", hp 50, strength 8 |
| `Personagens.Personagem.NovoOrc` | kayo.py:184-186 | Orc defaults: name "Orc", hp 100, strength 12 |
| `Personagens.Personagem.SetHp` | kayo.py:80-89 | the setter stores `Clamp(valor, hp_max)`, so the hp invariant holds afterwards |
| `Personagens.Personagem.EquiparArma` | kayo.py:99-106 | the weapon is replaced, and the attack power becomes strength plus that weapon's damage |
| `Personagens.Personagem.ReceberDano` | kayo.py:108-114 | the report and new hp are `Receber` of the damage: negative damage returns the error and leaves hp unchanged; otherwise hp becomes `max(0, hp - dano)` and the report records the damage and hp before and after |
| `Personagens.Personagem.Atacar` | kayo.py:129-198 | the archetype's attack: a miss reports the d20 and changes nothing, a hit applies its formula's damage through `receber_dano`; only the target's hp can change |
| `Personagens.Receber` | kayo.py:108-114 | `receber_dano` on values: it fails exactly on negative damage, leaving hp alone; otherwise hp becomes `max(0, hp - dano)` and the report records the damage with the hp before and after |
| `Personagens.Resolver` | kayo.py:108-114 | what an attack does to its target: an attack never heals, and its only error is negative damage |
| `Habilidades.Usar` | kayo.py:207-219 | an ability applies its formula's damage, computed from the user's stats, to the target through `receber_dano` |
| `Habilidades.PrimeiraQueCasa` | kayo.py:222-226 | finds the index of the first ability whose class name equals the query ignoring case, or None exactly when no ability matches |
| `Habilidades.PrimeiraQueCasaEm` | kayo.py:223-225 | a match with no match before it is the first match |
| `Habilidades.UsarHabilidadePorNome` | kayo.py:222-226 | with no match, returns None and no hp changes; otherwise applies the first matching ability to the target |
| `Habilidades.AtaqueForteSemCaixa` | kayo.py:339-342 | AtaqueForte is found as "ataqueforte" and as "ATAQUEFORTE", and not as "bolaDeFogo" |
| `Batalhas.Vivos` | kayo.py:259-260 | every member listed is alive and from the team, every living member is listed, and the list is empty exactly when no member is alive |
| `Batalhas.VivosNoMapa` | kayo.py:259-260 | the living members read off the characters are, in list order, those alive by any map holding their hp |
| `Batalhas.Agir` | kayo.py:244-248 | an action uses the chosen ability when the roll says so and the attacker owns one, otherwise the innate attack; it never raises the target's hp and changes nothing but the target's hp |
| `Batalhas.ExecutadaUma` | kayo.py:244-248 | the action built from a Turno, a Ficha and the hp before it resolves that Turno: its damage is the one the rolls choose, applied as `receber_dano` applies it |
| `Batalhas.Batalha.constructor` | kayo.py:230-233 | the battle keeps its two sides |
| `Batalhas.Batalha.Executado` | kayo.py:244-248 | one action on the characters reports and leaves in the target exactly what the action built from the attacker's Ficha and the target's hp says |
| `Batalhas.Batalha.Vez` | kayo.py:242-248 | p1 hits p2 on even turns and p2 hits p1 on odd ones; afterwards both fighters hold the hp that action leaves |
| `Batalhas.DuelarPasso` | kayo.py:241-249 | one pass of the duel loop: a failing turn ends the duel with its error, otherwise the duel goes on, one turn later, from the hp the turn leaves |
| `Batalhas.DuelarFinal` | kayo.py:241-250 | a duel with a fighter dead ends at once with `p1 if p1 alive else p2`; with both alive and no Turno left it ends with RolagensEsgotadas |
| `Batalhas.Batalha.Duelo` | kayo.py:238-251 | the outcome and the log are the duel played on the fighters' Fichas and hp at the start, the fighters end with the hp that log leaves, and their hp stays in range |
| `Batalhas.DuelarEstado` | kayo.py:241-249 | a duel keeps both fighters' hp in range and consumes at most the Turnos left |
| `Batalhas.DuelarExecutada` | kayo.py:241-249 | every turn consumed the next Turno, in order, and did what its rolls dictate |
| `Batalhas.DuelarEncadeada` | kayo.py:241-249 | every turn found the hp the turns before it left |
| `Batalhas.DuelarErro` | kayo.py:241-249 | only the last turn may fail, with negative damage (`receber_dano` raises, kayo.py:110-111), and that error is the duel's |
| `Batalhas.DuelarAlterna` | kayo.py:241-249 | turn t is p1's against p2 when t is even and p2's against p1 otherwise, and both fighters are alive when it is played |
| `Batalhas.DueloEncadeado` | kayo.py:241-249 | each turn starts where the previous one left the fighters: the attacker has the hp the last hit left it, the target the hp it had when it attacked |
| `Batalhas.DuelarFim` | kayo.py:241-250 | a duel ending Ok leaves at most one fighter alive and returns `p1 if p1 alive else p2`; running out of Turnos leaves both alive with every Turno consumed |
| `Batalhas.DuelarUltimo` | kayo.py:241-250 | when both start alive and the duel ends Ok, the champion made the last attack and is alive, and the other fighter is at hp 0 |
| `Batalhas.DuelarRegistro` | kayo.py:238-251 | the duel's log together: Turnos consumed in order and resolved, chained hp, only the last action failing, strict alternation of two living fighters |
| `Batalhas.Batalha.Alvos` | kayo.py:260 | the living enemies are those alive by the hp the enemies hold, in list order |
| `Batalhas.RodadaPasso` | kayo.py:259-268 | one pass of the `for` loop: the next attacker hits the living enemy the roll picks; a failure ends the half round with its error, otherwise it goes on with the next attacker from the hp that action leaves |
| `Batalhas.RodadaFinal` | kayo.py:259-263 | the half round ends Ok at the current Turno position once no attacker or no living enemy is left (the `break`), and with RolagensEsgotadas when both are left but no Turno is |
| `Batalhas.Batalha.Investir` | kayo.py:263-268 | the heap action of one pass: the enemies end with the hp that action leaves, and the half round continues or ends as `RodadaPasso` says |
| `Batalhas.Batalha.Investida` | kayo.py:260-268 | one pass of the `for` loop on the heap, including the end of the half round when no enemy or no Turno is left |
| `Batalhas.Batalha.Ataques` | kayo.py:259-268 | the loop over the attackers: its outcome and log are the half round played from the hp at its start, and the enemies end with the hp that log leaves |
| `Batalhas.Batalha.SubRodada` | kayo.py:259-279 | the attackers are the members alive at the start, in list order; outcome and log as for `Ataques`; both sides end with the hp the log leaves, in range, and only the enemies' hp changes |
| `Batalhas.RodadaPosicao` | kayo.py:259-268 | a half round consumes one Turno per action, and takes at least one action when it has an attacker and a living enemy and ends Ok |
| `Batalhas.RodadaMapa` | kayo.py:259-268 | a half round keeps the enemies' hp in range and changes no one else's hp, so the acting side's hp is untouched |
| `Batalhas.RodadaEstado` | kayo.py:259-268 | `RodadaPosicao` and `RodadaMapa` together |
| `Batalhas.RodadaExecutada` | kayo.py:259-268 | every action of a half round consumed the next Turno, in order, and did what its rolls dictate |
| `Batalhas.RodadaEncadeada` | kayo.py:259-268 | every action of a half round found the hp the actions before it left |
| `Batalhas.RodadaErro` | kayo.py:259-268 | only the last action of a half round may fail, with negative damage, and that error is the half round's |
| `Batalhas.RodadaOrdem` | kayo.py:259-268 | action k is by the k-th attacker, alive and from its team, against the living enemy its roll picks among those alive just before it |
| `Batalhas.RodadaFim` | kayo.py:259-263 | an Ok half round ends when every attacker has acted or no enemy is alive; running out of Turnos leaves an attacker to act and an enemy alive |
| `Batalhas.RodadaEsgotada` | kayo.py:259-268 | a half round that runs out of Turnos leaves both teams with a survivor, every Turno consumed |
| `Batalhas.RodadaEntre` | kayo.py:259-279 | a half round of either team goes from a living member of one team to a living member of the other |
| `Batalhas.EquipesPasso` | kayo.py:256-279 | one pass of the `while`: A's half round, then B's from the hp A's leaves, then the rest of the battle; an error in either ends the battle with it |
| `Batalhas.EquipesRondaErro` | kayo.py:259-268 | an error in A's half round ends the team battle with that error and A's actions |
| `Batalhas.EquipesRondaOk` | kayo.py:256-279 | after an Ok half round of A, B's error ends the battle; otherwise the battle goes on from the hp both half rounds leave, at a later Turno |
| `Batalhas.EquipesFinal` | kayo.py:256-280 | once a team has no living member the battle ends: "A" if A still has one, "B" otherwise |
| `Batalhas.Batalha.RodadaCompleta` | kayo.py:256-279 | one round on the heap: its outcome and actions are one step of the team battle, and every member ends with the hp those actions leave |
| `Batalhas.Batalha.BatalharEquipes` | kayo.py:253-281 | the outcome and the log are the team battle played on the Fichas and hp at the start; every member ends with the hp that log leaves, in range |
| `Batalhas.EquipesEstado` | kayo.py:253-281 | a team battle keeps every member's hp in range |
| `Batalhas.EquipesExecutada` | kayo.py:256-279 | every action of a team battle consumed the next Turno, in order, and did what its rolls dictate |
| `Batalhas.EquipesEncadeada` | kayo.py:256-279 | every action of a team battle found the hp the actions before it left |
| `Batalhas.EquipesErro` | kayo.py:256-279 | only the last action of a team battle may fail, with negative damage, and that error is the battle's |
| `Batalhas.EquipesEntre` | kayo.py:256-279 | every action was a living member of one team hitting a living member of the other |
| `Batalhas.EquipesFim` | kayo.py:256-280 | "A" means A has a survivor and B none; "B" means A has none, and B has a survivor whenever anyone was alive at the start |
| `Batalhas.EquipesEsgotada` | kayo.py:256-279 | running out of Turnos leaves both teams with a survivor, every Turno consumed |
| `Batalhas.EquipesRegistro` | kayo.py:253-281 | the team battle's log together: Turnos in order and resolved, chained hp, only the last action failing, living fighters of opposite teams |
| `Batalhas.RegistroEquipes` | kayo.py:284-287 | `CombateRegistro` when a side is a list |
| `Batalhas.RegistroDuelo` | kayo.py:288-289 | `CombateRegistro` when both sides are single characters |
| `Batalhas.CombateRegistro` | kayo.py:283-289 | whatever the mode, every action consumed the next Turno and resolved it on the hp the actions before it left, went from a living member of one side to a living member of the other, and only the last may fail; a duel also alternates and chains its turns |
| `Batalhas.DesfechoEquipes` | kayo.py:284-287 | `CombateDesfecho` when a side is a list: the outcomes are side labels |
| `Batalhas.DesfechoDuelo` | kayo.py:288-289 | `CombateDesfecho` when both sides are single characters: the outcomes are champions |
| `Batalhas.CombateDesfecho` | kayo.py:283-289 | a duel exactly when neither side is a list; its champion is `a if a alive else b` with at most one alive, and alive against a dead opponent when both started alive; a team battle says "A" or "B" as `EquipesFim` does; running out of Turnos leaves both sides with a survivor |
| `Batalhas.CombateNoHeap` | kayo.py:283-289 | `CombateRegistro` and `CombateDesfecho` read off the characters once they hold the hp the log leaves |
| `Batalhas.Batalha.Disputar` | kayo.py:283-289 | the dispatch: its outcome and log are `Combate` from the Fichas and hp at the start, and every member ends with the hp that log leaves |
| `Batalhas.Batalha.Iniciar` | kayo.py:283-289 | `Disputar`, with everything `CombateNoHeap` says about the log and about who is alive afterwards |
| `Exemplos.PoderComEsemArma` | kayo.py:321-324 | strength 10 gives attack power 10, and 15 after equipping a weapon of damage 5 |
| `Exemplos.MagoRecebeDanoLetal` | kayo.py:326-328 | a Mage with hp_max 10 taking 50 damage ends at hp 0 and dead |
| `Exemplos.DanoNegativoRecusado` | kayo.py:110-111 | `receber_dano(-1)` is refused and hp stays at its maximum |
| `Exemplos.AtaqueFortePorNome` | kayo.py:339-342 | a Warrior owning AtaqueForte finds it as "ataqueforte" and uses it on an Orc |
| `Exemplos.DueloDevolvePersonagem` | kayo.py:333-337 | a duel of a default Warrior against a default Goblin, started by `iniciar`, returns one of the two characters, alive, whenever the rolls last |
| `Exemplos.DueloDeQuatros` | kayo.py:238-251 | with every d4 at 4, the Warrior's 19-point hits and the Goblin's 12-point hits, the Warrior first, kill the Goblin on the fifth action and leave the Warrior at 96 hp |
| `Exemplos.DueloVencidoPeloGuerreiro` | kayo.py:333-337 | that duel through `iniciar`: the Warrior is returned as champion at 96 hp and the Goblin ends at 0 |

These are plain definitions, used by the contracts above:

- `Personagem.EstaVivo` (`hp > 0`, kayo.py:95-97);
- `Personagem.PoderAtaque` (kayo.py:103-106);
- `Formulas.PoderMagico` (the `getattr` default of 10, kayo.py:216);
- `Batalha.EhEquipes` (kayo.py:235-236);
- `Batalhas.Membros` (the one-member team, kayo.py:285-286).

The specification functions `Rodada`, `Duelar`, `Equipes` and `Combate` have no contract of
their own: the lemmas in the table state what they do.

## Left out

- Random number generation (`Dado.rolar`, `random.choice`, `random.random`, seeding). Outcomes are supplied as inputs, each roll constrained to its die, and `random.choice` becomes an index modulo the list's length. Distributions and seeded replay are not modelled, though every operation is a deterministic function of its inputs.
- Batalhas.Batalha.BatalharEquipes: is bounded by its sequence of outcomes instead of running unboundedly. It returns `Err(RolagensEsgotadas)` when the outcomes run out, with both sides still alive. The same holds for `Batalhas.Batalha.Duelo`.
- Floating point. The Orc's `crit_chance` and the draw `random.random() < crit_chance` become the boolean `critico` of the dice. `int(forca * 1.8)` is computed exactly as `9 forca / 5` truncated toward zero, which agrees with the float computation for strengths of ordinary size. The float branch `int(valor)` of the hp setter is not modelled.
- The setter's `TypeError` on a non-numeric hp: Dafny's types rule it out.
- Report strings and `__str__`. Attacks, damage and potions return a `Relato` holding the numbers those strings print. The Orc's "CRÍTICO" tag is not carried.
- Reflection. `isinstance` and `__class__.__name__` become the tags `Item`, `Arquetipo` and `Habilidade`, and `NomeDaClasse`. The inventory holds weapons and potions only, not arbitrary objects.
- Texto.Minusculas: lowers ASCII letters only, where Python's `str.lower` handles all of Unicode. The two class names are ASCII and no non-ASCII character lowers onto their letters, so the lookup result is the same.
- Personagens.Personagem.constructor: requires `hp_max >= 0`, which the source does not check. So do the archetype constructors `Personagens.Personagem.NovoGuerreiro`, `NovoMago`, `NovoArqueiro`, `NovoGoblin` and `NovoOrc`; without it the hp invariant cannot hold. `nome` and `forca` are constants, because nothing in the engine reassigns them.
- Batalhas.Batalha.Duelo: requires its two characters to be distinct objects. `BatalharEquipes` and `Iniciar` require the two teams to share no member. The alive/dead guarantees depend on this.
- Demo and test scaffolding: the module-level demo objects (kayo.py:37-39), `criar_cenario_demo`, `run_tests`, `run_demo`, the `__main__` block and `Goblin.criar_padrao` (it returns `Goblin()`, which `NovoGoblin()` builds). `Exemplos` replays these assertions of `run_tests`: attack power with and without a weapon (kayo.py:321-324), lethal damage to a Mage (kayo.py:326-328), the duel that returns a character (kayo.py:333-337) and the lookup by name (kayo.py:339-342). The checks on `str(g)` (kayo.py:318-319) and on `isinstance(g2, Goblin)` (kayo.py:330-331) concern report strings and reflection, which are not modelled.
- Which rolls an action consumes. In the source, an attacker without abilities rolls no d2 or d3 and makes no `random.choice` of an ability (kayo.py:244, 264, 275). In the model every action consumes one whole `Turno` and ignores the fields it does not use. Rolls are inputs, so this changes which input sequence leads to a given battle, not which battles can happen.
- The battle's hp state and log are ghost. `Duelo`, `SubRodada`, `BatalharEquipes` and `Iniciar` keep the hp of every participant in a ghost map and the actions in a ghost log. Both exist only to state and prove the contracts; the compiled methods only change the characters' `hp`.
- `Acao.HpAtacante` and `Acao.HpAlvo` read 0 for a character that `antes` lacks. `CombateRegistro` proves that every logged action finds both of its participants in `antes`, so that default is never read for a logged action.
