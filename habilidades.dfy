/** Using abilities, directly and by case-insensitive class name. */
module Habilidades {
  import opened Comum
  import opened Dado
  import opened Texto
  import opened Formulas
  import opened Personagens

  /** `hab.usar(usuario, alvo)`: damage from the user's stats, applied to the target. */
  method Usar(h: Habilidade, usuario: Personagem, alvo: Personagem, d: Dados) returns (r: Result<Relato>)
    requires alvo.Valid() && d.Validos()
    modifies alvo`hp
    ensures alvo.Valid()
    ensures (r, alvo.hp) == Receber(old(alvo.hp), alvo.hpMax, DanoHabilidade(h, usuario.tipo, usuario.forca, d))
  {
    var dano := DanoHabilidade(h, usuario.tipo, usuario.forca, d);
    r := alvo.ReceberDano(dano);
  }

  /** The ability's class name matches `nome` ignoring case. */
  predicate Casa(h: Habilidade, nome: string) {
    IgualSemCaixa(NomeDaClasse(h), nome)
  }

  /** The position of the first ability whose class name matches `nome`, or None. */
  function PrimeiraQueCasa(habs: seq<Habilidade>, nome: string): (r: Option<nat>)
    ensures r.None? <==> forall j :: 0 <= j < |habs| ==> !Casa(habs[j], nome)
    ensures r.Some? ==> r.value < |habs| && Casa(habs[r.value], nome)
    ensures r.Some? ==> forall j :: 0 <= j < r.value ==> !Casa(habs[j], nome)
  {
    if habs == [] then None
    else if Casa(habs[0], nome) then Some(0)
    else match PrimeiraQueCasa(habs[1..], nome)
      case None => None
      case Some(i) => Some(i + 1)
  }

  /** A match preceded by no other match is the first one. */
  lemma PrimeiraQueCasaEm(habs: seq<Habilidade>, nome: string, i: nat)
    requires i < |habs| && Casa(habs[i], nome)
    requires forall j :: 0 <= j < i ==> !Casa(habs[j], nome)
    ensures PrimeiraQueCasa(habs, nome) == Some(i)
  {
  }

  /** `usar_habilidade_por_nome`: applies the first matching ability of the user to the
      target; with no match it returns None and no hp changes. */
  method UsarHabilidadePorNome(usuario: Personagem, nome: string, alvo: Personagem, d: Dados)
    returns (r: Option<Result<Relato>>)
    requires alvo.Valid() && d.Validos()
    modifies alvo`hp
    ensures alvo.Valid()
    ensures match PrimeiraQueCasa(usuario.habilidades, nome)
      case None => r == None && alvo.hp == old(alvo.hp)
      case Some(i) =>
        r.Some? &&
        (r.value, alvo.hp) == Receber(old(alvo.hp), alvo.hpMax,
                                      DanoHabilidade(usuario.habilidades[i], usuario.tipo, usuario.forca, d))
  {
    var habs := usuario.habilidades;
    var i := 0;
    while i < |habs|
      invariant 0 <= i <= |habs|
      invariant forall j :: 0 <= j < i ==> !Casa(habs[j], nome)
    {
      if Casa(habs[i], nome) {
        PrimeiraQueCasaEm(habs, nome, i);
        var res := Usar(habs[i], usuario, alvo, d);
        return Some(res);
      }
      i := i + 1;
    }
    return None;
  }

  /** The class name is found whatever the case of the query, e.g. "ataqueforte";
      another name finds nothing. */
  lemma AtaqueForteSemCaixa()
    ensures PrimeiraQueCasa([AtaqueForte], "ataqueforte") == Some(0)
    ensures PrimeiraQueCasa([AtaqueForte], "ATAQUEFORTE") == Some(0)
    ensures PrimeiraQueCasa([AtaqueForte], "bolaDeFogo") == None
  {
    assert Minusculas("bolaDeFogo")[0] != Minusculas("AtaqueForte")[0];
  }
}
