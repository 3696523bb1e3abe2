/**
 * The event service (eventoService): the custom-field list of a stored event, appended to or
 * filtered by id, and the participant count attached to each listed event.
 */
module EventoService {
  import opened Wrappers
  import opened Types
  import opened Seqs

  /**
   * What these operations read and write of a stored event: its custom-field list, which may
   * be missing from the document, and its update time.
   */
  datatype DocEvento = DocEvento(campos: Option<seq<CampoPersonalizado>>, atualizadoEm: string)

  /** `data.camposPersonalizados || []`. */
  function CamposAtuais(d: DocEvento): (cs: seq<CampoPersonalizado>)
    ensures d.campos.None? ==> cs == []
    ensures d.campos.Some? ==> cs == d.campos.value
  {
    if d.campos.Some? then d.campos.value else []
  }

  const EventoNaoEncontrado: string := "Evento não encontrado"

  /** The list after adding: the new field after every existing one. */
  function ComCampo(cs: seq<CampoPersonalizado>, campo: CampoPersonalizado): (r: seq<CampoPersonalizado>)
    ensures |r| == |cs| + 1 && r[..|cs|] == cs && r[|cs|] == campo
  {
    cs + [campo]
  }

  function IdDiferente(campoId: string): CampoPersonalizado -> bool {
    (c: CampoPersonalizado) => c.id != campoId
  }

  /** The list after removing: every field with the id is gone, the others stay in order. */
  function SemCampo(cs: seq<CampoPersonalizado>, campoId: string): (r: seq<CampoPersonalizado>)
    ensures forall i :: 0 <= i < |r| ==> r[i].id != campoId && r[i] in cs
    ensures forall i :: 0 <= i < |cs| && cs[i].id != campoId ==> cs[i] in r
  {
    Filter(IdDiferente(campoId), cs)
  }

  lemma SemCampoEmOrdem(cs: seq<CampoPersonalizado>, campoId: string)
    ensures IsSubseq(SemCampo(cs, campoId), cs)
  {
    FilterIsSubseq(IdDiferente(campoId), cs);
  }

  /** Removing a field that was just added, under an id no other field had, restores the list. */
  lemma RemoverDesfazAdicionar(cs: seq<CampoPersonalizado>, campo: CampoPersonalizado)
    requires forall i :: 0 <= i < |cs| ==> cs[i].id != campo.id
    ensures SemCampo(ComCampo(cs, campo), campo.id) == cs
  {
    FilterConcat(IdDiferente(campo.id), cs, [campo]);
    FilterKeepsAll(IdDiferente(campo.id), cs);
  }

  /** Removing twice by the same id is removing once. */
  lemma RemoverIdempotente(cs: seq<CampoPersonalizado>, campoId: string)
    ensures SemCampo(SemCampo(cs, campoId), campoId) == SemCampo(cs, campoId)
  {
    FilterIdempotent(IdDiferente(campoId), cs);
  }

  /** The events in the store, by id. */
  class Banco {
    var eventos: map<string, DocEvento>

    constructor (inicial: map<string, DocEvento>)
      ensures eventos == inicial
    {
      eventos := inicial;
    }

    /**
     * `adicionarCampoPersonalizado`: a missing event fails with 'Evento não encontrado' and
     * writes nothing; otherwise the event's list (missing counts as empty) gets the field
     * appended and the event its new update time.
     */
    method AdicionarCampo(eventoId: string, campo: CampoPersonalizado, agora: string) returns (r: Result<(), string>)
      modifies this
      ensures eventoId !in old(eventos) ==> r == Err(EventoNaoEncontrado) && eventos == old(eventos)
      ensures eventoId in old(eventos) ==>
                var d := old(eventos)[eventoId];
                && r.Ok?
                && eventos == old(eventos)[eventoId := DocEvento(Some(ComCampo(CamposAtuais(d), campo)), agora)]
    {
      if eventoId !in eventos {
        return Err(EventoNaoEncontrado);
      }
      var d := eventos[eventoId];
      eventos := eventos[eventoId := DocEvento(Some(ComCampo(CamposAtuais(d), campo)), agora)];
      return Ok(());
    }

    /**
     * `removerCampoPersonalizado`: a missing event fails with 'Evento não encontrado' and
     * writes nothing; otherwise the fields with that id leave the event's list.
     */
    method RemoverCampo(eventoId: string, campoId: string, agora: string) returns (r: Result<(), string>)
      modifies this
      ensures eventoId !in old(eventos) ==> r == Err(EventoNaoEncontrado) && eventos == old(eventos)
      ensures eventoId in old(eventos) ==>
                var d := old(eventos)[eventoId];
                && r.Ok?
                && eventos == old(eventos)[eventoId := DocEvento(Some(SemCampo(CamposAtuais(d), campoId)), agora)]
    {
      if eventoId !in eventos {
        return Err(EventoNaoEncontrado);
      }
      var d := eventos[eventoId];
      eventos := eventos[eventoId := DocEvento(Some(SemCampo(CamposAtuais(d), campoId)), agora)];
      return Ok(());
    }
  }

  function DoEvento(eventoId: string): Participante -> bool {
    (p: Participante) => p.eventoId == eventoId
  }

  /** The size of the query `participantes where eventoId == id`. */
  function QuantidadeParticipantes(ps: seq<Participante>, eventoId: string): (n: nat)
    ensures n <= |ps|
    ensures n == 0 <==> forall i :: 0 <= i < |ps| ==> ps[i].eventoId != eventoId
  {
    var r := Filter(DoEvento(eventoId), ps);
    assert r != [] ==> r[0] in ps;
    |r|
  }

  /**
   * `obterEventos`: each stored event, under its document id, with its participant count
   * filled in.
   */
  function ObterEventos(docs: seq<(string, Evento)>, ps: seq<Participante>): (es: seq<Evento>)
    ensures |es| == |docs|
    ensures forall i :: 0 <= i < |docs| ==>
              es[i].id == docs[i].0 && es[i].nome == docs[i].1.nome
              && es[i].camposPersonalizados == docs[i].1.camposPersonalizados
              && es[i].quantidadeParticipantes == Some(QuantidadeParticipantes(ps, docs[i].0))
  {
    MapSeq((d: (string, Evento)) => d.1.(id := d.0, quantidadeParticipantes := Some(QuantidadeParticipantes(ps, d.0))), docs)
  }

  /** A new participant adds one to its own event's count and nothing to any other's. */
  lemma QuantidadeAposCadastro(ps: seq<Participante>, p: Participante, eventoId: string)
    ensures QuantidadeParticipantes(ps + [p], eventoId)
            == QuantidadeParticipantes(ps, eventoId) + (if p.eventoId == eventoId then 1 else 0)
  {
    FilterConcat(DoEvento(eventoId), ps, [p]);
  }

  /** A removed participant takes one off its own event's count. */
  lemma QuantidadeAposExclusao(a: seq<Participante>, p: Participante, b: seq<Participante>)
    ensures QuantidadeParticipantes(a + [p] + b, p.eventoId) == QuantidadeParticipantes(a + b, p.eventoId) + 1
  {
    FilterConcat(DoEvento(p.eventoId), a + [p], b);
    FilterConcat(DoEvento(p.eventoId), a, [p]);
    FilterConcat(DoEvento(p.eventoId), a, b);
  }
}
