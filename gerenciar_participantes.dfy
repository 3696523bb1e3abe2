/**
 * The operator's participant list (GerenciarParticipantes): per-status counts and donut data,
 * the status filter the donut titles drive, and the local list after a delete or a search.
 */
module GerenciarParticipantes {
  import opened Wrappers
  import opened Js
  import opened Types
  import opened Seqs

  /** `p.status === nome`: the stored status string compared with a filter or a status name. */
  function ComStatus(nome: string): Participante -> bool {
    (p: Participante) => StatusNome(p.status) == nome
  }

  /** The number of participants whose status is `nome`. */
  function Conta(ps: seq<Participante>, nome: string): (n: nat)
    ensures n <= |ps|
  {
    |Filter(ComStatus(nome), ps)|
  }

  /** `statusCounts`: one count per known status. */
  datatype Contagens = Contagens(credenciado: nat, confirmado: nat, pendente: nat, cancelado: nat)

  function StatusCounts(ps: seq<Participante>): (c: Contagens)
    ensures c.credenciado <= |ps| && c.confirmado <= |ps| && c.pendente <= |ps| && c.cancelado <= |ps|
  {
    Contagens(Conta(ps, "credenciado"), Conta(ps, "confirmado"), Conta(ps, "pendente"), Conta(ps, "cancelado"))
  }

  /** `total`: the sum of the four counts, so no count exceeds it; zero only when all are. */
  function Total(c: Contagens): (t: nat)
    ensures c.credenciado <= t && c.confirmado <= t && c.pendente <= t && c.cancelado <= t
    ensures t == 0 <==> c.credenciado == 0 && c.confirmado == 0 && c.pendente == 0 && c.cancelado == 0
  {
    c.credenciado + c.confirmado + c.pendente + c.cancelado
  }

  /** The status is one of the four the page counts. */
  predicate Conhecido(p: Participante) {
    StatusNome(p.status) in {"credenciado", "confirmado", "pendente", "cancelado"}
  }

  /** One step of the counts: the first participant adds one to at most one count. */
  lemma ContaPasso(ps: seq<Participante>, nome: string)
    requires ps != []
    ensures Conta(ps, nome) == (if StatusNome(ps[0].status) == nome then 1 else 0) + Conta(ps[1..], nome)
  {
  }

  /** The first participant adds one to the total exactly when its status is a known one. */
  lemma TotalPasso(ps: seq<Participante>)
    requires ps != []
    ensures Total(StatusCounts(ps)) == (if Conhecido(ps[0]) then 1 else 0) + Total(StatusCounts(ps[1..]))
  {
    ContaPasso(ps, "credenciado");
    ContaPasso(ps, "confirmado");
    ContaPasso(ps, "pendente");
    ContaPasso(ps, "cancelado");
  }

  /**
   * The total never exceeds the list, and reaches it exactly when every participant has one
   * of the four known statuses: any other status is counted nowhere.
   */
  lemma {:induction false} TotalLimitado(ps: seq<Participante>)
    ensures Total(StatusCounts(ps)) <= |ps|
    ensures Total(StatusCounts(ps)) == |ps| <==> forall i :: 0 <= i < |ps| ==> Conhecido(ps[i])
  {
    if ps != [] {
      var t := ps[1..];
      TotalLimitado(t);
      TotalPasso(ps);
      if forall i :: 0 <= i < |ps| ==> Conhecido(ps[i]) {
        forall i | 0 <= i < |t| ensures Conhecido(t[i]) {
          assert t[i] == ps[i + 1];
        }
      } else if Conhecido(ps[0]) {
        var k :| 0 <= k < |ps| && !Conhecido(ps[k]);
        assert t[k - 1] == ps[k];
      }
      if forall i :: 0 <= i < |t| ==> Conhecido(t[i]) {
        if Conhecido(ps[0]) {
          forall i | 0 <= i < |ps| ensures Conhecido(ps[i]) {
            if i > 0 {
              assert ps[i] == t[i - 1];
            }
          }
        }
      }
    }
  }

  /** A slice of a donut. */
  datatype Fatia = Fatia(nome: string, valor: int)

  /**
   * `gerarDadosDonut(status)`: the status's count against the rest of the total, so the two
   * slices make up the total; the chart's centre label is the first slice.
   */
  function DadosDonut(c: Contagens, nome: string, contagem: nat): (r: seq<Fatia>)
    requires contagem <= Total(c)
    ensures |r| == 2 && r[0] == Fatia(nome, contagem) && r[1].nome == "outros"
    ensures r[1].valor >= 0 && r[0].valor + r[1].valor == Total(c)
  {
    [Fatia(nome, contagem), Fatia("outros", Total(c) - contagem)]
  }

  /** The four donuts of the page, each with its status's count. */
  lemma DonutsDaPagina(ps: seq<Participante>)
    ensures var c := StatusCounts(ps);
      && DadosDonut(c, "credenciado", c.credenciado)[0].valor + DadosDonut(c, "credenciado", c.credenciado)[1].valor <= |ps|
      && DadosDonut(c, "cancelado", c.cancelado)[1].valor == c.credenciado + c.confirmado + c.pendente
  {
    TotalLimitado(ps);
  }

  /** `participantesFiltrados`: 'todos' keeps everyone, any other filter the equal statuses. */
  function Filtrados(ps: seq<Participante>, filtro: string): (r: seq<Participante>)
    ensures filtro == "todos" ==> r == ps
    ensures filtro != "todos" ==>
              (forall i :: 0 <= i < |r| ==> StatusNome(r[i].status) == filtro)
              && (forall i :: 0 <= i < |ps| && StatusNome(ps[i].status) == filtro ==> ps[i] in r)
  {
    if filtro == "todos" then ps else Filter(ComStatus(filtro), ps)
  }

  /** The filter keeps the list's order. */
  lemma FiltradosEmOrdem(ps: seq<Participante>, filtro: string)
    ensures IsSubseq(Filtrados(ps, filtro), ps)
  {
    if filtro == "todos" {
      FilterKeepsAll((p: Participante) => true, ps);
      FilterIsSubseq((p: Participante) => true, ps);
    } else {
      FilterIsSubseq(ComStatus(filtro), ps);
    }
  }

  /**
   * Clicking a donut's title filters by the lower-cased title, which is the status name; the
   * table then holds as many rows as the donut counts.
   */
  lemma ClicarDonutMostraContagem(ps: seq<Participante>, titulo: string)
    ensures titulo == "Credenciado" ==> |Filtrados(ps, Lower(titulo))| == StatusCounts(ps).credenciado
    ensures titulo == "Confirmado" ==> |Filtrados(ps, Lower(titulo))| == StatusCounts(ps).confirmado
    ensures titulo == "Pendente" ==> |Filtrados(ps, Lower(titulo))| == StatusCounts(ps).pendente
    ensures titulo == "Cancelado" ==> |Filtrados(ps, Lower(titulo))| == StatusCounts(ps).cancelado
  {
    if titulo == "Credenciado" {
      TituloCredenciado(titulo);
    } else if titulo == "Confirmado" {
      TituloConfirmado(titulo);
    } else if titulo == "Pendente" {
      TituloPendente(titulo);
    } else if titulo == "Cancelado" {
      TituloCancelado(titulo);
    }
  }

  /** The donut titles lower-case to the status names. */
  lemma TituloCredenciado(t: string)
    requires t == "Credenciado"
    ensures Lower(t) == "credenciado"
  {
    var r := Lower(t);
    forall i | 0 <= i < 11 ensures r[i] == "credenciado"[i] {}
  }

  lemma TituloConfirmado(t: string)
    requires t == "Confirmado"
    ensures Lower(t) == "confirmado"
  {
    var r := Lower(t);
    forall i | 0 <= i < 10 ensures r[i] == "confirmado"[i] {}
  }

  lemma TituloPendente(t: string)
    requires t == "Pendente"
    ensures Lower(t) == "pendente"
  {
    var r := Lower(t);
    forall i | 0 <= i < 8 ensures r[i] == "pendente"[i] {}
  }

  lemma TituloCancelado(t: string)
    requires t == "Cancelado"
    ensures Lower(t) == "cancelado"
  {
    var r := Lower(t);
    forall i | 0 <= i < 9 ensures r[i] == "cancelado"[i] {}
  }

  function IdDiferente(id: string): Participante -> bool {
    (p: Participante) => p.id != id
  }

  function ComId(id: string): Participante -> bool {
    (p: Participante) => p.id == id
  }

  /**
   * The list after a delete: no entry has the id, the others stay in order, and the number
   * removed is the number of entries that had it.
   */
  function SemParticipante(ps: seq<Participante>, id: string): (r: seq<Participante>)
    ensures forall i :: 0 <= i < |r| ==> r[i].id != id
    ensures forall i :: 0 <= i < |ps| && ps[i].id != id ==> ps[i] in r
  {
    Filter(IdDiferente(id), ps)
  }

  lemma ExcluirContagem(ps: seq<Participante>, id: string)
    ensures |SemParticipante(ps, id)| + |Filter(ComId(id), ps)| == |ps|
    ensures IsSubseq(SemParticipante(ps, id), ps)
  {
    FilterSplitCount(IdDiferente(id), ComId(id), ps);
    FilterIsSubseq(IdDiferente(id), ps);
  }

  /** The page's state. */
  class Pagina {
    var eventoSelecionado: string
    var participantes: seq<Participante>
    var statusFiltro: string
    var erro: Option<string>

    constructor (eventoId: string)
      ensures eventoSelecionado == eventoId && participantes == [] && statusFiltro == "todos" && erro == None
    {
      eventoSelecionado := eventoId;
      participantes := [];
      statusFiltro := "todos";
      erro := None;
    }

    /** The rows the table shows. */
    function Linhas(): (r: seq<Participante>)
      reads this
      ensures |r| <= |participantes|
    {
      Filtrados(participantes, statusFiltro)
    }

    /** Clicking a donut title. */
    method ClicarTitulo(titulo: string)
      modifies this`statusFiltro
      ensures statusFiltro == Lower(titulo)
    {
      statusFiltro := Lower(titulo);
    }

    /** 'Limpar Filtro'. */
    method LimparFiltro()
      modifies this`statusFiltro
      ensures statusFiltro == "todos" && Linhas() == participantes
    {
      statusFiltro := "todos";
    }

    /**
     * `handleExcluirParticipante`: after the confirmation and a successful backend delete the
     * entries with that id leave the local list; a failed delete leaves it and sets the error.
     */
    method Excluir(id: string, confirmado: bool, ok: bool)
      modifies this
      ensures !confirmado ==> unchanged(this)
      ensures confirmado && ok ==> participantes == SemParticipante(old(participantes), id) && erro == old(erro)
      ensures confirmado && !ok ==> participantes == old(participantes) && erro == Some("Erro ao excluir participante.")
      ensures statusFiltro == old(statusFiltro) && eventoSelecionado == old(eventoSelecionado)
    {
      if !confirmado {
        return;
      }
      if ok {
        participantes := SemParticipante(participantes, id);
      } else {
        erro := Some("Erro ao excluir participante.");
      }
    }

    /**
     * `handleSearch`: a blank term reloads the event's whole list (`todos`), whose failure is
     * not caught and changes nothing; otherwise the list becomes the search result.
     */
    method Buscar(termo: string, todos: Result<seq<Participante>, string>, resultado: Result<seq<Participante>, string>)
      modifies this
      ensures eventoSelecionado == "" ==> unchanged(this)
      ensures eventoSelecionado != "" && EmBranco(termo) ==>
                participantes == (if todos.Ok? then todos.value else old(participantes)) && erro == old(erro)
      ensures eventoSelecionado != "" && !EmBranco(termo) && resultado.Ok? ==>
                participantes == resultado.value && erro == old(erro)
      ensures eventoSelecionado != "" && !EmBranco(termo) && resultado.Err? ==>
                participantes == old(participantes) && erro == Some("Erro ao buscar participantes.")
      ensures statusFiltro == old(statusFiltro) && eventoSelecionado == old(eventoSelecionado)
    {
      if eventoSelecionado == "" {
        return;
      }
      if EmBranco(termo) {
        if todos.Ok? {
          participantes := todos.value;
        }
        return;
      }
      if resultado.Ok? {
        participantes := resultado.value;
      } else {
        erro := Some("Erro ao buscar participantes.");
      }
    }
  }
}
