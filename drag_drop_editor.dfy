/**
 * The canvas editor (DragDropEditor): it holds the component list and the selection and
 * changes them by add, drag-stop, update and delete, reporting every new list to `onSave`.
 */
module DragDropEditor {
  import opened Wrappers
  import opened Js
  import opened Types
  import opened Seqs

  /** The toolbox: the types a user can add. A barcode is not among them. */
  const Ferramentas: seq<Tipo> := [Texto, Campo, Botao, QrCode, Imagem, Divisao]

  /** The style a freshly added component starts with. */
  const EstilosNovo: Estilos :=
    EstilosVazios.(corFonte := Some("#000000"), tamanhoFonte := Some(N(14)), alinhamento := Some(Center))

  /**
   * `adicionarComponente`'s new component: the given id and type, 100x30 at (10, 10), unbound,
   * with no image, in the starting style; a text starts with 'Texto', any other type empty.
   */
  function NovoComponente(id: string, tipo: Tipo): (c: Componente)
    ensures c.id == id && c.tipo == tipo
    ensures var p := c.propriedades;
      && p.x == N(10) && p.y == N(10) && p.largura == N(100) && p.altura == N(30)
      && p.campoVinculado.None? && p.url.None? && p.estilos == Some(EstilosNovo)
      && (tipo == Texto ==> p.texto == Some("Texto"))
      && (tipo != Texto ==> p.texto == Some(""))
  {
    Componente(id, tipo,
      Propriedades(N(10), N(10), N(100), N(30), Some(if tipo == Texto then "Texto" else ""),
                   None, Some(EstilosNovo), None))
  }

  /** The toolbox offers six distinct types, and a barcode is not one of them. */
  lemma FerramentasSemBarcode()
    ensures |Ferramentas| == 6
    ensures forall i, j :: 0 <= i < j < |Ferramentas| ==> Ferramentas[i] != Ferramentas[j]
    ensures Barcode !in Ferramentas
    ensures forall t: Tipo :: t in Ferramentas <==> t in {Texto, Campo, Botao, QrCode, Imagem, Divisao}
  {
  }

  /** No component of `cs` carries `id`. */
  predicate IdLivre(cs: seq<Componente>, id: string) {
    forall i :: 0 <= i < |cs| ==> cs[i].id != id
  }

  /** No two components share an id (what fresh random ids give). */
  predicate IdsUnicos(cs: seq<Componente>) {
    forall i, j :: 0 <= i < j < |cs| ==> cs[i].id != cs[j].id
  }

  function MovidoPara(c: Componente, x: Num, y: Num): Componente {
    c.(propriedades := c.propriedades.(x := x, y := y))
  }

  function MoverSe(id: string, x: Num, y: Num): Componente -> Componente {
    (c: Componente) => if c.id == id then MovidoPara(c, x, y) else c
  }

  /** `handleStop`: write the absolute position into the component(s) with that id. */
  function Mover(cs: seq<Componente>, id: string, x: Num, y: Num): (r: seq<Componente>)
    ensures |r| == |cs|
    ensures forall i :: 0 <= i < |cs| ==> r[i].id == cs[i].id && r[i].tipo == cs[i].tipo
    ensures forall i :: 0 <= i < |cs| && cs[i].id != id ==> r[i] == cs[i]
    ensures forall i :: 0 <= i < |cs| && cs[i].id == id ==>
              r[i].propriedades.x == x && r[i].propriedades.y == y
              && r[i].propriedades.(x := cs[i].propriedades.x, y := cs[i].propriedades.y) == cs[i].propriedades
  {
    MapSeq(MoverSe(id, x, y), cs)
  }

  function TrocarSe(novo: Componente): Componente -> Componente {
    (c: Componente) => if c.id == novo.id then novo else c
  }

  /** `handleAtualizarComponente`'s list: the component(s) with the new one's id are replaced by it. */
  function Substituir(cs: seq<Componente>, novo: Componente): (r: seq<Componente>)
    ensures |r| == |cs|
    ensures forall i :: 0 <= i < |cs| ==> r[i].id == cs[i].id
    ensures forall i :: 0 <= i < |cs| ==> r[i] == (if cs[i].id == novo.id then novo else cs[i])
  {
    MapSeq(TrocarSe(novo), cs)
  }

  function SemId(id: string): Componente -> bool {
    (c: Componente) => c.id != id
  }

  /** `handleExcluirComponente`'s list: every component with that id is dropped. */
  function Remover(cs: seq<Componente>, id: string): (r: seq<Componente>)
    ensures IdLivre(r, id)
    ensures forall i :: 0 <= i < |cs| && cs[i].id != id ==> cs[i] in r
    ensures forall i :: 0 <= i < |r| ==> r[i] in cs
  {
    Filter(SemId(id), cs)
  }

  /** Applying the same drag stop twice gives the same list as applying it once. */
  lemma MoverIdempotente(cs: seq<Componente>, id: string, x: Num, y: Num)
    ensures Mover(Mover(cs, id, x, y), id, x, y) == Mover(cs, id, x, y)
  {
  }

  /** Positions are absolute: a second stop overrides the first instead of adding to it. */
  lemma MoverUltimoVence(cs: seq<Componente>, id: string, x1: Num, y1: Num, x2: Num, y2: Num)
    ensures Mover(Mover(cs, id, x1, y1), id, x2, y2) == Mover(cs, id, x2, y2)
  {
  }

  /** With unique ids, an update replaces exactly the one matching position. */
  lemma SubstituirUnico(cs: seq<Componente>, k: nat, novo: Componente)
    requires IdsUnicos(cs) && k < |cs| && cs[k].id == novo.id
    ensures Substituir(cs, novo) == cs[k := novo]
  {
  }

  /** Removing keeps the remaining components in their original relative order. */
  lemma RemoverPreservaOrdem(cs: seq<Componente>, id: string)
    ensures IsSubseq(Remover(cs, id), cs)
  {
    FilterIsSubseq(SemId(id), cs);
  }

  /** With unique ids, deleting a component takes out exactly its position. */
  lemma RemoverUnico(cs: seq<Componente>, k: nat)
    requires IdsUnicos(cs) && k < |cs|
    ensures Remover(cs, cs[k].id) == cs[..k] + cs[k + 1..]
  {
    var p := SemId(cs[k].id);
    forall i | 0 <= i < |cs| && i != k ensures p(cs[i]) {
      assert cs[i].id != cs[k].id;
    }
    FilterDropsOne(p, cs, k);
  }

  /** Adding A, B and C and then deleting B leaves [A, C]; adding B again puts it last. */
  lemma AdicionarExcluirOrdem(a: Componente, b: Componente, c: Componente)
    requires a.id != b.id && b.id != c.id && a.id != c.id
    ensures Remover([a, b, c], b.id) == [a, c]
    ensures Remover([a, b, c], b.id) + [b] == [a, c, b]
  {
    RemoverUnico([a, b, c], 1);
  }

  /** Every edit keeps the ids unique. */
  lemma EdicoesPreservamIdsUnicos(cs: seq<Componente>, id: string, x: Num, y: Num, novo: Componente)
    requires IdsUnicos(cs)
    ensures IdsUnicos(Mover(cs, id, x, y))
    ensures IdsUnicos(Substituir(cs, novo))
    ensures IdsUnicos(Remover(cs, id))
  {
    var r := Remover(cs, id);
    FilterIsSubseq(SemId(id), cs);
    SubseqIdsUnicos(r, cs);
  }

  lemma {:induction false} SubseqIdsUnicos(r: seq<Componente>, cs: seq<Componente>)
    requires IsSubseq(r, cs) && IdsUnicos(cs)
    ensures IdsUnicos(r)
    decreases |cs|
  {
    if r != [] && cs != [] {
      if r[0] == cs[0] && IsSubseq(r[1..], cs[1..]) {
        SubseqIdsUnicos(r[1..], cs[1..]);
        SubseqIn(r[1..], cs[1..]);
        forall j | 0 < j < |r| ensures r[0].id != r[j].id {
          assert r[j] == r[1..][j - 1];
        }
      } else {
        SubseqIdsUnicos(r, cs[1..]);
      }
    }
  }

  lemma {:induction false} SubseqIn(r: seq<Componente>, cs: seq<Componente>)
    requires IsSubseq(r, cs)
    ensures forall i :: 0 <= i < |r| ==> exists j :: 0 <= j < |cs| && r[i] == cs[j]
    decreases |cs|
  {
    if r != [] && cs != [] {
      if r[0] == cs[0] && IsSubseq(r[1..], cs[1..]) {
        SubseqIn(r[1..], cs[1..]);
        forall i | 0 < i < |r| ensures exists j :: 0 <= j < |cs| && r[i] == cs[j] {
          assert r[i] == r[1..][i - 1];
          var j :| 0 <= j < |cs[1..]| && r[1..][i - 1] == cs[1..][j];
          assert r[i] == cs[j + 1];
        }
      } else {
        SubseqIn(r, cs[1..]);
        forall i | 0 <= i < |r| ensures exists j :: 0 <= j < |cs| && r[i] == cs[j] {
          var j :| 0 <= j < |cs[1..]| && r[i] == cs[1..][j];
          assert r[i] == cs[j + 1];
        }
      }
    }
  }

  /**
   * `handleStop` does not refresh the selection: an inspector update built from a selection
   * taken before the stop replaces the moved component, so the move is undone.
   */
  lemma AtualizarAposArrastar(cs: seq<Componente>, k: nat, x: Num, y: Num)
    requires IdsUnicos(cs) && k < |cs|
    ensures Substituir(Mover(cs, cs[k].id, x, y), cs[k]) == cs
  {
  }

  /** The canvas editor's state. */
  class Editor {
    var componentesAtuais: seq<Componente>
    var selecionado: Option<Componente>
    /** Every list handed to `onSave`, oldest first. */
    var salvos: seq<seq<Componente>>

    /** The list is copied from the `componentes` prop when the editor mounts; nothing is selected. */
    constructor (componentes: seq<Componente>)
      ensures componentesAtuais == componentes && selecionado == None && salvos == []
    {
      componentesAtuais := componentes;
      selecionado := None;
      salvos := [];
    }

    /** `adicionarComponente`: append one new component; the selection does not change. */
    method Adicionar(tipo: Tipo, novoId: string)
      requires IdLivre(componentesAtuais, novoId)
      modifies this
      ensures componentesAtuais == old(componentesAtuais) + [NovoComponente(novoId, tipo)]
      ensures selecionado == old(selecionado)
      ensures salvos == old(salvos) + [componentesAtuais]
      ensures IdsUnicos(old(componentesAtuais)) ==> IdsUnicos(componentesAtuais)
    {
      var novos := componentesAtuais + [NovoComponente(novoId, tipo)];
      componentesAtuais := novos;
      salvos := salvos + [novos];
    }

    /** `handleStop`: write the dragged component's absolute position. */
    method Parar(id: string, x: Num, y: Num)
      modifies this
      ensures componentesAtuais == Mover(old(componentesAtuais), id, x, y)
      ensures selecionado == old(selecionado)
      ensures salvos == old(salvos) + [componentesAtuais]
    {
      var atualizados := Mover(componentesAtuais, id, x, y);
      componentesAtuais := atualizados;
      salvos := salvos + [atualizados];
    }

    /** `handleAtualizarComponente`: replace by id and select the updated component. */
    method Atualizar(novo: Componente)
      modifies this
      ensures componentesAtuais == Substituir(old(componentesAtuais), novo)
      ensures selecionado == Some(novo)
      ensures salvos == old(salvos) + [componentesAtuais]
    {
      var novos := Substituir(componentesAtuais, novo);
      componentesAtuais := novos;
      selecionado := Some(novo);
      salvos := salvos + [novos];
    }

    /** `handleExcluirComponente`: drop by id and clear the selection. */
    method Excluir(id: string)
      modifies this
      ensures componentesAtuais == Remover(old(componentesAtuais), id)
      ensures selecionado == None
      ensures salvos == old(salvos) + [componentesAtuais]
    {
      var novos := Remover(componentesAtuais, id);
      componentesAtuais := novos;
      salvos := salvos + [novos];
      selecionado := None;
    }

    /** Clicking a component selects it; the list is not touched. */
    method Selecionar(c: Componente)
      modifies this`selecionado
      ensures selecionado == Some(c)
    {
      selecionado := Some(c);
    }
  }
}
