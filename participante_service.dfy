/**
 * The pure parts of the participant service: the local search filter over stored documents
 * and the per-status and per-category counts of the statistics.
 */
module ParticipanteService {
  import opened Wrappers
  import opened Js
  import opened Types
  import opened Seqs

  /**
   * A stored participant document: its string fields by name. A field the writer never set is
   * absent; operators' forms write `email`, the reception desk writes `email1`/`email2`.
   */
  type Doc = map<string, string>

  /** What `toLowerCase` on an absent field throws, rejecting the whole search. */
  const ErroCampoAusente: string := "TypeError: cannot read 'toLowerCase' of undefined"

  /** `doc[campo].toLowerCase().includes(t)`, which throws when the field is absent. */
  function Inclui(d: Doc, campo: string, t: string): (r: Result<bool, string>)
    ensures r.Err? <==> campo !in d
    ensures r.Ok? ==> (r.value <==> Contains(Lower(d[campo]), t))
  {
    if campo in d then Ok(Contains(Lower(d[campo]), t)) else Err(ErroCampoAusente)
  }

  /**
   * The filter's test as written: `nome || email || empresa`, evaluated left to right and
   * stopping at the first match, so a later field is only read when the earlier ones miss.
   */
  function Corresponde(d: Doc, t: string): (r: Result<bool, string>)
    ensures r.Err? <==> FalhaEm(d, t)
    ensures r.Ok? ==> (r.value <==> CasaTolerante(d, t))
    ensures ("nome" in d && Contains(Lower(d["nome"]), t)) ==> r == Ok(true)
    ensures ("nome" in d && "email" in d && "empresa" in d) ==> r.Ok?
  {
    match Inclui(d, "nome", t)
    case Err(e) => Err(e)
    case Ok(true) => Ok(true)
    case Ok(false) =>
      match Inclui(d, "email", t)
      case Err(e) => Err(e)
      case Ok(true) => Ok(true)
      case Ok(false) => Inclui(d, "empresa", t)
  }

  /**
   * The test throws on `d`: it lacks the name, or the name misses and it lacks the e-mail, or
   * both miss and it lacks the company.
   */
  predicate FalhaEm(d: Doc, t: string) {
    || "nome" !in d
    || (!Contains(Lower(d["nome"]), t) && "email" !in d)
    || (!Contains(Lower(d["nome"]), t) && !Contains(Lower(d["email"]), t) && "empresa" !in d)
  }

  /** The same test with an absent field read as '' (so it cannot match), which never fails. */
  predicate CasaTolerante(d: Doc, t: string) {
    Contains(Lower(Ler(d, "nome")), t) || Contains(Lower(Ler(d, "email")), t)
    || Contains(Lower(Ler(d, "empresa")), t)
  }

  function CasaF(t: string): Doc -> bool {
    (d: Doc) => CasaTolerante(d, t)
  }

  /** `participantes.filter(...)` with an already lower-cased term; the first throw rejects all. */
  function Filtrar(docs: seq<Doc>, t: string): (r: Result<seq<Doc>, string>)
    ensures r.Ok? <==> forall i :: 0 <= i < |docs| ==> Corresponde(docs[i], t).Ok?
    ensures r.Ok? ==> r.value == Filter(CasaF(t), docs)
  {
    if docs == [] then Ok([])
    else
      var resto := Filtrar(docs[1..], t);
      var c := Corresponde(docs[0], t);
      if c.Err? then Err(c.error)
      else if resto.Err? then
        assert exists i :: 1 <= i < |docs| && Corresponde(docs[i], t).Err? by {
          var j :| 0 <= j < |docs[1..]| && Corresponde(docs[1..][j], t).Err?;
          assert docs[1..][j] == docs[j + 1];
        }
        resto
      else
        assert forall i :: 1 <= i < |docs| ==> Corresponde(docs[i], t).Ok? by {
          forall i | 1 <= i < |docs| ensures Corresponde(docs[i], t).Ok? {
            assert docs[i] == docs[1..][i - 1];
          }
        }
        assert c.value == CasaF(t)(docs[0]);
        Ok((if c.value then [docs[0]] else []) + resto.value)
  }

  /**
   * `buscarParticipantes`' local search: lower-case the term, then filter. It throws exactly
   * when some document reaches a field it lacks; otherwise it keeps the documents whose name,
   * e-mail or company includes the term, ignoring case.
   */
  function BuscarParticipantes(docs: seq<Doc>, termo: string): (r: Result<seq<Doc>, string>)
    ensures r.Err? <==> exists i :: 0 <= i < |docs| && FalhaEm(docs[i], Lower(termo))
    ensures r.Ok? ==> forall i :: 0 <= i < |docs| ==>
              (docs[i] in r.value <==> CasaTolerante(docs[i], Lower(termo)))
  {
    Filtrar(docs, Lower(termo))
  }

  /** The search is insensitive to the case of the term. */
  lemma BuscaIgnoraCaixa(docs: seq<Doc>, termo: string)
    ensures BuscarParticipantes(docs, Lower(termo)) == BuscarParticipantes(docs, termo)
  {
    LowerIdempotent(termo);
  }

  /** When it succeeds, the search keeps exactly the matching documents, in their order. */
  lemma BuscaMantemOrdem(docs: seq<Doc>, termo: string)
    requires BuscarParticipantes(docs, termo).Ok?
    ensures IsSubseq(BuscarParticipantes(docs, termo).value, docs)
    ensures forall i :: 0 <= i < |docs| ==>
              (docs[i] in BuscarParticipantes(docs, termo).value <==> CasaTolerante(docs[i], Lower(termo)))
  {
    FilterIsSubseq(CasaF(Lower(termo)), docs);
  }

  /** An empty term keeps every document that has a name: every string includes ''. */
  lemma BuscaVaziaMantemTodos(docs: seq<Doc>)
    requires forall i :: 0 <= i < |docs| ==> "nome" in docs[i]
    ensures BuscarParticipantes(docs, "") == Ok(docs)
  {
    forall i | 0 <= i < |docs| ensures Corresponde(docs[i], "") == Ok(true) {
      ContainsEmpty(Lower(docs[i]["nome"]));
    }
    forall i | 0 <= i < |docs| ensures CasaF("")(docs[i]) {
      ContainsEmpty(Lower(docs[i]["nome"]));
    }
    assert Lower("") == "";
    FilterKeepsAll(CasaF(""), docs);
  }

  /**
   * The search succeeds exactly when no document reaches a field it lacks: a document with
   * all three fields never fails it.
   */
  lemma BuscaComTodosOsCampos(docs: seq<Doc>, termo: string)
    requires forall i :: 0 <= i < |docs| ==> "nome" in docs[i] && "email" in docs[i] && "empresa" in docs[i]
    ensures BuscarParticipantes(docs, termo) == Ok(Filter(CasaF(Lower(termo)), docs))
  {
  }

  /**
   * The document the reception desk stores for a participant it registers: the desk writes
   * the declared fields and nothing else.
   */
  function DocRecepcao(p: Participante): (d: Doc)
    ensures "nome" in d && "empresa" in d && "email1" in d && "email" !in d
  {
    RegistroDe(p.(outros := map[]))
  }

  /**
   * As written, one participant registered at the reception desk makes every search whose
   * term is not in that participant's name fail: the test reads `email`, which that document
   * lacks.
   */
  lemma BuscaFalhaComCadastroDaRecepcao(docs: seq<Doc>, p: Participante, termo: string)
    requires !Contains(Lower(p.nome), Lower(termo))
    ensures BuscarParticipantes(docs + [DocRecepcao(p)], termo).Err?
  {
    var ds := docs + [DocRecepcao(p)];
    assert ds[|docs|] == DocRecepcao(p);
    assert Corresponde(ds[|docs|], Lower(termo)).Err?;
  }

  /** A concrete case: searching "x" with one desk-registered participant named "Ana". */
  lemma BuscaFalhaExemplo(p: Participante)
    requires p.nome == "Ana"
    ensures BuscarParticipantes([DocRecepcao(p)], "x").Err?
  {
    assert Lower("x") == "x";
    assert Lower("Ana") == "ana";
    forall i | 0 <= i <= 3 ensures !OccursAt("ana", "x", i) {
    }
    BuscarFalhaComCadastroDaRecepcaoVazio(p, "x");
  }

  lemma BuscarFalhaComCadastroDaRecepcaoVazio(p: Participante, termo: string)
    requires !Contains(Lower(p.nome), Lower(termo))
    ensures BuscarParticipantes([DocRecepcao(p)], termo).Err?
  {
    BuscaFalhaComCadastroDaRecepcao([], p, termo);
    assert [] + [DocRecepcao(p)] == [DocRecepcao(p)];
  }

  /** The corrected search: the same test with absent fields read as ''; it never fails. */
  function BuscarParticipantesTolerante(docs: seq<Doc>, termo: string): (r: seq<Doc>)
    ensures forall i :: 0 <= i < |r| ==> r[i] in docs && CasaTolerante(r[i], Lower(termo))
    ensures forall i :: 0 <= i < |docs| && CasaTolerante(docs[i], Lower(termo)) ==> docs[i] in r
  {
    Filter(CasaF(Lower(termo)), docs)
  }

  /** Wherever the search as written succeeds, the corrected one gives the same result. */
  lemma ToleranteConcorda(docs: seq<Doc>, termo: string)
    requires BuscarParticipantes(docs, termo).Ok?
    ensures BuscarParticipantes(docs, termo).value == BuscarParticipantesTolerante(docs, termo)
  {
  }

  /** With the corrected search, the desk-registered participant is kept exactly when it matches. */
  lemma ToleranteComCadastroDaRecepcao(docs: seq<Doc>, p: Participante, termo: string)
    ensures var r := BuscarParticipantesTolerante(docs + [DocRecepcao(p)], termo);
      DocRecepcao(p) in r <==> CasaTolerante(DocRecepcao(p), Lower(termo))
  {
    var ds := docs + [DocRecepcao(p)];
    assert ds[|docs|] == DocRecepcao(p);
  }

  /** The number of times `k` occurs in `ks`. */
  function Conta(ks: seq<string>, k: string): (n: nat)
    ensures n <= |ks|
    ensures n > 0 <==> k in ks
  {
    if ks == [] then 0 else (if ks[|ks| - 1] == k then 1 else 0) + Conta(ks[..|ks| - 1], k)
  }

  /** `ks.reduce((acc, k) => { acc[k] = (acc[k] || 0) + 1; return acc }, {})`. */
  function ContarPor(ks: seq<string>): (m: map<string, nat>)
    ensures forall k :: k in m <==> k in ks
    ensures forall k :: k in m ==> m[k] == Conta(ks, k)
  {
    if ks == [] then map[]
    else
      var m := ContarPor(ks[..|ks| - 1]);
      var k := ks[|ks| - 1];
      assert forall j :: j in ks <==> j in ks[..|ks| - 1] || j == k by {
        assert ks == ks[..|ks| - 1] + [k];
      }
      m[k := (if k in m then m[k] else 0) + 1]
  }

  predicate SemRepeticao(ds: seq<string>) {
    forall i, j :: 0 <= i < j < |ds| ==> ds[i] != ds[j]
  }

  /** The distinct items of `ks`, in order of first occurrence: the keys a count map ends with. */
  function Distintos(ks: seq<string>): (ds: seq<string>)
    ensures SemRepeticao(ds)
    ensures forall k :: k in ds <==> k in ks
  {
    if ks == [] then []
    else
      var ds := Distintos(ks[..|ks| - 1]);
      var k := ks[|ks| - 1];
      assert forall j :: j in ks <==> j in ks[..|ks| - 1] || j == k by {
        assert ks == ks[..|ks| - 1] + [k];
      }
      if k in ds then ds else ds + [k]
  }

  /** `m[k] || 0`. */
  function Valor(m: map<string, nat>, k: string): nat {
    if k in m then m[k] else 0
  }

  /** The sum of a count map's values over the keys listed in `ds`. */
  function SomaEm(m: map<string, nat>, ds: seq<string>): nat {
    if ds == [] then 0 else SomaEm(m, ds[..|ds| - 1]) + Valor(m, ds[|ds| - 1])
  }

  lemma {:induction false} SomaEmFora(m: map<string, nat>, ds: seq<string>, k: string, v: nat)
    requires k !in ds
    ensures SomaEm(m[k := v], ds) == SomaEm(m, ds)
  {
    if ds != [] {
      SomaEmFora(m, ds[..|ds| - 1], k, v);
    }
  }

  lemma {:induction false} SomaEmDentro(m: map<string, nat>, ds: seq<string>, k: string, v: nat)
    requires SemRepeticao(ds) && k in ds
    ensures SomaEm(m[k := v], ds) + Valor(m, k) == SomaEm(m, ds) + v
  {
    var pre := ds[..|ds| - 1];
    if ds[|ds| - 1] == k {
      assert k !in pre;
      SomaEmFora(m, pre, k, v);
    } else {
      assert k in pre by {
        var i :| 0 <= i < |ds| && ds[i] == k;
        assert pre[i] == k;
      }
      SomaEmDentro(m, pre, k, v);
    }
  }

  /** The counts of a count map, over all its keys, add up to the number of items counted. */
  lemma {:induction false} SomaContarPor(ks: seq<string>)
    ensures SomaEm(ContarPor(ks), Distintos(ks)) == |ks|
  {
    if ks != [] {
      var pre := ks[..|ks| - 1];
      var k := ks[|ks| - 1];
      var m, ds := ContarPor(pre), Distintos(pre);
      SomaContarPor(pre);
      if k in ds {
        SomaEmDentro(m, ds, k, Valor(m, k) + 1);
      } else {
        SomaEmFora(m, ds, k, 1);
        assert (ds + [k])[..|ds + [k]| - 1] == ds;
      }
    }
  }

  function StatusDe(): Participante -> string {
    (p: Participante) => StatusNome(p.status)
  }

  function CategoriaDe(): Participante -> string {
    (p: Participante) => p.categoria
  }

  /** Counting one more item adds one to its key's count. */
  lemma ContarPorMais(ks: seq<string>, k: string)
    ensures ContarPor(ks + [k]) == ContarPor(ks)[k := Valor(ContarPor(ks), k) + 1]
  {
    assert (ks + [k])[..|ks|] == ks;
  }

  /** Mapping one more element of a prefix appends its image. */
  lemma MapSeqPrefixo<A, B>(f: A -> B, s: seq<A>, i: nat)
    requires i < |s|
    ensures MapSeq(f, s[..i + 1]) == MapSeq(f, s[..i]) + [f(s[i])]
  {
    assert s[..i + 1] == s[..i] + [s[i]];
    MapSeqConcat(f, s[..i], [s[i]]);
  }

  /**
   * One counting `reduce`: `acc[chave(p)] = (acc[chave(p)] || 0) + 1` for each participant in
   * turn, starting from `{}`.
   */
  method Contar(ps: seq<Participante>, chave: Participante -> string) returns (acc: map<string, nat>)
    ensures acc == ContarPor(MapSeq(chave, ps))
  {
    acc := map[];
    var i := 0;
    while i < |ps|
      invariant 0 <= i <= |ps|
      invariant acc == ContarPor(MapSeq(chave, ps[..i]))
    {
      var k := chave(ps[i]);
      MapSeqPrefixo(chave, ps, i);
      ContarPorMais(MapSeq(chave, ps[..i]), k);
      acc := acc[k := Valor(acc, k) + 1];
      i := i + 1;
    }
    assert ps[..|ps|] == ps;
  }

  /**
   * `obterEstatisticasParticipantes` over the fetched participants: the total, the count per
   * status name and the count per category; every participant is counted under its own key and
   * each family of counts adds up to the total.
   */
  method ObterEstatisticas(ps: seq<Participante>) returns (total: nat, porStatus: map<string, nat>, porCategoria: map<string, nat>)
    ensures total == |ps|
    ensures forall k :: k in porStatus ==> porStatus[k] == Conta(MapSeq(StatusDe(), ps), k)
    ensures forall k :: k in porCategoria ==> porCategoria[k] == Conta(MapSeq(CategoriaDe(), ps), k)
    ensures forall i :: 0 <= i < |ps| ==> StatusNome(ps[i].status) in porStatus && ps[i].categoria in porCategoria
    ensures SomaEm(porStatus, Distintos(MapSeq(StatusDe(), ps))) == total
    ensures SomaEm(porCategoria, Distintos(MapSeq(CategoriaDe(), ps))) == total
  {
    total := |ps|;
    porStatus := Contar(ps, StatusDe());
    porCategoria := Contar(ps, CategoriaDe());
    SomaContarPor(MapSeq(StatusDe(), ps));
    SomaContarPor(MapSeq(CategoriaDe(), ps));
    forall j | 0 <= j < |ps|
      ensures StatusNome(ps[j].status) in porStatus && ps[j].categoria in porCategoria
    {
      assert MapSeq(StatusDe(), ps)[j] == StatusNome(ps[j].status);
      assert MapSeq(CategoriaDe(), ps)[j] == ps[j].categoria;
    }
  }
}
