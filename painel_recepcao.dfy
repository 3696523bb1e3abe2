/**
 * The reception desk (PainelRecepcao): default-template lookup, QR payload id extraction,
 * check-in, on-the-spot registration, credential printing and status labels.
 */
module PainelRecepcao {
  import opened Wrappers
  import opened Js
  import opened Types
  import opened Seqs
  import opened Render
  import EditorCrachas

  /**
   * `modelos.find(m => m.padrao)`: the first template flagged as default. Nothing stops several
   * templates from carrying the flag; the first one wins.
   */
  function ModeloPadrao(ms: seq<ModeloCracha>): (r: Option<ModeloCracha>)
    ensures r.None? <==> forall i :: 0 <= i < |ms| ==> !IsTrue(ms[i].padrao)
    ensures r.Some? ==> exists i :: 0 <= i < |ms| && ms[i] == r.value && IsTrue(ms[i].padrao)
                                   && forall j :: 0 <= j < i ==> !IsTrue(ms[j].padrao)
  {
    if ms == [] then None
    else if IsTrue(ms[0].padrao) then Some(ms[0])
    else
      var r := ModeloPadrao(ms[1..]);
      assert forall i :: 1 <= i < |ms| ==> ms[i] == ms[1..][i - 1];
      if r.Some? then
        assert exists i :: 0 <= i < |ms| && ms[i] == r.value && IsTrue(ms[i].padrao)
                           && forall j :: 0 <= j < i ==> !IsTrue(ms[j].padrao) by {
          var k :| 0 <= k < |ms[1..]| && ms[1..][k] == r.value && IsTrue(ms[1..][k].padrao)
                   && forall j :: 0 <= j < k ==> !IsTrue(ms[1..][j].padrao);
          assert ms[k + 1] == ms[1..][k];
          forall j | 0 <= j < k + 1 ensures !IsTrue(ms[j].padrao) {
            if j > 0 {
              assert ms[j] == ms[1..][j - 1];
            }
          }
        }
        r
      else
        r
  }

  /** A template earlier in the list that is flagged as default hides every later one. */
  lemma PrimeiroPadraoVence(ms: seq<ModeloCracha>, i: nat)
    requires i < |ms| && IsTrue(ms[i].padrao)
    requires forall j :: 0 <= j < i ==> !IsTrue(ms[j].padrao)
    ensures ModeloPadrao(ms) == Some(ms[i])
  {
    var r := ModeloPadrao(ms);
    var k :| 0 <= k < |ms| && ms[k] == r.value && IsTrue(ms[k].padrao)
             && forall j :: 0 <= j < k ==> !IsTrue(ms[j].padrao);
    assert k == i;
  }

  /** A JSON value, as `JSON.parse` yields it. */
  datatype Json = JNull | JBool(b: bool) | JNum(n: Num) | JStr(s: string) | JArr(itens: seq<Json>) | JObj(campos: map<string, Json>)

  /** JavaScript truthiness of a JSON value. */
  predicate JsonTruthy(j: Json) {
    match j
    case JNull => false
    case JBool(b) => b
    case JNum(n) => NumTruthy(n)
    case JStr(s) => s != ""
    case JArr(_) => true
    case JObj(_) => true
  }

  /**
   * The participant id a scanned QR text stands for: `JSON.parse(data).id || data`, and `data`
   * itself when the text is not JSON (`parsed` is `None` when `JSON.parse` throws) or when
   * reading `.id` throws (on `null`). A non-object has no `id`.
   */
  function ExtrairId(data: string, parsed: Option<Json>): (id: Json)
    ensures id == JStr(data) || (parsed.Some? && parsed.value.JObj? && "id" in parsed.value.campos
                                 && id == parsed.value.campos["id"] && JsonTruthy(id))
    ensures parsed.None? ==> id == JStr(data)
  {
    if parsed.None? || parsed.value.JNull? then JStr(data)
    else if parsed.value.JObj? && "id" in parsed.value.campos && JsonTruthy(parsed.value.campos["id"])
    then parsed.value.campos["id"]
    else JStr(data)
  }

  /** `JSON.stringify(participante)` as a value: its string fields and its custom-field answers. */
  function ParticipanteJson(p: Participante): (j: Json)
    ensures j.JObj? && "id" in j.campos && j.campos["id"] == JStr(p.id)
    ensures "status" in j.campos && j.campos["status"] == JStr(StatusNome(p.status))
  {
    var r := RegistroDe(p);
    JObj((map k | k in r :: JStr(r[k]))
         + map["camposPersonalizados" := JObj(map k | k in p.camposPersonalizados :: JStr(p.camposPersonalizados[k]))])
  }

  /**
   * Scanning a credential printed at the desk gives back the participant's id, provided the
   * scanned text parses to the payload that was printed and the id is not empty.
   */
  lemma EscanearCredencial(p: Participante, data: string)
    requires p.id != ""
    ensures ExtrairId(data, Some(ParticipanteJson(p))) == JStr(p.id)
  {
  }

  /** A plain id, or any text that is not JSON, is used as it is. */
  lemma EscanearTextoSimples(data: string, parsed: Option<Json>)
    requires parsed.None? || !parsed.value.JObj?
    ensures ExtrairId(data, parsed) == JStr(data)
  {
  }

  /** The printed style of a non-QR component at the desk: the badge editor's, plus a font family. */
  function CssRecepcao(p: Propriedades): (css: Css)
    ensures p.estilos.None? ==>
              css == CssVazio.(fontSize := Some(N(14)), fontFamily := Some("Arial"), fontWeight := Some("normal"),
                               textAlign := Some(Left), color := Some("#000"),
                               backgroundColor := Some("transparent"), borderRadius := Some(N(0)),
                               justifyContent := Some("center"))
    ensures EstiloImpresso(EstilosDe(p), css)
    ensures StrTruthy(EstilosDe(p).fonte) ==> css.fontFamily == EstilosDe(p).fonte
    ensures !StrTruthy(EstilosDe(p).fonte) ==> css.fontFamily == Some("Arial")
  {
    var e := EstilosDe(p);
    CssVazio.(
      fontSize := Some(OrNum(e.tamanhoFonte, N(14))),
      fontWeight := Some(if IsTrue(e.negrito) then "bold" else "normal"),
      fontFamily := Some(OrStr(e.fonte, "Arial")),
      textAlign := Some(if e.alinhamento.Some? then e.alinhamento.value else Left),
      color := Some(OrStr(e.corFonte, "#000")),
      backgroundColor := Some(OrStr(e.corFundo, "transparent")),
      borderRadius := Some(OrNum(e.raio, N(0))),
      justifyContent := Some("center"))
  }

  /** The two HTML printers style a box alike except that only the desk sets the font family. */
  lemma CssRecepcaoVsEditor(p: Propriedades)
    ensures CssRecepcao(p).(fontFamily := None) == EditorCrachas.CssImpressao(p)
    ensures CssRecepcao(p).fontFamily.Some? && EditorCrachas.CssImpressao(p).fontFamily.None?
  {
  }

  function CaixaCredencial(p: Participante, qrDataUrl: string): Componente -> Caixa {
    (c: Componente) =>
      var pr := c.propriedades;
      if c.tipo == QrCode then NaPosicao(pr, CssVazio, ImagemQr(qrDataUrl, pr.largura, pr.altura))
      else NaPosicao(pr, CssRecepcao(pr), TextoSimples(ValorResolvido(pr, RegistroDe(p))))
  }

  const LarguraCredencial: int := 400
  const AlturaCredencial: int := 200

  /**
   * The printed credential: a 400x200 page with one box per template component, in order;
   * a QR image of the participant's payload, or the value the participant's record resolves.
   */
  function Credencial(m: ModeloCracha, p: Participante, qrDataUrl: string): (s: Superficie)
    ensures s.largura == N(LarguraCredencial) && s.altura == N(AlturaCredencial)
    ensures |s.caixas| == |m.componentes|
    ensures forall i :: 0 <= i < |m.componentes| ==>
              var c := m.componentes[i];
              var b := s.caixas[i];
              && b.top == c.propriedades.y && b.left == c.propriedades.x
              && b.width == c.propriedades.largura && b.height == c.propriedades.altura
              && (c.tipo == QrCode ==> b.conteudo == ImagemQr(qrDataUrl, c.propriedades.largura, c.propriedades.altura))
              && (c.tipo != QrCode ==> b.conteudo == TextoSimples(ValorResolvido(c.propriedades, RegistroDe(p))))
              && b.css == (if c.tipo == QrCode then CssVazio else CssRecepcao(c.propriedades))
  {
    Superficie(N(LarguraCredencial), N(AlturaCredencial), MapSeq(CaixaCredencial(p, qrDataUrl), m.componentes))
  }

  /**
   * The desk prints on a 400x200 page, 50 pixels shorter than the 250-pixel badge the editor
   * lays templates out on: the starter template's lowest components fall off the page.
   */
  lemma CredencialMaisBaixaQueEditor(m: ModeloCracha, p: Participante, qrDataUrl: string, cs: seq<Componente>, url2: string)
    ensures Credencial(m, p, qrDataUrl).altura == N(200)
    ensures EditorCrachas.Impressao(cs, url2).altura == N(250)
    ensures Credencial(m, p, qrDataUrl).largura == EditorCrachas.Impressao(cs, url2).largura
  {
  }

  /**
   * A component bound to a field the participant's document lacks prints '' at the desk: a
   * custom field's name, say, whose answers live under `camposPersonalizados`, or `email`
   * (offered by the editor among the standard fields) for a participant registered at the
   * desk, who carries `email1`/`email2` instead.
   */
  lemma CampoSemValorNaRecepcao(c: Componente, p: Participante, campo: string)
    requires c.tipo != QrCode && c.propriedades.campoVinculado == Some(campo) && campo != ""
    requires campo !in RegistroDe(p)
    ensures Credencial(ModeloCracha("", "", "", [c], "", "", "", None, None, None), p, "").caixas[0].conteudo
              == TextoSimples("")
  {
  }

  /** A participant registered at the desk has no `email` in its record. */
  lemma EmailNuncaNaRecepcao(eventoId: string, f: Cadastro, uid: string, id: string, agora: string)
    ensures "email" !in RegistroDe(NovoParticipante(eventoId, f, uid, id, agora))
  {
  }

  /**
   * A participant whose stored document carries `email` (one written by the operator's form
   * or by the CSV import) has it printed by a component bound to `email`.
   */
  lemma CampoEmailNaRecepcao(c: Componente, p: Participante)
    requires c.tipo != QrCode && c.propriedades.campoVinculado == Some("email")
    requires "email" in p.outros
    ensures Credencial(ModeloCracha("", "", "", [c], "", "", "", None, None, None), p, "").caixas[0].conteudo
              == TextoSimples(p.outros["email"])
  {
  }

  /** The status badge text: anything but credenciado or confirmado reads 'Pendente'. */
  function RotuloStatus(s: Status): (r: string)
    ensures s == Credenciado ==> r == "Credenciado"
    ensures s == Confirmado ==> r == "Confirmado"
    ensures s != Credenciado && s != Confirmado ==> r == "Pendente"
  {
    if s == Credenciado then "Credenciado" else if s == Confirmado then "Confirmado" else "Pendente"
  }

  /** A cancelled participant is shown as pending. */
  lemma CanceladoApareceComoPendente()
    ensures RotuloStatus(Cancelado) == RotuloStatus(Pendente) == "Pendente"
  {
  }

  /** What the registration form holds. */
  datatype Cadastro = Cadastro(nome: string, empresa: string, email: string, telefone: string, categoria: string,
                               campos: map<string, string>)

  /**
   * The participant registered at the desk: pending, with the badge name and company copied
   * from the name and company, the e-mail in both e-mail fields, the phone in both phone
   * fields, every other declared field empty and no field beyond the declared ones. `id` is
   * the store's new id, `agora` the clock.
   */
  function NovoParticipante(eventoId: string, f: Cadastro, uid: string, id: string, agora: string): (p: Participante)
    ensures p.status == Pendente && p.id == id && p.eventoId == eventoId
    ensures p.nome == f.nome && p.nomeCracha == f.nome
    ensures p.empresa == f.empresa && p.empresaCracha == f.empresa
    ensures p.email1 == f.email && p.email2 == f.email
    ensures p.telefone == f.telefone && p.celular == f.telefone
    ensures p.categoria == f.categoria && p.criadoPorId == uid && p.camposPersonalizados == f.campos
    ensures p.cargo == "" && p.observacao == "" && p.cpf == "" && p.rg == "" && p.cnpj == ""
    ensures p.codigoCliente == ""
    ensures p.opcao1 == "" && p.opcao2 == "" && p.opcao3 == "" && p.opcao4 == "" && p.opcao5 == ""
    ensures p.opcao6 == "" && p.opcao7 == "" && p.opcao8 == "" && p.opcao9 == "" && p.opcao10 == ""
    ensures p.criadoEm == agora && p.atualizadoEm == agora
    ensures p.outros == map[]
  {
    Participante(
      id := id, eventoId := eventoId, nome := f.nome, empresa := f.empresa,
      nomeCracha := f.nome, empresaCracha := f.empresa, cargo := "",
      email1 := f.email, email2 := f.email, celular := f.telefone, telefone := f.telefone,
      categoria := f.categoria, observacao := "", cpf := "", rg := "", cnpj := "", codigoCliente := "",
      opcao1 := "", opcao2 := "", opcao3 := "", opcao4 := "", opcao5 := "",
      opcao6 := "", opcao7 := "", opcao8 := "", opcao9 := "", opcao10 := "",
      status := Pendente, criadoEm := agora, atualizadoEm := agora, criadoPorId := uid,
      camposPersonalizados := f.campos, outros := map[])
  }

  function TrocarPorId(novo: Participante): Participante -> Participante {
    (p: Participante) => if p.id == novo.id then novo else p
  }

  /** The check-in list update: the entries with the participant's id become the checked-in one. */
  function ComCheckin(ps: seq<Participante>, atualizado: Participante): (r: seq<Participante>)
    ensures |r| == |ps|
    ensures forall i :: 0 <= i < |ps| ==> r[i] == (if ps[i].id == atualizado.id then atualizado else ps[i])
  {
    MapSeq(TrocarPorId(atualizado), ps)
  }

  /** Checking in is idempotent on the list. */
  lemma CheckinIdempotente(ps: seq<Participante>, p: Participante)
    ensures ComCheckin(ComCheckin(ps, p.(status := Credenciado)), p.(status := Credenciado))
            == ComCheckin(ps, p.(status := Credenciado))
  {
  }

  /** After a check-in every entry of that participant is credenciado and no other entry's status moves. */
  lemma CheckinSoMudaOSelecionado(ps: seq<Participante>, p: Participante)
    ensures var r := ComCheckin(ps, p.(status := Credenciado));
      forall i :: 0 <= i < |ps| ==>
        (ps[i].id == p.id ==> r[i].status == Credenciado) && (ps[i].id != p.id ==> r[i] == ps[i])
  {
  }

  /**
   * The QR payload captured before a check-in differs from the one after it whenever the
   * participant was pending, confirmed or cancelled: its `status` field changes.
   */
  lemma PayloadMudaComCheckin(p: Participante)
    requires p.status in {Pendente, Confirmado, Cancelado}
    ensures ParticipanteJson(p) != ParticipanteJson(p.(status := Credenciado))
  {
    assert ParticipanteJson(p).campos["status"] != ParticipanteJson(p.(status := Credenciado)).campos["status"];
  }

  /** A printed credential and its QR payload. */
  datatype Impressao = Impressao(documento: Superficie, payload: Json)

  /** The desk's state. */
  class Recepcao {
    var evento: Option<Evento>
    var participantes: seq<Participante>
    var selecionado: Option<Participante>
    var mensagem: Option<Mensagem>

    constructor ()
      ensures evento == None && participantes == [] && selecionado == None && mensagem == None
    {
      evento := None;
      participantes := [];
      selecionado := None;
      mensagem := None;
    }

    /**
     * Loading the page: the event (`None` when it does not exist) and, only when it exists,
     * its participants; either read failing leaves a notice.
     */
    method Carregar(eventoLido: Result<Option<Evento>, string>, lidos: Result<seq<Participante>, string>)
      modifies this
      ensures eventoLido.Ok? && eventoLido.value.Some? && lidos.Ok? ==>
                evento == eventoLido.value && participantes == lidos.value && mensagem == old(mensagem)
      ensures eventoLido.Ok? && eventoLido.value.None? ==> unchanged(this)
      ensures eventoLido.Err? ==>
                evento == old(evento) && participantes == old(participantes)
                && mensagem == Some(Mensagem(Erro, "Erro ao carregar dados. Tente novamente mais tarde."))
      ensures eventoLido.Ok? && eventoLido.value.Some? && lidos.Err? ==>
                evento == eventoLido.value && participantes == old(participantes)
                && mensagem == Some(Mensagem(Erro, "Erro ao carregar dados. Tente novamente mais tarde."))
      ensures selecionado == old(selecionado)
    {
      if eventoLido.Err? {
        mensagem := Some(Mensagem(Erro, "Erro ao carregar dados. Tente novamente mais tarde."));
        return;
      }
      if eventoLido.value.None? {
        return;
      }
      evento := eventoLido.value;
      if lidos.Err? {
        mensagem := Some(Mensagem(Erro, "Erro ao carregar dados. Tente novamente mais tarde."));
        return;
      }
      participantes := lidos.value;
    }

    /** `handleSelectParticipante`: select and clear the notice. */
    method Selecionar(p: Participante)
      modifies this
      ensures selecionado == Some(p) && mensagem == None
      ensures participantes == old(participantes) && evento == old(evento)
    {
      selecionado := Some(p);
      mensagem := None;
    }

    /**
     * `handleSearch`: a blank term does nothing; otherwise the list becomes the search result
     * (the service's, passed in as `resultado`), with a notice when it is empty or failed.
     */
    method Buscar(termo: string, resultado: Result<seq<Participante>, string>)
      modifies this
      ensures EmBranco(termo) ==> unchanged(this)
      ensures !EmBranco(termo) && resultado.Ok? ==>
                participantes == resultado.value
                && mensagem == (if resultado.value == []
                                then Some(Mensagem(Informacao, "Nenhum participante encontrado. Deseja cadastrar um novo?"))
                                else None)
      ensures !EmBranco(termo) && resultado.Err? ==>
                participantes == old(participantes)
                && mensagem == Some(Mensagem(Erro, "Erro ao buscar participantes. Tente novamente."))
      ensures selecionado == old(selecionado) && evento == old(evento)
    {
      if EmBranco(termo) {
        return;
      }
      if resultado.Ok? {
        participantes := resultado.value;
        if resultado.value == [] {
          mensagem := Some(Mensagem(Informacao, "Nenhum participante encontrado. Deseja cadastrar um novo?"));
        } else {
          mensagem := None;
        }
      } else {
        mensagem := Some(Mensagem(Erro, "Erro ao buscar participantes. Tente novamente."));
      }
    }

    /**
     * `handleQrCodeScan`: the id is extracted from the scanned text and looked up in `loja`
     * (the store's participants by id); a found participant is selected with a notice that
     * depends on whether it is already checked in. A non-string id makes the lookup throw.
     */
    method ProcessarQrCode(data: string, parsed: Option<Json>, loja: map<string, Participante>)
      modifies this
      ensures var id := ExtrairId(data, parsed);
        && (id.JStr? && id.s in loja ==>
              selecionado == Some(loja[id.s])
              && mensagem == Some(if loja[id.s].status == Credenciado
                                  then Mensagem(Informacao, "Participante já realizou check-in anteriormente.")
                                  else Mensagem(Sucesso, "Participante encontrado! Realize o check-in.")))
        && (id.JStr? && id.s !in loja ==>
              selecionado == old(selecionado)
              && mensagem == Some(Mensagem(Erro, "Participante não encontrado com este QR Code.")))
        && (!id.JStr? ==>
              selecionado == old(selecionado)
              && mensagem == Some(Mensagem(Erro, "Erro ao processar QR Code. Tente novamente.")))
      ensures participantes == old(participantes) && evento == old(evento)
    {
      var id := ExtrairId(data, parsed);
      if !id.JStr? {
        mensagem := Some(Mensagem(Erro, "Erro ao processar QR Code. Tente novamente."));
      } else if id.s in loja {
        var p := loja[id.s];
        selecionado := Some(p);
        if p.status == Credenciado {
          mensagem := Some(Mensagem(Informacao, "Participante já realizou check-in anteriormente."));
        } else {
          mensagem := Some(Mensagem(Sucesso, "Participante encontrado! Realize o check-in."));
        }
      } else {
        mensagem := Some(Mensagem(Erro, "Participante não encontrado com este QR Code."));
      }
    }

    /**
     * `handleCheckin`: with a participant selected and the store's write succeeding (`ok`),
     * the selection and its entries in the list become credenciado.
     */
    method Checkin(ok: bool)
      modifies this
      ensures old(selecionado).None? ==> unchanged(this)
      ensures old(selecionado).Some? && ok ==>
                var atualizado := old(selecionado).value.(status := Credenciado);
                && selecionado == Some(atualizado)
                && participantes == ComCheckin(old(participantes), atualizado)
                && mensagem == Some(Mensagem(Sucesso, "Check-in realizado com sucesso!"))
      ensures old(selecionado).Some? && !ok ==>
                selecionado == old(selecionado) && participantes == old(participantes)
                && mensagem == Some(Mensagem(Erro, "Erro ao fazer check-in. Tente novamente."))
      ensures evento == old(evento)
    {
      if selecionado.None? {
        return;
      }
      if ok {
        var atualizado := selecionado.value.(status := Credenciado);
        selecionado := Some(atualizado);
        participantes := ComCheckin(participantes, atualizado);
        mensagem := Some(Mensagem(Sucesso, "Check-in realizado com sucesso!"));
      } else {
        mensagem := Some(Mensagem(Erro, "Erro ao fazer check-in. Tente novamente."));
      }
    }

    /**
     * `handlePrintCredencial` for the participant `p`: without an event nothing happens;
     * without a default template a notice and no document; otherwise the credential of the
     * default template (when the print window opens). `modelos` is the store's answer and
     * `qrDataUrl` the encoded payload.
     */
    method ImprimirCredencial(p: Option<Participante>, modelos: Result<seq<ModeloCracha>, string>, qrDataUrl: string, janela: bool)
      returns (impresso: Option<Impressao>)
      modifies this`mensagem
      ensures p.None? || evento.None? ==> impresso.None? && mensagem == old(mensagem)
      ensures p.Some? && evento.Some? && modelos.Err? ==>
                impresso.None? && mensagem == Some(Mensagem(Erro, "Erro ao imprimir credencial."))
      ensures p.Some? && evento.Some? && modelos.Ok? && ModeloPadrao(modelos.value).None? ==>
                impresso.None?
                && mensagem == Some(Mensagem(Erro, "Nenhum modelo de crachá padrão definido para este evento."))
      ensures p.Some? && evento.Some? && modelos.Ok? && ModeloPadrao(modelos.value).Some? ==>
                (janela ==> impresso == Some(Impressao(Credencial(ModeloPadrao(modelos.value).value, p.value, qrDataUrl),
                                                       ParticipanteJson(p.value)))
                            && mensagem == Some(Mensagem(Sucesso, "Credencial enviada para impressão!")))
                && (!janela ==> impresso.None? && mensagem == old(mensagem))
    {
      impresso := None;
      if p.None? || evento.None? {
        return;
      }
      if modelos.Err? {
        mensagem := Some(Mensagem(Erro, "Erro ao imprimir credencial."));
        return;
      }
      var padrao := ModeloPadrao(modelos.value);
      if padrao.None? {
        mensagem := Some(Mensagem(Erro, "Nenhum modelo de crachá padrão definido para este evento."));
        return;
      }
      if !janela {
        return;
      }
      impresso := Some(Impressao(Credencial(padrao.value, p.value, qrDataUrl), ParticipanteJson(p.value)));
      mensagem := Some(Mensagem(Sucesso, "Credencial enviada para impressão!"));
    }

    /**
     * `confirmarCheckin(imprimir)`: check in, then print. The print handler was captured
     * before the check-in, so it prints the participant as selected before it: a pending
     * participant's payload still says pendente.
     */
    method ConfirmarCheckin(imprimir: bool, ok: bool, modelos: Result<seq<ModeloCracha>, string>, qrDataUrl: string, janela: bool)
      returns (impresso: Option<Impressao>)
      modifies this
      ensures evento == old(evento)
      ensures old(selecionado).None? ==> impresso.None? && unchanged(this)
      ensures old(selecionado).Some? && ok ==>
                var atualizado := old(selecionado).value.(status := Credenciado);
                selecionado == Some(atualizado) && participantes == ComCheckin(old(participantes), atualizado)
      ensures old(selecionado).Some? && !ok ==>
                selecionado == old(selecionado) && participantes == old(participantes)
      ensures old(selecionado).Some? ==>
                var p := old(selecionado).value;
                var aviso := Some(if ok then Mensagem(Sucesso, "Check-in realizado com sucesso!")
                                  else Mensagem(Erro, "Erro ao fazer check-in. Tente novamente."));
                && (!imprimir || evento.None? ==> impresso.None? && mensagem == aviso)
                && (imprimir && evento.Some? && modelos.Err? ==>
                      impresso.None? && mensagem == Some(Mensagem(Erro, "Erro ao imprimir credencial.")))
                && (imprimir && evento.Some? && modelos.Ok? && ModeloPadrao(modelos.value).None? ==>
                      impresso.None?
                      && mensagem == Some(Mensagem(Erro, "Nenhum modelo de crachá padrão definido para este evento.")))
                && (imprimir && evento.Some? && modelos.Ok? && ModeloPadrao(modelos.value).Some? && janela ==>
                      impresso == Some(Impressao(Credencial(ModeloPadrao(modelos.value).value, p, qrDataUrl),
                                                 ParticipanteJson(p)))
                      && mensagem == Some(Mensagem(Sucesso, "Credencial enviada para impressão!")))
                && (imprimir && evento.Some? && modelos.Ok? && ModeloPadrao(modelos.value).Some? && !janela ==>
                      impresso.None? && mensagem == aviso)
    {
      var capturado := selecionado;
      Checkin(ok);
      impresso := None;
      if imprimir {
        impresso := ImprimirCredencial(capturado, modelos, qrDataUrl, janela);
      }
    }

    /**
     * `handleCadastrarParticipante`: with a signed-in user and the store's create succeeding,
     * the new participant goes first in the list and becomes the selection.
     */
    method Cadastrar(eventoId: string, f: Cadastro, uid: Option<string>, novoId: Option<string>, agora: string)
      modifies this
      ensures uid.None? ==> unchanged(this)
      ensures uid.Some? && novoId.Some? ==>
                var p := NovoParticipante(eventoId, f, uid.value, novoId.value, agora);
                && participantes == [p] + old(participantes) && selecionado == Some(p)
                && mensagem == Some(Mensagem(Sucesso, "Participante cadastrado com sucesso! Realize o check-in."))
      ensures uid.Some? && novoId.None? ==>
                participantes == old(participantes) && selecionado == old(selecionado)
                && mensagem == Some(Mensagem(Erro, "Erro ao cadastrar participante. Tente novamente."))
      ensures evento == old(evento)
    {
      if uid.None? {
        return;
      }
      if novoId.Some? {
        var p := NovoParticipante(eventoId, f, uid.value, novoId.value, agora);
        participantes := [p] + participantes;
        selecionado := Some(p);
        mensagem := Some(Mensagem(Sucesso, "Participante cadastrado com sucesso! Realize o check-in."));
      } else {
        mensagem := Some(Mensagem(Erro, "Erro ao cadastrar participante. Tente novamente."));
      }
    }
  }
}
