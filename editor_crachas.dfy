/**
 * The badge editor page (EditorCrachas): the fields a component can bind, the starter
 * template, the HTML print of a badge for a sample participant, and the page state that the
 * save, load and delete handlers update.
 */
module EditorCrachas {
  import opened Wrappers
  import opened Js
  import opened Types
  import opened Seqs
  import opened Render
  import DragDropEditor
  import CrachaPreviewToPrint

  /** The participant fields every template can bind, before the event's own fields. */
  const CamposParticipantePadrao: seq<string> := ["nome", "empresa", "email", "telefone", "categoria", "id"]

  function NomeDoCampo(): CampoPersonalizado -> string {
    (c: CampoPersonalizado) => c.nome
  }

  /** The bindable fields: the six standard ones, then the event's custom fields by name, in order. */
  function CamposDisponiveis(personalizados: Option<seq<CampoPersonalizado>>): (r: seq<string>)
    ensures personalizados.None? ==> r == CamposParticipantePadrao
    ensures personalizados.Some? ==>
              |r| == 6 + |personalizados.value|
              && r[..6] == CamposParticipantePadrao
              && forall i :: 0 <= i < |personalizados.value| ==> r[6 + i] == personalizados.value[i].nome
  {
    CamposParticipantePadrao + MapSeq(NomeDoCampo(), if personalizados.Some? then personalizados.value else [])
  }

  /** The badge page is 400 by 250 pixels. */
  const LarguraCracha: int := 400
  const AlturaCracha: int := 250

  /** A component with no text, no URL and the given geometry, binding and style. */
  function Montar(id: string, tipo: Tipo, x: int, y: int, largura: int, altura: int,
                  texto: Option<string>, campo: Option<string>, estilos: Option<Estilos>): Componente {
    Componente(id, tipo, Propriedades(N(x), N(y), N(largura), N(altura), texto, campo, estilos, None))
  }

  /**
   * The template a page starts from once the event is loaded: a barcode of the id, the event
   * name, name, company, a QR code and the category tag. `ids` are the six fresh ids.
   */
  function ModeloInicial(eventoId: string, nomeEvento: string, uid: string, ids: seq<string>): (m: ModeloCracha)
    requires |ids| == 6
    ensures m.id == "" && m.nome == "Modelo Padrão" && m.padrao.None?
    ensures |m.componentes| == 6
    ensures forall i :: 0 <= i < 6 ==> m.componentes[i].id == ids[i]
  {
    ModeloCracha("", eventoId, "Modelo Padrão", [
      Montar(ids[0], Barcode, 20, 20, 200, 40, None, Some("id"), None),
      Montar(ids[1], Texto, 20, 70, 360, 40, Some(nomeEvento), None,
        Some(EstilosVazios.(corFonte := Some("#063a80"), tamanhoFonte := Some(N(16)),
                            alinhamento := Some(Center), negrito := Some(true)))),
      Montar(ids[2], Campo, 20, 120, 360, 40, None, Some("nome"),
        Some(EstilosVazios.(corFonte := Some("#000000"), tamanhoFonte := Some(N(18)),
                            alinhamento := Some(Center), negrito := Some(true)))),
      Montar(ids[3], Campo, 20, 170, 360, 30, None, Some("empresa"),
        Some(EstilosVazios.(corFonte := Some("#666666"), tamanhoFonte := Some(N(14)),
                            alinhamento := Some(Center)))),
      Montar(ids[4], QrCode, 20, 210, 60, 60, None, None, None),
      Montar(ids[5], Campo, 90, 220, 290, 20, None, Some("categoria"),
        Some(EstilosVazios.(corFonte := Some("#ffffff"), tamanhoFonte := Some(N(12)),
                            alinhamento := Some(Center), corFundo := Some("#ff914d"), raio := Some(N(4)))))
    ], uid, "", "", None, None, None)
  }

  /** The lowest edge (`y + altura`) a component reaches; NaN geometry counts as 0. */
  function Fundo(c: Componente): int {
    (if c.propriedades.y.N? then c.propriedades.y.v else 0)
    + (if c.propriedades.altura.N? then c.propriedades.altura.v else 0)
  }

  /**
   * The starter template's shape: the six types in order, the first being a barcode, which no
   * toolbar button adds; every binding is one of the bindable fields; and the ids are unique
   * when the fresh ids are.
   */
  lemma ModeloInicialForma(eventoId: string, nomeEvento: string, uid: string, ids: seq<string>,
                           personalizados: Option<seq<CampoPersonalizado>>)
    requires |ids| == 6
    ensures var cs := ModeloInicial(eventoId, nomeEvento, uid, ids).componentes;
      && (forall i :: 0 <= i < 6 ==> cs[i].tipo == [Barcode, Texto, Campo, Campo, QrCode, Campo][i])
      && (forall i :: 0 <= i < 6 && cs[i].propriedades.campoVinculado.Some? ==>
            cs[i].propriedades.campoVinculado.value in CamposDisponiveis(personalizados))
      && ((forall i, j :: 0 <= i < j < 6 ==> ids[i] != ids[j]) ==> DragDropEditor.IdsUnicos(cs))
      && cs[0].tipo !in DragDropEditor.Ferramentas
  {
    var cs := ModeloInicial(eventoId, nomeEvento, uid, ids).componentes;
    ModeloInicialVinculos(eventoId, nomeEvento, uid, ids);
    PadraoDisponiveis(personalizados);
    FormaDe(cs, ids, CamposDisponiveis(personalizados));
  }

  /** The shape facts for any six components typed and bound like the starter template's. */
  lemma FormaDe(cs: seq<Componente>, ids: seq<string>, disp: seq<string>)
    requires |cs| == 6 && |ids| == 6
    requires forall i :: 0 <= i < 6 ==> cs[i].id == ids[i]
    requires cs[0].tipo == Barcode && cs[0].propriedades.campoVinculado == Some("id")
    requires cs[1].tipo == Texto && cs[1].propriedades.campoVinculado == None
    requires cs[2].tipo == Campo && cs[2].propriedades.campoVinculado == Some("nome")
    requires cs[3].tipo == Campo && cs[3].propriedades.campoVinculado == Some("empresa")
    requires cs[4].tipo == QrCode && cs[4].propriedades.campoVinculado == None
    requires cs[5].tipo == Campo && cs[5].propriedades.campoVinculado == Some("categoria")
    requires "nome" in disp && "empresa" in disp && "categoria" in disp && "id" in disp
    ensures forall i :: 0 <= i < 6 ==> cs[i].tipo == [Barcode, Texto, Campo, Campo, QrCode, Campo][i]
    ensures forall i :: 0 <= i < 6 && cs[i].propriedades.campoVinculado.Some? ==>
              cs[i].propriedades.campoVinculado.value in disp
    ensures (forall i, j :: 0 <= i < j < 6 ==> ids[i] != ids[j]) ==> DragDropEditor.IdsUnicos(cs)
    ensures cs[0].tipo !in DragDropEditor.Ferramentas
  {
  }

  /** What each starter component is and binds. */
  lemma ModeloInicialVinculos(eventoId: string, nomeEvento: string, uid: string, ids: seq<string>)
    requires |ids| == 6
    ensures var cs := ModeloInicial(eventoId, nomeEvento, uid, ids).componentes;
      && cs[0].tipo == Barcode && cs[0].propriedades.campoVinculado == Some("id")
      && cs[1].tipo == Texto && cs[1].propriedades.campoVinculado == None
      && cs[2].tipo == Campo && cs[2].propriedades.campoVinculado == Some("nome")
      && cs[3].tipo == Campo && cs[3].propriedades.campoVinculado == Some("empresa")
      && cs[4].tipo == QrCode && cs[4].propriedades.campoVinculado == None
      && cs[5].tipo == Campo && cs[5].propriedades.campoVinculado == Some("categoria")
      && cs[1].propriedades.texto == Some(nomeEvento) && cs[1].propriedades.estilos.Some?
      && cs[1].propriedades.estilos.value.tamanhoFonte == Some(N(16))
      && cs[1].propriedades.estilos.value.negrito == Some(true)
      && cs[4].propriedades.largura == N(60) && cs[4].propriedades.altura == N(60)
  {
  }

  /**
   * The starter template's layout: the QR code, at y 210 with height 60, reaches 270 — past
   * the 250-pixel badge — while every other component fits.
   */
  lemma ModeloInicialAltura(eventoId: string, nomeEvento: string, uid: string, ids: seq<string>)
    requires |ids| == 6
    ensures var cs := ModeloInicial(eventoId, nomeEvento, uid, ids).componentes;
      && Fundo(cs[4]) == 270 && Fundo(cs[4]) > AlturaCracha
      && (forall i :: 0 <= i < 6 && i != 4 ==> Fundo(cs[i]) <= AlturaCracha)
  {
  }

  /** The standard fields the starter template binds are always bindable. */
  lemma PadraoDisponiveis(personalizados: Option<seq<CampoPersonalizado>>)
    ensures var disp := CamposDisponiveis(personalizados);
      "nome" in disp && "empresa" in disp && "categoria" in disp && "id" in disp
  {
    var disp := CamposDisponiveis(personalizados);
    assert disp[..6] == CamposParticipantePadrao;
    assert disp[0] == "nome" && disp[1] == "empresa" && disp[4] == "categoria" && disp[5] == "id" by {
      assert disp[..6][0] == disp[0] && disp[..6][1] == disp[1];
      assert disp[..6][4] == disp[4] && disp[..6][5] == disp[5];
    }
  }

  /** The sample participant every print and preview of this page is filled from. */
  const ParticipanteExemplo: Registro := map[
    "id" := "P12345", "nome" := "João Silva", "empresa" := "Empresa Exemplo Ltda",
    "email" := "joao@exemplo.com", "telefone" := "(11) 98765-4321", "categoria" := "VIP"]

  /** The printed style of a non-QR component: size 14, left, black, transparent, square by default. */
  function CssImpressao(p: Propriedades): (css: Css)
    ensures p.estilos.None? ==>
              css == CssVazio.(fontSize := Some(N(14)), fontWeight := Some("normal"), textAlign := Some(Left),
                               color := Some("#000"), backgroundColor := Some("transparent"),
                               borderRadius := Some(N(0)), justifyContent := Some("center"))
    ensures EstiloImpresso(EstilosDe(p), css)
    ensures css.fontFamily.None?
  {
    var e := EstilosDe(p);
    CssVazio.(
      fontSize := Some(OrNum(e.tamanhoFonte, N(14))),
      fontWeight := Some(if IsTrue(e.negrito) then "bold" else "normal"),
      textAlign := Some(if e.alinhamento.Some? then e.alinhamento.value else Left),
      color := Some(OrStr(e.corFonte, "#000")),
      backgroundColor := Some(OrStr(e.corFundo, "transparent")),
      borderRadius := Some(OrNum(e.raio, N(0))),
      justifyContent := Some("center"))
  }

  /** One printed box: a QR image sized to the component, or the resolved value as text. */
  function CaixaImpressa(qrDataUrl: string): Componente -> Caixa {
    (c: Componente) =>
      var p := c.propriedades;
      if c.tipo == QrCode then NaPosicao(p, CssVazio, ImagemQr(qrDataUrl, p.largura, p.altura))
      else NaPosicao(p, CssImpressao(p), TextoSimples(ValorResolvido(p, ParticipanteExemplo)))
  }

  /**
   * `handlePrint`'s document: a 400x250 page with one box per component in template order, at
   * the component's own position and size. `qrDataUrl` is the QR symbol read off the hidden
   * preview's canvas ('' when there is none).
   */
  function Impressao(componentes: seq<Componente>, qrDataUrl: string): (s: Superficie)
    ensures s.largura == N(LarguraCracha) && s.altura == N(AlturaCracha)
    ensures |s.caixas| == |componentes|
    ensures forall i :: 0 <= i < |componentes| ==>
              var p := componentes[i].propriedades;
              var b := s.caixas[i];
              && b.top == p.y && b.left == p.x && b.width == p.largura && b.height == p.altura
              && (componentes[i].tipo == QrCode ==> b.conteudo == ImagemQr(qrDataUrl, p.largura, p.altura) && b.css == CssVazio)
              && (componentes[i].tipo != QrCode ==>
                    b.conteudo == TextoSimples(ValorResolvido(p, ParticipanteExemplo)) && b.css == CssImpressao(p))
  {
    Superficie(N(LarguraCracha), N(AlturaCracha), MapSeq(CaixaImpressa(qrDataUrl), componentes))
  }

  /**
   * The printed starter template for the sample participant: the barcode prints the id as
   * text, then come the event name in bold 16px, the name, the company, the QR image at 60 by
   * 60 and the category.
   */
  lemma ImpressaoModeloInicial(eventoId: string, nomeEvento: string, uid: string, ids: seq<string>, qrDataUrl: string)
    requires |ids| == 6
    ensures var b := Impressao(ModeloInicial(eventoId, nomeEvento, uid, ids).componentes, qrDataUrl).caixas;
      && b[0].conteudo == TextoSimples("P12345")
      && b[1].conteudo == TextoSimples(nomeEvento)
      && b[2].conteudo == TextoSimples("João Silva")
      && b[3].conteudo == TextoSimples("Empresa Exemplo Ltda")
      && b[4].conteudo == ImagemQr(qrDataUrl, N(60), N(60))
      && b[5].conteudo == TextoSimples("VIP")
      && b[1].css.fontSize == Some(N(16)) && b[1].css.fontWeight == Some("bold")
  {
    var cs := ModeloInicial(eventoId, nomeEvento, uid, ids).componentes;
    ModeloInicialVinculos(eventoId, nomeEvento, uid, ids);
    LeiturasExemplo();
    CaixaVinculada(cs, qrDataUrl, 0, "id");
    CaixaVinculada(cs, qrDataUrl, 2, "nome");
    CaixaVinculada(cs, qrDataUrl, 3, "empresa");
    CaixaVinculada(cs, qrDataUrl, 5, "categoria");
    CaixaTitulo(cs, qrDataUrl, nomeEvento);
  }

  /** A printed box bound to a field shows the sample participant's value of it. */
  lemma CaixaVinculada(cs: seq<Componente>, qrDataUrl: string, i: nat, campo: string)
    requires i < |cs| && cs[i].tipo != QrCode && cs[i].propriedades.campoVinculado == Some(campo) && campo != ""
    ensures Impressao(cs, qrDataUrl).caixas[i].conteudo == TextoSimples(Ler(ParticipanteExemplo, campo))
  {
  }

  /** The starter template's event-name box prints its text in bold 16px. */
  lemma CaixaTitulo(cs: seq<Componente>, qrDataUrl: string, nomeEvento: string)
    requires |cs| == 6 && cs[1].tipo == Texto && cs[1].propriedades.campoVinculado == None
    requires cs[1].propriedades.texto == Some(nomeEvento) && cs[1].propriedades.estilos.Some?
    requires cs[1].propriedades.estilos.value.tamanhoFonte == Some(N(16))
    requires cs[1].propriedades.estilos.value.negrito == Some(true)
    ensures var b := Impressao(cs, qrDataUrl).caixas[1];
      b.conteudo == TextoSimples(nomeEvento) && b.css.fontSize == Some(N(16)) && b.css.fontWeight == Some("bold")
  {
  }

  /** The sample participant's id, name, company and category. */
  lemma LeiturasExemplo()
    ensures Ler(ParticipanteExemplo, "id") == "P12345" && Ler(ParticipanteExemplo, "nome") == "João Silva"
    ensures Ler(ParticipanteExemplo, "empresa") == "Empresa Exemplo Ltda"
    ensures Ler(ParticipanteExemplo, "categoria") == "VIP"
  {
  }

  /**
   * The print and the hidden print preview agree on every box's geometry and on every
   * non-QR box's text; where a style is unset the print fills in its default and the preview
   * leaves it unset (font size 14 against none).
   */
  lemma ImpressaoConcordaComPrevia(cs: seq<Componente>, qrDataUrl: string)
    ensures var imp := Impressao(cs, qrDataUrl).caixas;
      var pre := CrachaPreviewToPrint.Renderizar(cs, ParticipanteExemplo, N(LarguraCracha), N(AlturaCracha)).caixas;
      && |imp| == |pre|
      && (forall i :: 0 <= i < |cs| ==>
            imp[i].top == pre[i].top && imp[i].left == pre[i].left
            && imp[i].width == pre[i].width && imp[i].height == pre[i].height)
      && (forall i :: 0 <= i < |cs| && cs[i].tipo != QrCode ==> imp[i].conteudo == pre[i].conteudo)
      && (forall i :: 0 <= i < |cs| && cs[i].tipo != QrCode && cs[i].propriedades.estilos.None? ==>
            imp[i].css.fontSize == Some(N(14)) && pre[i].css.fontSize.None?)
  {
  }

  /**
   * The page's own live preview (scaled down): size, alignment, colours and radius pass
   * through as set (unset stays unset); the font family, border width and border colour fall
   * back to Arial, 0 and transparent; the flags switch bold, italic, underline, and a truthy
   * border width a solid border; content is centred.
   */
  function CssPagina(p: Propriedades): (css: Css)
    ensures var e := EstilosDe(p);
      && css.fontSize == e.tamanhoFonte && css.textAlign == e.alinhamento
      && css.color == e.corFonte && css.backgroundColor == e.corFundo && css.borderRadius == e.raio
      && (StrTruthy(e.fonte) ==> css.fontFamily == e.fonte)
      && (!StrTruthy(e.fonte) ==> css.fontFamily == Some("Arial"))
      && (css.fontWeight == Some("bold") <==> IsTrue(e.negrito))
      && (css.fontStyle == Some("italic") <==> IsTrue(e.italico))
      && (css.textDecoration == Some("underline") <==> IsTrue(e.sublinhado))
      && css.fontWeight in {Some("bold"), Some("normal")}
      && css.fontStyle in {Some("italic"), Some("normal")}
      && css.textDecoration in {Some("underline"), Some("none")}
      && (OptNumTruthy(e.bordaLargura) ==> css.borderWidth == e.bordaLargura && css.borderStyle == Some("solid"))
      && (!OptNumTruthy(e.bordaLargura) ==> css.borderWidth == Some(N(0)) && css.borderStyle == Some("none"))
      && (StrTruthy(e.bordaCor) ==> css.borderColor == e.bordaCor)
      && (!StrTruthy(e.bordaCor) ==> css.borderColor == Some("transparent"))
      && css.justifyContent == Some("center")
  {
    var e := EstilosDe(p);
    Css(
      fontSize := e.tamanhoFonte,
      fontFamily := Some(OrStr(e.fonte, "Arial")),
      fontWeight := Some(if IsTrue(e.negrito) then "bold" else "normal"),
      fontStyle := Some(if IsTrue(e.italico) then "italic" else "normal"),
      textDecoration := Some(if IsTrue(e.sublinhado) then "underline" else "none"),
      textAlign := e.alinhamento,
      color := e.corFonte,
      backgroundColor := e.corFundo,
      borderWidth := Some(OrNum(e.bordaLargura, N(0))),
      borderColor := Some(OrStr(e.bordaCor, "transparent")),
      borderStyle := Some(if OptNumTruthy(e.bordaLargura) then "solid" else "none"),
      borderRadius := e.raio,
      justifyContent := Some("center"))
  }

  /** One box of the page preview. */
  function CaixaDaPagina(c: Componente): (b: Caixa)
    ensures var p := c.propriedades;
      && b.top == p.y && b.left == p.x && b.width == p.largura && b.height == p.altura
      && b.css == CssPagina(p)
      && (c.tipo == QrCode ==> b.conteudo == QrDoRegistro(ParticipanteExemplo, p.altura))
      && (c.tipo == Barcode ==>
            b.conteudo.CodigoDeBarras? && b.conteudo.valor == ValorResolvido(p, ParticipanteExemplo)
            && (NumTruthy(p.altura) ==> b.conteudo.altura == p.altura)
            && (!NumTruthy(p.altura) ==> b.conteudo.altura == N(40)))
      && (c.tipo != Barcode && c.tipo != QrCode ==> b.conteudo == TextoSimples(ValorResolvido(p, ParticipanteExemplo)))
  {
    var p := c.propriedades;
    var valor := ValorResolvido(p, ParticipanteExemplo);
    NaPosicao(p, CssPagina(p),
      if c.tipo == QrCode then QrDoRegistro(ParticipanteExemplo, p.altura)
      else if c.tipo == Barcode then CodigoDeBarras(valor, OrNum(Some(p.altura), N(40)))
      else TextoSimples(valor))
  }

  function CaixaPagina(): Componente -> Caixa {
    (c: Componente) => CaixaDaPagina(c)
  }

  /**
   * The page's live preview: a 400x250 surface with one box per component, in order, at the
   * component's position and size and in its preview style. A QR symbol encodes the sample
   * participant at the component's height; a barcode is drawn as a barcode of the resolved
   * value (40 high when the height is 0 or NaN), while the print shows that same value as
   * plain text; anything else shows the resolved value.
   */
  function PreviaPagina(cs: seq<Componente>): (s: Superficie)
    ensures s.largura == N(LarguraCracha) && s.altura == N(AlturaCracha)
    ensures |s.caixas| == |cs|
    ensures forall i :: 0 <= i < |cs| ==>
              var p := cs[i].propriedades;
              var b := s.caixas[i];
              && b.top == p.y && b.left == p.x && b.width == p.largura && b.height == p.altura
              && b.css == CssPagina(p)
    ensures forall i :: 0 <= i < |cs| && cs[i].tipo == QrCode ==>
              s.caixas[i].conteudo == QrDoRegistro(ParticipanteExemplo, cs[i].propriedades.altura)
    ensures forall i :: 0 <= i < |cs| && cs[i].tipo == Barcode ==>
              s.caixas[i].conteudo.CodigoDeBarras?
              && s.caixas[i].conteudo.valor == ValorResolvido(cs[i].propriedades, ParticipanteExemplo)
              && (NumTruthy(cs[i].propriedades.altura) ==> s.caixas[i].conteudo.altura == cs[i].propriedades.altura)
              && (!NumTruthy(cs[i].propriedades.altura) ==> s.caixas[i].conteudo.altura == N(40))
    ensures forall i :: 0 <= i < |cs| && cs[i].tipo != Barcode && cs[i].tipo != QrCode ==>
              s.caixas[i].conteudo == TextoSimples(ValorResolvido(cs[i].propriedades, ParticipanteExemplo))
  {
    Superficie(N(LarguraCracha), N(AlturaCracha), MapSeq(CaixaPagina(), cs))
  }

  /** A barcode shows the same value in the page preview (as a symbol) and in the print (as text). */
  lemma BarcodePreviaVsImpressao(cs: seq<Componente>, qrDataUrl: string, i: nat)
    requires i < |cs| && cs[i].tipo == Barcode
    ensures PreviaPagina(cs).caixas[i].conteudo.CodigoDeBarras?
    ensures Impressao(cs, qrDataUrl).caixas[i].conteudo == TextoSimples(PreviaPagina(cs).caixas[i].conteudo.valor)
  {
  }

  /** What a save sends to the store. */
  datatype Gravacao =
    | Atualizacao(id: string, nome: string, componentes: seq<Componente>, eventoId: string)
    | Criacao(nome: string, componentes: seq<Componente>, eventoId: string, criadoPorId: string, em: string)

  const NomeNovoModelo: string := "Novo Modelo de Crachá"

  /** The editor page's state. */
  class Pagina {
    const eventoId: string
    var modeloId: Option<string>
    var nomeModelo: string
    var componentes: seq<Componente>
    var camposDisponiveis: seq<string>
    var modelosSalvos: seq<ModeloCracha>
    var mensagem: Option<Mensagem>

    constructor (eventoId: string)
      ensures this.eventoId == eventoId
      ensures modeloId == None && nomeModelo == NomeNovoModelo && componentes == []
      ensures camposDisponiveis == [] && modelosSalvos == [] && mensagem == None
    {
      this.eventoId := eventoId;
      modeloId := None;
      nomeModelo := NomeNovoModelo;
      componentes := [];
      camposDisponiveis := [];
      modelosSalvos := [];
      mensagem := None;
    }

    /** `carregarModelos`: the event's saved templates, or an error notice when the read fails. */
    method CarregarModelos(lido: Result<seq<ModeloCracha>, string>)
      modifies this
      ensures lido.Ok? ==> modelosSalvos == lido.value && mensagem == old(mensagem)
      ensures lido.Err? ==> modelosSalvos == old(modelosSalvos)
                            && mensagem == Some(Mensagem(Erro, "Erro ao carregar os modelos salvos."))
      ensures modeloId == old(modeloId) && nomeModelo == old(nomeModelo) && componentes == old(componentes)
      ensures camposDisponiveis == old(camposDisponiveis)
    {
      if lido.Ok? {
        modelosSalvos := lido.value;
      } else {
        mensagem := Some(Mensagem(Erro, "Erro ao carregar os modelos salvos."));
      }
    }

    /**
     * `carregarDados`: once the event is read, the bindable fields are set and the starter
     * template (with fresh `ids`) is loaded as an unsaved model; a failed read shows a notice.
     */
    method CarregarEvento(lido: Result<Option<Evento>, string>, uid: string, ids: seq<string>)
      requires |ids| == 6
      modifies this
      ensures lido.Ok? && lido.value.Some? ==>
                var m := ModeloInicial(eventoId, lido.value.value.nome, uid, ids);
                && camposDisponiveis == CamposDisponiveis(Some(lido.value.value.camposPersonalizados))
                && modeloId == None && nomeModelo == m.nome && componentes == m.componentes
                && mensagem == old(mensagem)
      ensures lido.Ok? && lido.value.None? ==>
                camposDisponiveis == old(camposDisponiveis) && modeloId == old(modeloId)
                && nomeModelo == old(nomeModelo) && componentes == old(componentes) && mensagem == old(mensagem)
      ensures lido.Err? ==>
                camposDisponiveis == old(camposDisponiveis) && modeloId == old(modeloId)
                && nomeModelo == old(nomeModelo) && componentes == old(componentes)
                && mensagem == Some(Mensagem(Erro, "Erro ao carregar dados. Tente novamente mais tarde."))
      ensures modelosSalvos == old(modelosSalvos)
    {
      if lido.Err? {
        mensagem := Some(Mensagem(Erro, "Erro ao carregar dados. Tente novamente mais tarde."));
      } else if lido.value.Some? {
        var evento := lido.value.value;
        camposDisponiveis := CamposDisponiveis(Some(evento.camposPersonalizados));
        var m := ModeloInicial(eventoId, evento.nome, uid, ids);
        modeloId := None;
        nomeModelo := m.nome;
        componentes := m.componentes;
      }
    }

    /** The canvas reports a new list (`onSave={setComponentes}`). */
    method EditorSalvou(cs: seq<Componente>)
      modifies this`componentes
      ensures componentes == cs
    {
      componentes := cs;
    }

    /** The name input. */
    method Renomear(nome: string)
      modifies this`nomeModelo
      ensures nomeModelo == nome
    {
      nomeModelo := nome;
    }

    /** "Usar modelo": load a saved template's id, name and components. */
    method UsarModelo(m: ModeloCracha)
      modifies this
      ensures modeloId == Some(m.id) && nomeModelo == m.nome && componentes == m.componentes
      ensures modelosSalvos == old(modelosSalvos) && mensagem == old(mensagem)
      ensures camposDisponiveis == old(camposDisponiveis)
    {
      modeloId := Some(m.id);
      nomeModelo := m.nome;
      componentes := m.componentes;
    }

    /**
     * `handleSalvarModelo`. Without a signed-in user nothing happens. A loaded model is updated
     * in place (the saved list is not re-read); otherwise a new model is created, its id
     * becomes the loaded id at once, and the saved list is re-read. `escrita` is the store's
     * answer to the write (for a create, the new id), `relido` its answer to the re-read and
     * `agora` the clock. A failure at either step leaves the error notice, and whatever the
     * steps before it changed stays changed.
     */
    method SalvarModelo(uid: Option<string>, agora: string, escrita: Result<string, string>,
                        relido: Result<seq<ModeloCracha>, string>)
      returns (gravado: Option<Gravacao>)
      modifies this
      ensures uid.None? ==> gravado.None? && unchanged(this)
      ensures uid.Some? && old(modeloId).Some? ==>
                gravado == Some(Atualizacao(old(modeloId).value, old(nomeModelo), old(componentes), eventoId))
                && modeloId == old(modeloId) && modelosSalvos == old(modelosSalvos)
                && mensagem == Some(if escrita.Ok? then Mensagem(Sucesso, "Modelo salvo com sucesso!")
                                    else Mensagem(Erro, "Erro ao salvar modelo."))
      ensures uid.Some? && old(modeloId).None? ==>
                gravado == Some(Criacao(old(nomeModelo), old(componentes), eventoId, uid.value, agora))
      ensures uid.Some? && old(modeloId).None? && escrita.Err? ==>
                modeloId == None && modelosSalvos == old(modelosSalvos)
                && mensagem == Some(Mensagem(Erro, "Erro ao salvar modelo."))
      ensures uid.Some? && old(modeloId).None? && escrita.Ok? ==> modeloId == Some(escrita.value)
      ensures uid.Some? && old(modeloId).None? && escrita.Ok? && relido.Ok? ==>
                modelosSalvos == relido.value && mensagem == Some(Mensagem(Sucesso, "Modelo salvo com sucesso!"))
      ensures uid.Some? && old(modeloId).None? && escrita.Ok? && relido.Err? ==>
                modelosSalvos == old(modelosSalvos) && mensagem == Some(Mensagem(Erro, "Erro ao salvar modelo."))
      ensures nomeModelo == old(nomeModelo) && componentes == old(componentes)
      ensures camposDisponiveis == old(camposDisponiveis)
    {
      if uid.None? {
        return None;
      }
      mensagem := None;
      if modeloId.Some? {
        gravado := Some(Atualizacao(modeloId.value, nomeModelo, componentes, eventoId));
        if escrita.Err? {
          mensagem := Some(Mensagem(Erro, "Erro ao salvar modelo."));
          return;
        }
      } else {
        gravado := Some(Criacao(nomeModelo, componentes, eventoId, uid.value, agora));
        if escrita.Err? {
          mensagem := Some(Mensagem(Erro, "Erro ao salvar modelo."));
          return;
        }
        modeloId := Some(escrita.value);
        if relido.Err? {
          mensagem := Some(Mensagem(Erro, "Erro ao salvar modelo."));
          return;
        }
        modelosSalvos := relido.value;
      }
      mensagem := Some(Mensagem(Sucesso, "Modelo salvo com sucesso!"));
    }

    /**
     * "Excluir modelo": after confirmation and a successful delete, the model leaves the saved
     * list; if it was the loaded one, the page goes back to a new, empty, unnamed model.
     */
    method ExcluirModelo(m: ModeloCracha, confirmado: bool, ok: bool)
      modifies this
      ensures !confirmado ==> unchanged(this)
      ensures confirmado && ok ==>
                modelosSalvos == Filter(SemModelo(m.id), old(modelosSalvos))
                && mensagem == Some(Mensagem(Sucesso, "Modelo excluído com sucesso."))
      ensures confirmado && ok && old(modeloId) == Some(m.id) ==>
                modeloId == None && nomeModelo == NomeNovoModelo && componentes == []
      ensures confirmado && ok && old(modeloId) != Some(m.id) ==>
                modeloId == old(modeloId) && nomeModelo == old(nomeModelo) && componentes == old(componentes)
      ensures confirmado && !ok ==>
                modelosSalvos == old(modelosSalvos) && modeloId == old(modeloId)
                && nomeModelo == old(nomeModelo) && componentes == old(componentes)
                && mensagem == Some(Mensagem(Erro, "Erro ao excluir modelo."))
      ensures camposDisponiveis == old(camposDisponiveis)
    {
      if !confirmado {
        return;
      }
      if ok {
        modelosSalvos := Filter(SemModelo(m.id), modelosSalvos);
        if modeloId == Some(m.id) {
          modeloId := None;
          nomeModelo := NomeNovoModelo;
          componentes := [];
        }
        mensagem := Some(Mensagem(Sucesso, "Modelo excluído com sucesso."));
      } else {
        mensagem := Some(Mensagem(Erro, "Erro ao excluir modelo."));
      }
    }
  }

  function SemModelo(id: string): ModeloCracha -> bool {
    (m: ModeloCracha) => m.id != id
  }

  /** Deleting a saved model leaves no model with its id and keeps the others in order. */
  lemma ExcluirModeloLista(ms: seq<ModeloCracha>, id: string)
    ensures forall i :: 0 <= i < |Filter(SemModelo(id), ms)| ==> Filter(SemModelo(id), ms)[i].id != id
    ensures forall i :: 0 <= i < |ms| && ms[i].id != id ==> ms[i] in Filter(SemModelo(id), ms)
    ensures IsSubseq(Filter(SemModelo(id), ms), ms)
  {
    FilterIsSubseq(SemModelo(id), ms);
  }
}
