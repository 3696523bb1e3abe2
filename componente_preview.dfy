/**
 * The editor's live preview of one component (ComponentePreview): value resolution, the
 * defaulted base style and a dispatch on the component's type.
 */
module ComponentePreview {
  import opened Wrappers
  import opened Js
  import opened Types
  import opened Render

  /** The element the preview draws inside its styled box. */
  datatype Elemento =
    | Div(texto: string)
    | BotaoEl(texto: string)
    | IconeQr
    | CodigoBarras(valor: string, altura: Num)
    | Img(url: string)
    | PlaceholderImagem
    | Vazio

  datatype Visual = Visual(css: Css, elemento: Elemento)

  /**
   * `getValorCampo`: without a binding or without data, the literal text (or ''); otherwise the
   * bound field of the data (or ''). With data it is exactly the rule the printers use.
   */
  function ValorCampo(p: Propriedades, dados: Option<Registro>): (v: string)
    ensures dados.Some? ==> v == ValorResolvido(p, dados.value)
    ensures dados.None? ==> v == OrStr(p.texto, "")
  {
    if !StrTruthy(p.campoVinculado) || dados.None? then OrStr(p.texto, "")
    else Ler(dados.value, p.campoVinculado.value)
  }

  /**
   * `estilosBase`: every attribute is set; a truthy value in the bag is used as it is and any
   * other takes the preview's default (12, Arial, #000000, transparent, no border); the flags
   * switch bold, italic and underline; only a button centres its content.
   */
  function EstilosBase(tipo: Tipo, e: Estilos): (css: Css)
    ensures css.fontSize == Some(OrNum(e.tamanhoFonte, N(12)))
    ensures css.fontFamily == Some(OrStr(e.fonte, "Arial"))
    ensures css.fontWeight == Some("bold") <==> IsTrue(e.negrito)
    ensures css.fontStyle == Some("italic") <==> IsTrue(e.italico)
    ensures css.textDecoration == Some("underline") <==> IsTrue(e.sublinhado)
    ensures css.fontWeight in {Some("bold"), Some("normal")}
    ensures css.fontStyle in {Some("italic"), Some("normal")}
    ensures css.textDecoration in {Some("underline"), Some("none")}
    ensures e.alinhamento.Some? ==> css.textAlign == e.alinhamento
    ensures e.alinhamento.None? ==> css.textAlign == Some(Left)
    ensures css.color == Some(OrStr(e.corFonte, "#000000"))
    ensures css.backgroundColor == Some(OrStr(e.corFundo, "transparent"))
    ensures css.borderWidth == Some(OrNum(e.bordaLargura, N(0)))
    ensures css.borderStyle == Some(if OptNumTruthy(e.bordaLargura) then "solid" else "none")
    ensures css.borderColor == Some(OrStr(e.bordaCor, "transparent"))
    ensures css.borderRadius == Some(OrNum(e.raio, N(0)))
    ensures css.justifyContent == Some("center") <==> tipo == Botao
    ensures css.justifyContent in {Some("center"), Some("flex-start")}
  {
    Css(
      fontSize := Some(OrNum(e.tamanhoFonte, N(12))),
      fontFamily := Some(OrStr(e.fonte, "Arial")),
      fontWeight := Some(if IsTrue(e.negrito) then "bold" else "normal"),
      fontStyle := Some(if IsTrue(e.italico) then "italic" else "normal"),
      textDecoration := Some(if IsTrue(e.sublinhado) then "underline" else "none"),
      textAlign := Some(if e.alinhamento.Some? then e.alinhamento.value else Left),
      color := Some(OrStr(e.corFonte, "#000000")),
      backgroundColor := Some(OrStr(e.corFundo, "transparent")),
      borderWidth := Some(OrNum(e.bordaLargura, N(0))),
      borderColor := Some(OrStr(e.bordaCor, "transparent")),
      borderStyle := Some(if OptNumTruthy(e.bordaLargura) then "solid" else "none"),
      borderRadius := Some(OrNum(e.raio, N(0))),
      justifyContent := Some(if tipo == Botao then "center" else "flex-start"))
  }

  /**
   * The rendered preview of one component: the base styles (a QR code and a barcode centred,
   * a divider on a light grey background unless one is set) and each type's element, with
   * its fallbacks.
   */
  function Preview(c: Componente, dados: Option<Registro>): (v: Visual)
    ensures v.css.justifyContent ==
              Some(if c.tipo in {Botao, QrCode, Barcode} then "center" else "flex-start")
    ensures c.tipo.Outro? ==> v.elemento == Div("Componente desconhecido")
    ensures c.tipo == Texto ==> v.elemento == Div(OrStr(c.propriedades.texto, "Texto de exemplo"))
    ensures c.tipo == Botao ==> v.elemento == BotaoEl(OrStr(c.propriedades.texto, "Botão"))
    ensures c.tipo == Barcode ==> v.elemento == CodigoBarras(ValorCampo(c.propriedades, dados), c.propriedades.altura)
    ensures c.tipo == Imagem ==> (v.elemento.Img? <==> StrTruthy(c.propriedades.url))
    ensures c.tipo == Imagem && StrTruthy(c.propriedades.url) ==> v.elemento == Img(c.propriedades.url.value)
    ensures c.tipo == Imagem && !StrTruthy(c.propriedades.url) ==> v.elemento == PlaceholderImagem
    ensures c.tipo == QrCode ==> v.elemento == IconeQr
    ensures c.tipo == Divisao ==> v.elemento == Vazio
    ensures var base := EstilosBase(c.tipo, EstilosDe(c.propriedades));
      && (c.tipo !in {QrCode, Barcode, Divisao} ==> v.css == base)
      && (c.tipo in {QrCode, Barcode} ==> v.css == base.(justifyContent := Some("center")))
      && (c.tipo == Divisao ==> v.css.(backgroundColor := base.backgroundColor) == base)
    ensures var fundo := EstilosDe(c.propriedades).corFundo;
      && (c.tipo == Divisao && StrTruthy(fundo) ==> v.css.backgroundColor == fundo)
      && (c.tipo == Divisao && !StrTruthy(fundo) ==> v.css.backgroundColor == Some("#f0f0f0"))
  {
    var p := c.propriedades;
    var e := EstilosDe(p);
    var base := EstilosBase(c.tipo, e);
    match c.tipo
    case Texto => Visual(base, Div(OrStr(p.texto, "Texto de exemplo")))
    case Campo =>
      var valor := ValorCampo(p, dados);
      Visual(base, Div(if valor != "" then valor else "{" + OrStr(p.campoVinculado, "campo") + "}"))
    case Botao => Visual(base, BotaoEl(OrStr(p.texto, "Botão")))
    case QrCode => Visual(base.(justifyContent := Some("center")), IconeQr)
    case Barcode => Visual(base.(justifyContent := Some("center")), CodigoBarras(ValorCampo(p, dados), p.altura))
    case Imagem => Visual(base, if StrTruthy(p.url) then Img(p.url.value) else PlaceholderImagem)
    case Divisao => Visual(base.(backgroundColor := Some(OrStr(e.corFundo, "#f0f0f0"))), Vazio)
    case Outro(_) => Visual(base, Div("Componente desconhecido"))
  }

  /**
   * A component with no style renders with the preview's defaults: black 12px Arial, left
   * aligned, plain weight, style and decoration, transparent background (light grey for a
   * divider), no border and square corners.
   */
  lemma PreviewSemEstilos(c: Componente, dados: Option<Registro>)
    requires c.propriedades.estilos.None?
    ensures var css := Preview(c, dados).css;
      && css.color == Some("#000000") && css.fontSize == Some(N(12))
      && css.fontFamily == Some("Arial") && css.textAlign == Some(Left)
      && css.fontWeight == Some("normal") && css.fontStyle == Some("normal")
      && css.textDecoration == Some("none")
      && css.backgroundColor == Some(if c.tipo == Divisao then "#f0f0f0" else "transparent")
      && css.borderWidth == Some(N(0)) && css.borderStyle == Some("none")
      && css.borderRadius == Some(N(0))
  {
  }

  /** A border is drawn (solid, at the given width) exactly when its width is a non-zero number. */
  lemma PreviewBorda(c: Componente, dados: Option<Registro>)
    ensures var css := Preview(c, dados).css;
      var b := EstilosDe(c.propriedades).bordaLargura;
      && (css.borderStyle == Some("solid") <==> b.Some? && NumTruthy(b.value))
      && (css.borderStyle == Some("none") <==> !(b.Some? && NumTruthy(b.value)))
      && css.borderWidth == Some(if b.Some? && NumTruthy(b.value) then b.value else N(0))
  {
  }

  /** Bold, italic and underline are applied exactly when their flags are set to true. */
  lemma PreviewFormatacao(c: Componente, dados: Option<Registro>)
    ensures var css := Preview(c, dados).css;
      var e := EstilosDe(c.propriedades);
      && (css.fontWeight == Some("bold") <==> e.negrito == Some(true))
      && (css.fontStyle == Some("italic") <==> e.italico == Some(true))
      && (css.textDecoration == Some("underline") <==> e.sublinhado == Some(true))
  {
  }

  /**
   * A bound field shows its resolved value, and the placeholder `{binding}` (`{campo}` when
   * unbound) when that value is empty, e.g. with no data at all.
   */
  lemma PreviewCampo(c: Componente, dados: Option<Registro>)
    requires c.tipo == Campo
    ensures var v := ValorCampo(c.propriedades, dados);
      Preview(c, dados).elemento ==
        Div(if v != "" then v else "{" + OrStr(c.propriedades.campoVinculado, "campo") + "}")
    ensures dados.None? && StrTruthy(c.propriedades.campoVinculado) && !StrTruthy(c.propriedades.texto) ==>
      Preview(c, dados).elemento == Div("{" + c.propriedades.campoVinculado.value + "}")
  {
  }
}
