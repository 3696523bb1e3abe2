/**
 * What every renderer produces: one absolutely positioned box per component on a fixed-size
 * surface, plus the field-resolution rule all of them share.
 */
module Render {
  import opened Wrappers
  import opened Js
  import opened Types

  /** The presentation attributes a renderer sets on a box; `None` means not set at all. */
  datatype Css = Css(
    fontSize: Option<Num>,
    fontFamily: Option<string>,
    fontWeight: Option<string>,
    fontStyle: Option<string>,
    textDecoration: Option<string>,
    textAlign: Option<Alinhamento>,
    color: Option<string>,
    backgroundColor: Option<string>,
    borderWidth: Option<Num>,
    borderColor: Option<string>,
    borderStyle: Option<string>,
    borderRadius: Option<Num>,
    justifyContent: Option<string>)

  const CssVazio: Css := Css(None, None, None, None, None, None, None, None, None, None, None, None, None)

  /**
   * The style both HTML printers give a text box from its style bag `e`: a truthy size,
   * colour or radius is used as set and anything else falls back to 14, #000, transparent or
   * 0; bold exactly when `negrito` is true; left unless aligned; content centred; italics,
   * underline and borders not set at all.
   */
  predicate EstiloImpresso(e: Estilos, css: Css) {
    && (OptNumTruthy(e.tamanhoFonte) ==> css.fontSize == e.tamanhoFonte)
    && (!OptNumTruthy(e.tamanhoFonte) ==> css.fontSize == Some(N(14)))
    && (css.fontWeight == Some("bold") <==> IsTrue(e.negrito))
    && css.fontWeight in {Some("bold"), Some("normal")}
    && (e.alinhamento.Some? ==> css.textAlign == e.alinhamento)
    && (e.alinhamento.None? ==> css.textAlign == Some(Left))
    && (StrTruthy(e.corFonte) ==> css.color == e.corFonte)
    && (!StrTruthy(e.corFonte) ==> css.color == Some("#000"))
    && (StrTruthy(e.corFundo) ==> css.backgroundColor == e.corFundo)
    && (!StrTruthy(e.corFundo) ==> css.backgroundColor == Some("transparent"))
    && (OptNumTruthy(e.raio) ==> css.borderRadius == e.raio)
    && (!OptNumTruthy(e.raio) ==> css.borderRadius == Some(N(0)))
    && css.justifyContent == Some("center")
    && css.fontStyle.None? && css.textDecoration.None?
    && css.borderWidth.None? && css.borderColor.None? && css.borderStyle.None?
  }

  /** What a box shows. */
  datatype Conteudo =
    | TextoSimples(s: string)                             // the resolved value as text
    | QrDoRegistro(registro: Registro, tamanho: Num)      // a live QR symbol of JSON.stringify(registro)
    | ImagemQr(src: string, largura: Num, altura: Num)    // an <img> holding a pre-encoded QR symbol
    | CodigoDeBarras(valor: string, altura: Num)          // a barcode symbol of the value

  /** One absolutely positioned box. */
  datatype Caixa = Caixa(top: Num, left: Num, width: Num, height: Num, css: Css, conteudo: Conteudo)

  /** The rendered badge: its size and its boxes, in drawing order. */
  datatype Superficie = Superficie(largura: Num, altura: Num, caixas: seq<Caixa>)

  /** A box placed at the component's own position and size. */
  function NaPosicao(p: Propriedades, css: Css, conteudo: Conteudo): Caixa {
    Caixa(p.y, p.x, p.largura, p.altura, css, conteudo)
  }

  /**
   * The value a printed component shows: the bound field of the record (or '' when the record
   * lacks it) when a binding is set, else the literal text, else ''.
   */
  function ValorResolvido(p: Propriedades, r: Registro): (v: string)
    ensures StrTruthy(p.campoVinculado) && p.campoVinculado.value in r ==> v == r[p.campoVinculado.value]
    ensures StrTruthy(p.campoVinculado) && p.campoVinculado.value !in r ==> v == ""
    ensures !StrTruthy(p.campoVinculado) && StrTruthy(p.texto) ==> v == p.texto.value
    ensures !StrTruthy(p.campoVinculado) && !StrTruthy(p.texto) ==> v == ""
  {
    if StrTruthy(p.campoVinculado) then Ler(r, p.campoVinculado.value) else OrStr(p.texto, "")
  }
}
