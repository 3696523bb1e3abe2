/**
 * The hidden print preview (CrachaPreviewToPrint): one absolutely positioned box per component,
 * in list order, on a surface of the given size; styles are passed through without defaults.
 */
module CrachaPreviewToPrint {
  import opened Wrappers
  import opened Js
  import opened Types
  import opened Seqs
  import opened Render
  import ComponentePreview

  /** The box style: the component's own style fields, unset ones left unset. */
  function CssImpressao(p: Propriedades): (css: Css)
    ensures p.estilos.None? ==>
              css == CssVazio.(fontWeight := Some("normal"), justifyContent := Some("center"))
    ensures p.estilos.Some? ==>
              var e := p.estilos.value;
              && css.fontSize == e.tamanhoFonte && css.textAlign == e.alinhamento
              && css.color == e.corFonte && css.backgroundColor == e.corFundo
              && css.borderRadius == e.raio
              && css.fontWeight == Some(if IsTrue(e.negrito) then "bold" else "normal")
    ensures css.fontFamily.None? && css.fontStyle.None? && css.textDecoration.None?
    ensures css.borderWidth.None? && css.borderColor.None? && css.borderStyle.None?
  {
    var e := EstilosDe(p);
    CssVazio.(
      fontSize := e.tamanhoFonte,
      fontWeight := Some(if IsTrue(e.negrito) then "bold" else "normal"),
      textAlign := e.alinhamento,
      color := e.corFonte,
      backgroundColor := e.corFundo,
      borderRadius := e.raio,
      justifyContent := Some("center"))
  }

  /** The box of one component: a QR code of the whole record for a qrcode, else the resolved value. */
  function CaixaDe(participante: Registro): Componente -> Caixa {
    (c: Componente) =>
      NaPosicao(c.propriedades, CssImpressao(c.propriedades),
        if c.tipo == QrCode then QrDoRegistro(participante, c.propriedades.altura)
        else TextoSimples(ValorResolvido(c.propriedades, participante)))
  }

  /** The rendered preview. */
  function Renderizar(componentes: seq<Componente>, participante: Registro, largura: Num, altura: Num): (s: Superficie)
    ensures s.largura == largura && s.altura == altura
    ensures |s.caixas| == |componentes|
    ensures forall i :: 0 <= i < |componentes| ==>
              var p := componentes[i].propriedades;
              var b := s.caixas[i];
              && b.top == p.y && b.left == p.x && b.width == p.largura && b.height == p.altura
              && b.css == CssImpressao(p)
              && (b.conteudo.QrDoRegistro? <==> componentes[i].tipo == QrCode)
              && (componentes[i].tipo == QrCode ==> b.conteudo == QrDoRegistro(participante, p.altura))
              && (componentes[i].tipo != QrCode ==> b.conteudo == TextoSimples(ValorResolvido(p, participante)))
  {
    Superficie(largura, altura, MapSeq(CaixaDe(participante), componentes))
  }

  /** Boxes are laid out independently and in list order: rendering distributes over concatenation. */
  lemma RenderizarConcat(a: seq<Componente>, b: seq<Componente>, r: Registro, largura: Num, altura: Num)
    ensures Renderizar(a + b, r, largura, altura).caixas
              == Renderizar(a, r, largura, altura).caixas + Renderizar(b, r, largura, altura).caixas
  {
    MapSeqConcat(CaixaDe(r), a, b);
  }

  /** A barcode is not drawn as a barcode here: it prints its resolved value as plain text. */
  lemma BarcodeComoTexto(c: Componente, r: Registro, largura: Num, altura: Num)
    requires c.tipo == Barcode
    ensures Renderizar([c], r, largura, altura).caixas[0].conteudo == TextoSimples(ValorResolvido(c.propriedades, r))
  {
  }

  /**
   * A bound field with a non-empty value shows the same text in the print preview as in the
   * editor preview given the same record; the print preview drops the editor's `{binding}`
   * placeholder and shows '' instead.
   */
  lemma CampoConcordaComEditor(c: Componente, r: Registro, largura: Num, altura: Num)
    requires c.tipo == Campo
    ensures var v := ValorResolvido(c.propriedades, r);
      && Renderizar([c], r, largura, altura).caixas[0].conteudo == TextoSimples(v)
      && (v != "" ==> ComponentePreview.Preview(c, Some(r)).elemento == ComponentePreview.Div(v))
      && (v == "" ==> ComponentePreview.Preview(c, Some(r)).elemento != ComponentePreview.Div(v))
  {
    ComponentePreview.PreviewCampo(c, Some(r));
  }
}
