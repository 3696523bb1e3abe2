/**
 * The property inspector (PropriedadesComponente): a form over the selected component whose
 * every change builds an updated component by a shallow merge of either one top-level
 * property or one style key, and hands it to the editor.
 */
module PropriedadesComponente {
  import opened Wrappers
  import opened Js
  import opened Types
  import opened Seqs
  import DragDropEditor

  /** A change to one style key (`handleChange('estilos', value, subKey)`). */
  datatype EdicaoEstilo =
    | SetCorFonte(cor: string)
    | SetCorFundo(cor: string)
    | SetTamanhoFonte(n: Num)
    | SetAlinhamento(a: Alinhamento)
    | SetNegrito(b: bool)
    | SetItalico(b: bool)
    | SetSublinhado(b: bool)
    | SetBordaLargura(n: Num)
    | SetBordaCor(cor: string)
    | SetRaio(n: Num)

  /** A change to one top-level property (`handleChange(key, value)`). */
  datatype EdicaoTopo =
    | SetX(n: Num)
    | SetY(n: Num)
    | SetLargura(n: Num)
    | SetAltura(n: Num)
    | SetTexto(s: string)
    | SetCampoVinculado(s: string)
    | SetUrl(s: string)

  /** Everything the form can ask `handleChange` to do. */
  datatype Edicao = Estilo(e: EdicaoEstilo) | Topo(t: EdicaoTopo)

  /** The keys of the style bag: the named fields and any extra key. */
  datatype ChaveEstilo =
    | KCorFonte | KTamanhoFonte | KAlinhamento | KNegrito | KItalico | KSublinhado
    | KCorFundo | KBordaLargura | KBordaCor | KRaio | KFonte | KExtra(nome: string)

  function AlinhamentoNome(a: Alinhamento): string {
    match a
    case Left => "left"
    case Center => "center"
    case Right => "right"
  }

  function TextoOpt(o: Option<string>): Option<Valor> {
    if o.Some? then Some(VTexto(o.value)) else None
  }

  function NumeroOpt(o: Option<Num>): Option<Valor> {
    if o.Some? then Some(VNumero(o.value)) else None
  }

  function LogicoOpt(o: Option<bool>): Option<Valor> {
    if o.Some? then Some(VLogico(o.value)) else None
  }

  /** `estilos?.[k]`: the value a style bag (possibly absent) holds under a key. */
  function LerEstilo(e: Option<Estilos>, k: ChaveEstilo): Option<Valor> {
    if e.None? then None
    else
      var s := e.value;
      match k
      case KCorFonte => TextoOpt(s.corFonte)
      case KTamanhoFonte => NumeroOpt(s.tamanhoFonte)
      case KAlinhamento => if s.alinhamento.Some? then Some(VTexto(AlinhamentoNome(s.alinhamento.value))) else None
      case KNegrito => LogicoOpt(s.negrito)
      case KItalico => LogicoOpt(s.italico)
      case KSublinhado => LogicoOpt(s.sublinhado)
      case KCorFundo => TextoOpt(s.corFundo)
      case KBordaLargura => NumeroOpt(s.bordaLargura)
      case KBordaCor => TextoOpt(s.bordaCor)
      case KRaio => NumeroOpt(s.raio)
      case KFonte => TextoOpt(s.fonte)
      case KExtra(n) => if n in s.extras then Some(s.extras[n]) else None
  }

  /** The key a style edit names. */
  function ChaveDe(ed: EdicaoEstilo): ChaveEstilo {
    match ed
    case SetCorFonte(_) => KCorFonte
    case SetCorFundo(_) => KCorFundo
    case SetTamanhoFonte(_) => KTamanhoFonte
    case SetAlinhamento(_) => KAlinhamento
    case SetNegrito(_) => KNegrito
    case SetItalico(_) => KItalico
    case SetSublinhado(_) => KSublinhado
    case SetBordaLargura(_) => KBordaLargura
    case SetBordaCor(_) => KBordaCor
    case SetRaio(_) => KRaio
  }

  /** The value a style edit writes. */
  function ValorDe(ed: EdicaoEstilo): Valor {
    match ed
    case SetCorFonte(v) => VTexto(v)
    case SetCorFundo(v) => VTexto(v)
    case SetTamanhoFonte(n) => VNumero(n)
    case SetAlinhamento(a) => VTexto(AlinhamentoNome(a))
    case SetNegrito(b) => VLogico(b)
    case SetItalico(b) => VLogico(b)
    case SetSublinhado(b) => VLogico(b)
    case SetBordaLargura(n) => VNumero(n)
    case SetBordaCor(v) => VTexto(v)
    case SetRaio(n) => VNumero(n)
  }

  /** `{ ...estilos, [subKey]: value }`; spreading an absent bag gives `{}`. */
  function AplicarEstilo(e: Option<Estilos>, ed: EdicaoEstilo): (r: Estilos)
    ensures forall k :: LerEstilo(Some(r), k) == if k == ChaveDe(ed) then Some(ValorDe(ed)) else LerEstilo(e, k)
  {
    var s := if e.Some? then e.value else EstilosVazios;
    match ed
    case SetCorFonte(v) => s.(corFonte := Some(v))
    case SetCorFundo(v) => s.(corFundo := Some(v))
    case SetTamanhoFonte(n) => s.(tamanhoFonte := Some(n))
    case SetAlinhamento(a) => s.(alinhamento := Some(a))
    case SetNegrito(b) => s.(negrito := Some(b))
    case SetItalico(b) => s.(italico := Some(b))
    case SetSublinhado(b) => s.(sublinhado := Some(b))
    case SetBordaLargura(n) => s.(bordaLargura := Some(n))
    case SetBordaCor(v) => s.(bordaCor := Some(v))
    case SetRaio(n) => s.(raio := Some(n))
  }

  /** The top-level properties of a component. */
  datatype ChaveTopo = KX | KY | KLargura | KAltura | KTexto | KCampoVinculado | KEstilos | KUrl

  /** A top-level property's value. */
  datatype ValorTopo = VNum(n: Num) | VOpcional(s: Option<string>) | VEstilos(e: Option<Estilos>)

  /** `propriedades[k]`. */
  function LerTopo(p: Propriedades, k: ChaveTopo): ValorTopo {
    match k
    case KX => VNum(p.x)
    case KY => VNum(p.y)
    case KLargura => VNum(p.largura)
    case KAltura => VNum(p.altura)
    case KTexto => VOpcional(p.texto)
    case KCampoVinculado => VOpcional(p.campoVinculado)
    case KEstilos => VEstilos(p.estilos)
    case KUrl => VOpcional(p.url)
  }

  function ChaveTopoDe(ed: EdicaoTopo): ChaveTopo {
    match ed
    case SetX(_) => KX
    case SetY(_) => KY
    case SetLargura(_) => KLargura
    case SetAltura(_) => KAltura
    case SetTexto(_) => KTexto
    case SetCampoVinculado(_) => KCampoVinculado
    case SetUrl(_) => KUrl
  }

  function ValorTopoDe(ed: EdicaoTopo): ValorTopo {
    match ed
    case SetX(n) => VNum(n)
    case SetY(n) => VNum(n)
    case SetLargura(n) => VNum(n)
    case SetAltura(n) => VNum(n)
    case SetTexto(s) => VOpcional(Some(s))
    case SetCampoVinculado(s) => VOpcional(Some(s))
    case SetUrl(s) => VOpcional(Some(s))
  }

  /** `{ ...propriedades, [key]: value }`. */
  function AplicarTopo(p: Propriedades, ed: EdicaoTopo): (r: Propriedades)
    ensures forall k :: LerTopo(r, k) == if k == ChaveTopoDe(ed) then ValorTopoDe(ed) else LerTopo(p, k)
  {
    match ed
    case SetX(n) => p.(x := n)
    case SetY(n) => p.(y := n)
    case SetLargura(n) => p.(largura := n)
    case SetAltura(n) => p.(altura := n)
    case SetTexto(s) => p.(texto := Some(s))
    case SetCampoVinculado(s) => p.(campoVinculado := Some(s))
    case SetUrl(s) => p.(url := Some(s))
  }

  /** Two property records that agree on every key are equal: `LerTopo` reads all of a record. */
  lemma LerTopoDetermina(p: Propriedades, q: Propriedades)
    requires forall k :: LerTopo(p, k) == LerTopo(q, k)
    ensures p == q
  {
    assert LerTopo(p, KX) == LerTopo(q, KX);
    assert LerTopo(p, KY) == LerTopo(q, KY);
    assert LerTopo(p, KLargura) == LerTopo(q, KLargura);
    assert LerTopo(p, KAltura) == LerTopo(q, KAltura);
    assert LerTopo(p, KTexto) == LerTopo(q, KTexto);
    assert LerTopo(p, KCampoVinculado) == LerTopo(q, KCampoVinculado);
    assert LerTopo(p, KEstilos) == LerTopo(q, KEstilos);
    assert LerTopo(p, KUrl) == LerTopo(q, KUrl);
  }

  /**
   * The component `handleChange` hands to `onUpdate`: same id and type; a style edit changes
   * only `estilos` (and in it only the named key), a top-level edit only the named property.
   */
  function Aplicar(c: Componente, ed: Edicao): (r: Componente)
    ensures r.id == c.id && r.tipo == c.tipo
    ensures ed.Estilo? ==>
              r.propriedades.(estilos := c.propriedades.estilos) == c.propriedades
              && r.propriedades.estilos.Some?
              && forall k :: LerEstilo(r.propriedades.estilos, k)
                   == if k == ChaveDe(ed.e) then Some(ValorDe(ed.e)) else LerEstilo(c.propriedades.estilos, k)
    ensures ed.Topo? ==>
              forall k :: LerTopo(r.propriedades, k)
                == if k == ChaveTopoDe(ed.t) then ValorTopoDe(ed.t) else LerTopo(c.propriedades, k)
  {
    match ed
    case Estilo(e) => c.(propriedades := c.propriedades.(estilos := Some(AplicarEstilo(c.propriedades.estilos, e))))
    case Topo(t) => c.(propriedades := AplicarTopo(c.propriedades, t))
  }

  /** A top-level edit never touches the style bag. */
  lemma TopoPreservaEstilos(c: Componente, t: EdicaoTopo)
    ensures Aplicar(c, Topo(t)).propriedades.estilos == c.propriedades.estilos
  {
    assert LerTopo(Aplicar(c, Topo(t)).propriedades, KEstilos) == LerTopo(c.propriedades, KEstilos);
  }

  /** Writing back the value a property already holds leaves the component as it was. */
  lemma TopoSemMudanca(c: Componente, t: EdicaoTopo)
    requires LerTopo(c.propriedades, ChaveTopoDe(t)) == ValorTopoDe(t)
    ensures Aplicar(c, Topo(t)) == c
  {
    LerTopoDetermina(Aplicar(c, Topo(t)).propriedades, c.propriedades);
  }

  /** Edits of two different top-level properties commute. */
  lemma TopoComutam(c: Componente, a: EdicaoTopo, b: EdicaoTopo)
    requires ChaveTopoDe(a) != ChaveTopoDe(b)
    ensures Aplicar(Aplicar(c, Topo(a)), Topo(b)) == Aplicar(Aplicar(c, Topo(b)), Topo(a))
  {
    LerTopoDetermina(Aplicar(Aplicar(c, Topo(a)), Topo(b)).propriedades,
                     Aplicar(Aplicar(c, Topo(b)), Topo(a)).propriedades);
  }

  /** The inspector's update, passed to the editor, replaces exactly the inspected component. */
  lemma EdicaoSubstituiSoOInspecionado(cs: seq<Componente>, k: nat, ed: Edicao)
    requires DragDropEditor.IdsUnicos(cs) && k < |cs|
    ensures DragDropEditor.Substituir(cs, Aplicar(cs[k], ed)) == cs[k := Aplicar(cs[k], ed)]
  {
    DragDropEditor.SubstituirUnico(cs, k, Aplicar(cs[k], ed));
  }

  /** `handleDeleteClick`: the id handed to `onDelete` is the inspected component's own. */
  function IdExcluido(c: Componente): string {
    c.id
  }

  /** Deleting from the inspector removes exactly the inspected component from the canvas. */
  lemma ExcluirPeloInspetor(cs: seq<Componente>, k: nat)
    requires DragDropEditor.IdsUnicos(cs) && k < |cs|
    ensures DragDropEditor.Remover(cs, IdExcluido(cs[k])) == cs[..k] + cs[k + 1..]
  {
    DragDropEditor.RemoverUnico(cs, k);
  }

  /** The numeric inputs; each stores `parseInt` of what was typed, with no validation. */
  datatype CampoNumerico = CX | CY | CLargura | CAltura | CTamanhoFonte | CBordaLargura | CRaio

  /** The edit a numeric input issues for the typed text. */
  function EdicaoNumerica(campo: CampoNumerico, entrada: string): Edicao {
    var n := ParseInt(entrada);
    match campo
    case CX => Topo(SetX(n))
    case CY => Topo(SetY(n))
    case CLargura => Topo(SetLargura(n))
    case CAltura => Topo(SetAltura(n))
    case CTamanhoFonte => Estilo(SetTamanhoFonte(n))
    case CBordaLargura => Estilo(SetBordaLargura(n))
    case CRaio => Estilo(SetRaio(n))
  }

  /** The number a numeric input's property holds (`None` when the style key is unset). */
  function LerNumero(c: Componente, campo: CampoNumerico): Option<Num> {
    var p := c.propriedades;
    match campo
    case CX => Some(p.x)
    case CY => Some(p.y)
    case CLargura => Some(p.largura)
    case CAltura => Some(p.altura)
    case CTamanhoFonte => if p.estilos.Some? then p.estilos.value.tamanhoFonte else None
    case CBordaLargura => if p.estilos.Some? then p.estilos.value.bordaLargura else None
    case CRaio => if p.estilos.Some? then p.estilos.value.raio else None
  }

  /**
   * Typing into a numeric input stores `parseInt` of the text there and nowhere else; text with
   * no leading digit stores NaN, and re-typing a displayed integer stores that integer.
   */
  lemma EntradaNumerica(c: Componente, campo: CampoNumerico, entrada: string)
    ensures LerNumero(Aplicar(c, EdicaoNumerica(campo, entrada)), campo) == Some(ParseInt(entrada))
    ensures forall outro :: outro != campo ==>
              LerNumero(Aplicar(c, EdicaoNumerica(campo, entrada)), outro) == LerNumero(c, outro)
    ensures entrada == "" || (!IsDigit(entrada[0]) && entrada[0] != '-' && entrada[0] != '+') ==>
              LerNumero(Aplicar(c, EdicaoNumerica(campo, entrada)), campo) == Some(NaN)
  {
    var r := Aplicar(c, EdicaoNumerica(campo, entrada));
    forall outro | outro != campo
      ensures LerNumero(r, outro) == LerNumero(c, outro)
    {
      var ed := EdicaoNumerica(campo, entrada);
      if ed.Topo? {
        assert r.propriedades.estilos == c.propriedades.estilos by {
          assert LerTopo(r.propriedades, KEstilos) == LerTopo(c.propriedades, KEstilos);
        }
      }
    }
  }

  /** A number typed as it is displayed is stored back unchanged. */
  lemma EntradaNumericaIda(c: Componente, campo: CampoNumerico, n: int)
    ensures LerNumero(Aplicar(c, EdicaoNumerica(campo, ShowInt(n))), campo) == Some(N(n))
  {
    EntradaNumerica(c, campo, ShowInt(n));
    ParseIntShowInt(n);
  }

  /** The binding dropdown: the selected value and the option values, "" first. */
  datatype Seletor = Seletor(valor: string, opcoes: seq<string>)

  /** What the inspector form shows for a component. */
  datatype Formulario = Formulario(
    titulo: string,
    x: Num,
    y: Num,
    largura: Num,
    altura: Num,
    texto: Option<string>,
    vinculo: Option<Seletor>,
    url: Option<string>,
    corFonte: string,
    corFundo: string,
    tamanhoFonte: Num,
    alinhamento: Alinhamento,
    negrito: bool,
    italico: bool,
    sublinhado: bool,
    bordaLargura: Num,
    bordaCor: string,
    raio: Num)

  /**
   * The form for a component: the text input only for texto and botao, the binding dropdown
   * (options "" then `camposDisponiveis`) only for campo, the URL input only for imagem; the
   * geometry as stored, and each text, binding, URL or style shown as set when truthy and by
   * its default ('', #000000, #ffffff, 12, left, 0) otherwise.
   */
  function FormularioDe(c: Componente, campos: seq<string>): (f: Formulario)
    ensures f.titulo == TipoNome(c.tipo)
    ensures f.texto.Some? <==> c.tipo == Texto || c.tipo == Botao
    ensures f.vinculo.Some? <==> c.tipo == Campo
    ensures f.vinculo.Some? ==>
              f.vinculo.value.opcoes == [""] + campos
              && (f.vinculo.value.valor == "" <==> !StrTruthy(c.propriedades.campoVinculado))
    ensures f.url.Some? <==> c.tipo == Imagem
    ensures c.propriedades.estilos == None ==>
              f.corFonte == "#000000" && f.corFundo == "#ffffff" && f.tamanhoFonte == N(12)
              && f.alinhamento == Left && !f.negrito && !f.italico && !f.sublinhado
              && f.bordaLargura == N(0) && f.bordaCor == "#000000" && f.raio == N(0)
    ensures var p := c.propriedades;
      && f.x == p.x && f.y == p.y && f.largura == p.largura && f.altura == p.altura
      && (f.texto.Some? ==> f.texto.value == OrStr(p.texto, ""))
      && (f.url.Some? ==> f.url.value == OrStr(p.url, ""))
      && (f.vinculo.Some? ==> f.vinculo.value.valor == OrStr(p.campoVinculado, ""))
    ensures var e := EstilosDe(c.propriedades);
      && f.corFonte == OrStr(e.corFonte, "#000000") && f.corFundo == OrStr(e.corFundo, "#ffffff")
      && f.tamanhoFonte == OrNum(e.tamanhoFonte, N(12))
      && (e.alinhamento.Some? ==> f.alinhamento == e.alinhamento.value)
      && (e.alinhamento.None? ==> f.alinhamento == Left)
      && (f.negrito <==> IsTrue(e.negrito)) && (f.italico <==> IsTrue(e.italico))
      && (f.sublinhado <==> IsTrue(e.sublinhado))
      && f.bordaLargura == OrNum(e.bordaLargura, N(0)) && f.bordaCor == OrStr(e.bordaCor, "#000000")
      && f.raio == OrNum(e.raio, N(0))
  {
    var p := c.propriedades;
    var e := EstilosDe(p);
    Formulario(
      TipoNome(c.tipo),
      p.x, p.y, p.largura, p.altura,
      if c.tipo == Texto || c.tipo == Botao then Some(OrStr(p.texto, "")) else None,
      if c.tipo == Campo then Some(Seletor(OrStr(p.campoVinculado, ""), [""] + campos)) else None,
      if c.tipo == Imagem then Some(OrStr(p.url, "")) else None,
      OrStr(e.corFonte, "#000000"),
      OrStr(e.corFundo, "#ffffff"),
      OrNum(e.tamanhoFonte, N(12)),
      if e.alinhamento.Some? then e.alinhamento.value else Left,
      IsTrue(e.negrito), IsTrue(e.italico), IsTrue(e.sublinhado),
      OrNum(e.bordaLargura, N(0)),
      OrStr(e.bordaCor, "#000000"),
      OrNum(e.raio, N(0)))
  }

  /**
   * After a style edit the form shows the value just written, except that a falsy value
   * (an empty colour, a size of 0 or NaN) shows the default instead.
   */
  lemma FormularioMostraEdicao(c: Componente, ed: EdicaoEstilo, campos: seq<string>)
    ensures var f := FormularioDe(Aplicar(c, Estilo(ed)), campos);
      match ed
      case SetCorFonte(v) => f.corFonte == (if v != "" then v else "#000000")
      case SetCorFundo(v) => f.corFundo == (if v != "" then v else "#ffffff")
      case SetTamanhoFonte(n) => f.tamanhoFonte == (if NumTruthy(n) then n else N(12))
      case SetAlinhamento(a) => f.alinhamento == a
      case SetNegrito(b) => f.negrito == b
      case SetItalico(b) => f.italico == b
      case SetSublinhado(b) => f.sublinhado == b
      case SetBordaLargura(n) => f.bordaLargura == (if NumTruthy(n) then n else N(0))
      case SetBordaCor(v) => f.bordaCor == (if v != "" then v else "#000000")
      case SetRaio(n) => f.raio == (if NumTruthy(n) then n else N(0))
  {
  }

  /** The inspected component's properties as a shared, mutable object. */
  class PropriedadesObj {
    var x: Num
    var y: Num
    var largura: Num
    var altura: Num
    var texto: Option<string>
    var campoVinculado: Option<string>
    var estilos: Option<Estilos>
    var url: Option<string>

    function Valor(): Propriedades
      reads this
    {
      Propriedades(x, y, largura, altura, texto, campoVinculado, estilos, url)
    }

    constructor (p: Propriedades)
      ensures Valor() == p
    {
      x, y, largura, altura := p.x, p.y, p.largura, p.altura;
      texto, campoVinculado, estilos, url := p.texto, p.campoVinculado, p.estilos, p.url;
    }
  }

  /** A component object; `propriedades` is a reference that copies of it may share. */
  class ComponenteObj {
    var id: string
    var tipo: Tipo
    var propriedades: PropriedadesObj

    function Valor(): Componente
      reads this, propriedades
    {
      Componente(id, tipo, propriedades.Valor())
    }

    constructor (id: string, tipo: Tipo, propriedades: PropriedadesObj)
      ensures this.id == id && this.tipo == tipo && this.propriedades == propriedades
    {
      this.id := id;
      this.tipo := tipo;
      this.propriedades := propriedades;
    }
  }

  /**
   * `handleChange` as written: `{ ...componente }` copies only the outer object, so a style edit
   * assigns `estilos` on the `propriedades` object the original shares and the original changes
   * too; a top-level edit builds a fresh `propriedades` and leaves the original alone.
   */
  method HandleChange(c: ComponenteObj, ed: Edicao) returns (novo: ComponenteObj)
    modifies c.propriedades
    ensures fresh(novo)
    ensures novo.Valor() == Aplicar(old(c.Valor()), ed)
    ensures ed.Estilo? ==> novo.propriedades == c.propriedades && c.Valor() == novo.Valor()
    ensures ed.Topo? ==> fresh(novo.propriedades) && unchanged(c.propriedades)
  {
    novo := new ComponenteObj(c.id, c.tipo, c.propriedades);
    match ed
    case Estilo(e) =>
      novo.propriedades.estilos := Some(AplicarEstilo(novo.propriedades.estilos, e));
    case Topo(t) =>
      var p := new PropriedadesObj(AplicarTopo(novo.propriedades.Valor(), t));
      novo.propriedades := p;
  }

  /** `handleChange` with `propriedades` copied as well: the original is never touched. */
  method HandleChangeCopia(c: ComponenteObj, ed: Edicao) returns (novo: ComponenteObj)
    ensures fresh(novo) && fresh(novo.propriedades)
    ensures novo.Valor() == Aplicar(c.Valor(), ed)
  {
    var p := new PropriedadesObj(Aplicar(c.Valor(), ed).propriedades);
    novo := new ComponenteObj(c.id, c.tipo, p);
  }

  /**
   * The aliasing made concrete: a component with no styles, given a font-colour edit, reads
   * differently before and after — the edit reached the original.
   */
  method DemonstraAliasing() returns (antes: Componente, depois: Componente)
    ensures antes.propriedades.estilos == None
    ensures depois.propriedades.estilos == Some(EstilosVazios.(corFonte := Some("#ff0000")))
    ensures antes != depois
  {
    var p := new PropriedadesObj(Propriedades(N(0), N(0), N(10), N(10), None, None, None, None));
    var c := new ComponenteObj("a", Texto, p);
    antes := c.Valor();
    var novo := HandleChange(c, Estilo(SetCorFonte("#ff0000")));
    depois := c.Valor();
  }

  /** The same edit through the corrected handler leaves the original as it was. */
  method DemonstraSemAliasing() returns (antes: Componente, depois: Componente, enviado: Componente)
    ensures antes == depois
    ensures enviado == Aplicar(antes, Estilo(SetCorFonte("#ff0000")))
    ensures enviado != antes
  {
    var p := new PropriedadesObj(Propriedades(N(0), N(0), N(10), N(10), None, None, None, None));
    var c := new ComponenteObj("a", Texto, p);
    antes := c.Valor();
    var novo := HandleChangeCopia(c, Estilo(SetCorFonte("#ff0000")));
    depois := c.Valor();
    enviado := novo.Valor();
  }
}
