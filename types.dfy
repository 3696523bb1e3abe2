/**
 * The records of the application: badge components and their styles, badge templates,
 * participants, events and their custom fields.
 */
module Types {
  import opened Wrappers
  import opened Js

  /**
   * A component's type. The declared union has seven members; `Outro` stands for any other
   * string that stored data can carry, since components are read back from the store by cast.
   */
  datatype Tipo = Texto | Campo | Botao | QrCode | Imagem | Divisao | Barcode | Outro(nome: string)

  const NomesTipos: seq<string> := ["texto", "campo", "botao", "qrcode", "imagem", "divisao", "barcode"]

  /** The string stored for a type. */
  function TipoNome(t: Tipo): string {
    match t
    case Texto => "texto"
    case Campo => "campo"
    case Botao => "botao"
    case QrCode => "qrcode"
    case Imagem => "imagem"
    case Divisao => "divisao"
    case Barcode => "barcode"
    case Outro(n) => n
  }

  /** Reading a stored type string back: exactly the seven declared names give declared types. */
  function TipoDeNome(s: string): (t: Tipo)
    ensures !t.Outro? <==> s in NomesTipos
    ensures TipoNome(t) == s
  {
    if s == "texto" then Texto
    else if s == "campo" then Campo
    else if s == "botao" then Botao
    else if s == "qrcode" then QrCode
    else if s == "imagem" then Imagem
    else if s == "divisao" then Divisao
    else if s == "barcode" then Barcode
    else Outro(s)
  }

  /** A type value as read from the store: an `Outro` never carries a declared name. */
  predicate TipoCanonico(t: Tipo) {
    t.Outro? ==> t.nome !in NomesTipos
  }

  /** Storing a type and reading it back gives the same type. */
  lemma TipoRoundTrip(t: Tipo)
    requires TipoCanonico(t)
    ensures TipoDeNome(TipoNome(t)) == t
  {
  }

  /** `alinhamento` admits only these three values. */
  datatype Alinhamento = Left | Center | Right

  /** A value stored under an extra key of the style bag. */
  datatype Valor = VTexto(s: string) | VNumero(n: Num) | VLogico(b: bool)

  /**
   * `EstilosComponente`: every named field is optional; `extras` holds the keys admitted by
   * the index signature beyond the named ones.
   */
  datatype Estilos = Estilos(
    corFonte: Option<string>,
    tamanhoFonte: Option<Num>,
    alinhamento: Option<Alinhamento>,
    negrito: Option<bool>,
    italico: Option<bool>,
    sublinhado: Option<bool>,
    corFundo: Option<string>,
    bordaLargura: Option<Num>,
    bordaCor: Option<string>,
    raio: Option<Num>,
    fonte: Option<string>,
    extras: map<string, Valor>)

  /** `{}`: a style bag with nothing set. */
  const EstilosVazios: Estilos :=
    Estilos(None, None, None, None, None, None, None, None, None, None, None, map[])

  /** A component's geometry is always present; the rest is optional. */
  datatype Propriedades = Propriedades(
    x: Num,
    y: Num,
    largura: Num,
    altura: Num,
    texto: Option<string>,
    campoVinculado: Option<string>,
    estilos: Option<Estilos>,
    url: Option<string>)

  /** The style bag a component carries, `{}` when it has none. */
  function EstilosDe(p: Propriedades): (e: Estilos)
    ensures p.estilos.Some? ==> e == p.estilos.value
    ensures p.estilos.None? ==> e == EstilosVazios
  {
    if p.estilos.Some? then p.estilos.value else EstilosVazios
  }

  /** `ComponenteEditor`. */
  datatype Componente = Componente(id: string, tipo: Tipo, propriedades: Propriedades)

  /** `ModeloCracha`: a badge template; its components are ordered (later ones draw on top). */
  datatype ModeloCracha = ModeloCracha(
    id: string,
    eventoId: string,
    nome: string,
    componentes: seq<Componente>,
    criadoPorId: string,
    criadoEm: string,
    atualizadoEm: string,
    padrao: Option<bool>,
    larguraCm: Option<Num>,
    alturaCm: Option<Num>)

  /** A participant's status; `OutroStatus` is any other stored string. */
  datatype Status = Pendente | Confirmado | Credenciado | Cancelado | OutroStatus(nome: string)

  const NomesStatus: seq<string> := ["pendente", "confirmado", "credenciado", "cancelado"]

  function StatusNome(s: Status): string {
    match s
    case Pendente => "pendente"
    case Confirmado => "confirmado"
    case Credenciado => "credenciado"
    case Cancelado => "cancelado"
    case OutroStatus(n) => n
  }

  /** Reading a stored status back: exactly the four declared names give declared statuses. */
  function StatusDeNome(s: string): (st: Status)
    ensures !st.OutroStatus? <==> s in NomesStatus
    ensures StatusNome(st) == s
  {
    if s == "pendente" then Pendente
    else if s == "confirmado" then Confirmado
    else if s == "credenciado" then Credenciado
    else if s == "cancelado" then Cancelado
    else OutroStatus(s)
  }

  /**
   * `Participante`. The store keeps whatever document a screen wrote and the pages spread it
   * as read, so `outros` holds the document's string fields beyond the declared ones (the
   * `email` written by the operator's form and by the CSV import, say). A declared field the
   * document lacks is modelled as ''.
   */
  datatype Participante = Participante(
    id: string,
    eventoId: string,
    nome: string,
    empresa: string,
    nomeCracha: string,
    empresaCracha: string,
    cargo: string,
    email1: string,
    email2: string,
    celular: string,
    telefone: string,
    categoria: string,
    observacao: string,
    cpf: string,
    rg: string,
    cnpj: string,
    codigoCliente: string,
    opcao1: string,
    opcao2: string,
    opcao3: string,
    opcao4: string,
    opcao5: string,
    opcao6: string,
    opcao7: string,
    opcao8: string,
    opcao9: string,
    opcao10: string,
    status: Status,
    criadoEm: string,
    atualizadoEm: string,
    criadoPorId: string,
    camposPersonalizados: map<string, string>,
    outros: map<string, string>)

  /** A flat record of string fields, as a renderer indexes it with `record[campo]`. */
  type Registro = map<string, string>

  /** `record[campo] || ''` for a string-valued record: a missing key reads as ''. */
  function Ler(r: Registro, campo: string): string {
    if campo in r then r[campo] else ""
  }

  /**
   * The participant seen as a record of its top-level string fields (status by name): the
   * stored document's other fields, overridden by the declared ones.
   */
  function RegistroDe(p: Participante): (r: Registro)
    ensures "id" in r && r["id"] == p.id
    ensures "nome" in r && r["nome"] == p.nome
    ensures "categoria" in r && r["categoria"] == p.categoria
    ensures "status" in r && r["status"] == StatusNome(p.status)
    ensures "email" in r <==> "email" in p.outros
    ensures "email" in p.outros ==> r["email"] == p.outros["email"]
  {
    p.outros + RegistroContato(p) + RegistroOpcoes(p) + RegistroIdentidade(p)
  }

  /** The record's contact, document and audit fields. */
  function RegistroContato(p: Participante): (r: Registro)
    ensures "email" !in r
  {
    map[
      "email1" := p.email1, "email2" := p.email2, "celular" := p.celular,
      "telefone" := p.telefone, "observacao" := p.observacao, "cpf" := p.cpf, "rg" := p.rg,
      "cnpj" := p.cnpj, "codigoCliente" := p.codigoCliente, "criadoEm" := p.criadoEm,
      "atualizadoEm" := p.atualizadoEm, "criadoPorId" := p.criadoPorId]
  }

  /** The record's ten option fields. */
  function RegistroOpcoes(p: Participante): (r: Registro)
    ensures "email" !in r
  {
    map[
      "opcao1" := p.opcao1, "opcao2" := p.opcao2, "opcao3" := p.opcao3, "opcao4" := p.opcao4,
      "opcao5" := p.opcao5, "opcao6" := p.opcao6, "opcao7" := p.opcao7, "opcao8" := p.opcao8,
      "opcao9" := p.opcao9, "opcao10" := p.opcao10]
  }

  /** The record's identifying fields: who the participant is, at which event, with which status. */
  function RegistroIdentidade(p: Participante): (r: Registro)
    ensures "id" in r && r["id"] == p.id
    ensures "nome" in r && r["nome"] == p.nome
    ensures "categoria" in r && r["categoria"] == p.categoria
    ensures "status" in r && r["status"] == StatusNome(p.status)
    ensures "email" !in r
  {
    map[
      "eventoId" := p.eventoId, "empresa" := p.empresa, "nomeCracha" := p.nomeCracha,
      "empresaCracha" := p.empresaCracha, "cargo" := p.cargo, "categoria" := p.categoria,
      "nome" := p.nome, "status" := StatusNome(p.status), "id" := p.id]
  }

  datatype TipoCampo = CampoTexto | CampoNumero | CampoData | CampoSelecao | CampoCheckbox

  /** `CampoPersonalizado`: a custom registration field of an event. */
  datatype CampoPersonalizado = CampoPersonalizado(
    id: string,
    nome: string,
    tipo: TipoCampo,
    obrigatorio: bool,
    opcoes: Option<seq<string>>)

  /** `Evento`. */
  datatype Evento = Evento(
    id: string,
    nome: string,
    descricao: string,
    dataInicio: string,
    dataFim: string,
    local: string,
    criadoPorId: string,
    criadoEm: string,
    atualizadoEm: string,
    camposPersonalizados: seq<CampoPersonalizado>,
    quantidadeParticipantes: Option<nat>)

  /** A user's role; `OutroPapel` is any other stored string. */
  datatype Papel = Admin | Operador | Recepcionista | OutroPapel(nome: string)

  /** The role as stored. */
  function PapelNome(p: Papel): string {
    match p
    case Admin => "admin"
    case Operador => "operador"
    case Recepcionista => "recepcionista"
    case OutroPapel(n) => n
  }

  /** A notice shown on a page. */
  datatype TipoMensagem = Sucesso | Erro | Informacao
  datatype Mensagem = Mensagem(tipo: TipoMensagem, texto: string)
}
