/** The route guard (ProtectedRoute): what a protected page shows for the current session. */
module ProtectedRoute {
  import opened Wrappers
  import opened Types

  /** What the guard renders. `Login` records the page the user came from when there is one. */
  datatype Decisao = Carregando | Login(origem: Option<string>) | Redireciona(caminho: string) | Filhos

  /** The home page of a role; roles compared as their stored names. */
  function Inicio(p: Papel): (r: Option<string>)
    ensures PapelNome(p) == "admin" <==> r == Some("/admin")
    ensures PapelNome(p) == "operador" <==> r == Some("/operador")
    ensures PapelNome(p) == "recepcionista" <==> r == Some("/recepcionista")
    ensures r.None? <==> PapelNome(p) !in {"admin", "operador", "recepcionista"}
  {
    var n := PapelNome(p);
    if n == "admin" then Some("/admin")
    else if n == "operador" then Some("/operador")
    else if n == "recepcionista" then Some("/recepcionista")
    else None
  }

  /**
   * The guard's decision. `carregando` is the auth state still loading, `autenticado` a signed-in
   * user, `dados` the user's profile role (`None` when the profile is missing), `exigido` the
   * route's role and `local` the current location.
   */
  function Decidir(carregando: bool, autenticado: bool, dados: Option<Papel>, exigido: Papel, local: string): (d: Decisao)
    ensures carregando ==> d == Carregando
    ensures !carregando && !autenticado ==> d == Login(Some(local))
    ensures d == Filhos <==> !carregando && autenticado && dados.Some? && PapelNome(dados.value) == PapelNome(exigido)
    ensures !carregando && autenticado && dados.Some? && PapelNome(dados.value) != PapelNome(exigido) ==>
              d == (if Inicio(dados.value).Some? then Redireciona(Inicio(dados.value).value) else Login(None))
    ensures !carregando && autenticado && dados.None? ==> d == Login(None)
  {
    if carregando then Carregando
    else if !autenticado then Login(Some(local))
    else if dados.None? || PapelNome(dados.value) != PapelNome(exigido) then
      if dados.Some? && Inicio(dados.value).Some? then Redireciona(Inicio(dados.value).value) else Login(None)
    else Filhos
  }

  /** The page a role's home path belongs to requires that role. */
  function PapelDoInicio(caminho: string): (p: Option<Papel>)
    ensures p.Some? ==> Inicio(p.value) == Some(caminho)
  {
    if caminho == "/admin" then Some(Admin)
    else if caminho == "/operador" then Some(Operador)
    else if caminho == "/recepcionista" then Some(Recepcionista)
    else None
  }

  /**
   * A redirect never loops: it leads to the home of the user's own role, whose guard (the same
   * session, that role required) renders the page.
   */
  lemma RedirecionamentoSemLaco(dados: Option<Papel>, exigido: Papel, local: string, local2: string)
    requires Decidir(false, true, dados, exigido, local).Redireciona?
    ensures var c := Decidir(false, true, dados, exigido, local).caminho;
      && PapelDoInicio(c).Some?
      && Decidir(false, true, dados, PapelDoInicio(c).value, local2) == Filhos
  {
  }

  /** A user whose role is none of the three is sent to the login page, with no origin recorded. */
  lemma PapelDesconhecidoVaiAoLogin(nome: string, exigido: Papel, local: string)
    requires nome !in {"admin", "operador", "recepcionista"} && nome != PapelNome(exigido)
    ensures Decidir(false, true, Some(OutroPapel(nome)), exigido, local) == Login(None)
  {
  }
}
