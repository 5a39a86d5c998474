/** The professionals page: its filter object and the query it sends, the search box,
    the name lookups of each row, the controls a row offers, and the inactivation
    dialog. */
module ProfissionaisPage {
  import opened Common
  import opened Records
  import opened Http
  import opened ApiClient
  import opened Auth
  import ProfissionaisRoutes
  import RelatoriosRoutes
  import CidadesRoutes

  // ---------------------------------------------------------------------------
  // The filter object and its query string
  // ---------------------------------------------------------------------------

  /** The page's `filtros` object; its members in key order are those of `Entries`. */
  datatype Filtros = Filtros(status: string, cidadeId: string, equipamentoId: string,
                             profissao: string, cargo: string)

  function Entries(f: Filtros): (e: seq<(string, string)>)
    ensures DistinctKeys(e)
  {
    [("status", f.status), ("cidade_id", f.cidadeId), ("equipamento_id", f.equipamentoId),
     ("profissao", f.profissao), ("cargo", f.cargo)]
  }

  /** The filters the page starts with: active professionals, nothing else. */
  const FiltrosIniciais := Filtros("ativo", "", "", "", "")

  /** JavaScript truthiness of a text: the value a query string carries, if any. */
  function NonEmpty(s: string): Option<string> {
    if s != "" then Some(s) else None
  }

  /** What the backend reads from the page's query string: each filter that is set, and
      nothing for one left empty. */
  lemma ArgsOfFiltros(f: Filtros)
    ensures ArgGet(Query(Entries(f)), "status") == NonEmpty(f.status)
    ensures ArgGet(Query(Entries(f)), "cidade_id") == NonEmpty(f.cidadeId)
    ensures ArgGet(Query(Entries(f)), "equipamento_id") == NonEmpty(f.equipamentoId)
    ensures ArgGet(Query(Entries(f)), "profissao") == NonEmpty(f.profissao)
    ensures ArgGet(Query(Entries(f)), "cargo") == NonEmpty(f.cargo)
  {
    var e := Entries(f);
    ArgOfEntry(e, 0);
    ArgOfEntry(e, 1);
    ArgOfEntry(e, 2);
    ArgOfEntry(e, 3);
    ArgOfEntry(e, 4);
  }

  /** The first fetch asks for what a bare `status=ativo` asks for: the active
      professionals within the actor's city scope. */
  lemma InitialListingIsActive(profs: seq<Profissional>, u: Usuario)
    ensures var rows := ProfissionaisRoutes.Listing(profs, u, Query(Entries(FiltrosIniciais)));
            && rows == ProfissionaisRoutes.Listing(profs, u, [("status", "ativo")])
            && rows.Some?
            && forall p :: p in rows.value <==>
                 p in profs && p.ativo
                 && (ProfissionaisRoutes.Scope(u).Some? ==> p.cidadeId == ProfissionaisRoutes.Scope(u).value)
  {
    var bare: Args := [("status", "ativo")];
    ArgsOfFiltros(FiltrosIniciais);
    assert ArgGet(bare, "status") == Some("ativo");
    assert ArgGet(bare, "cidade_id").None? && ArgGet(bare, "equipamento_id").None?;
    assert ArgGet(bare, "profissao").None? && ArgGet(bare, "cargo").None?;
    ProfissionaisRoutes.ListingReadsOnlyItsArgs(profs, u, Query(Entries(FiltrosIniciais)), bare);
  }

  /** The status choices, as (value, label). As written, 'Todos' carries ''. */
  const StatusOptionsAsWritten: seq<(string, string)> :=
    [("ativo", "Ativos"), ("inativo", "Inativos"), ("", "Todos")]

  /** The choices with 'Todos' carrying a value the backend's status clause keeps both
      kinds for; the rest of the model uses these. */
  const StatusOptions: seq<(string, string)> :=
    [("ativo", "Ativos"), ("inativo", "Inativos"), ("todos", "Todos")]

  /** `setFiltros({...filtros, status: value})`. */
  function WithStatus(f: Filtros, value: string): (g: Filtros)
    ensures g.status == value && Entries(g)[1..] == Entries(f)[1..]
  {
    f.(status := value)
  }

  /** As written, choosing 'Todos' lists exactly what choosing 'Ativos' lists: the
      empty value is dropped from the query and the backend falls back to 'ativo'. */
  lemma TodosAsWrittenListsOnlyActive(profs: seq<Profissional>, u: Usuario, f: Filtros)
    ensures StatusOptionsAsWritten[2].1 == "Todos"
    ensures var todos := Query(Entries(WithStatus(f, StatusOptionsAsWritten[2].0)));
            var ativos := Query(Entries(WithStatus(f, "ativo")));
            ProfissionaisRoutes.Listing(profs, u, todos) == ProfissionaisRoutes.Listing(profs, u, ativos)
    ensures var todos := Query(Entries(WithStatus(f, StatusOptionsAsWritten[2].0)));
            ProfissionaisRoutes.Listing(profs, u, todos).Some? ==>
              forall p :: p in ProfissionaisRoutes.Listing(profs, u, todos).value ==> p.ativo
  {
    var todos := Query(Entries(WithStatus(f, "")));
    var ativos := Query(Entries(WithStatus(f, "ativo")));
    ArgsOfFiltros(WithStatus(f, ""));
    ArgsOfFiltros(WithStatus(f, "ativo"));
    ProfissionaisRoutes.ListingReadsOnlyItsArgs(profs, u, todos, ativos);
  }

  /** With the corrected choice, 'Todos' lists what 'Ativos' and 'Inativos' list
      together, and fails exactly when they do. */
  lemma TodosListsBoth(profs: seq<Profissional>, u: Usuario, f: Filtros)
    ensures StatusOptions[2].1 == "Todos"
    ensures var todos := Query(Entries(WithStatus(f, StatusOptions[2].0)));
            var ativos := Query(Entries(WithStatus(f, "ativo")));
            var inativos := Query(Entries(WithStatus(f, "inativo")));
            && (ProfissionaisRoutes.Listing(profs, u, todos).Some? <==> ProfissionaisRoutes.Listing(profs, u, ativos).Some?)
            && (ProfissionaisRoutes.Listing(profs, u, todos).Some? <==> ProfissionaisRoutes.Listing(profs, u, inativos).Some?)
            && (ProfissionaisRoutes.Listing(profs, u, todos).Some? ==>
                  forall p :: p in ProfissionaisRoutes.Listing(profs, u, todos).value <==>
                    p in ProfissionaisRoutes.Listing(profs, u, ativos).value
                    || p in ProfissionaisRoutes.Listing(profs, u, inativos).value)
  {
    var todos := Query(Entries(WithStatus(f, "todos")));
    var ativos := Query(Entries(WithStatus(f, "ativo")));
    var inativos := Query(Entries(WithStatus(f, "inativo")));
    ArgsOfFiltros(WithStatus(f, "todos"));
    ArgsOfFiltros(WithStatus(f, "ativo"));
    ArgsOfFiltros(WithStatus(f, "inativo"));
    TodosUnion(profs, u, todos, ativos, inativos);
  }

  /** The listing for queries that differ only in their status. */
  lemma TodosUnion(profs: seq<Profissional>, u: Usuario, todos: Args, ativos: Args, inativos: Args)
    requires ArgGetOr(todos, "status", "ativo") == "todos"
    requires ArgGetOr(ativos, "status", "ativo") == "ativo"
    requires ArgGetOr(inativos, "status", "ativo") == "inativo"
    requires ArgGet(todos, "cidade_id") == ArgGet(ativos, "cidade_id") == ArgGet(inativos, "cidade_id")
    requires ArgGet(todos, "equipamento_id") == ArgGet(ativos, "equipamento_id") == ArgGet(inativos, "equipamento_id")
    requires ArgGet(todos, "profissao") == ArgGet(ativos, "profissao") == ArgGet(inativos, "profissao")
    requires ArgGet(todos, "cargo") == ArgGet(ativos, "cargo") == ArgGet(inativos, "cargo")
    ensures ProfissionaisRoutes.Listing(profs, u, todos).Some? <==> ProfissionaisRoutes.Listing(profs, u, ativos).Some?
    ensures ProfissionaisRoutes.Listing(profs, u, todos).Some? <==> ProfissionaisRoutes.Listing(profs, u, inativos).Some?
    ensures ProfissionaisRoutes.Listing(profs, u, todos).Some? ==>
              forall p :: p in ProfissionaisRoutes.Listing(profs, u, todos).value <==>
                p in ProfissionaisRoutes.Listing(profs, u, ativos).value
                || p in ProfissionaisRoutes.Listing(profs, u, inativos).value
  {
    ListingDefinedTogether(profs, u, todos, ativos);
    ListingDefinedTogether(profs, u, todos, inativos);
    var lt := ProfissionaisRoutes.Listing(profs, u, todos);
    var la := ProfissionaisRoutes.Listing(profs, u, ativos);
    var li := ProfissionaisRoutes.Listing(profs, u, inativos);
    if lt.Some? {
      forall p ensures p in lt.value <==> p in la.value || p in li.value {
        StatusUnion(u, todos, ativos, inativos, p);
      }
    }
  }

  /** Queries that agree on the city and facility keys are both listed or both refused. */
  lemma ListingDefinedTogether(profs: seq<Profissional>, u: Usuario, a: Args, b: Args)
    requires ArgGet(a, "cidade_id") == ArgGet(b, "cidade_id")
    requires ArgGet(a, "equipamento_id") == ArgGet(b, "equipamento_id")
    ensures ProfissionaisRoutes.Listing(profs, u, a).Some? <==> ProfissionaisRoutes.Listing(profs, u, b).Some?
  {
    assert ProfissionaisRoutes.ReadIntArg(a, "cidade_id") == ProfissionaisRoutes.ReadIntArg(b, "cidade_id");
    assert ProfissionaisRoutes.ReadIntArg(a, "equipamento_id") == ProfissionaisRoutes.ReadIntArg(b, "equipamento_id");
  }

  /** Queries that differ only in their status: 'todos' matches what 'ativo' or
      'inativo' matches. */
  lemma StatusUnion(u: Usuario, todos: Args, ativos: Args, inativos: Args, p: Profissional)
    requires ArgGetOr(todos, "status", "ativo") == "todos"
    requires ArgGetOr(ativos, "status", "ativo") == "ativo"
    requires ArgGetOr(inativos, "status", "ativo") == "inativo"
    requires ArgGet(todos, "cidade_id") == ArgGet(ativos, "cidade_id") == ArgGet(inativos, "cidade_id")
    requires ArgGet(todos, "equipamento_id") == ArgGet(ativos, "equipamento_id") == ArgGet(inativos, "equipamento_id")
    requires ArgGet(todos, "profissao") == ArgGet(ativos, "profissao") == ArgGet(inativos, "profissao")
    requires ArgGet(todos, "cargo") == ArgGet(ativos, "cargo") == ArgGet(inativos, "cargo")
    ensures ProfissionaisRoutes.ListingMatches(u, todos, p) <==>
            ProfissionaisRoutes.ListingMatches(u, ativos, p) || ProfissionaisRoutes.ListingMatches(u, inativos, p)
  {
    ProfissionaisRoutes.ListingMatchesSplit(u, todos, p);
    ProfissionaisRoutes.ListingMatchesSplit(u, ativos, p);
    ProfissionaisRoutes.ListingMatchesSplit(u, inativos, p);
    ProfissionaisRoutes.OtherClausesReadOnlyTheirArgs(u, todos, ativos, p);
    ProfissionaisRoutes.OtherClausesReadOnlyTheirArgs(u, todos, inativos, p);
  }

  /** An export from the page holds every professional the page lists: both read the
      same query string, and the export leaves out the two text clauses. */
  lemma ExportCoversListing(usuarios: seq<Usuario>, profs: seq<Profissional>, identity: int, f: Filtros)
    ensures var args := Query(Entries(f));
            var report := RelatoriosRoutes.DecideExport(usuarios, profs, identity, args);
            report.Commit? ==>
              ProfissionaisRoutes.Listing(profs, FindUsuario(usuarios, identity).value, args).Some?
              && forall p :: p in ProfissionaisRoutes.Listing(profs, FindUsuario(usuarios, identity).value, args).value
                             ==> p in report.value
  {
    var args := Query(Entries(f));
    if RelatoriosRoutes.DecideExport(usuarios, profs, identity, args).Commit? {
      RelatoriosRoutes.ListingNarrowsReport(profs, FindUsuario(usuarios, identity).value, args);
    }
  }

  // ---------------------------------------------------------------------------
  // Search and names
  // ---------------------------------------------------------------------------

  /** The search box: the name or the email contains the term ignoring case, or the CPF
      contains it as typed. */
  predicate SearchMatches(term: string, p: Profissional) {
    ContainsIgnoringCase(p.nomeCompleto, term) || Contains(p.cpf, term) || ContainsIgnoringCase(p.email, term)
  }

  /** `filteredProfissionais`. */
  function Search(list: seq<Profissional>, term: string): (r: seq<Profissional>)
    ensures IsSubsequence(r, list)
    ensures forall p :: p in r <==> p in list && SearchMatches(term, p)
  {
    Filter(list, (p: Profissional) => SearchMatches(term, p))
  }

  /** An empty search box keeps the whole list. */
  lemma EmptySearchKeepsAll(list: seq<Profissional>)
    ensures Search(list, "") == list
  {
    forall i | 0 <= i < |list| ensures SearchMatches("", list[i]) {
      ContainsEmpty(list[i].cpf);
    }
    FilterAll(list, (p: Profissional) => SearchMatches("", p));
  }

  /** The page looks names up in the lists the backend sends, which hold only active
      cities: a professional whose city was deactivated shows 'N/A'. */
  lemma DeactivatedCityShowsNA(cidades: seq<Cidade>, id: int)
    requires forall i :: 0 <= i < |cidades| && cidades[i].id == id ==> cidades[i].status == Inativo
    ensures CidadeNomeOr(CidadesRoutes.Ativas(cidades), id) == "N/A"
  {
    var ativas := CidadesRoutes.Ativas(cidades);
    forall j | 0 <= j < |ativas| ensures ativas[j].id != id {
      assert ativas[j] in ativas;
    }
    NomeOrFirstMatch(ativas, [], id, 0);
  }

  // ---------------------------------------------------------------------------
  // Controls
  // ---------------------------------------------------------------------------

  datatype Control = Editar(href: string) | Inativar | Reativar | ExportarPdf | ExportarExcel | Novo

  /** The buttons of the page header. */
  function HeaderControls(user: Option<ClientUser>): (cs: seq<Control>)
    ensures HasPermission(user, Editor) ==> cs == [ExportarPdf, ExportarExcel, Novo]
    ensures !HasPermission(user, Editor) ==> cs == []
  {
    if HasPermission(user, Editor) then [ExportarPdf, ExportarExcel, Novo] else []
  }

  /** The buttons of one row: an edit link, then inactivation for an active record and
      reactivation for an inactive one; nothing below level 2. */
  function RowControls(user: Option<ClientUser>, p: Profissional): (cs: seq<Control>)
    ensures !HasPermission(user, Editor) <==> cs == []
    ensures cs != [] ==> |cs| == 2 && cs[0] == Editar("/profissionais/editar/" + IntToString(p.id))
                         && (Inativar in cs <==> p.ativo) && (Reativar in cs <==> !p.ativo)
  {
    if HasPermission(user, Editor) then
      [Editar("/profissionais/editar/" + IntToString(p.id)), if p.ativo then Inativar else Reativar]
    else []
  }

  /** The page never hides a control the backend would honour; it shows them to editors
      and city admins of any city, whom the backend refuses outside their own city. */
  lemma ControlsAgainstBackend(u: Usuario, p: Profissional)
    ensures ProfissionaisRoutes.PodeEditar(Some(u), Some(p)) ==> RowControls(Some(UsuarioToDict(u)), p) != []
    ensures u.nivelAcesso in {Editor, AdminCidade} && u.cidadeId != Some(p.cidadeId) ==>
              RowControls(Some(UsuarioToDict(u)), p) != [] && !ProfissionaisRoutes.PodeEditar(Some(u), Some(p))
  {
    PermissionOfSignedInUser(u, Editor);
  }

  // ---------------------------------------------------------------------------
  // Page state
  // ---------------------------------------------------------------------------

  const MotivoObrigatorio := "Motivo da inativação é obrigatório"
  const ErroInativar := "Erro ao inativar profissional"
  const ErroReativar := "Erro ao reativar profissional"
  const ErroPdf := "Erro ao gerar relatório PDF"
  const ErroExcel := "Erro ao gerar relatório Excel"

  /** The guard of `handleInativar`: no professional selected, or a reason that
      `trim()` leaves empty. */
  predicate Refused(selecionado: Option<Profissional>, motivo: string) {
    selecionado.None? || IsBlank(motivo)
  }

  /** `!motivo.trim()`: the reason is missing exactly when it is all whitespace. */
  method ReasonMissing(motivo: string) returns (missing: bool)
    ensures missing <==> IsBlank(motivo)
  {
    TrimEmptyIffBlank(motivo);
    missing := Trim(motivo) == "";
  }

  /** The three requests of `fetchData`, sent together. */
  function Fetch(f: Filtros): seq<Call> {
    [ListarProfissionais(Query(Entries(f))), ListarCidades, ListarEquipamentos]
  }

  /** The page's state. `calls` records the requests it has sent, in order; each
      handler's `ok` says whether its request succeeded. */
  class Page {
    var filtros: Filtros
    var searchTerm: string
    var dialogOpen: bool
    var selecionado: Option<Profissional>
    var motivo: string
    var error: string
    var calls: seq<Call>

    /** Mounting: the initial state, and the fetch its effect sends. */
    constructor ()
      ensures filtros == FiltrosIniciais && searchTerm == "" && error == ""
      ensures !dialogOpen && selecionado.None? && motivo == ""
      ensures calls == Fetch(FiltrosIniciais)
    {
      filtros := FiltrosIniciais;
      searchTerm := "";
      dialogOpen := false;
      selecionado := None;
      motivo := "";
      error := "";
      calls := Fetch(FiltrosIniciais);
    }

    /** A status choice: the filter changes and the effect fetches again. */
    method SetStatus(value: string)
      modifies this
      ensures filtros == WithStatus(old(filtros), value) && calls == old(calls) + Fetch(filtros)
      ensures searchTerm == old(searchTerm) && dialogOpen == old(dialogOpen)
      ensures selecionado == old(selecionado) && motivo == old(motivo) && error == old(error)
    {
      filtros := WithStatus(filtros, value);
      calls := calls + Fetch(filtros);
    }

    /** A row's inactivate button: the dialog opens for that professional. */
    method OpenInativar(p: Profissional)
      modifies this
      ensures selecionado == Some(p) && dialogOpen
      ensures filtros == old(filtros) && searchTerm == old(searchTerm) && motivo == old(motivo)
      ensures error == old(error) && calls == old(calls)
    {
      selecionado := Some(p);
      dialogOpen := true;
    }

    /** `handleInativar`. With no selection or a blank reason it only sets the error and
        sends nothing. Otherwise it sends the reason as typed; on success the dialog
        closes, the selection and the reason are cleared and the list is fetched again;
        on failure only the error is set. */
    method HandleInativar(ok: bool)
      modifies this
      ensures filtros == old(filtros) && searchTerm == old(searchTerm)
      ensures Refused(old(selecionado), old(motivo)) ==>
                && error == MotivoObrigatorio && calls == old(calls) && dialogOpen == old(dialogOpen)
                && selecionado == old(selecionado) && motivo == old(motivo)
      ensures !Refused(old(selecionado), old(motivo)) && ok ==>
                && calls == old(calls) + [InativarProfissional(old(selecionado).value.id, InativarBody(old(motivo)))]
                             + Fetch(filtros)
                && error == old(error) && !dialogOpen && selecionado.None? && motivo == ""
      ensures !Refused(old(selecionado), old(motivo)) && !ok ==>
                && calls == old(calls) + [InativarProfissional(old(selecionado).value.id, InativarBody(old(motivo)))]
                && error == ErroInativar
                && dialogOpen == old(dialogOpen) && selecionado == old(selecionado) && motivo == old(motivo)
    {
      var blank := ReasonMissing(motivo);
      if selecionado.None? || blank {
        error := MotivoObrigatorio;
        return;
      }
      calls := calls + [InativarProfissional(selecionado.value.id, InativarBody(motivo))];
      if ok {
        dialogOpen := false;
        selecionado := None;
        motivo := "";
        calls := calls + Fetch(filtros);
      } else {
        error := ErroInativar;
      }
    }

    /** `handleReativar(p)`: the request, then a fetch on success or the error. */
    method HandleReativar(p: Profissional, ok: bool)
      modifies this
      ensures filtros == old(filtros) && searchTerm == old(searchTerm) && dialogOpen == old(dialogOpen)
      ensures selecionado == old(selecionado) && motivo == old(motivo)
      ensures ok ==> calls == old(calls) + [ReativarProfissional(p.id)] + Fetch(filtros) && error == old(error)
      ensures !ok ==> calls == old(calls) + [ReativarProfissional(p.id)] && error == ErroReativar
    {
      calls := calls + [ReativarProfissional(p.id)];
      if ok {
        calls := calls + Fetch(filtros);
      } else {
        error := ErroReativar;
      }
    }

    /** The two export buttons: the report is asked for with the page's own filters. */
    method HandleExport(pdf: bool, ok: bool)
      modifies this
      ensures filtros == old(filtros) && searchTerm == old(searchTerm) && dialogOpen == old(dialogOpen)
      ensures selecionado == old(selecionado) && motivo == old(motivo)
      ensures calls == old(calls) + [if pdf then GerarPdf(Query(Entries(filtros))) else GerarExcel(Query(Entries(filtros)))]
      ensures error == if ok then old(error) else if pdf then ErroPdf else ErroExcel
    {
      var params := BuildParams(Entries(filtros));
      calls := calls + [if pdf then GerarPdf(params) else GerarExcel(params)];
      if !ok {
        error := if pdf then ErroPdf else ErroExcel;
      }
    }
  }
}
