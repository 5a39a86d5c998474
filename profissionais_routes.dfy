/** The `/api/profissionais` endpoints: the per-level, per-city edit permission, the
    scoped and filtered listing, creation with its uniqueness checks in a fixed order,
    retrieval, partial update, and soft delete and reactivation. */
module ProfissionaisRoutes {
  import opened Common
  import opened Records
  import opened Http
  import opened AuditLog

  // ---------------------------------------------------------------------------
  // Permissions
  // ---------------------------------------------------------------------------

  /** `verificar_permissao_edicao(target)` for the actor the token names: nobody
      without a user record; a global admin always; a city admin or an editor for a
      professional of their own city, and for creation (no target); nobody else. */
  function PodeEditar(actor: Option<Usuario>, target: Option<Profissional>): bool {
    if actor.None? then false
    else
      var u := actor.value;
      if u.nivelAcesso == AdminGlobal then true
      else if u.nivelAcesso == AdminCidade || u.nivelAcesso == Editor then
        target.None? || u.cidadeId == Some(target.value.cidadeId)
      else false
  }

  /** The per-level table of the edit permission, stated on its own. */
  lemma PodeEditarTable(actor: Option<Usuario>, target: Option<Profissional>)
    ensures actor.None? ==> !PodeEditar(actor, target)
    ensures actor.Some? && actor.value.nivelAcesso == 4 ==> PodeEditar(actor, target)
    ensures actor.Some? && actor.value.nivelAcesso in {2, 3} ==>
              (PodeEditar(actor, target) <==> target.None? || actor.value.cidadeId == Some(target.value.cidadeId))
    ensures actor.Some? && actor.value.nivelAcesso !in {2, 3, 4} ==> !PodeEditar(actor, target)
  {
  }

  /** Within the documented levels 1..4 the edit permission only grows with the level. */
  lemma PodeEditarMonotone(u: Usuario, a: int, b: int, target: Option<Profissional>)
    requires 1 <= a <= b <= 4
    requires PodeEditar(Some(u.(nivelAcesso := a)), target)
    ensures PodeEditar(Some(u.(nivelAcesso := b)), target)
  {
  }

  /** The view gate of `obter_profissional`: below level 4 only a professional of the
      actor's own city may be read. */
  predicate PodeVer(u: Usuario, p: Profissional) {
    !(u.nivelAcesso < AdminGlobal && u.cidadeId != Some(p.cidadeId))
  }

  /** Whoever may edit a professional may also read it. */
  lemma EditImpliesView(u: Usuario, p: Profissional)
    requires PodeEditar(Some(u), Some(p))
    ensures PodeVer(u, p)
  {
  }

  // ---------------------------------------------------------------------------
  // Listing
  // ---------------------------------------------------------------------------

  /** The city the listing is confined to: the actor's, when it is below level 4 and
      has a (truthy) city. */
  function Scope(u: Usuario): (r: Option<int>)
    ensures r.Some? <==> u.nivelAcesso < AdminGlobal && u.cidadeId.Some? && u.cidadeId.value != 0
    ensures r.Some? ==> r == u.cidadeId
  {
    if u.nivelAcesso < AdminGlobal && u.cidadeId.Some? && u.cidadeId.value != 0 then u.cidadeId else None
  }

  /** The status argument: 'ativo' keeps active professionals, 'inativo' inactive ones,
      any other value keeps both. */
  predicate StatusMatches(status: string, p: Profissional) {
    if status == "ativo" then p.ativo else if status == "inativo" then !p.ativo else true
  }

  /** A query-string integer: absent or '' imposes nothing; otherwise `int()` of it. */
  datatype IntArg = NoArg | IntArg(n: int) | BadArg

  function ReadIntArg(args: Args, key: string): (r: IntArg)
    ensures r.NoArg? <==> ArgGet(args, key).None? || ArgGet(args, key).value == ""
    ensures r.IntArg? ==> PyInt(ArgGet(args, key).value) == Some(r.n)
    ensures r.BadArg? <==> ArgGet(args, key).Some? && ArgGet(args, key).value != ""
                           && PyInt(ArgGet(args, key).value).None?
  {
    match ArgGet(args, key)
    case None => NoArg
    case Some(v) =>
      if v == "" then NoArg
      else match PyInt(v)
        case None => BadArg
        case Some(n) => IntArg(n)
  }

  predicate IntArgMatches(a: IntArg, value: int) {
    a.IntArg? ==> value == a.n
  }

  /** A query-string text: absent or '' imposes nothing; otherwise `ilike('%t%')`, in
      which a '%' or '_' the user typed is a wildcard as well. */
  predicate TextArgMatches(args: Args, key: string, value: string) {
    ArgGet(args, key).Some? && ArgGet(args, key).value != "" ==> ILike(value, "%" + ArgGet(args, key).value + "%")
  }

  /** A text without wildcards filters by case-insensitive substring. */
  lemma LiteralTextIsSubstring(args: Args, key: string, value: string)
    requires ArgGet(args, key).Some? && ArgGet(args, key).value != "" && Literal(ArgGet(args, key).value)
    ensures TextArgMatches(args, key, value) <==> ContainsIgnoringCase(value, ArgGet(args, key).value)
  {
    ILikeContains(value, ArgGet(args, key).value);
  }

  /** The text '%' is not a character to look for: it matches every value. */
  lemma PercentTextMatchesAll(args: Args, key: string, value: string)
    requires ArgGet(args, key) == Some("%")
    ensures TextArgMatches(args, key, value)
  {
    var v := LowerStr(value);
    assert "%" + "%" + "%" == "%%%" && LowerStr("%%%") == "%%%";
    LikeAnything(v);
    assert Like(v, "%%") by {
      assert "%%"[1..] == "%";
    }
    assert Like(v, "%%%") by {
      assert "%%%"[1..] == "%%";
    }
  }

  /** The clauses the listing and the reports share: city scope, status (default
      'ativo'), exact city and facility. */
  predicate ReportMatches(actor: Usuario, args: Args, p: Profissional) {
    && (Scope(actor).Some? ==> p.cidadeId == Scope(actor).value)
    && StatusMatches(ArgGetOr(args, "status", "ativo"), p)
    && IntArgMatches(ReadIntArg(args, "cidade_id"), p.cidadeId)
    && IntArgMatches(ReadIntArg(args, "equipamento_id"), p.equipamentoId)
  }

  /** Every clause of the listing, as one conjunction. */
  predicate ListingMatches(actor: Usuario, args: Args, p: Profissional) {
    && ReportMatches(actor, args, p)
    && TextArgMatches(args, "profissao", p.profissao)
    && TextArgMatches(args, "cargo", p.cargo)
  }

  /** The clauses of the listing other than the status. */
  predicate OtherClauses(actor: Usuario, args: Args, p: Profissional) {
    && (Scope(actor).Some? ==> p.cidadeId == Scope(actor).value)
    && IntArgMatches(ReadIntArg(args, "cidade_id"), p.cidadeId)
    && IntArgMatches(ReadIntArg(args, "equipamento_id"), p.equipamentoId)
    && TextArgMatches(args, "profissao", p.profissao)
    && TextArgMatches(args, "cargo", p.cargo)
  }

  lemma ListingMatchesSplit(actor: Usuario, args: Args, p: Profissional)
    ensures ListingMatches(actor, args, p) <==>
            StatusMatches(ArgGetOr(args, "status", "ativo"), p) && OtherClauses(actor, args, p)
  {
  }

  /** The non-status clauses read only the city, facility, profession and position
      arguments. */
  lemma OtherClausesReadOnlyTheirArgs(actor: Usuario, a: Args, b: Args, p: Profissional)
    requires ArgGet(a, "cidade_id") == ArgGet(b, "cidade_id")
    requires ArgGet(a, "equipamento_id") == ArgGet(b, "equipamento_id")
    requires ArgGet(a, "profissao") == ArgGet(b, "profissao")
    requires ArgGet(a, "cargo") == ArgGet(b, "cargo")
    ensures OtherClauses(actor, a, p) <==> OtherClauses(actor, b, p)
  {
    assert ReadIntArg(a, "cidade_id") == ReadIntArg(b, "cidade_id");
    assert ReadIntArg(a, "equipamento_id") == ReadIntArg(b, "equipamento_id");
  }

  function ProfCidade(p: Profissional): int { p.cidadeId }
  function ProfEquipamento(p: Profissional): int { p.equipamentoId }
  function ProfProfissao(p: Profissional): string { p.profissao }
  function ProfCargo(p: Profissional): string { p.cargo }

  /** `query.filter_by(cidade_id=...)` when the actor is confined to a city. */
  function ScopeStep(q: seq<Profissional>, actor: Usuario): (r: seq<Profissional>)
    ensures IsSubsequence(r, q)
    ensures forall p :: p in r <==> p in q && (Scope(actor).Some? ==> p.cidadeId == Scope(actor).value)
  {
    if Scope(actor).Some? then Filter(q, (p: Profissional) => p.cidadeId == Scope(actor).value)
    else IsSubsequenceRefl(q); q
  }

  /** The status clause: `ativo == True`, `ativo == False`, or nothing. */
  function StatusStep(q: seq<Profissional>, status: string): (r: seq<Profissional>)
    ensures IsSubsequence(r, q)
    ensures forall p :: p in r <==> p in q && StatusMatches(status, p)
  {
    if status == "ativo" then Filter(q, (p: Profissional) => p.ativo)
    else if status == "inativo" then Filter(q, (p: Profissional) => !p.ativo)
    else IsSubsequenceRefl(q); q
  }

  /** An exact integer clause on the column `col`, added only when the argument is given. */
  function IntStep(q: seq<Profissional>, a: IntArg, col: Profissional -> int): (r: seq<Profissional>)
    ensures IsSubsequence(r, q)
    ensures forall p :: p in r <==> p in q && IntArgMatches(a, col(p))
  {
    if a.IntArg? then Filter(q, (p: Profissional) => col(p) == a.n)
    else IsSubsequenceRefl(q); q
  }

  /** An `ilike` clause on the column `col`, added only when the argument is non-empty. */
  function TextStep(q: seq<Profissional>, args: Args, key: string, col: Profissional -> string): (r: seq<Profissional>)
    ensures IsSubsequence(r, q)
    ensures forall p :: p in r <==> p in q && TextArgMatches(args, key, col(p))
  {
    var t := ArgGet(args, key);
    if t.Some? && t.value != "" then Filter(q, (p: Profissional) => ILike(col(p), "%" + t.value + "%"))
    else IsSubsequenceRefl(q); q
  }

  /** The shared clauses as the handlers add them, one `filter_by` after another;
      None when `int()` rejects a city or facility argument. */
  function ReportQuery(profs: seq<Profissional>, actor: Usuario, args: Args): (r: Option<seq<Profissional>>)
    ensures r.None? <==> ReadIntArg(args, "cidade_id").BadArg? || ReadIntArg(args, "equipamento_id").BadArg?
    ensures r.Some? ==> IsSubsequence(r.value, profs)
    ensures r.Some? ==> forall p :: p in r.value <==> p in profs && ReportMatches(actor, args, p)
  {
    var q1 := ScopeStep(profs, actor);
    var q2 := StatusStep(q1, ArgGetOr(args, "status", "ativo"));
    var cid := ReadIntArg(args, "cidade_id");
    if cid.BadArg? then None
    else
      var q3 := IntStep(q2, cid, ProfCidade);
      var eid := ReadIntArg(args, "equipamento_id");
      if eid.BadArg? then None
      else
        var q4 := IntStep(q3, eid, ProfEquipamento);
        IsSubsequenceTrans(q4, q3, q2);
        IsSubsequenceTrans(q4, q2, q1);
        IsSubsequenceTrans(q4, q1, profs);
        Some(q4)
  }

  /** The rows `listar_profissionais` returns, as the handler builds its query. */
  function Listing(profs: seq<Profissional>, actor: Usuario, args: Args): (r: Option<seq<Profissional>>)
    ensures r.None? <==> ReadIntArg(args, "cidade_id").BadArg? || ReadIntArg(args, "equipamento_id").BadArg?
    ensures r.Some? ==> IsSubsequence(r.value, profs)
    ensures r.Some? ==> forall p :: p in r.value <==> p in profs && ListingMatches(actor, args, p)
  {
    match ReportQuery(profs, actor, args)
    case None => None
    case Some(q4) =>
      var q5 := TextStep(q4, args, "profissao", ProfProfissao);
      var q6 := TextStep(q5, args, "cargo", ProfCargo);
      IsSubsequenceTrans(q6, q5, q4);
      IsSubsequenceTrans(q6, q4, profs);
      Some(q6)
  }

  /** The listing reads a query string only through the status (with its default), the
      city and facility keys and the two texts: queries that agree on those list the
      same rows. */
  lemma ListingReadsOnlyItsArgs(profs: seq<Profissional>, actor: Usuario, a: Args, b: Args)
    requires ArgGetOr(a, "status", "ativo") == ArgGetOr(b, "status", "ativo")
    requires ArgGet(a, "cidade_id") == ArgGet(b, "cidade_id")
    requires ArgGet(a, "equipamento_id") == ArgGet(b, "equipamento_id")
    requires ArgGet(a, "profissao") == ArgGet(b, "profissao")
    requires ArgGet(a, "cargo") == ArgGet(b, "cargo")
    ensures Listing(profs, actor, a) == Listing(profs, actor, b)
  {
    ReportQueryReadsOnlyItsArgs(profs, actor, a, b);
    match ReportQuery(profs, actor, a)
    case None =>
    case Some(q4) =>
      TextStepReadsOnlyItsKey(q4, a, b, "profissao", ProfProfissao);
      var q5 := TextStep(q4, a, "profissao", ProfProfissao);
      TextStepReadsOnlyItsKey(q5, a, b, "cargo", ProfCargo);
  }

  /** The shared clauses read the status (with its default) and the city and facility keys. */
  lemma ReportQueryReadsOnlyItsArgs(profs: seq<Profissional>, actor: Usuario, a: Args, b: Args)
    requires ArgGetOr(a, "status", "ativo") == ArgGetOr(b, "status", "ativo")
    requires ArgGet(a, "cidade_id") == ArgGet(b, "cidade_id")
    requires ArgGet(a, "equipamento_id") == ArgGet(b, "equipamento_id")
    ensures ReportQuery(profs, actor, a) == ReportQuery(profs, actor, b)
  {
    assert ReadIntArg(a, "cidade_id") == ReadIntArg(b, "cidade_id");
    assert ReadIntArg(a, "equipamento_id") == ReadIntArg(b, "equipamento_id");
  }

  /** A text clause reads only its own key. */
  lemma TextStepReadsOnlyItsKey(q: seq<Profissional>, a: Args, b: Args, key: string, col: Profissional -> string)
    requires ArgGet(a, key) == ArgGet(b, key)
    ensures TextStep(q, a, key, col) == TextStep(q, b, key, col)
  {
  }

  function ProfissionalJson(p: Profissional): Json {
    JObj(ProfissionalToDict(p))
  }

  /** GET /profissionais. A token whose user no longer exists fails when its level is read. */
  function Listar(usuarios: seq<Usuario>, profs: seq<Profissional>, identity: int, args: Args): (r: Response)
    ensures FindUsuario(usuarios, identity).None? ==> r == Raised(Failed)
    ensures FindUsuario(usuarios, identity).Some? ==>
              var rows := Listing(profs, FindUsuario(usuarios, identity).value, args);
              (rows.None? ==> r == Raised(Failed))
              && (rows.Some? ==> r == Ok(JArr(Map(rows.value, ProfissionalJson))))
  {
    match FindUsuario(usuarios, identity)
    case None => Raised(Failed)
    case Some(u) =>
      match Listing(profs, u, args)
      case None => Raised(Failed)
      case Some(rows) => Ok(JArr(Map(rows, ProfissionalJson)))
  }

  /** With no status argument only active professionals are listed. */
  lemma DefaultStatusIsAtivo(profs: seq<Profissional>, actor: Usuario, args: Args, p: Profissional)
    requires ArgGet(args, "status").None?
    requires Listing(profs, actor, args).Some? && p in Listing(profs, actor, args).value
    ensures p.ativo
  {
  }

  /** A user below level 4 that has no city lists every professional, yet may open none:
      the listing is unscoped while the view gate compares against a missing city. */
  lemma CitylessUserListsAllButOpensNone(profs: seq<Profissional>, u: Usuario, p: Profissional)
    requires u.nivelAcesso < AdminGlobal && u.cidadeId.None?
    requires p in profs && p.ativo
    ensures Listing(profs, u, []).Some? && p in Listing(profs, u, []).value
    ensures !PodeVer(u, p)
  {
    assert ArgGet([], "status").None?;
    assert ArgGet([], "profissao").None? && ArgGet([], "cargo").None?;
    assert ArgGet([], "cidade_id").None? && ArgGet([], "equipamento_id").None?;
  }

  // ---------------------------------------------------------------------------
  // Retrieval
  // ---------------------------------------------------------------------------

  /** `Profissional.query.get_or_404(id)`: the index of the row with that key. */
  function IndexOf(profs: seq<Profissional>, id: int): (r: Option<nat>)
    ensures r.Some? ==> r.value < |profs| && profs[r.value].id == id
    ensures r.None? ==> forall i :: 0 <= i < |profs| ==> profs[i].id != id
  {
    FindIndex(profs, (p: Profissional) => p.id == id)
  }

  /** GET /profissionais/<id>: the row is looked up first, then the view gate. */
  function Obter(usuarios: seq<Usuario>, profs: seq<Profissional>, identity: int, id: int): (r: Response)
    ensures IndexOf(profs, id).None? <==> r == Raised(NotFound)
    ensures r.Reply? && r.status == 200 <==>
              IndexOf(profs, id).Some? && FindUsuario(usuarios, identity).Some?
              && PodeVer(FindUsuario(usuarios, identity).value, profs[IndexOf(profs, id).value])
    ensures r.Reply? && r.status == 200 ==> r.body == ProfissionalJson(profs[IndexOf(profs, id).value])
    ensures IndexOf(profs, id).Some? && FindUsuario(usuarios, identity).None? ==> r == Raised(Failed)
    ensures IndexOf(profs, id).Some? && FindUsuario(usuarios, identity).Some?
            && !PodeVer(FindUsuario(usuarios, identity).value, profs[IndexOf(profs, id).value])
            ==> r == Error(403, PermissaoNegada)
    ensures r.Reply? ==> r.status in {200, 403}
  {
    match IndexOf(profs, id)
    case None => Raised(NotFound)
    case Some(k) =>
      match FindUsuario(usuarios, identity)
      case None => Raised(Failed)
      case Some(u) =>
        if !PodeVer(u, profs[k]) then Error(403, PermissaoNegada) else Ok(ProfissionalJson(profs[k]))
  }

  // ---------------------------------------------------------------------------
  // Creation
  // ---------------------------------------------------------------------------

  /** The JSON body of a creation or an update; dates are 'YYYY-MM-DD' text. */
  datatype ProfissionalBody = ProfissionalBody(
    equipamentoId: Field<int>, nomeCompleto: Field<string>, dataNascimento: Field<string>,
    cpf: Field<string>, rg: Field<string>, dataExpedicaoRg: Field<string>,
    escolaridade: Field<string>, profissao: Field<string>, cargo: Field<string>,
    vinculoInstitucional: Field<string>, telefone: Field<string>, email: Field<string>,
    dataInicioTrabalho: Field<string>, enderecoResidencial: Field<string>, cidadeId: Field<int>)

  /** `datetime.strptime(v, '%Y-%m-%d').date()` on a body member, with `parseDay` as the
      parser; None when the member is missing or null (a TypeError) or malformed. */
  function ParseDate(f: Field<string>, parseDay: string -> Option<Day>): Option<Day> {
    if f.Given? then parseDay(f.value) else None
  }

  const CpfJaCadastrado := "CPF já cadastrado"
  const RgJaCadastrado := "RG já cadastrado"
  const EmailJaCadastrado := "Email já cadastrado"

  predicate CpfTaken(profs: seq<Profissional>, v: Option<string>) {
    v.Some? && exists i :: 0 <= i < |profs| && profs[i].cpf == v.value
  }
  predicate RgTaken(profs: seq<Profissional>, v: Option<string>) {
    v.Some? && exists i :: 0 <= i < |profs| && profs[i].rg == v.value
  }
  predicate EmailTaken(profs: seq<Profissional>, v: Option<string>) {
    v.Some? && exists i :: 0 <= i < |profs| && profs[i].email == v.value
  }

  /** The body supplies every NOT NULL column other than the three dates. */
  predicate Complete(b: ProfissionalBody) {
    && b.equipamentoId.Given? && b.nomeCompleto.Given? && b.cpf.Given? && b.rg.Given?
    && b.escolaridade.Given? && b.profissao.Given? && b.cargo.Given?
    && b.vinculoInstitucional.Given? && b.telefone.Given? && b.email.Given?
    && b.enderecoResidencial.Given? && b.cidadeId.Given?
  }

  /** The row q holds, column by column, the body's members and the three given days. */
  predicate Carries(q: Profissional, b: ProfissionalBody, nascimento: Day, expedicao: Day, inicio: Day) {
    && b.equipamentoId == Given(q.equipamentoId) && b.nomeCompleto == Given(q.nomeCompleto)
    && b.cpf == Given(q.cpf) && b.rg == Given(q.rg) && b.escolaridade == Given(q.escolaridade)
    && b.profissao == Given(q.profissao) && b.cargo == Given(q.cargo)
    && b.vinculoInstitucional == Given(q.vinculoInstitucional) && b.telefone == Given(q.telefone)
    && b.email == Given(q.email) && b.enderecoResidencial == Given(q.enderecoResidencial)
    && b.cidadeId == Given(q.cidadeId)
    && q.dataNascimento == nascimento && q.dataExpedicaoRg == expedicao && q.dataInicioTrabalho == inicio
  }

  /** The three dates of the body are present and parse. */
  predicate DatesParse(b: ProfissionalBody, parseDay: string -> Option<Day>) {
    && ParseDate(b.dataNascimento, parseDay).Some? && ParseDate(b.dataExpedicaoRg, parseDay).Some?
    && ParseDate(b.dataInicioTrabalho, parseDay).Some?
  }

  /** The row a creation inserts: None when a NOT NULL column would be null. */
  function NewProfissional(profs: seq<Profissional>, b: ProfissionalBody, nascimento: Day,
                           expedicao: Day, inicio: Day, now: Instant): (r: Option<Profissional>)
    ensures r.Some? <==> Complete(b)
    ensures r.Some? ==> Carries(r.value, b, nascimento, expedicao, inicio)
    ensures r.Some? ==> r.value.id !in Map(profs, ProfissionalId) && r.value.ativo
                        && r.value.motivoInativacao.None? && r.value.dataInativacao.None?
                        && r.value.dataCadastro == now
  {
    if Complete(b)
    then Some(Profissional(
      NextId(Map(profs, ProfissionalId)), b.equipamentoId.value, b.nomeCompleto.value, nascimento,
      b.cpf.value, b.rg.value, expedicao, b.escolaridade.value, b.profissao.value, b.cargo.value,
      b.vinculoInstitucional.value, b.telefone.value, b.email.value, inicio,
      b.enderecoResidencial.value, b.cidadeId.value, now, DefaultAtivo, None, None))
    else None
  }

  /** The decision of `criar_profissional` before anything is written: the permission,
      then the CPF, RG and email checks in that order, then the three dates and the
      NOT NULL columns. */
  function DecideCreate(actor: Option<Usuario>, profs: seq<Profissional>, b: ProfissionalBody,
                        parseDay: string -> Option<Day>, now: Instant): (r: Outcome<Profissional>)
    ensures !PodeEditar(actor, None) ==> r == Answer(Error(403, PermissaoNegada))
    ensures PodeEditar(actor, None) && CpfTaken(profs, Get(b.cpf)) ==> r == Answer(Error(400, CpfJaCadastrado))
    ensures PodeEditar(actor, None) && !CpfTaken(profs, Get(b.cpf)) && RgTaken(profs, Get(b.rg))
            ==> r == Answer(Error(400, RgJaCadastrado))
    ensures (PodeEditar(actor, None) && !CpfTaken(profs, Get(b.cpf)) && !RgTaken(profs, Get(b.rg))
             && EmailTaken(profs, Get(b.email))) ==> r == Answer(Error(400, EmailJaCadastrado))
    ensures r.Answer? ==> r.response.Reply? || r.response == Raised(Failed)
    ensures r.Commit? ==> PodeEditar(actor, None) && !CpfTaken(profs, Get(b.cpf))
                          && !RgTaken(profs, Get(b.rg)) && !EmailTaken(profs, Get(b.email))
    ensures (PodeEditar(actor, None) && !CpfTaken(profs, Get(b.cpf)) && !RgTaken(profs, Get(b.rg))
             && !EmailTaken(profs, Get(b.email)))
            ==> if Complete(b) && DatesParse(b, parseDay) then r.Commit? else r == Answer(Raised(Failed))
    ensures r.Commit? ==> r.value.id !in Map(profs, ProfissionalId) && r.value.ativo
                          && forall i :: 0 <= i < |profs| ==>
                               profs[i].cpf != r.value.cpf && profs[i].rg != r.value.rg
                               && profs[i].email != r.value.email
    ensures r.Commit? ==> DatesParse(b, parseDay)
                          && Carries(r.value, b, ParseDate(b.dataNascimento, parseDay).value,
                                     ParseDate(b.dataExpedicaoRg, parseDay).value,
                                     ParseDate(b.dataInicioTrabalho, parseDay).value)
                          && r.value.dataCadastro == now
                          && r.value.motivoInativacao.None? && r.value.dataInativacao.None?
  {
    if !PodeEditar(actor, None) then Answer(Error(403, PermissaoNegada))
    else if CpfTaken(profs, Get(b.cpf)) then Answer(Error(400, CpfJaCadastrado))
    else if RgTaken(profs, Get(b.rg)) then Answer(Error(400, RgJaCadastrado))
    else if EmailTaken(profs, Get(b.email)) then Answer(Error(400, EmailJaCadastrado))
    else
      var n := ParseDate(b.dataNascimento, parseDay);
      var e := ParseDate(b.dataExpedicaoRg, parseDay);
      var t := ParseDate(b.dataInicioTrabalho, parseDay);
      if n.None? || e.None? || t.None? then Answer(Raised(Failed))
      else match NewProfissional(profs, b, n.value, e.value, t.value, now)
        case None => Answer(Raised(Failed))
        case Some(p) => Commit(p)
  }

  /** The professionals table after adding a row whose keys are all unused. */
  lemma AddProfissionalKeepsValid(profs: seq<Profissional>, p: Profissional)
    requires Unique(profs, ProfissionalId) && Unique(profs, ProfissionalCpf)
    requires Unique(profs, ProfissionalRg) && Unique(profs, ProfissionalEmail)
    requires p.id !in Map(profs, ProfissionalId)
    requires forall i :: 0 <= i < |profs| ==> profs[i].cpf != p.cpf && profs[i].rg != p.rg && profs[i].email != p.email
    ensures Unique(profs + [p], ProfissionalId) && Unique(profs + [p], ProfissionalCpf)
    ensures Unique(profs + [p], ProfissionalRg) && Unique(profs + [p], ProfissionalEmail)
  {
    forall i | 0 <= i < |profs| ensures ProfissionalId(profs[i]) != ProfissionalId(p) {
      assert Map(profs, ProfissionalId)[i] == profs[i].id;
    }
    UniqueAppend(profs, p, ProfissionalId);
    UniqueAppend(profs, p, ProfissionalCpf);
    UniqueAppend(profs, p, ProfissionalRg);
    UniqueAppend(profs, p, ProfissionalEmail);
  }

  /** POST /profissionais. The permission check has no target, so an editor or a city
      admin may create a professional in any city. */
  method Criar(db: Database, identity: int, b: ProfissionalBody, parseDay: string -> Option<Day>,
               ip: Option<string>, now: Instant, auditFails: bool) returns (r: Response)
    requires db.Valid()
    modifies db
    ensures db.Valid()
    ensures db.cidades == old(db.cidades) && db.equipamentos == old(db.equipamentos)
    ensures db.usuarios == old(db.usuarios)
    ensures var d := DecideCreate(FindUsuario(old(db.usuarios), identity), old(db.profissionais), b, parseDay, now);
            match d
            case Answer(a) => r == a && db.profissionais == old(db.profissionais) && db.auditoria == old(db.auditoria)
            case Commit(p) => r == Created(ProfissionalJson(p))
                              && db.profissionais == old(db.profissionais) + [p]
                              && db.auditoria == Logged(old(db.auditoria), auditFails, identity, "CREATE",
                                                        "profissionais", p.id, None,
                                                        Some(ProfissionalJson(p)), ip, now)
  {
    var d := DecideCreate(FindUsuario(db.usuarios, identity), db.profissionais, b, parseDay, now);
    match d
    case Answer(a) => r := a;
    case Commit(p) =>
      AddProfissionalKeepsValid(db.profissionais, p);
      db.profissionais := db.profissionais + [p];
      Registrar(db, identity, "CREATE", "profissionais", p.id, dadosNovos := Some(ProfissionalJson(p)),
                ipOrigem := ip, now := now, fails := auditFails);
      r := Created(ProfissionalJson(p));
  }

  // ---------------------------------------------------------------------------
  // Update
  // ---------------------------------------------------------------------------

  /** One assignment `if key in data: record.col = data[key]` on a NOT NULL column:
      a missing key keeps the value, a null fails at commit. */
  function Assign<T>(f: Field<T>, current: T): (r: Option<T>)
    ensures f.Absent? ==> r == Some(current)
    ensures f.Null? <==> r.None?
    ensures f.Given? ==> r == Some(f.value)
  {
    match f
    case Absent => Some(current)
    case Null => None
    case Given(v) => Some(v)
  }

  /** The same for a date column: a present value is parsed. */
  function AssignDate(f: Field<string>, current: Day, parseDay: string -> Option<Day>): (r: Option<Day>)
    ensures f.Absent? ==> r == Some(current)
    ensures f.Given? ==> r == parseDay(f.value)
    ensures f.Null? ==> r.None?
  {
    match f
    case Absent => Some(current)
    case Null => None
    case Given(v) => parseDay(v)
  }

  /** A date member's assignment took effect: a missing member kept the day, a given
      one parses to the new day. */
  predicate PatchedDate(f: Field<string>, before: Day, after: Day, parseDay: string -> Option<Day>) {
    (f.Absent? ==> after == before) && (f.Given? ==> parseDay(f.value) == Some(after))
  }

  /** A date member that makes `strptime` raise: null, or text it does not parse. */
  predicate DateFails(f: Field<string>, parseDay: string -> Option<Day>) {
    f.Null? || (f.Given? && parseDay(f.value).None?)
  }

  /** The body makes an update fail: a member holds null (every assigned column is NOT
      NULL) or a date does not parse. */
  predicate PatchFails(b: ProfissionalBody, parseDay: string -> Option<Day>) {
    || b.nomeCompleto.Null? || b.cpf.Null? || b.rg.Null? || b.escolaridade.Null?
    || b.profissao.Null? || b.cargo.Null? || b.vinculoInstitucional.Null? || b.telefone.Null?
    || b.email.Null? || b.enderecoResidencial.Null? || b.equipamentoId.Null? || b.cidadeId.Null?
    || DateFails(b.dataNascimento, parseDay) || DateFails(b.dataExpedicaoRg, parseDay)
    || DateFails(b.dataInicioTrabalho, parseDay)
  }

  /** The record after the assignments of `atualizar_profissional`: every member present
      sets its column, every missing one keeps it; None when a present value is null or
      a date does not parse. Key, registration time and lifecycle columns are never
      assigned. */
  function ApplyPatch(p: Profissional, b: ProfissionalBody, parseDay: string -> Option<Day>): (r: Option<Profissional>)
    ensures r.None? <==> PatchFails(b, parseDay)
    ensures r.Some? ==> r.value.id == p.id && r.value.dataCadastro == p.dataCadastro
                        && r.value.ativo == p.ativo && r.value.motivoInativacao == p.motivoInativacao
                        && r.value.dataInativacao == p.dataInativacao
    ensures r.Some? ==> && Patched(b.nomeCompleto, p.nomeCompleto, r.value.nomeCompleto)
                        && Patched(b.cpf, p.cpf, r.value.cpf) && Patched(b.rg, p.rg, r.value.rg)
                        && Patched(b.escolaridade, p.escolaridade, r.value.escolaridade)
                        && Patched(b.profissao, p.profissao, r.value.profissao)
                        && Patched(b.cargo, p.cargo, r.value.cargo)
                        && Patched(b.vinculoInstitucional, p.vinculoInstitucional, r.value.vinculoInstitucional)
                        && Patched(b.telefone, p.telefone, r.value.telefone)
                        && Patched(b.email, p.email, r.value.email)
                        && Patched(b.enderecoResidencial, p.enderecoResidencial, r.value.enderecoResidencial)
                        && Patched(b.equipamentoId, p.equipamentoId, r.value.equipamentoId)
                        && Patched(b.cidadeId, p.cidadeId, r.value.cidadeId)
    ensures r.Some? ==> && PatchedDate(b.dataNascimento, p.dataNascimento, r.value.dataNascimento, parseDay)
                        && PatchedDate(b.dataExpedicaoRg, p.dataExpedicaoRg, r.value.dataExpedicaoRg, parseDay)
                        && PatchedDate(b.dataInicioTrabalho, p.dataInicioTrabalho, r.value.dataInicioTrabalho, parseDay)
  {
    if PatchFails(b, parseDay) then None
    else Some(p.(nomeCompleto := Assign(b.nomeCompleto, p.nomeCompleto).value,
                 dataNascimento := AssignDate(b.dataNascimento, p.dataNascimento, parseDay).value,
                 cpf := Assign(b.cpf, p.cpf).value,
                 rg := Assign(b.rg, p.rg).value,
                 dataExpedicaoRg := AssignDate(b.dataExpedicaoRg, p.dataExpedicaoRg, parseDay).value,
                 escolaridade := Assign(b.escolaridade, p.escolaridade).value,
                 profissao := Assign(b.profissao, p.profissao).value,
                 cargo := Assign(b.cargo, p.cargo).value,
                 vinculoInstitucional := Assign(b.vinculoInstitucional, p.vinculoInstitucional).value,
                 telefone := Assign(b.telefone, p.telefone).value,
                 email := Assign(b.email, p.email).value,
                 dataInicioTrabalho := AssignDate(b.dataInicioTrabalho, p.dataInicioTrabalho, parseDay).value,
                 enderecoResidencial := Assign(b.enderecoResidencial, p.enderecoResidencial).value,
                 equipamentoId := Assign(b.equipamentoId, p.equipamentoId).value,
                 cidadeId := Assign(b.cidadeId, p.cidadeId).value))
  }

  const EmptyBody := ProfissionalBody(Absent, Absent, Absent, Absent, Absent, Absent, Absent,
                                      Absent, Absent, Absent, Absent, Absent, Absent, Absent, Absent)

  /** A body with no members changes nothing. */
  lemma EmptyPatchKeepsRecord(p: Profissional, parseDay: string -> Option<Day>)
    ensures ApplyPatch(p, EmptyBody, parseDay) == Some(p)
  {
  }

  /** Applying the same body a second time changes nothing more. */
  lemma PatchIdempotent(p: Profissional, b: ProfissionalBody, parseDay: string -> Option<Day>)
    requires ApplyPatch(p, b, parseDay).Some?
    ensures ApplyPatch(ApplyPatch(p, b, parseDay).value, b, parseDay) == ApplyPatch(p, b, parseDay)
  {
  }

  /** Sending a creation's body again as an update of the row it created changes
      nothing: creation and update read the members the same way. */
  lemma ResubmittedCreationBodyKeepsRecord(actor: Option<Usuario>, profs: seq<Profissional>,
                                           b: ProfissionalBody, parseDay: string -> Option<Day>, now: Instant)
    requires DecideCreate(actor, profs, b, parseDay, now).Commit?
    ensures var q := DecideCreate(actor, profs, b, parseDay, now).value;
            ApplyPatch(q, b, parseDay) == Some(q)
  {
    var q := DecideCreate(actor, profs, b, parseDay, now).value;
    var r := ApplyPatch(q, b, parseDay);
    assert !PatchFails(b, parseDay);
    assert r.value.dataNascimento == q.dataNascimento;
    assert r.value.dataExpedicaoRg == q.dataExpedicaoRg;
    assert r.value.dataInicioTrabalho == q.dataInicioTrabalho;
  }

  /** The row at k may take the value q at commit: no other row has its CPF, RG or email. */
  predicate FitsAt(profs: seq<Profissional>, k: nat, q: Profissional)
    requires k < |profs|
  {
    forall j :: 0 <= j < |profs| && j != k ==>
      profs[j].cpf != q.cpf && profs[j].rg != q.rg && profs[j].email != q.email
  }

  lemma ReplaceProfissionalKeepsValid(profs: seq<Profissional>, k: nat, q: Profissional)
    requires Unique(profs, ProfissionalId) && Unique(profs, ProfissionalCpf)
    requires Unique(profs, ProfissionalRg) && Unique(profs, ProfissionalEmail)
    requires k < |profs| && q.id == profs[k].id && FitsAt(profs, k, q)
    ensures Unique(profs[k := q], ProfissionalId) && Unique(profs[k := q], ProfissionalCpf)
    ensures Unique(profs[k := q], ProfissionalRg) && Unique(profs[k := q], ProfissionalEmail)
  {
    UniqueReplaceSameKey(profs, k, q, ProfissionalId);
    UniqueReplace(profs, k, q, ProfissionalCpf);
    UniqueReplace(profs, k, q, ProfissionalRg);
    UniqueReplace(profs, k, q, ProfissionalEmail);
  }

  /** PUT /profissionais/<id>: lookup, then the edit permission on that record, then
      the assignments; a null, a bad date or a UNIQUE clash fails the commit and the
      row is left as it was. */
  method Atualizar(db: Database, identity: int, id: int, b: ProfissionalBody,
                   parseDay: string -> Option<Day>, ip: Option<string>, now: Instant,
                   auditFails: bool) returns (r: Response)
    requires db.Valid()
    modifies db
    ensures db.Valid()
    ensures db.cidades == old(db.cidades) && db.equipamentos == old(db.equipamentos)
    ensures db.usuarios == old(db.usuarios)
    ensures IndexOf(old(db.profissionais), id).None? ==>
              r == Raised(NotFound) && db.profissionais == old(db.profissionais) && db.auditoria == old(db.auditoria)
    ensures IndexOf(old(db.profissionais), id).Some? ==>
              var k := IndexOf(old(db.profissionais), id).value;
              var p := old(db.profissionais)[k];
              var q := ApplyPatch(p, b, parseDay);
              if !PodeEditar(FindUsuario(old(db.usuarios), identity), Some(p)) then
                r == Error(403, PermissaoNegada) && db.profissionais == old(db.profissionais)
                && db.auditoria == old(db.auditoria)
              else if q.None? || !FitsAt(old(db.profissionais), k, q.value) then
                r == Raised(Failed) && db.profissionais == old(db.profissionais) && db.auditoria == old(db.auditoria)
              else
                r == Ok(ProfissionalJson(q.value)) && db.profissionais == old(db.profissionais)[k := q.value]
                && db.auditoria == Logged(old(db.auditoria), auditFails, identity, "UPDATE", "profissionais",
                                          id, Some(ProfissionalJson(p)), Some(ProfissionalJson(q.value)), ip, now)
  {
    var k := IndexOf(db.profissionais, id);
    if k.None? {
      return Raised(NotFound);
    }
    var p := db.profissionais[k.value];
    if !PodeEditar(FindUsuario(db.usuarios, identity), Some(p)) {
      return Error(403, PermissaoNegada);
    }
    var q := ApplyPatch(p, b, parseDay);
    if q.None? || !FitsAt(db.profissionais, k.value, q.value) {
      return Raised(Failed);
    }
    ReplaceProfissionalKeepsValid(db.profissionais, k.value, q.value);
    db.profissionais := db.profissionais[k.value := q.value];
    Registrar(db, identity, "UPDATE", "profissionais", id, Some(ProfissionalJson(p)),
              Some(ProfissionalJson(q.value)), ip, now, auditFails);
    r := Ok(ProfissionalJson(q.value));
  }

  // ---------------------------------------------------------------------------
  // Soft delete and reactivation
  // ---------------------------------------------------------------------------

  /** The record after inactivation: only the three lifecycle columns change. */
  function Inativado(p: Profissional, motivo: Option<string>, now: Instant): (r: Profissional)
    ensures ProfissionalDataDict(r) == ProfissionalDataDict(p)
    ensures !r.ativo && r.motivoInativacao == motivo && r.dataInativacao == Some(now)
  {
    p.(ativo := false, motivoInativacao := motivo, dataInativacao := Some(now))
  }

  /** The record after reactivation: active, with reason and date cleared. */
  function Reativado(p: Profissional): (r: Profissional)
    ensures ProfissionalDataDict(r) == ProfissionalDataDict(p)
    ensures r.ativo && r.motivoInativacao.None? && r.dataInativacao.None?
  {
    p.(ativo := true, motivoInativacao := None, dataInativacao := None)
  }

  /** Reactivation undoes inactivation exactly for a record that was active with no
      reason or date on file (as every new record is). */
  lemma ReativarUndoesInativar(p: Profissional, motivo: Option<string>, now: Instant)
    requires p.ativo && p.motivoInativacao.None? && p.dataInativacao.None?
    ensures Reativado(Inativado(p, motivo, now)) == p
  {
  }

  /** A record's key and its columns under UNIQUE (CPF, RG, email) stay as they were
      across both transitions. */
  lemma LifecycleKeepsKeys(p: Profissional, motivo: Option<string>, now: Instant)
    ensures Inativado(p, motivo, now).id == p.id && Reativado(p).id == p.id
    ensures Inativado(p, motivo, now).cpf == p.cpf && Reativado(p).cpf == p.cpf
    ensures Inativado(p, motivo, now).rg == p.rg && Reativado(p).rg == p.rg
    ensures Inativado(p, motivo, now).email == p.email && Reativado(p).email == p.email
  {
  }

  const MotivoPadrao := "Não informado"
  const Inativado200 := "Profissional inativado com sucesso"

  lemma ReplaceSameKeysKeepsValid(profs: seq<Profissional>, k: nat, q: Profissional)
    requires Unique(profs, ProfissionalId) && Unique(profs, ProfissionalCpf)
    requires Unique(profs, ProfissionalRg) && Unique(profs, ProfissionalEmail)
    requires k < |profs| && q.id == profs[k].id && q.cpf == profs[k].cpf
    requires q.rg == profs[k].rg && q.email == profs[k].email
    ensures Unique(profs[k := q], ProfissionalId) && Unique(profs[k := q], ProfissionalCpf)
    ensures Unique(profs[k := q], ProfissionalRg) && Unique(profs[k := q], ProfissionalEmail)
  {
    UniqueReplaceSameKey(profs, k, q, ProfissionalId);
    UniqueReplaceSameKey(profs, k, q, ProfissionalCpf);
    UniqueReplaceSameKey(profs, k, q, ProfissionalRg);
    UniqueReplaceSameKey(profs, k, q, ProfissionalEmail);
  }

  /** DELETE /profissionais/<id> with body `{motivo_inativacao}`: lookup, permission,
      then the soft delete. `body` is None when the request carries no JSON object,
      and the reason defaults to 'Não informado' when the member is missing. */
  method Inativar(db: Database, identity: int, id: int, body: Option<Field<string>>,
                  ip: Option<string>, now: Instant, auditFails: bool) returns (r: Response)
    requires db.Valid()
    modifies db
    ensures db.Valid()
    ensures db.cidades == old(db.cidades) && db.equipamentos == old(db.equipamentos)
    ensures db.usuarios == old(db.usuarios)
    ensures IndexOf(old(db.profissionais), id).None? ==>
              r == Raised(NotFound) && db.profissionais == old(db.profissionais) && db.auditoria == old(db.auditoria)
    ensures IndexOf(old(db.profissionais), id).Some? ==>
              var k := IndexOf(old(db.profissionais), id).value;
              var p := old(db.profissionais)[k];
              if !PodeEditar(FindUsuario(old(db.usuarios), identity), Some(p)) then
                r == Error(403, PermissaoNegada) && db.profissionais == old(db.profissionais)
                && db.auditoria == old(db.auditoria)
              else if body.None? then
                r == Raised(Failed) && db.profissionais == old(db.profissionais) && db.auditoria == old(db.auditoria)
              else
                var q := Inativado(p, GetOr(body.value, MotivoPadrao), now);
                r == Message(200, Inativado200) && db.profissionais == old(db.profissionais)[k := q]
                && db.auditoria == Logged(old(db.auditoria), auditFails, identity, "DELETE", "profissionais",
                                          id, Some(ProfissionalJson(p)), Some(ProfissionalJson(q)), ip, now)
  {
    var k := IndexOf(db.profissionais, id);
    if k.None? {
      return Raised(NotFound);
    }
    var p := db.profissionais[k.value];
    if !PodeEditar(FindUsuario(db.usuarios, identity), Some(p)) {
      return Error(403, PermissaoNegada);
    }
    if body.None? {
      return Raised(Failed);
    }
    var q := Inativado(p, GetOr(body.value, MotivoPadrao), now);
    ReplaceSameKeysKeepsValid(db.profissionais, k.value, q);
    db.profissionais := db.profissionais[k.value := q];
    Registrar(db, identity, "DELETE", "profissionais", id, Some(ProfissionalJson(p)),
              Some(ProfissionalJson(q)), ip, now, auditFails);
    r := Message(200, Inativado200);
  }

  /** PUT /profissionais/<id>/reativar. */
  method Reativar(db: Database, identity: int, id: int, ip: Option<string>, now: Instant,
                  auditFails: bool) returns (r: Response)
    requires db.Valid()
    modifies db
    ensures db.Valid()
    ensures db.cidades == old(db.cidades) && db.equipamentos == old(db.equipamentos)
    ensures db.usuarios == old(db.usuarios)
    ensures IndexOf(old(db.profissionais), id).None? ==>
              r == Raised(NotFound) && db.profissionais == old(db.profissionais) && db.auditoria == old(db.auditoria)
    ensures IndexOf(old(db.profissionais), id).Some? ==>
              var k := IndexOf(old(db.profissionais), id).value;
              var p := old(db.profissionais)[k];
              if !PodeEditar(FindUsuario(old(db.usuarios), identity), Some(p)) then
                r == Error(403, PermissaoNegada) && db.profissionais == old(db.profissionais)
                && db.auditoria == old(db.auditoria)
              else
                r == Ok(ProfissionalJson(Reativado(p))) && db.profissionais == old(db.profissionais)[k := Reativado(p)]
                && db.auditoria == Logged(old(db.auditoria), auditFails, identity, "UPDATE", "profissionais",
                                          id, Some(ProfissionalJson(p)), Some(ProfissionalJson(Reativado(p))), ip, now)
  {
    var k := IndexOf(db.profissionais, id);
    if k.None? {
      return Raised(NotFound);
    }
    var p := db.profissionais[k.value];
    if !PodeEditar(FindUsuario(db.usuarios, identity), Some(p)) {
      return Error(403, PermissaoNegada);
    }
    var q := Reativado(p);
    ReplaceSameKeysKeepsValid(db.profissionais, k.value, q);
    db.profissionais := db.profissionais[k.value := q];
    Registrar(db, identity, "UPDATE", "profissionais", id, Some(ProfissionalJson(p)),
              Some(ProfissionalJson(q)), ip, now, auditFails);
    r := Ok(ProfissionalJson(q));
  }
}
