/** The `/api/equipamentos` endpoints: the active facilities for everyone signed in,
    admin-only creation, update and soft delete, and the professionals of one facility. */
module EquipamentosRoutes {
  import opened Common
  import opened Records
  import opened Http
  import opened AuditLog
  import opened UsuariosRoutes
  import opened ProfissionaisRoutes

  const EquipamentoInativado := "Equipamento inativado com sucesso"

  function EquipamentoJson(e: Equipamento): Json {
    JObj(EquipamentoToDict(e))
  }

  predicate IsAtivo(e: Equipamento) {
    e.status == Ativo
  }

  /** The facilities `listar_equipamentos` returns: the active ones, in table order. */
  function Ativos(equipamentos: seq<Equipamento>): (r: seq<Equipamento>)
    ensures IsSubsequence(r, equipamentos)
    ensures forall e :: e in r <==> e in equipamentos && e.status == Ativo
  {
    Filter(equipamentos, IsAtivo)
  }

  /** GET /equipamentos: the reply holds the `to_dict` of exactly the active facilities. */
  function Listar(equipamentos: seq<Equipamento>): (r: Response)
    ensures r.Reply? && r.status == 200 && r.body.JArr?
    ensures forall j :: j in r.body.items <==>
                        exists e :: e in equipamentos && e.status == Ativo && j == EquipamentoJson(e)
  {
    MapMembers(Ativos(equipamentos), EquipamentoJson);
    Ok(JArr(Map(Ativos(equipamentos), EquipamentoJson)))
  }

  datatype EquipamentoBody = EquipamentoBody(nome: Field<string>, descricao: Field<string>, status: Field<string>)

  function IndexOfEquipamento(equipamentos: seq<Equipamento>, id: int): (r: Option<nat>)
    ensures r.Some? ==> r.value < |equipamentos| && equipamentos[r.value].id == id
    ensures r.None? <==> forall i :: 0 <= i < |equipamentos| ==> equipamentos[i].id != id
  {
    FindIndex(equipamentos, (e: Equipamento) => e.id == id)
  }

  /** The decision of `criar_equipamento`: permission, then the NOT NULL name and the
      enum status; a missing or null status leaves the column default 'ativo'. Names
      need not be unique. */
  function DecideCriar(usuarios: seq<Usuario>, equipamentos: seq<Equipamento>, identity: int,
                       body: EquipamentoBody, now: Instant): (r: Outcome<Equipamento>)
    ensures !IsAdmin(FindUsuario(usuarios, identity)) ==> r == Answer(Error(403, PermissaoNegada))
    ensures r.Commit? <==> IsAdmin(FindUsuario(usuarios, identity)) && body.nome.Given?
                           && CreationStatus(body.status).Some?
    ensures r.Commit? ==> r.value.id !in Map(equipamentos, EquipamentoId) && r.value.nome == body.nome.value
                          && r.value.descricao == Get(body.descricao)
                          && Some(r.value.status) == CreationStatus(body.status)
                          && r.value.dataCadastro == now
    ensures r.Answer? && IsAdmin(FindUsuario(usuarios, identity)) ==> r == Answer(Raised(Failed))
  {
    if !IsAdmin(FindUsuario(usuarios, identity)) then Answer(Error(403, PermissaoNegada))
    else
      var status := CreationStatus(body.status);
      if !body.nome.Given? || status.None? then Answer(Raised(Failed))
      else Commit(Equipamento(NextId(Map(equipamentos, EquipamentoId)), body.nome.value,
                              Get(body.descricao), status.value, now))
  }

  /** A facility created without a status, or with a null one, is active, and so is listed. */
  lemma NewEquipamentoIsListed(usuarios: seq<Usuario>, equipamentos: seq<Equipamento>, identity: int,
                               nome: string, descricao: Field<string>, status: Field<string>, now: Instant)
    requires !status.Given?
    requires DecideCriar(usuarios, equipamentos, identity, EquipamentoBody(Given(nome), descricao, status), now).Commit?
    ensures var e := DecideCriar(usuarios, equipamentos, identity, EquipamentoBody(Given(nome), descricao, status), now).value;
            e.status == Ativo && e in Ativos(equipamentos + [e])
  {
  }

  lemma AddEquipamentoKeepsValid(equipamentos: seq<Equipamento>, e: Equipamento)
    requires Unique(equipamentos, EquipamentoId) && e.id !in Map(equipamentos, EquipamentoId)
    ensures Unique(equipamentos + [e], EquipamentoId)
  {
    forall i | 0 <= i < |equipamentos| ensures EquipamentoId(equipamentos[i]) != EquipamentoId(e) {
      assert Map(equipamentos, EquipamentoId)[i] == equipamentos[i].id;
    }
    UniqueAppend(equipamentos, e, EquipamentoId);
  }

  /** POST /equipamentos. */
  method Criar(db: Database, identity: int, body: EquipamentoBody, ip: Option<string>, now: Instant,
               auditFails: bool) returns (r: Response)
    requires db.Valid()
    modifies db
    ensures db.Valid()
    ensures db.usuarios == old(db.usuarios) && db.cidades == old(db.cidades)
    ensures db.profissionais == old(db.profissionais)
    ensures match DecideCriar(old(db.usuarios), old(db.equipamentos), identity, body, now)
            case Answer(a) => r == a && db.equipamentos == old(db.equipamentos) && db.auditoria == old(db.auditoria)
            case Commit(e) => r == Created(EquipamentoJson(e)) && db.equipamentos == old(db.equipamentos) + [e]
                              && db.auditoria == Logged(old(db.auditoria), auditFails, identity, "CREATE",
                                                        "equipamentos", e.id, None, Some(EquipamentoJson(e)), ip, now)
  {
    match DecideCriar(db.usuarios, db.equipamentos, identity, body, now)
    case Answer(a) => r := a;
    case Commit(e) =>
      AddEquipamentoKeepsValid(db.equipamentos, e);
      db.equipamentos := db.equipamentos + [e];
      Registrar(db, identity, "CREATE", "equipamentos", e.id, dadosNovos := Some(EquipamentoJson(e)),
                ipOrigem := ip, now := now, fails := auditFails);
      r := Created(EquipamentoJson(e));
  }

  /** `data.get('descricao', old)` on the nullable description: a null clears it. */
  function ReadDescricao(f: Field<string>, current: Option<string>): (r: Option<string>)
    ensures f.Absent? ==> r == current
    ensures !f.Absent? ==> r == Get(f)
  {
    if f.Absent? then current else Get(f)
  }

  /** The decision of `atualizar_equipamento`: permission, lookup, then `data.get(k, old)`
      for each column. */
  function DecideAtualizar(usuarios: seq<Usuario>, equipamentos: seq<Equipamento>, identity: int, id: int,
                           body: EquipamentoBody): (r: Outcome<(nat, Equipamento)>)
    ensures !IsAdmin(FindUsuario(usuarios, identity)) ==> r == Answer(Error(403, PermissaoNegada))
    ensures IsAdmin(FindUsuario(usuarios, identity)) && IndexOfEquipamento(equipamentos, id).None?
            ==> r == Answer(Raised(NotFound))
    ensures IsAdmin(FindUsuario(usuarios, identity)) && IndexOfEquipamento(equipamentos, id).Some? ==>
              var e := equipamentos[IndexOfEquipamento(equipamentos, id).value];
              (r.Commit? <==> GetOr(body.nome, e.nome).Some? && ReadStatus(body.status, e.status).Some?)
    ensures r.Answer? && IsAdmin(FindUsuario(usuarios, identity)) && IndexOfEquipamento(equipamentos, id).Some?
            ==> r == Answer(Raised(Failed))
    ensures r.Commit? ==> IndexOfEquipamento(equipamentos, id) == Some(r.value.0)
                          && var e := equipamentos[r.value.0];
                          r.value.1 == e.(nome := r.value.1.nome, descricao := ReadDescricao(body.descricao, e.descricao),
                                          status := r.value.1.status)
                          && Some(r.value.1.nome) == GetOr(body.nome, e.nome)
                          && Some(r.value.1.status) == ReadStatus(body.status, e.status)
  {
    if !IsAdmin(FindUsuario(usuarios, identity)) then Answer(Error(403, PermissaoNegada))
    else match IndexOfEquipamento(equipamentos, id)
      case None => Answer(Raised(NotFound))
      case Some(k) =>
        var e := equipamentos[k];
        var nome := GetOr(body.nome, e.nome);
        var status := ReadStatus(body.status, e.status);
        if nome.None? || status.None? then Answer(Raised(Failed))
        else Commit((k, e.(nome := nome.value, descricao := ReadDescricao(body.descricao, e.descricao),
                           status := status.value)))
  }

  /** An empty body leaves a facility as it was. */
  lemma EmptyUpdateKeepsEquipamento(usuarios: seq<Usuario>, equipamentos: seq<Equipamento>, identity: int, id: int)
    requires IsAdmin(FindUsuario(usuarios, identity)) && IndexOfEquipamento(equipamentos, id).Some?
    ensures var k := IndexOfEquipamento(equipamentos, id).value;
            DecideAtualizar(usuarios, equipamentos, identity, id, EquipamentoBody(Absent, Absent, Absent))
            == Commit((k, equipamentos[k]))
  {
  }

  /** PUT /equipamentos/<id>. */
  method Atualizar(db: Database, identity: int, id: int, body: EquipamentoBody, ip: Option<string>,
                   now: Instant, auditFails: bool) returns (r: Response)
    requires db.Valid()
    modifies db
    ensures db.Valid()
    ensures db.usuarios == old(db.usuarios) && db.cidades == old(db.cidades)
    ensures db.profissionais == old(db.profissionais)
    ensures match DecideAtualizar(old(db.usuarios), old(db.equipamentos), identity, id, body)
            case Answer(a) => r == a && db.equipamentos == old(db.equipamentos) && db.auditoria == old(db.auditoria)
            case Commit(ke) =>
              ke.0 < |old(db.equipamentos)|
              && r == Ok(EquipamentoJson(ke.1)) && db.equipamentos == old(db.equipamentos)[ke.0 := ke.1]
              && db.auditoria == Logged(old(db.auditoria), auditFails, identity, "UPDATE", "equipamentos", id,
                                        Some(EquipamentoJson(old(db.equipamentos)[ke.0])),
                                        Some(EquipamentoJson(ke.1)), ip, now)
  {
    match DecideAtualizar(db.usuarios, db.equipamentos, identity, id, body)
    case Answer(a) => r := a;
    case Commit(ke) =>
      var (k, e) := ke;
      var antes := db.equipamentos[k];
      UniqueReplaceSameKey(db.equipamentos, k, e, EquipamentoId);
      db.equipamentos := db.equipamentos[k := e];
      Registrar(db, identity, "UPDATE", "equipamentos", id, Some(EquipamentoJson(antes)),
                Some(EquipamentoJson(e)), ip, now, auditFails);
      r := Ok(EquipamentoJson(e));
  }

  function Inativado(e: Equipamento): (r: Equipamento)
    ensures r.status == Inativo && r.id == e.id && r.nome == e.nome && r.descricao == e.descricao
    ensures r.dataCadastro == e.dataCadastro
  {
    e.(status := Inativo)
  }

  /** The decision of `deletar_equipamento`: permission, then lookup. */
  function DecideDeletar(usuarios: seq<Usuario>, equipamentos: seq<Equipamento>, identity: int, id: int): (r: Outcome<nat>)
    ensures !IsAdmin(FindUsuario(usuarios, identity)) ==> r == Answer(Error(403, PermissaoNegada))
    ensures r.Commit? <==> IsAdmin(FindUsuario(usuarios, identity)) && IndexOfEquipamento(equipamentos, id).Some?
    ensures r.Commit? ==> IndexOfEquipamento(equipamentos, id) == Some(r.value)
    ensures r.Answer? && IsAdmin(FindUsuario(usuarios, identity)) ==> r == Answer(Raised(NotFound))
  {
    if !IsAdmin(FindUsuario(usuarios, identity)) then Answer(Error(403, PermissaoNegada))
    else match IndexOfEquipamento(equipamentos, id)
      case None => Answer(Raised(NotFound))
      case Some(k) => Commit(k)
  }

  /** After a soft delete the facility is no longer listed; every other one is listed as before. */
  lemma InativarDropsFromListing(equipamentos: seq<Equipamento>, k: nat)
    requires Unique(equipamentos, EquipamentoId) && k < |equipamentos|
    ensures forall e :: e in Ativos(equipamentos[k := Inativado(equipamentos[k])]) <==>
                        e in Ativos(equipamentos) && e.id != equipamentos[k].id
  {
    ReplaceDropsFromFilter(equipamentos, k, Inativado(equipamentos[k]), EquipamentoId, IsAtivo);
  }

  /** DELETE /equipamentos/<id>: the facility stays, marked 'inativo'; its professionals
      keep pointing at it. */
  method Deletar(db: Database, identity: int, id: int, ip: Option<string>, now: Instant,
                 auditFails: bool) returns (r: Response)
    requires db.Valid()
    modifies db
    ensures db.Valid()
    ensures db.usuarios == old(db.usuarios) && db.cidades == old(db.cidades)
    ensures db.profissionais == old(db.profissionais)
    ensures match DecideDeletar(old(db.usuarios), old(db.equipamentos), identity, id)
            case Answer(a) => r == a && db.equipamentos == old(db.equipamentos) && db.auditoria == old(db.auditoria)
            case Commit(k) =>
              k < |old(db.equipamentos)|
              && r == Message(200, EquipamentoInativado)
              && db.equipamentos == old(db.equipamentos)[k := Inativado(old(db.equipamentos)[k])]
              && db.auditoria == Logged(old(db.auditoria), auditFails, identity, "DELETE", "equipamentos", id,
                                        Some(EquipamentoJson(old(db.equipamentos)[k])),
                                        Some(EquipamentoJson(Inativado(old(db.equipamentos)[k]))), ip, now)
  {
    match DecideDeletar(db.usuarios, db.equipamentos, identity, id)
    case Answer(a) => r := a;
    case Commit(k) =>
      var antes := db.equipamentos[k];
      var depois := Inativado(antes);
      UniqueReplaceSameKey(db.equipamentos, k, depois, EquipamentoId);
      db.equipamentos := db.equipamentos[k := depois];
      Registrar(db, identity, "DELETE", "equipamentos", id, Some(EquipamentoJson(antes)),
                Some(EquipamentoJson(depois)), ip, now, auditFails);
      r := Message(200, EquipamentoInativado);
  }

  // ---------------------------------------------------------------------------
  // Professionals of one facility
  // ---------------------------------------------------------------------------

  /** The professionals of facility `id` with the requested status (default 'ativo'). */
  function DoEquipamento(profs: seq<Profissional>, id: int, status: string): (r: seq<Profissional>)
    ensures IsSubsequence(r, profs)
    ensures forall p :: p in r <==> p in profs && p.equipamentoId == id && StatusMatches(status, p)
  {
    Filter(profs, (p: Profissional) => p.equipamentoId == id && StatusMatches(status, p))
  }

  /** GET /equipamentos/<id>/profissionais: any signed-in user, any city; the facility
      is looked up first, whatever its status. */
  function PorEquipamento(equipamentos: seq<Equipamento>, profs: seq<Profissional>, id: int, args: Args): (r: Response)
    ensures IndexOfEquipamento(equipamentos, id).None? <==> r == Raised(NotFound)
    ensures IndexOfEquipamento(equipamentos, id).Some? ==>
              var e := equipamentos[IndexOfEquipamento(equipamentos, id).value];
              var rows := DoEquipamento(profs, id, ArgGetOr(args, "status", "ativo"));
              r == Ok(JObj(map["equipamento" := EquipamentoJson(e),
                               "profissionais" := JArr(Map(rows, ProfissionalJson))]))
  {
    match IndexOfEquipamento(equipamentos, id)
    case None => Raised(NotFound)
    case Some(k) =>
      var rows := DoEquipamento(profs, id, ArgGetOr(args, "status", "ativo"));
      Ok(JObj(map["equipamento" := EquipamentoJson(equipamentos[k]),
                  "profissionais" := JArr(Map(rows, ProfissionalJson))]))
  }

  /** For a global admin, the professionals of a facility are exactly those the general
      listing returns when filtered by that facility and the same status; unlike the
      listing, this route ignores the caller's city. */
  lemma ByFacilityAgreesWithListing(profs: seq<Profissional>, actor: Usuario, id: int, status: string)
    requires actor.nivelAcesso == AdminGlobal
    ensures var args := [("equipamento_id", IntToString(id)), ("status", status)];
            Listing(profs, actor, args).Some?
            && forall p :: p in Listing(profs, actor, args).value <==> p in DoEquipamento(profs, id, status)
  {
    var args := [("equipamento_id", IntToString(id)), ("status", status)];
    ArgsOfFacilityQuery(id, status);
    assert Scope(actor).None?;
    forall p ensures ListingMatches(actor, args, p) <==> p.equipamentoId == id && StatusMatches(status, p) {
      assert ReportMatches(actor, args, p) <==> p.equipamentoId == id && StatusMatches(status, p);
    }
  }

  /** How the handler reads the query string `equipamento_id=<id>&status=<status>`. */
  lemma ArgsOfFacilityQuery(id: int, status: string)
    ensures var args := [("equipamento_id", IntToString(id)), ("status", status)];
            && ReadIntArg(args, "equipamento_id") == IntArg(id)
            && ReadIntArg(args, "cidade_id") == NoArg
            && ArgGetOr(args, "status", "ativo") == status
            && ArgGet(args, "profissao").None? && ArgGet(args, "cargo").None?
  {
    var args := [("equipamento_id", IntToString(id)), ("status", status)];
    ArgGetPair(args[0], args[1], "equipamento_id");
    ArgGetPair(args[0], args[1], "status");
    ArgGetPair(args[0], args[1], "cidade_id");
    ArgGetPair(args[0], args[1], "profissao");
    ArgGetPair(args[0], args[1], "cargo");
    PyIntOfIntToString(id);
    NoEmptyIntText(id);
  }

  lemma ArgGetPair(a: (string, string), b: (string, string), key: string)
    ensures ArgGet([a, b], key) == if a.0 == key then Some(a.1) else if b.0 == key then Some(b.1) else None
  {
    var args := [a, b];
    assert args[0] == a && args[1] == b;
  }

  lemma NoEmptyIntText(n: int)
    ensures IntToString(n) != ""
  {
    PyIntOfIntToString(n);
    assert PyInt("") == None;
  }
}
