/** The `/api/cidades` endpoints: every signed-in user lists the active cities; admins
    create, rename and soft-delete them. City names are unique. */
module CidadesRoutes {
  import opened Common
  import opened Records
  import opened Http
  import opened AuditLog
  import opened UsuariosRoutes

  const CidadeJaCadastrada := "Cidade já cadastrada"
  const CidadeInativada := "Cidade inativada com sucesso"

  function CidadeJson(c: Cidade): Json {
    JObj(CidadeToDict(c))
  }

  predicate IsAtiva(c: Cidade) {
    c.status == Ativo
  }

  /** The cities `listar_cidades` returns: the active ones, in table order. */
  function Ativas(cidades: seq<Cidade>): (r: seq<Cidade>)
    ensures IsSubsequence(r, cidades)
    ensures forall c :: c in r <==> c in cidades && c.status == Ativo
  {
    Filter(cidades, IsAtiva)
  }

  /** GET /cidades: no permission beyond a valid token; the reply holds the
      `to_dict` of exactly the active cities. */
  function Listar(cidades: seq<Cidade>): (r: Response)
    ensures r.Reply? && r.status == 200 && r.body.JArr?
    ensures forall j :: j in r.body.items <==> exists c :: c in cidades && c.status == Ativo && j == CidadeJson(c)
  {
    MapMembers(Ativas(cidades), CidadeJson);
    Ok(JArr(Map(Ativas(cidades), CidadeJson)))
  }

  datatype CidadeBody = CidadeBody(nome: Field<string>, status: Field<string>)

  predicate NomeTaken(cidades: seq<Cidade>, nome: Option<string>) {
    nome.Some? && exists i :: 0 <= i < |cidades| && cidades[i].nome == nome.value
  }

  function IndexOfCidade(cidades: seq<Cidade>, id: int): (r: Option<nat>)
    ensures r.Some? ==> r.value < |cidades| && cidades[r.value].id == id
    ensures r.None? <==> forall i :: 0 <= i < |cidades| ==> cidades[i].id != id
  {
    FindIndex(cidades, (c: Cidade) => c.id == id)
  }

  /** The decision of `criar_cidade`: permission, duplicate name, then the NOT NULL name
      and the enum status. A missing or null status leaves the column default 'ativo'. */
  function DecideCriar(usuarios: seq<Usuario>, cidades: seq<Cidade>, identity: int, body: CidadeBody,
                       now: Instant): (r: Outcome<Cidade>)
    ensures !IsAdmin(FindUsuario(usuarios, identity)) ==> r == Answer(Error(403, PermissaoNegada))
    ensures IsAdmin(FindUsuario(usuarios, identity)) && NomeTaken(cidades, Get(body.nome))
            ==> r == Answer(Error(400, CidadeJaCadastrada))
    ensures r.Commit? <==> IsAdmin(FindUsuario(usuarios, identity)) && body.nome.Given?
                           && !NomeTaken(cidades, Get(body.nome)) && CreationStatus(body.status).Some?
    ensures r.Commit? ==> r.value.id !in Map(cidades, CidadeId) && r.value.nome == body.nome.value
                          && Some(r.value.status) == CreationStatus(body.status)
                          && r.value.dataCadastro == now
  {
    if !IsAdmin(FindUsuario(usuarios, identity)) then Answer(Error(403, PermissaoNegada))
    else if NomeTaken(cidades, Get(body.nome)) then Answer(Error(400, CidadeJaCadastrada))
    else
      var status := CreationStatus(body.status);
      if !body.nome.Given? || status.None? then Answer(Raised(Failed))
      else Commit(Cidade(NextId(Map(cidades, CidadeId)), body.nome.value, status.value, now))
  }

  /** A city created without a status, or with a null one, is active, and so is listed. */
  lemma NewCidadeIsListed(usuarios: seq<Usuario>, cidades: seq<Cidade>, identity: int, nome: string,
                          status: Field<string>, now: Instant)
    requires !status.Given?
    requires DecideCriar(usuarios, cidades, identity, CidadeBody(Given(nome), status), now).Commit?
    ensures var c := DecideCriar(usuarios, cidades, identity, CidadeBody(Given(nome), status), now).value;
            c.status == Ativo && c in Ativas(cidades + [c])
  {
  }

  lemma AddCidadeKeepsValid(cidades: seq<Cidade>, c: Cidade)
    requires Unique(cidades, CidadeId) && Unique(cidades, CidadeNome)
    requires c.id !in Map(cidades, CidadeId) && !NomeTaken(cidades, Some(c.nome))
    ensures Unique(cidades + [c], CidadeId) && Unique(cidades + [c], CidadeNome)
  {
    forall i | 0 <= i < |cidades| ensures CidadeId(cidades[i]) != CidadeId(c) {
      assert Map(cidades, CidadeId)[i] == cidades[i].id;
    }
    UniqueAppend(cidades, c, CidadeId);
    UniqueAppend(cidades, c, CidadeNome);
  }

  /** POST /cidades. */
  method Criar(db: Database, identity: int, body: CidadeBody, ip: Option<string>, now: Instant,
               auditFails: bool) returns (r: Response)
    requires db.Valid()
    modifies db
    ensures db.Valid()
    ensures db.usuarios == old(db.usuarios) && db.equipamentos == old(db.equipamentos)
    ensures db.profissionais == old(db.profissionais)
    ensures match DecideCriar(old(db.usuarios), old(db.cidades), identity, body, now)
            case Answer(a) => r == a && db.cidades == old(db.cidades) && db.auditoria == old(db.auditoria)
            case Commit(c) => r == Created(CidadeJson(c)) && db.cidades == old(db.cidades) + [c]
                              && db.auditoria == Logged(old(db.auditoria), auditFails, identity, "CREATE",
                                                        "cidades", c.id, None, Some(CidadeJson(c)), ip, now)
  {
    match DecideCriar(db.usuarios, db.cidades, identity, body, now)
    case Answer(a) => r := a;
    case Commit(c) =>
      AddCidadeKeepsValid(db.cidades, c);
      db.cidades := db.cidades + [c];
      Registrar(db, identity, "CREATE", "cidades", c.id, dadosNovos := Some(CidadeJson(c)),
                ipOrigem := ip, now := now, fails := auditFails);
      r := Created(CidadeJson(c));
  }

  /** The decision of `atualizar_cidade`: permission, lookup, then `data.get(k, old)`
      for name and status; a null, a text outside the enum or a name another city
      has fails at commit. */
  function DecideAtualizar(usuarios: seq<Usuario>, cidades: seq<Cidade>, identity: int, id: int,
                           body: CidadeBody): (r: Outcome<(nat, Cidade)>)
    ensures !IsAdmin(FindUsuario(usuarios, identity)) ==> r == Answer(Error(403, PermissaoNegada))
    ensures IsAdmin(FindUsuario(usuarios, identity)) && IndexOfCidade(cidades, id).None?
            ==> r == Answer(Raised(NotFound))
    ensures IsAdmin(FindUsuario(usuarios, identity)) && IndexOfCidade(cidades, id).Some? ==>
              var k := IndexOfCidade(cidades, id).value;
              var nome := GetOr(body.nome, cidades[k].nome);
              (r.Commit? <==> nome.Some? && ReadStatus(body.status, cidades[k].status).Some?
                              && forall j :: 0 <= j < |cidades| && j != k ==> cidades[j].nome != nome.value)
    ensures r.Answer? && IsAdmin(FindUsuario(usuarios, identity)) && IndexOfCidade(cidades, id).Some?
            ==> r == Answer(Raised(Failed))
    ensures r.Commit? ==> IndexOfCidade(cidades, id) == Some(r.value.0)
                          && r.value.1.id == id && r.value.1.dataCadastro == cidades[r.value.0].dataCadastro
                          && Some(r.value.1.nome) == GetOr(body.nome, cidades[r.value.0].nome)
                          && Some(r.value.1.status) == ReadStatus(body.status, cidades[r.value.0].status)
                          && forall j :: 0 <= j < |cidades| && j != r.value.0 ==> cidades[j].nome != r.value.1.nome
  {
    if !IsAdmin(FindUsuario(usuarios, identity)) then Answer(Error(403, PermissaoNegada))
    else match IndexOfCidade(cidades, id)
      case None => Answer(Raised(NotFound))
      case Some(k) =>
        var c := cidades[k];
        var nome := GetOr(body.nome, c.nome);
        var status := ReadStatus(body.status, c.status);
        if nome.None? || status.None? then Answer(Raised(Failed))
        else if exists j :: 0 <= j < |cidades| && j != k && cidades[j].nome == nome.value then Answer(Raised(Failed))
        else Commit((k, c.(nome := nome.value, status := status.value)))
  }

  /** An empty body leaves a city as it was. */
  lemma EmptyUpdateKeepsCidade(usuarios: seq<Usuario>, cidades: seq<Cidade>, identity: int, id: int)
    requires Unique(cidades, CidadeNome)
    requires IsAdmin(FindUsuario(usuarios, identity)) && IndexOfCidade(cidades, id).Some?
    ensures var k := IndexOfCidade(cidades, id).value;
            DecideAtualizar(usuarios, cidades, identity, id, CidadeBody(Absent, Absent)) == Commit((k, cidades[k]))
  {
    var k := IndexOfCidade(cidades, id).value;
    forall j | 0 <= j < |cidades| && j != k ensures cidades[j].nome != cidades[k].nome {
      if j < k {
        assert CidadeNome(cidades[j]) != CidadeNome(cidades[k]);
      } else {
        assert CidadeNome(cidades[k]) != CidadeNome(cidades[j]);
      }
    }
  }

  /** PUT /cidades/<id>. */
  method Atualizar(db: Database, identity: int, id: int, body: CidadeBody, ip: Option<string>,
                   now: Instant, auditFails: bool) returns (r: Response)
    requires db.Valid()
    modifies db
    ensures db.Valid()
    ensures db.usuarios == old(db.usuarios) && db.equipamentos == old(db.equipamentos)
    ensures db.profissionais == old(db.profissionais)
    ensures match DecideAtualizar(old(db.usuarios), old(db.cidades), identity, id, body)
            case Answer(a) => r == a && db.cidades == old(db.cidades) && db.auditoria == old(db.auditoria)
            case Commit(kc) =>
              kc.0 < |old(db.cidades)|
              && r == Ok(CidadeJson(kc.1)) && db.cidades == old(db.cidades)[kc.0 := kc.1]
              && db.auditoria == Logged(old(db.auditoria), auditFails, identity, "UPDATE", "cidades", id,
                                        Some(CidadeJson(old(db.cidades)[kc.0])), Some(CidadeJson(kc.1)), ip, now)
  {
    match DecideAtualizar(db.usuarios, db.cidades, identity, id, body)
    case Answer(a) => r := a;
    case Commit(kc) =>
      var (k, c) := kc;
      var antes := db.cidades[k];
      UniqueReplaceSameKey(db.cidades, k, c, CidadeId);
      UniqueReplace(db.cidades, k, c, CidadeNome);
      db.cidades := db.cidades[k := c];
      Registrar(db, identity, "UPDATE", "cidades", id, Some(CidadeJson(antes)), Some(CidadeJson(c)),
                ip, now, auditFails);
      r := Ok(CidadeJson(c));
  }

  /** The soft delete: only the status changes. */
  function Inativada(c: Cidade): (r: Cidade)
    ensures r.status == Inativo && r.id == c.id && r.nome == c.nome && r.dataCadastro == c.dataCadastro
  {
    c.(status := Inativo)
  }

  /** The decision of `deletar_cidade`: permission, then lookup. */
  function DecideDeletar(usuarios: seq<Usuario>, cidades: seq<Cidade>, identity: int, id: int): (r: Outcome<nat>)
    ensures !IsAdmin(FindUsuario(usuarios, identity)) ==> r == Answer(Error(403, PermissaoNegada))
    ensures r.Commit? <==> IsAdmin(FindUsuario(usuarios, identity)) && IndexOfCidade(cidades, id).Some?
    ensures r.Commit? ==> IndexOfCidade(cidades, id) == Some(r.value)
    ensures r.Answer? && IsAdmin(FindUsuario(usuarios, identity)) ==> r == Answer(Raised(NotFound))
  {
    if !IsAdmin(FindUsuario(usuarios, identity)) then Answer(Error(403, PermissaoNegada))
    else match IndexOfCidade(cidades, id)
      case None => Answer(Raised(NotFound))
      case Some(k) => Commit(k)
  }

  /** After a soft delete the city is no longer listed, and every other city is
      listed exactly as before. */
  lemma InativarDropsFromListing(cidades: seq<Cidade>, k: nat)
    requires Unique(cidades, CidadeId) && k < |cidades|
    ensures forall c :: c in Ativas(cidades[k := Inativada(cidades[k])]) <==>
                        c in Ativas(cidades) && c.id != cidades[k].id
  {
    ReplaceDropsFromFilter(cidades, k, Inativada(cidades[k]), CidadeId, IsAtiva);
  }

  /** Deleting a city twice leaves the table as deleting it once. */
  lemma InativarIdempotent(cidades: seq<Cidade>, k: nat)
    requires k < |cidades|
    ensures var once := cidades[k := Inativada(cidades[k])];
            once[k := Inativada(once[k])] == once
  {
  }

  /** DELETE /cidades/<id>: the city stays in the table, marked 'inativo'. */
  method Deletar(db: Database, identity: int, id: int, ip: Option<string>, now: Instant,
                 auditFails: bool) returns (r: Response)
    requires db.Valid()
    modifies db
    ensures db.Valid()
    ensures db.usuarios == old(db.usuarios) && db.equipamentos == old(db.equipamentos)
    ensures db.profissionais == old(db.profissionais)
    ensures match DecideDeletar(old(db.usuarios), old(db.cidades), identity, id)
            case Answer(a) => r == a && db.cidades == old(db.cidades) && db.auditoria == old(db.auditoria)
            case Commit(k) =>
              k < |old(db.cidades)|
              && r == Message(200, CidadeInativada)
              && db.cidades == old(db.cidades)[k := Inativada(old(db.cidades)[k])]
              && db.auditoria == Logged(old(db.auditoria), auditFails, identity, "DELETE", "cidades", id,
                                        Some(CidadeJson(old(db.cidades)[k])),
                                        Some(CidadeJson(Inativada(old(db.cidades)[k]))), ip, now)
  {
    match DecideDeletar(db.usuarios, db.cidades, identity, id)
    case Answer(a) => r := a;
    case Commit(k) =>
      var antes := db.cidades[k];
      var depois := Inativada(antes);
      UniqueReplaceSameKey(db.cidades, k, depois, CidadeId);
      UniqueReplaceSameKey(db.cidades, k, depois, CidadeNome);
      db.cidades := db.cidades[k := depois];
      Registrar(db, identity, "DELETE", "cidades", id, Some(CidadeJson(antes)), Some(CidadeJson(depois)),
                ip, now, auditFails);
      r := Message(200, CidadeInativada);
  }
}
