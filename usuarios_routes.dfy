/** The `/api/usuarios` endpoints: user administration for city admins and global
    admins. A city admin is confined to the users of its own city and may not grant
    level 4; nobody may delete their own account. */
module UsuariosRoutes {
  import opened Common
  import opened Records
  import opened Http
  import opened AuditLog
  import opened AuthRoutes

  /** `verificar_permissao_admin`: the token's user exists with level 3 or more. The
      cities, facilities and audit routes each repeat this same check. */
  predicate IsAdmin(actor: Option<Usuario>) {
    actor.Some? && actor.value.nivelAcesso >= AdminCidade
  }

  /** `verificar_permissao_admin_global`: the token's user exists with level 4. */
  predicate IsAdminGlobal(actor: Option<Usuario>) {
    actor.Some? && actor.value.nivelAcesso == AdminGlobal
  }

  lemma AdminGlobalIsAdmin(actor: Option<Usuario>)
    ensures IsAdminGlobal(actor) ==> IsAdmin(actor)
    ensures actor.Some? && actor.value.nivelAcesso == AdminCidade ==> IsAdmin(actor) && !IsAdminGlobal(actor)
    ensures actor.None? ==> !IsAdmin(actor) && !IsAdminGlobal(actor)
  {
  }

  const NegadoAdminGlobal := "Permissão negada para criar Admin Global"
  const ProprioUsuario := "Não é possível deletar seu próprio usuário"
  const UsuarioDeletado := "Usuário deletado com sucesso"

  function UsuarioJson(u: Usuario): Json {
    JObj(UsuarioToDict(u))
  }

  /** A city admin with a (truthy) city is confined to it. */
  predicate Confined(actor: Usuario) {
    actor.nivelAcesso == AdminCidade && actor.cidadeId.Some? && actor.cidadeId.value != 0
  }

  /** The users `listar_usuarios` returns to an admin. */
  function VisibleUsuarios(usuarios: seq<Usuario>, actor: Usuario): (r: seq<Usuario>)
    ensures IsSubsequence(r, usuarios)
    ensures forall v :: v in r <==> v in usuarios && (Confined(actor) ==> v.cidadeId == actor.cidadeId)
  {
    if Confined(actor) then Filter(usuarios, (v: Usuario) => v.cidadeId == actor.cidadeId)
    else IsSubsequenceRefl(usuarios); usuarios
  }

  /** GET /usuarios. */
  function Listar(usuarios: seq<Usuario>, identity: int): (r: Response)
    ensures !IsAdmin(FindUsuario(usuarios, identity)) <==> r == Error(403, PermissaoNegada)
    ensures IsAdmin(FindUsuario(usuarios, identity)) ==>
              r == Ok(JArr(Map(VisibleUsuarios(usuarios, FindUsuario(usuarios, identity).value), UsuarioJson)))
  {
    var actor := FindUsuario(usuarios, identity);
    if !IsAdmin(actor) then Error(403, PermissaoNegada)
    else Ok(JArr(Map(VisibleUsuarios(usuarios, actor.value), UsuarioJson)))
  }

  /** A global admin, and a city admin without a city, see every user. */
  lemma UnconfinedAdminSeesAll(usuarios: seq<Usuario>, actor: Usuario)
    requires !Confined(actor)
    ensures VisibleUsuarios(usuarios, actor) == usuarios
  {
  }

  // ---------------------------------------------------------------------------
  // Creation
  // ---------------------------------------------------------------------------

  /** The level-4 guard of `criar_usuario` and `atualizar_usuario` as written
      (`nivel_acesso == 4`): true only for the JSON number 4. */
  predicate AsksAdminGlobalAsWritten(j: Json) {
    j == JInt(AdminGlobal)
  }

  /** The guard the handlers mean: the level the column will hold is 4. */
  predicate AsksAdminGlobal(j: Json) {
    StoredInt(j) == Some(AdminGlobal)
  }

  /** The body's email is already registered (`filter_by(email=...).first()`). */
  predicate EmailTaken(usuarios: seq<Usuario>, body: RegisterBody) {
    Get(body.email).Some? && FindByEmail(usuarios, body.email.value).Some?
  }

  /** A city admin asks for a level the guard refuses. */
  predicate Refused(actor: Usuario, j: Json, asksAdminGlobal: Json -> bool) {
    actor.nivelAcesso == AdminCidade && asksAdminGlobal(j)
  }

  /** The decision of `criar_usuario`: permission, duplicate email, the level-4 guard
      for city admins, the password, then the NOT NULL columns. The guard is a
      parameter: POST /usuarios uses `AsksAdminGlobal`. */
  function DecideCriar(usuarios: seq<Usuario>, identity: int, body: RegisterBody, senhaHash: string,
                       now: Instant, asksAdminGlobal: Json -> bool): (r: Outcome<Usuario>)
    ensures !IsAdmin(FindUsuario(usuarios, identity)) ==> r == Answer(Error(403, PermissaoNegada))
    ensures IsAdmin(FindUsuario(usuarios, identity)) && EmailTaken(usuarios, body)
            ==> r == Answer(Error(400, EmailJaCadastrado))
    ensures IsAdmin(FindUsuario(usuarios, identity)) && !EmailTaken(usuarios, body)
            && Refused(FindUsuario(usuarios, identity).value, LevelOf(body.nivelAcesso), asksAdminGlobal)
            ==> r == Answer(Error(403, NegadoAdminGlobal))
    ensures IsAdmin(FindUsuario(usuarios, identity)) && !EmailTaken(usuarios, body)
            && !Refused(FindUsuario(usuarios, identity).value, LevelOf(body.nivelAcesso), asksAdminGlobal)
            ==> if Get(body.senha).Some? && Get(body.nomeCompleto).Some? && Get(body.email).Some?
                   && StoredInt(LevelOf(body.nivelAcesso)).Some?
                then r.Commit? else r == Answer(Raised(Failed))
    ensures r.Commit? ==> r.value.id !in Map(usuarios, UsuarioId)
                          && (forall i :: 0 <= i < |usuarios| ==> usuarios[i].email != r.value.email)
                          && r.value.nomeCompleto == body.nomeCompleto.value && r.value.email == body.email.value
                          && r.value.senhaHash == senhaHash
                          && Some(r.value.nivelAcesso) == StoredInt(LevelOf(body.nivelAcesso))
                          && r.value.cidadeId == Get(body.cidadeId) && r.value.dataCadastro == now
  {
    var actor := FindUsuario(usuarios, identity);
    var email := Get(body.email);
    if !IsAdmin(actor) then Answer(Error(403, PermissaoNegada))
    else if EmailTaken(usuarios, body) then Answer(Error(400, EmailJaCadastrado))
    else if Refused(actor.value, LevelOf(body.nivelAcesso), asksAdminGlobal) then
      Answer(Error(403, NegadoAdminGlobal))
    else if Get(body.senha).None? then Answer(Raised(Failed))
    else match NewUsuario(usuarios, Get(body.nomeCompleto), email, senhaHash, StoredInt(LevelOf(body.nivelAcesso)),
                          Get(body.cidadeId), now)
      case None => Answer(Raised(Failed))
      case Some(u) => Commit(u)
  }

  /** With the intended guard a city admin never creates a global admin. */
  lemma CityAdminCreatesNoAdminGlobal(usuarios: seq<Usuario>, identity: int, body: RegisterBody,
                                      senhaHash: string, now: Instant)
    requires FindUsuario(usuarios, identity).Some?
    requires FindUsuario(usuarios, identity).value.nivelAcesso == AdminCidade
    requires DecideCriar(usuarios, identity, body, senhaHash, now, AsksAdminGlobal).Commit?
    ensures DecideCriar(usuarios, identity, body, senhaHash, now, AsksAdminGlobal).value.nivelAcesso != AdminGlobal
  {
  }

  /** With the guard as written, a city admin who sends the level as the text "4"
      passes it, and the INTEGER column stores a global admin. */
  lemma TextLevelCreatesAdminGlobalAsWritten(senhaHash: string, now: Instant)
    ensures var actor := Usuario(1, "Ana", "ana@x", "h", AdminCidade, Some(1), now);
            var body := RegisterBody(Given("Bia"), Given("bia@x"), Given("s"), Given(JStr("4")), Absent);
            var r := DecideCriar([actor], 1, body, senhaHash, now, AsksAdminGlobalAsWritten);
            r.Commit? && r.value.nivelAcesso == AdminGlobal
  {
    var actor := Usuario(1, "Ana", "ana@x", "h", AdminCidade, Some(1), now);
    assert FindUsuario([actor], 1) == Some(actor) by {
      assert [actor][0] == actor;
    }
    assert FindByEmail([actor], "bia@x").None? by {
      assert [actor][0].email != "bia@x";
    }
    assert IntToString(AdminGlobal) == "4";
    StoredIntOfText(AdminGlobal);
  }

  /** A user created by an admin can log in with the password sent, since its email
      was unused: login finds exactly that user. `checkPw(senha, senhaHash)` is
      bcrypt's check of the password against the hash stored. */
  lemma CreatedUsuarioCanLogIn(usuarios: seq<Usuario>, identity: int, body: RegisterBody, senhaHash: string,
                               now: Instant, checkPw: (string, string) -> bool)
    requires DecideCriar(usuarios, identity, body, senhaHash, now, AsksAdminGlobal).Commit?
    requires body.email.Given? && body.email.value != "" && body.senha.Given? && body.senha.value != ""
    requires checkPw(body.senha.value, senhaHash)
    ensures var u := DecideCriar(usuarios, identity, body, senhaHash, now, AsksAdminGlobal).value;
            Login(usuarios + [u], LoginBody(body.email, body.senha), checkPw)
              == Authenticated(AccessToken(u.id), UsuarioToDict(u))
  {
    var u := DecideCriar(usuarios, identity, body, senhaHash, now, AsksAdminGlobal).value;
    var found := FindByEmail(usuarios + [u], u.email);
    assert (usuarios + [u])[|usuarios|] == u;
    assert found == Some(u) by {
      var j :| 0 <= j < |usuarios + [u]| && (usuarios + [u])[j] == found.value;
      if j < |usuarios| {
        assert (usuarios + [u])[j] == usuarios[j];
      }
    }
  }

  /** POST /usuarios. `senhaHash` is bcrypt's hash of the body's password. */
  method Criar(db: Database, identity: int, body: RegisterBody, senhaHash: string, ip: Option<string>,
               now: Instant, auditFails: bool) returns (r: Response)
    requires db.Valid()
    modifies db
    ensures db.Valid()
    ensures db.cidades == old(db.cidades) && db.equipamentos == old(db.equipamentos)
    ensures db.profissionais == old(db.profissionais)
    ensures match DecideCriar(old(db.usuarios), identity, body, senhaHash, now, AsksAdminGlobal)
            case Answer(a) => r == a && db.usuarios == old(db.usuarios) && db.auditoria == old(db.auditoria)
            case Commit(u) => r == Created(UsuarioJson(u)) && db.usuarios == old(db.usuarios) + [u]
                              && db.auditoria == Logged(old(db.auditoria), auditFails, identity, "CREATE",
                                                        "usuarios", u.id, None, Some(UsuarioJson(u)), ip, now)
  {
    match DecideCriar(db.usuarios, identity, body, senhaHash, now, AsksAdminGlobal)
    case Answer(a) => r := a;
    case Commit(u) =>
      AddUsuarioKeepsValid(db.usuarios, u);
      db.usuarios := db.usuarios + [u];
      Registrar(db, identity, "CREATE", "usuarios", u.id, dadosNovos := Some(UsuarioJson(u)),
                ipOrigem := ip, now := now, fails := auditFails);
      r := Created(UsuarioJson(u));
  }

  // ---------------------------------------------------------------------------
  // Update
  // ---------------------------------------------------------------------------

  /** The key of a user row (`get_or_404`). */
  function IndexOfUsuario(usuarios: seq<Usuario>, id: int): (r: Option<nat>)
    ensures r.Some? ==> r.value < |usuarios| && usuarios[r.value].id == id
    ensures r.None? <==> forall i :: 0 <= i < |usuarios| ==> usuarios[i].id != id
  {
    FindIndex(usuarios, (u: Usuario) => u.id == id)
  }

  /** A city admin acting on a user of another city (`cidade_id` compared as is, so
      a city admin without a city reaches exactly the users without one). */
  predicate OutOfCity(actor: Usuario, target: Usuario) {
    actor.nivelAcesso == AdminCidade && target.cidadeId != actor.cidadeId
  }

  /** The level member can be stored: missing, or a value the INTEGER column takes. */
  predicate LevelStorable(f: Field<Json>) {
    f.Absent? || StoredInt(LevelOf(f)).Some?
  }

  /** The user after the assignments of `atualizar_usuario`, with `novoHash` the hash of
      a new password; None when a NOT NULL column is set to null, or the level to a
      value the column cannot hold. */
  function PatchUsuario(u: Usuario, body: RegisterBody, novoHash: string): (r: Option<Usuario>)
    ensures r.Some? <==> !body.nomeCompleto.Null? && !body.email.Null? && !body.senha.Null?
                         && LevelStorable(body.nivelAcesso)
    ensures r.Some? ==> r.value.id == u.id && r.value.dataCadastro == u.dataCadastro
    ensures r.Some? ==> Patched(body.nomeCompleto, u.nomeCompleto, r.value.nomeCompleto)
                        && Patched(body.email, u.email, r.value.email)
    ensures r.Some? ==> (body.senha.Absent? ==> r.value.senhaHash == u.senhaHash)
                        && (body.senha.Given? ==> r.value.senhaHash == novoHash)
    ensures r.Some? ==> (body.nivelAcesso.Absent? ==> r.value.nivelAcesso == u.nivelAcesso)
                        && (body.nivelAcesso.Given? ==> Some(r.value.nivelAcesso) == StoredInt(body.nivelAcesso.value))
    ensures r.Some? ==> (body.cidadeId.Absent? ==> r.value.cidadeId == u.cidadeId)
                        && (!body.cidadeId.Absent? ==> r.value.cidadeId == Get(body.cidadeId))
  {
    if body.nomeCompleto.Null? || body.email.Null? || body.senha.Null? || !LevelStorable(body.nivelAcesso) then None
    else Some(u.(nomeCompleto := if body.nomeCompleto.Given? then body.nomeCompleto.value else u.nomeCompleto,
                 email := if body.email.Given? then body.email.value else u.email,
                 senhaHash := if body.senha.Given? then novoHash else u.senhaHash,
                 nivelAcesso := if body.nivelAcesso.Given? then StoredInt(body.nivelAcesso.value).value
                                else u.nivelAcesso,
                 cidadeId := if body.cidadeId.Absent? then u.cidadeId else Get(body.cidadeId)))
  }

  const EmptyUsuarioBody := RegisterBody(Absent, Absent, Absent, Absent, Absent)

  lemma EmptyUsuarioPatch(u: Usuario, novoHash: string)
    ensures PatchUsuario(u, EmptyUsuarioBody, novoHash) == Some(u)
  {
  }

  /** Sending the same update again changes nothing more, except that a password sent
      is hashed afresh (`novo` is the second hash). */
  lemma PatchUsuarioIdempotent(u: Usuario, body: RegisterBody, novoHash: string, novo: string)
    requires PatchUsuario(u, body, novoHash).Some?
    ensures var v := PatchUsuario(u, body, novoHash).value;
            PatchUsuario(v, body, novo) == Some(v.(senhaHash := if body.senha.Given? then novo else v.senhaHash))
  {
  }

  /** The row at k may take the value v at commit: no other user has its email. */
  predicate EmailFreeAt(usuarios: seq<Usuario>, k: nat, v: Usuario) {
    forall j :: 0 <= j < |usuarios| && j != k ==> usuarios[j].email != v.email
  }

  /** The admin reaches the user `id`: it exists and, for a city admin, is of its city. */
  predicate Reaches(usuarios: seq<Usuario>, identity: int, id: int) {
    IsAdmin(FindUsuario(usuarios, identity)) && IndexOfUsuario(usuarios, id).Some?
    && !OutOfCity(FindUsuario(usuarios, identity).value, usuarios[IndexOfUsuario(usuarios, id).value])
  }

  /** A city admin's update carries a level the guard refuses (a null level is compared
      as well: `None == 4`). */
  predicate RefusedLevel(actor: Usuario, body: RegisterBody, asksAdminGlobal: Json -> bool) {
    !body.nivelAcesso.Absent? && Refused(actor, LevelOf(body.nivelAcesso), asksAdminGlobal)
  }

  /** The decision of `atualizar_usuario`: permission, lookup, the city check, then the
      assignments in the handler's order (a null password raises before the level
      check), then the commit. PUT /usuarios/<id> uses the guard `AsksAdminGlobal`. */
  function DecideAtualizar(usuarios: seq<Usuario>, identity: int, id: int, body: RegisterBody,
                           novoHash: string, asksAdminGlobal: Json -> bool): (r: Outcome<(nat, Usuario)>)
    ensures !IsAdmin(FindUsuario(usuarios, identity)) ==> r == Answer(Error(403, PermissaoNegada))
    ensures IsAdmin(FindUsuario(usuarios, identity)) && IndexOfUsuario(usuarios, id).None?
            ==> r == Answer(Raised(NotFound))
    ensures IsAdmin(FindUsuario(usuarios, identity)) && IndexOfUsuario(usuarios, id).Some?
            && OutOfCity(FindUsuario(usuarios, identity).value, usuarios[IndexOfUsuario(usuarios, id).value])
            ==> r == Answer(Error(403, PermissaoNegada))
    ensures Reaches(usuarios, identity, id) && body.senha.Null? ==> r == Answer(Raised(Failed))
    ensures Reaches(usuarios, identity, id) && !body.senha.Null?
            && RefusedLevel(FindUsuario(usuarios, identity).value, body, asksAdminGlobal)
            ==> r == Answer(Error(403, NegadoAdminGlobal))
    ensures Reaches(usuarios, identity, id) && !body.senha.Null?
            && !RefusedLevel(FindUsuario(usuarios, identity).value, body, asksAdminGlobal)
            ==> var k := IndexOfUsuario(usuarios, id).value;
                var v := PatchUsuario(usuarios[k], body, novoHash);
                if v.Some? && EmailFreeAt(usuarios, k, v.value) then r == Commit((k, v.value))
                else r == Answer(Raised(Failed))
    ensures r.Commit? ==> Reaches(usuarios, identity, id)
                          && IndexOfUsuario(usuarios, id) == Some(r.value.0)
                          && PatchUsuario(usuarios[r.value.0], body, novoHash) == Some(r.value.1)
                          && EmailFreeAt(usuarios, r.value.0, r.value.1)
  {
    var actor := FindUsuario(usuarios, identity);
    if !IsAdmin(actor) then Answer(Error(403, PermissaoNegada))
    else match IndexOfUsuario(usuarios, id)
      case None => Answer(Raised(NotFound))
      case Some(k) =>
        var u := usuarios[k];
        if OutOfCity(actor.value, u) then Answer(Error(403, PermissaoNegada))
        else if body.senha.Null? then Answer(Raised(Failed))
        else if RefusedLevel(actor.value, body, asksAdminGlobal) then Answer(Error(403, NegadoAdminGlobal))
        else match PatchUsuario(u, body, novoHash)
          case None => Answer(Raised(Failed))
          case Some(v) => if EmailFreeAt(usuarios, k, v) then Commit((k, v)) else Answer(Raised(Failed))
  }

  /** With the intended guard a city admin never makes anyone a global admin: after a
      committed update by a city admin the user is level 4 only if it already was. */
  lemma CityAdminGrantsNoGlobalAdmin(usuarios: seq<Usuario>, identity: int, id: int, body: RegisterBody,
                                     novoHash: string)
    requires FindUsuario(usuarios, identity).Some?
    requires FindUsuario(usuarios, identity).value.nivelAcesso == AdminCidade
    requires DecideAtualizar(usuarios, identity, id, body, novoHash, AsksAdminGlobal).Commit?
    ensures var (k, v) := DecideAtualizar(usuarios, identity, id, body, novoHash, AsksAdminGlobal).value;
            v.nivelAcesso == AdminGlobal ==> usuarios[k].nivelAcesso == AdminGlobal
  {
  }

  /** With the guard as written, a city admin who sends the level as the text "4"
      makes a user of its own city a global admin. */
  lemma TextLevelGrantsAdminGlobalAsWritten(actor: Usuario, target: Usuario, novoHash: string)
    requires actor.nivelAcesso == AdminCidade && target.nivelAcesso == Visualizacao
    requires actor.id != target.id && actor.email != target.email && target.cidadeId == actor.cidadeId
    ensures var body := RegisterBody(Absent, Absent, Absent, Given(JStr("4")), Absent);
            DecideAtualizar([actor, target], actor.id, target.id, body, novoHash, AsksAdminGlobalAsWritten)
              == Commit((1, target.(nivelAcesso := AdminGlobal)))
  {
    var us := [actor, target];
    assert FindUsuario(us, actor.id) == Some(actor) by {
      assert us[0] == actor;
    }
    assert IndexOfUsuario(us, target.id) == Some(1) by {
      assert us[0].id != target.id && us[1] == target;
    }
    var body := RegisterBody(Absent, Absent, Absent, Given(JStr("4")), Absent);
    assert StoredInt(JStr("4")) == Some(AdminGlobal) by {
      assert IntToString(AdminGlobal) == "4";
      StoredIntOfText(AdminGlobal);
    }
    assert !RefusedLevel(actor, body, AsksAdminGlobalAsWritten);
    assert PatchUsuario(target, body, novoHash) == Some(target.(nivelAcesso := AdminGlobal));
    assert EmailFreeAt(us, 1, target.(nivelAcesso := AdminGlobal));
  }

  /** The level-4 guard looks only at the requested level, so a city admin can demote
      a global admin of its own city. */
  lemma CityAdminCanDemoteGlobalAdmin(actor: Usuario, target: Usuario, novoHash: string)
    requires actor.nivelAcesso == AdminCidade && target.nivelAcesso == AdminGlobal
    requires actor.id != target.id && actor.email != target.email && target.cidadeId == actor.cidadeId
    ensures var body := RegisterBody(Absent, Absent, Absent, Given(JInt(Visualizacao)), Absent);
            DecideAtualizar([actor, target], actor.id, target.id, body, novoHash, AsksAdminGlobal)
              == Commit((1, target.(nivelAcesso := Visualizacao)))
  {
    var us := [actor, target];
    assert FindUsuario(us, actor.id) == Some(actor) by {
      assert us[0] == actor;
    }
    assert IndexOfUsuario(us, target.id) == Some(1) by {
      assert us[0].id != target.id && us[1] == target;
    }
  }

  lemma PatchKeepsValid(usuarios: seq<Usuario>, k: nat, v: Usuario)
    requires Unique(usuarios, UsuarioId) && Unique(usuarios, UsuarioEmail)
    requires k < |usuarios| && v.id == usuarios[k].id && EmailFreeAt(usuarios, k, v)
    ensures Unique(usuarios[k := v], UsuarioId) && Unique(usuarios[k := v], UsuarioEmail)
  {
    UniqueReplaceSameKey(usuarios, k, v, UsuarioId);
    UniqueReplace(usuarios, k, v, UsuarioEmail);
  }

  /** PUT /usuarios/<id>. */
  method Atualizar(db: Database, identity: int, id: int, body: RegisterBody, novoHash: string,
                   ip: Option<string>, now: Instant, auditFails: bool) returns (r: Response)
    requires db.Valid()
    modifies db
    ensures db.Valid()
    ensures db.cidades == old(db.cidades) && db.equipamentos == old(db.equipamentos)
    ensures db.profissionais == old(db.profissionais)
    ensures match DecideAtualizar(old(db.usuarios), identity, id, body, novoHash, AsksAdminGlobal)
            case Answer(a) => r == a && db.usuarios == old(db.usuarios) && db.auditoria == old(db.auditoria)
            case Commit(kv) =>
              kv.0 < |old(db.usuarios)|
              && r == Ok(UsuarioJson(kv.1)) && db.usuarios == old(db.usuarios)[kv.0 := kv.1]
              && db.auditoria == Logged(old(db.auditoria), auditFails, identity, "UPDATE", "usuarios", id,
                                        Some(UsuarioJson(old(db.usuarios)[kv.0])), Some(UsuarioJson(kv.1)), ip, now)
  {
    match DecideAtualizar(db.usuarios, identity, id, body, novoHash, AsksAdminGlobal)
    case Answer(a) => r := a;
    case Commit(kv) =>
      var (k, v) := kv;
      var antes := db.usuarios[k];
      PatchKeepsValid(db.usuarios, k, v);
      db.usuarios := db.usuarios[k := v];
      Registrar(db, identity, "UPDATE", "usuarios", id, Some(UsuarioJson(antes)), Some(UsuarioJson(v)),
                ip, now, auditFails);
      r := Ok(UsuarioJson(v));
  }

  // ---------------------------------------------------------------------------
  // Deletion
  // ---------------------------------------------------------------------------

  /** Some audit entry names the user as its author. Deleting such a user makes the
      ORM null out `auditoria.usuario_id`, a NOT NULL column, and the commit fails. */
  predicate HasAudit(log: seq<Auditoria>, id: int) {
    exists i :: 0 <= i < |log| && log[i].usuarioId == id
  }

  function Without<T>(rows: seq<T>, k: nat): (r: seq<T>)
    requires k < |rows|
    ensures |r| == |rows| - 1
    ensures forall i :: 0 <= i < k ==> r[i] == rows[i]
    ensures forall i :: k <= i < |r| ==> r[i] == rows[i + 1]
  {
    rows[..k] + rows[k + 1..]
  }

  /** The decision of `deletar_usuario`: permission, lookup, the self-deletion guard,
      the city check, then the commit. */
  function DecideDeletar(usuarios: seq<Usuario>, log: seq<Auditoria>, identity: int, id: int): (r: Outcome<nat>)
    ensures !IsAdmin(FindUsuario(usuarios, identity)) ==> r == Answer(Error(403, PermissaoNegada))
    ensures IsAdmin(FindUsuario(usuarios, identity)) && IndexOfUsuario(usuarios, id).None?
            ==> r == Answer(Raised(NotFound))
    ensures IsAdmin(FindUsuario(usuarios, identity)) && IndexOfUsuario(usuarios, id).Some? && id == identity
            ==> r == Answer(Error(400, ProprioUsuario))
    ensures IsAdmin(FindUsuario(usuarios, identity)) && IndexOfUsuario(usuarios, id).Some? && id != identity
            && OutOfCity(FindUsuario(usuarios, identity).value, usuarios[IndexOfUsuario(usuarios, id).value])
            ==> r == Answer(Error(403, PermissaoNegada))
    ensures Reaches(usuarios, identity, id) && id != identity && HasAudit(log, id) ==> r == Answer(Raised(Failed))
    ensures r.Commit? <==> IsAdmin(FindUsuario(usuarios, identity)) && IndexOfUsuario(usuarios, id).Some?
                           && id != identity
                           && !OutOfCity(FindUsuario(usuarios, identity).value, usuarios[IndexOfUsuario(usuarios, id).value])
                           && !HasAudit(log, id)
    ensures r.Commit? ==> IndexOfUsuario(usuarios, id) == Some(r.value)
  {
    var actor := FindUsuario(usuarios, identity);
    if !IsAdmin(actor) then Answer(Error(403, PermissaoNegada))
    else match IndexOfUsuario(usuarios, id)
      case None => Answer(Raised(NotFound))
      case Some(k) =>
        if id == identity then Answer(Error(400, ProprioUsuario))
        else if OutOfCity(actor.value, usuarios[k]) then Answer(Error(403, PermissaoNegada))
        else if HasAudit(log, id) then Answer(Raised(Failed))
        else Commit(k)
  }

  /** Nobody can delete their own account, and nobody who has ever acted through an
      audited route can be deleted at all. */
  lemma DeletionGuards(usuarios: seq<Usuario>, log: seq<Auditoria>, identity: int, id: int)
    ensures DecideDeletar(usuarios, log, identity, id).Commit? ==> id != identity && !HasAudit(log, id)
    ensures HasAudit(log, id) ==> !DecideDeletar(usuarios, log, identity, id).Commit?
  {
  }

  /** Removing the row of a unique key leaves no row with that key. */
  lemma {:induction false} WithoutRemovesKey(usuarios: seq<Usuario>, k: nat)
    requires Unique(usuarios, UsuarioId) && k < |usuarios|
    ensures forall i :: 0 <= i < |Without(usuarios, k)| ==> Without(usuarios, k)[i].id != usuarios[k].id
  {
    var r := Without(usuarios, k);
    forall i | 0 <= i < |r| ensures r[i].id != usuarios[k].id {
      if i < k {
        assert UsuarioId(usuarios[i]) != UsuarioId(usuarios[k]);
      } else {
        assert UsuarioId(usuarios[k]) != UsuarioId(usuarios[i + 1]);
      }
    }
  }

  /** DELETE /usuarios/<id>: a hard delete. */
  method Deletar(db: Database, identity: int, id: int, ip: Option<string>, now: Instant,
                 auditFails: bool) returns (r: Response)
    requires db.Valid()
    modifies db
    ensures db.Valid()
    ensures db.cidades == old(db.cidades) && db.equipamentos == old(db.equipamentos)
    ensures db.profissionais == old(db.profissionais)
    ensures match DecideDeletar(old(db.usuarios), old(db.auditoria), identity, id)
            case Answer(a) => r == a && db.usuarios == old(db.usuarios) && db.auditoria == old(db.auditoria)
            case Commit(k) =>
              k < |old(db.usuarios)|
              && r == Message(200, UsuarioDeletado) && db.usuarios == Without(old(db.usuarios), k)
              && FindUsuario(db.usuarios, id).None?
              && db.auditoria == Logged(old(db.auditoria), auditFails, identity, "DELETE", "usuarios", id,
                                        Some(UsuarioJson(old(db.usuarios)[k])), None, ip, now)
  {
    match DecideDeletar(db.usuarios, db.auditoria, identity, id)
    case Answer(a) => r := a;
    case Commit(k) =>
      var antes := db.usuarios[k];
      UniqueRemove(db.usuarios, k, UsuarioId);
      UniqueRemove(db.usuarios, k, UsuarioEmail);
      WithoutRemovesKey(db.usuarios, k);
      db.usuarios := Without(db.usuarios, k);
      Registrar(db, identity, "DELETE", "usuarios", id, Some(UsuarioJson(antes)), None, ip, now, auditFails);
      r := Message(200, UsuarioDeletado);
  }
}
