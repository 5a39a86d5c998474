/** The `/api/auth` endpoints: login, the current user, and self-registration. */
module AuthRoutes {
  import opened Common
  import opened Records
  import opened Http

  /** A signed access token; only the identity it carries matters here. */
  datatype Token = AccessToken(identity: int)

  datatype LoginBody = LoginBody(email: Field<string>, senha: Field<string>)

  /** What POST /login answers: 200 with a token and the user's public record, or an
      error status with its message. */
  datatype LoginReply =
    | Authenticated(accessToken: Token, usuario: map<string, Json>)
    | Rejected(status: nat, error: string)

  const CamposObrigatorios := "Email e senha são obrigatórios"
  const CredenciaisInvalidas := "Credenciais inválidas"
  const UsuarioNaoEncontrado := "Usuário não encontrado"
  const EmailJaCadastrado := "Email já cadastrado"

  /** Python truthiness of an optional string: None and '' are false. */
  predicate Truthy(s: Option<string>) {
    s.Some? && s.value != ""
  }

  /** The first user with the given email (`filter_by(email=...).first()`). */
  function FindByEmail(usuarios: seq<Usuario>, email: string): (r: Option<Usuario>)
    ensures r.Some? ==> r.value in usuarios && r.value.email == email
    ensures r.None? <==> forall i :: 0 <= i < |usuarios| ==> usuarios[i].email != email
  {
    Find(usuarios, (u: Usuario) => u.email == email)
  }

  /** POST /login. `checkPw(senha, hash)` is bcrypt's password check. */
  function Login(usuarios: seq<Usuario>, body: LoginBody, checkPw: (string, string) -> bool): (r: LoginReply)
    ensures !Truthy(Get(body.email)) || !Truthy(Get(body.senha)) <==> r == Rejected(400, CamposObrigatorios)
    ensures r.Authenticated? <==>
              Truthy(Get(body.email)) && Truthy(Get(body.senha))
              && exists i :: 0 <= i < |usuarios| && usuarios[i].email == body.email.value
                             && usuarios[i] == FindByEmail(usuarios, body.email.value).value
                             && checkPw(body.senha.value, usuarios[i].senhaHash)
    ensures r.Authenticated? ==>
              exists u :: u in usuarios && u.email == body.email.value && checkPw(body.senha.value, u.senhaHash)
                          && r.accessToken == AccessToken(u.id) && r.usuario == UsuarioToDict(u)
    ensures r.Rejected? ==> r.status in {400, 401}
  {
    var email := Get(body.email);
    var senha := Get(body.senha);
    if !Truthy(email) || !Truthy(senha) then Rejected(400, CamposObrigatorios)
    else
      match FindByEmail(usuarios, email.value)
      case None => Rejected(401, CredenciaisInvalidas)
      case Some(u) =>
        if !checkPw(senha.value, u.senhaHash) then Rejected(401, CredenciaisInvalidas)
        else Authenticated(AccessToken(u.id), UsuarioToDict(u))
  }

  /** An unknown email and a known email with a wrong password get the same answer,
      so the answer does not reveal which emails are registered. */
  lemma {:induction false} UnknownEmailLooksLikeWrongPassword(usuarios: seq<Usuario>, u: Usuario,
                                                            senha: string, checkPw: (string, string) -> bool)
    requires u in usuarios && senha != "" && u.email != ""
    requires Unique(usuarios, UsuarioEmail)
    requires !checkPw(senha, u.senhaHash)
    ensures var body := LoginBody(Given(u.email), Given(senha));
            var without := Filter(usuarios, (v: Usuario) => v.email != u.email);
            Login(usuarios, body, checkPw) == Login(without, body, checkPw) == Rejected(401, CredenciaisInvalidas)
  {
    var without := Filter(usuarios, (v: Usuario) => v.email != u.email);
    var i :| 0 <= i < |usuarios| && usuarios[i] == u;
    var found := FindByEmail(usuarios, u.email);
    assert found.Some?;
    assert found.value == u by {
      var j :| 0 <= j < |usuarios| && usuarios[j] == found.value;
      UniqueKeyIndex(usuarios, UsuarioEmail, i, j);
    }
    assert FindByEmail(without, u.email).None? by {
      forall k | 0 <= k < |without| ensures without[k].email != u.email {
        assert without[k] in without;
      }
    }
  }

  /** GET /me for the token's identity. */
  function Me(usuarios: seq<Usuario>, identity: int): (r: Response)
    ensures FindUsuario(usuarios, identity).None? <==> r == Error(404, UsuarioNaoEncontrado)
    ensures FindUsuario(usuarios, identity).Some? ==>
              r == Ok(JObj(UsuarioToDict(FindUsuario(usuarios, identity).value)))
  {
    match FindUsuario(usuarios, identity)
    case None => Error(404, UsuarioNaoEncontrado)
    case Some(u) => Ok(JObj(UsuarioToDict(u)))
  }

  /** The body of a registration or of a user creation or update. The level is kept as
      the JSON value sent, since the handlers compare it before it is stored. */
  datatype RegisterBody = RegisterBody(nomeCompleto: Field<string>, email: Field<string>,
                                       senha: Field<string>, nivelAcesso: Field<Json>,
                                       cidadeId: Field<int>)

  /** `data.get('nivel_acesso', 1)`: the value sent, null for a null, 1 when missing. */
  function LevelOf(f: Field<Json>): (j: Json)
    ensures f.Absent? ==> j == JInt(Visualizacao)
    ensures f.Null? ==> j == JNull
    ensures f.Given? ==> j == f.value
  {
    match f
    case Absent => JInt(Visualizacao)
    case Null => JNull
    case Given(v) => v
  }

  /** The user a registration or a user creation inserts, or None when a NOT NULL
      column would be null and the commit fails. */
  function NewUsuario(usuarios: seq<Usuario>, nome: Option<string>, email: Option<string>,
                      senhaHash: string, nivel: Option<int>, cidadeId: Option<int>, now: Instant): (r: Option<Usuario>)
    ensures r.Some? <==> nome.Some? && email.Some? && nivel.Some?
    ensures r.Some? ==> r.value.id !in Map(usuarios, UsuarioId) && r.value.email == email.value
                        && r.value.nomeCompleto == nome.value && r.value.nivelAcesso == nivel.value
                        && r.value.cidadeId == cidadeId && r.value.senhaHash == senhaHash
  {
    if nome.Some? && email.Some? && nivel.Some? then
      Some(Usuario(NextId(Map(usuarios, UsuarioId)), nome.value, email.value, senhaHash, nivel.value,
                   cidadeId, now))
    else None
  }

  /** Adding a user with a fresh key and an unused email keeps the users table valid. */
  lemma AddUsuarioKeepsValid(usuarios: seq<Usuario>, u: Usuario)
    requires Unique(usuarios, UsuarioId) && Unique(usuarios, UsuarioEmail)
    requires u.id !in Map(usuarios, UsuarioId)
    requires forall i :: 0 <= i < |usuarios| ==> usuarios[i].email != u.email
    ensures Unique(usuarios + [u], UsuarioId) && Unique(usuarios + [u], UsuarioEmail)
  {
    forall i | 0 <= i < |usuarios| ensures UsuarioId(usuarios[i]) != UsuarioId(u) {
      assert Map(usuarios, UsuarioId)[i] == usuarios[i].id;
    }
    UniqueAppend(usuarios, u, UsuarioId);
    UniqueAppend(usuarios, u, UsuarioEmail);
  }

  /** POST /register: open to anyone, with no token and no audit entry; the level is
      taken from the body (1 when missing). `senhaHash` is bcrypt's hash of the
      password, computed with a fresh salt. */
  method Register(db: Database, body: RegisterBody, senhaHash: string, now: Instant) returns (r: Response)
    requires db.Valid()
    modifies db
    ensures db.Valid()
    ensures db.cidades == old(db.cidades) && db.equipamentos == old(db.equipamentos)
    ensures db.profissionais == old(db.profissionais) && db.auditoria == old(db.auditoria)
    ensures Get(body.email).Some? && FindByEmail(old(db.usuarios), body.email.value).Some?
            ==> r == Error(400, EmailJaCadastrado) && db.usuarios == old(db.usuarios)
    ensures r.Reply? && r.status == 201 <==>
              && (Get(body.email).Some? ==> FindByEmail(old(db.usuarios), body.email.value).None?)
              && Get(body.senha).Some?
              && NewUsuario(old(db.usuarios), Get(body.nomeCompleto), Get(body.email), senhaHash,
                            StoredInt(LevelOf(body.nivelAcesso)), Get(body.cidadeId), now).Some?
    ensures r.Reply? && r.status == 201 ==>
              var u := NewUsuario(old(db.usuarios), Get(body.nomeCompleto), Get(body.email), senhaHash,
                                  StoredInt(LevelOf(body.nivelAcesso)), Get(body.cidadeId), now).value;
              db.usuarios == old(db.usuarios) + [u] && r == Created(JObj(UsuarioToDict(u)))
    ensures !(r.Reply? && r.status == 201) ==> db.usuarios == old(db.usuarios)
    ensures r.Raised? ==> r.fault == Failed
  {
    var email := Get(body.email);
    if email.Some? && FindByEmail(db.usuarios, email.value).Some? {
      return Error(400, EmailJaCadastrado);
    }
    if Get(body.senha).None? {
      // `None.encode` raises AttributeError
      return Raised(Failed);
    }
    var u := NewUsuario(db.usuarios, Get(body.nomeCompleto), email, senhaHash,
                        StoredInt(LevelOf(body.nivelAcesso)), Get(body.cidadeId), now);
    if u.None? {
      return Raised(Failed);
    }
    AddUsuarioKeepsValid(db.usuarios, u.value);
    db.usuarios := db.usuarios + [u.value];
    r := Created(JObj(UsuarioToDict(u.value)));
  }
}
