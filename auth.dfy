/** The client's session: the provider that restores the signed-in user at start-up,
    logs in and out, and answers the permission questions the pages ask. */
module Auth {
  import opened Common
  import opened Records
  import opened Browser
  import opened ApiClient
  import AuthRoutes

  /** The signed-in user as the client keeps it: the object the backend's `to_dict`
      wrote. */
  type ClientUser = map<string, Json>

  /** `user.nivel_acesso`, when it is a number. */
  function NivelAcesso(u: ClientUser): (n: Option<int>)
    ensures n.Some? <==> "nivel_acesso" in u && u["nivel_acesso"].JInt?
    ensures n.Some? ==> u["nivel_acesso"] == JInt(n.value)
  {
    if "nivel_acesso" in u && u["nivel_acesso"].JInt? then Some(u["nivel_acesso"].i) else None
  }

  /** `isAuthenticated()`: someone is signed in. */
  predicate IsAuthenticated(user: Option<ClientUser>) {
    user.Some?
  }

  /** `hasPermission(k)`: someone is signed in and their level is at least k. */
  predicate HasPermission(user: Option<ClientUser>, k: int) {
    user.Some? && NivelAcesso(user.value).Some? && NivelAcesso(user.value).value >= k
  }

  /** Nobody signed in holds no permission, and a permission implies every lower one. */
  lemma HasPermissionLaws(user: Option<ClientUser>, k: int, lower: int)
    ensures !IsAuthenticated(user) ==> !HasPermission(user, k)
    ensures HasPermission(user, k) ==> IsAuthenticated(user)
    ensures HasPermission(user, k) && lower <= k ==> HasPermission(user, lower)
  {
  }

  /** For a user the backend signed in, the client's permission check reads the user's
      own level. */
  lemma PermissionOfSignedInUser(u: Usuario, k: int)
    ensures NivelAcesso(UsuarioToDict(u)) == Some(u.nivelAcesso)
    ensures HasPermission(Some(UsuarioToDict(u)), k) <==> u.nivelAcesso >= k
  {
  }

  /** What `auth.login` resolves to: the token and user of a 200 reply, or the rejected
      request. */
  datatype LoginResponse = Accepted(accessToken: string, usuario: ClientUser) | Failed(error: ApiError)

  /** The backend's answer as the client receives it; `encode` is the token's JWT text. */
  function OverHttp(reply: AuthRoutes.LoginReply, encode: AuthRoutes.Token -> string): (r: LoginResponse)
    ensures reply.Authenticated? <==> r.Accepted?
    ensures reply.Authenticated? ==> r == Accepted(encode(reply.accessToken), reply.usuario)
    ensures reply.Rejected? ==> r.error.status == Some(reply.status)
                                && ErrorMessage(r.error) == Some(reply.error)
  {
    match reply
    case Authenticated(t, u) => Accepted(encode(t), u)
    case Rejected(status, msg) => Failed(ApiError(Some(status), Some(JObj(map["error" := JStr(msg)]))))
  }

  /** What `login` returns to the login page. */
  datatype LoginResult = LoginResult(success: bool, error: Option<string>)

  const ErroLogin := "Erro ao fazer login"

  /** The user the start-up effect adopts from storage: only when both keys are truthy
      and the user entry is a serialised object. */
  function StoredUser(storage: map<string, Stored>): (u: Option<ClientUser>)
    ensures u.Some? ==> TokenKey in storage && UserKey in storage && storage[UserKey] == UserText(u.value)
    ensures u.Some? <==> Truthy(if TokenKey in storage then Some(storage[TokenKey]) else None)
                         && UserKey in storage && storage[UserKey].UserText?
  {
    var token := if TokenKey in storage then Some(storage[TokenKey]) else None;
    if Truthy(token) && UserKey in storage && storage[UserKey].UserText? then Some(storage[UserKey].user)
    else None
  }

  /** The storage a successful login leaves. */
  function SignedIn(storage: map<string, Stored>, token: string, u: ClientUser): (s: map<string, Stored>)
    ensures TokenKey in s && s[TokenKey] == Text(token) && UserKey in s && s[UserKey] == UserText(u)
    ensures forall k :: k != TokenKey && k != UserKey ==> (k in s <==> k in storage)
  {
    storage[TokenKey := Text(token)][UserKey := UserText(u)]
  }

  /** A page load after a login restores that login's user; after a logout or a 401 it
      starts with nobody signed in. */
  lemma ReloadRestoresSession(storage: map<string, Stored>, token: string, u: ClientUser)
    ensures token != "" ==> StoredUser(SignedIn(storage, token, u)) == Some(u)
    ensures token == "" ==> StoredUser(SignedIn(storage, token, u)).None?
    ensures StoredUser(Cleared(storage)).None?
  {
  }

  class AuthProvider {
    var user: Option<ClientUser>
    var loading: bool

    /** The provider's initial state: nobody signed in, still loading. */
    constructor ()
      ensures user.None? && loading
    {
      user := None;
      loading := true;
    }

    /** The start-up effect. With both keys truthy it adopts the parsed user; text that
        is not a serialised object makes `JSON.parse` throw, and the effect stops there,
        still loading. Otherwise it only stops loading. */
    method Bootstrap(w: Window)
      modifies this
      ensures var token := w.GetItem(TokenKey);
              var userData := w.GetItem(UserKey);
              if Truthy(token) && Truthy(userData) then
                if userData.value.UserText? then user == StoredUser(w.storage) && !loading
                else user == old(user) && loading == old(loading)
              else user == old(user) && !loading
    {
      var token := w.GetItem(TokenKey);
      var userData := w.GetItem(UserKey);
      if Truthy(token) && Truthy(userData) {
        if !userData.value.UserText? {
          return;
        }
        user := Some(userData.value.user);
      }
      loading := false;
    }

    /** `login(email, senha)`. On success the token and the user are stored and adopted;
        on failure the response interceptor has already run (a 401 clears storage and
        loads the login page), the in-memory user stays, and the backend's message or
        'Erro ao fazer login' is returned. */
    method Login(w: Window, response: LoginResponse) returns (r: LoginResult)
      requires w.Valid()
      modifies this, w
      ensures w.Valid() && loading == old(loading)
      ensures response.Accepted? ==>
                && w.storage == SignedIn(old(w.storage), response.accessToken, response.usuario)
                && w.path == old(w.path) && w.reloaded == old(w.reloaded)
                && user == Some(response.usuario) && r == LoginResult(true, None)
      ensures response.Failed? ==>
                && user == old(user)
                && r == LoginResult(false, Some(MessageOr(response.error, ErroLogin)))
                && (response.error.status == Some(401) ==>
                      w.storage == Cleared(old(w.storage)) && w.path == "/login" && w.reloaded)
                && (response.error.status != Some(401) ==>
                      w.storage == old(w.storage) && w.path == old(w.path) && w.reloaded == old(w.reloaded))
    {
      match response
      case Accepted(token, u) =>
        w.SetItem(TokenKey, Text(token));
        w.SetItem(UserKey, UserText(u));
        user := Some(u);
        r := LoginResult(true, None);
      case Failed(e) =>
        var rejected := RejectResponse(w, e);
        r := LoginResult(false, Some(MessageOr(rejected, ErroLogin)));
    }

    /** `logout()`: both keys removed, nobody signed in. Applying it again yields the
        same state (`Browser.ClearedIdempotent`). */
    method Logout(w: Window)
      requires w.Valid()
      modifies this, w
      ensures w.Valid() && loading == old(loading)
      ensures w.storage == Cleared(old(w.storage)) && user.None?
      ensures w.path == old(w.path) && w.reloaded == old(w.reloaded)
    {
      w.RemoveItem(TokenKey);
      w.RemoveItem(UserKey);
      assert w.storage == old(w.storage) - {TokenKey} - {UserKey};
      user := None;
    }
  }

  /** A login the backend accepts leaves the client holding that user with that user's
      permissions; every rejection carries the backend's own message. */
  lemma LoginOverHttp(usuarios: seq<Usuario>, body: AuthRoutes.LoginBody, checkPw: (string, string) -> bool,
                      encode: AuthRoutes.Token -> string, k: int)
    ensures var reply := AuthRoutes.Login(usuarios, body, checkPw);
            reply.Authenticated? ==>
              exists u :: u in usuarios && OverHttp(reply, encode).usuario == UsuarioToDict(u)
                          && (HasPermission(Some(OverHttp(reply, encode).usuario), k) <==> u.nivelAcesso >= k)
    ensures var reply := AuthRoutes.Login(usuarios, body, checkPw);
            reply.Rejected? ==> MessageOr(OverHttp(reply, encode).error, ErroLogin) ==
                                (if reply.error != "" then reply.error else ErroLogin)
  {
    var reply := AuthRoutes.Login(usuarios, body, checkPw);
    if reply.Authenticated? {
      var u :| u in usuarios && u.email == body.email.value && checkPw(body.senha.value, u.senhaHash)
               && reply.accessToken == AuthRoutes.AccessToken(u.id) && reply.usuario == UsuarioToDict(u);
      PermissionOfSignedInUser(u, k);
    }
  }
}
