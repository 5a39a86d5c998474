/** The users page: the form and the payload it submits, the edit, delete and close
    handlers, the level labels and options, and the access gate. */
module UsuariosPage {
  import opened Common
  import opened Records
  import opened Http
  import opened ApiClient
  import opened Auth
  import AuthRoutes
  import UsuariosRoutes
  import Layout
  import AppRoutes

  // ---------------------------------------------------------------------------
  // The form and its payload
  // ---------------------------------------------------------------------------

  /** The page's `formData`: the level is a number (the select parses its value), the
      city is the text value of the city select. */
  datatype Form = Form(nomeCompleto: string, email: string, senha: string, nivelAcesso: int, cidadeId: string)

  /** The form the page starts with and returns to after a submit or a close. */
  const EmptyForm := Form("", "", "", Visualizacao, "")

  /** `cidade_id` as submitted: '' becomes null, anything else goes through `parseInt`,
      whose NaN `JSON.stringify` writes as null. */
  function CidadePayload(cidadeId: string): (j: Json)
    ensures cidadeId == "" ==> j == JNull
    ensures cidadeId != "" ==> j == OptInt(ParseIntJs(cidadeId))
  {
    if cidadeId == "" then JNull
    else match ParseIntJs(cidadeId)
      case None => JNull
      case Some(n) => JInt(n)
  }

  /** The object `handleSubmit` sends: every member of the form, without the password
      when an edit leaves it empty, and with the city converted. */
  function SubmitPayload(form: Form, editing: bool): (m: map<string, Json>)
    ensures m.Keys == {"nome_completo", "email", "nivel_acesso", "cidade_id"}
                      + (if editing && form.senha == "" then {} else {"senha"})
    ensures m["nome_completo"] == JStr(form.nomeCompleto) && m["email"] == JStr(form.email)
    ensures m["nivel_acesso"] == JInt(form.nivelAcesso) && m["cidade_id"] == CidadePayload(form.cidadeId)
    ensures "senha" in m ==> m["senha"] == JStr(form.senha)
  {
    var copy := map["nome_completo" := JStr(form.nomeCompleto), "email" := JStr(form.email),
                    "senha" := JStr(form.senha), "nivel_acesso" := JInt(form.nivelAcesso),
                    "cidade_id" := JStr(form.cidadeId)];
    var kept := if editing && form.senha == "" then copy - {"senha"} else copy;
    kept["cidade_id" := CidadePayload(form.cidadeId)]
  }

  /** The payload built step by step as `handleSubmit` does: a copy of the form, the
      password deleted when an edit leaves it empty, then the city converted. */
  method BuildPayload(f: Form, isEdit: bool) returns (m: map<string, Json>)
    ensures m == SubmitPayload(f, isEdit)
  {
    m := map["nome_completo" := JStr(f.nomeCompleto), "email" := JStr(f.email),
             "senha" := JStr(f.senha), "nivel_acesso" := JInt(f.nivelAcesso),
             "cidade_id" := JStr(f.cidadeId)];
    if isEdit && m["senha"] == JStr("") {
      m := m - {"senha"};
    }
    assert m["cidade_id"] == JStr(f.cidadeId);
    if m["cidade_id"] == JStr("") {
      m := m["cidade_id" := JNull];
    } else {
      m := m["cidade_id" := OptInt(ParseIntJs(f.cidadeId))];
    }
  }

  /** How the backend reads a text member of the payload. */
  function TextField(m: map<string, Json>, key: string): Option<Field<string>> {
    if key !in m then Some(Absent)
    else match m[key]
      case JNull => Some(Null)
      case JStr(s) => Some(Given(s))
      case _ => None
  }

  /** How the backend reads an integer member of the payload. */
  function IntField(m: map<string, Json>, key: string): Option<Field<int>> {
    if key !in m then Some(Absent)
    else match m[key]
      case JNull => Some(Null)
      case JInt(n) => Some(Given(n))
      case _ => None
  }

  /** How the backend reads a member kept as the JSON value sent. */
  function JsonField(m: map<string, Json>, key: string): Field<Json> {
    if key !in m then Absent else if m[key] == JNull then Null else Given(m[key])
  }

  /** The body the user routes read from a payload; None for a member of another type. */
  function BodyOf(m: map<string, Json>): Option<AuthRoutes.RegisterBody> {
    var n, e, s := TextField(m, "nome_completo"), TextField(m, "email"), TextField(m, "senha");
    var l, c := Some(JsonField(m, "nivel_acesso")), IntField(m, "cidade_id");
    if n.Some? && e.Some? && s.Some? && l.Some? && c.Some? then
      Some(AuthRoutes.RegisterBody(n.value, e.value, s.value, l.value, c.value))
    else None
  }

  /** What the backend receives from a submitted form: the name, email and level as
      typed, the password unless an edit left it empty, and the city as a number, or
      null when none is chosen or the text is not a number. */
  lemma SubmittedBody(form: Form, editing: bool)
    ensures var b := BodyOf(SubmitPayload(form, editing));
            && b.Some?
            && b.value.nomeCompleto == Given(form.nomeCompleto) && b.value.email == Given(form.email)
            && b.value.nivelAcesso == Given(JInt(form.nivelAcesso))
            && b.value.senha == (if editing && form.senha == "" then Absent else Given(form.senha))
            && b.value.cidadeId == (if form.cidadeId != "" && ParseIntJs(form.cidadeId).Some?
                                    then Given(ParseIntJs(form.cidadeId).value) else Null)
  {
    var m := SubmitPayload(form, editing);
    assert TextField(m, "nome_completo") == Some(Given(form.nomeCompleto));
    assert TextField(m, "email") == Some(Given(form.email));
    assert TextField(m, "senha") == Some(if editing && form.senha == "" then Absent else Given(form.senha));
    assert JsonField(m, "nivel_acesso") == Given(JInt(form.nivelAcesso));
    assert IntField(m, "cidade_id") == Some(if form.cidadeId != "" && ParseIntJs(form.cidadeId).Some?
                                             then Given(ParseIntJs(form.cidadeId).value) else Null);
  }

  /** `handleEdit`'s form for a listed user: the password empty, the city as text, or
      '' when it has none (or the falsy 0). */
  function FormFor(u: Usuario): (f: Form)
    ensures f.senha == "" && f.nomeCompleto == u.nomeCompleto && f.email == u.email
    ensures f.nivelAcesso == u.nivelAcesso
    ensures f.cidadeId == "" <==> u.cidadeId.None? || u.cidadeId.value == 0
  {
    var c := if u.cidadeId.Some? && u.cidadeId.value != 0 then IntToString(u.cidadeId.value) else "";
    NoSpaceInNumber(if u.cidadeId.Some? then u.cidadeId.value else 0);
    Form(u.nomeCompleto, u.email, "", u.nivelAcesso, c)
  }

  /** Opening a user and saving the form untouched keeps that user as it was, password
      included; only a city id of 0, which the form shows as none, is saved as null. */
  lemma EditRoundTrip(u: Usuario, novoHash: string)
    ensures var b := BodyOf(SubmitPayload(FormFor(u), true));
            && b.Some?
            && UsuariosRoutes.PatchUsuario(u, b.value, novoHash)
               == Some(u.(cidadeId := if u.cidadeId == Some(0) then None else u.cidadeId))
  {
    SubmittedBody(FormFor(u), true);
    if u.cidadeId.Some? && u.cidadeId.value != 0 {
      ParseIntJsOfIntToString(u.cidadeId.value);
    }
  }

  // ---------------------------------------------------------------------------
  // Labels, options and the gate
  // ---------------------------------------------------------------------------

  /** `getNivelAcessoTexto`: a `switch`, so only the numbers 1 to 4 select a case. */
  function NivelAcessoTexto(nivel: Json): (text: string)
    ensures nivel == JInt(Editor) <==> text == "Editor"
    ensures nivel == JInt(AdminCidade) <==> text == "Admin Cidade"
    ensures nivel == JInt(AdminGlobal) <==> text == "Admin Global"
    ensures nivel !in {JInt(Editor), JInt(AdminCidade), JInt(AdminGlobal)} <==> text == "Visualização"
  {
    match nivel
    case JInt(n) =>
      if n == 2 then "Editor" else if n == 3 then "Admin Cidade" else if n == 4 then "Admin Global"
      else "Visualização"
    case _ => "Visualização"
  }

  /** The list's label and the frame's label agree on every user. */
  lemma LabelsAgree(u: ClientUser)
    requires "nivel_acesso" in u
    ensures NivelAcessoTexto(u["nivel_acesso"]) == Layout.RoleLabel(Some(u))
  {
  }

  /** The level choices of the form, as (level, label): 'Admin Global' only when the
      signed-in user's level is the number 4. */
  function NivelOptions(user: Option<ClientUser>): (opts: seq<(int, string)>)
    ensures |opts| >= 3 && opts[..3] == [(1, "Visualização"), (2, "Editor"), (3, "Admin Cidade")]
    ensures (4, "Admin Global") in opts <==> user.Some? && NivelAcesso(user.value) == Some(AdminGlobal)
  {
    [(1, "Visualização"), (2, "Editor"), (3, "Admin Cidade")]
    + (if user.Some? && NivelAcesso(user.value) == Some(AdminGlobal) then [(4, "Admin Global")] else [])
  }

  /** Each option's label is the list's label for its level, and a city admin is
      offered no level the backend's level-4 guard refuses it. */
  lemma OptionsAgreeWithBackend(user: Option<ClientUser>, actor: Usuario)
    ensures forall o :: o in NivelOptions(user) ==> NivelAcessoTexto(JInt(o.0)) == o.1
    ensures forall o :: o in NivelOptions(user) ==> Visualizacao <= o.0 <= AdminGlobal
    ensures actor.nivelAcesso == AdminCidade ==>
              forall o :: o in NivelOptions(Some(UsuarioToDict(actor))) ==> o.0 != AdminGlobal
  {
    PermissionOfSignedInUser(actor, AdminGlobal);
  }

  /** The page shows its content only to level 3 and above, the level its route gate
      already demands. */
  predicate AccessDenied(user: Option<ClientUser>) {
    !HasPermission(user, AdminCidade)
  }

  lemma GateMatchesRoute()
    ensures AppRoutes.RouteFor("/usuarios").Some?
    ensures AppRoutes.RouteFor("/usuarios").value.requiredLevel == Some(AdminCidade)
    ensures forall user :: AccessDenied(user) <==> !HasPermission(user, AppRoutes.RouteFor("/usuarios").value.requiredLevel.value)
  {
    assert AppRoutes.Routes[7].path == "/usuarios";
    assert AppRoutes.RouteFor("/usuarios") == Some(AppRoutes.Routes[7]);
  }

  /** `getCidadeNome` of the users list: a falsy id reads 'Todas as cidades'. */
  function UsuarioCidadeNome(cidades: seq<Cidade>, cidadeId: Option<int>): (nome: string)
    ensures cidadeId.None? || cidadeId.value == 0 ==> nome == "Todas as cidades"
    ensures cidadeId.Some? && cidadeId.value != 0 ==> nome == CidadeNomeOr(cidades, cidadeId.value)
  {
    if cidadeId.None? || cidadeId.value == 0 then "Todas as cidades" else CidadeNomeOr(cidades, cidadeId.value)
  }

  /** A user the list labels with every city is one the backend does not confine. */
  lemma AllCitiesMeansUnconfined(cidades: seq<Cidade>, u: Usuario)
    requires forall i :: 0 <= i < |cidades| ==> cidades[i].nome != "Todas as cidades"
    ensures UsuarioCidadeNome(cidades, u.cidadeId) == "Todas as cidades" <==> u.cidadeId.None? || u.cidadeId.value == 0
    ensures UsuarioCidadeNome(cidades, u.cidadeId) == "Todas as cidades" ==> !UsuariosRoutes.Confined(u)
  {
    if u.cidadeId.Some? && u.cidadeId.value != 0 {
      var id := u.cidadeId.value;
      match FindIndex(cidades, (c: Cidade) => c.id == id)
      case None =>
      case Some(k) => assert CidadeNomeOr(cidades, id) == cidades[k].nome;
    }
  }

  // ---------------------------------------------------------------------------
  // Page state
  // ---------------------------------------------------------------------------

  const Atualizado := "Usuário atualizado com sucesso!"
  const Cadastrado := "Usuário cadastrado com sucesso!"
  const ErroSalvar := "Erro ao salvar usuário"
  const ProprioUsuarioCliente := "Você não pode deletar seu próprio usuário"
  const Deletado := "Usuário deletado com sucesso!"
  const ErroDeletar := "Erro ao deletar usuário"

  /** The two requests of `fetchData`. */
  const Fetch: seq<Call> := [ListarUsuarios, ListarCidades]

  /** `usuario.id === user.id` for the signed-in user the provider holds. */
  predicate IsSelf(me: ClientUser, u: Usuario) {
    "id" in me && me["id"] == JInt(u.id)
  }

  /** The page's state. `calls` records the requests it has sent, in order; each
      handler's `ok` says whether its request succeeded. */
  class Page {
    var form: Form
    var editing: Option<Usuario>
    var dialogOpen: bool
    var error: string
    var success: string
    var calls: seq<Call>

    /** Mounting: an empty form and, for a user with level 3, the first fetch. */
    constructor (user: Option<ClientUser>)
      ensures form == EmptyForm && editing.None? && !dialogOpen && error == "" && success == ""
      ensures calls == if HasPermission(user, AdminCidade) then Fetch else []
    {
      form := EmptyForm;
      editing := None;
      dialogOpen := false;
      error := "";
      success := "";
      calls := if HasPermission(user, AdminCidade) then Fetch else [];
    }

    /** `handleSubmit`. The messages are cleared and the payload is built from a copy of
        the form; an edit sends it as an update of the user being edited, otherwise it
        creates one. On success the message names what happened, the form is emptied,
        the dialog closes and the list is fetched again; on failure the backend's
        message or 'Erro ao salvar usuário' is shown and the form stays. */
    method HandleSubmit(ok: bool, failure: ApiError)
      modifies this
      ensures var payload := SubmitPayload(old(form), old(editing).Some?);
              var sent := if old(editing).Some? then AtualizarUsuario(old(editing).value.id, payload)
                          else CriarUsuario(payload);
              if ok then
                && calls == old(calls) + [sent] + Fetch
                && success == (if old(editing).Some? then Atualizado else Cadastrado) && error == ""
                && form == EmptyForm && editing.None? && !dialogOpen
              else
                && calls == old(calls) + [sent]
                && error == MessageOr(failure, ErroSalvar) && success == ""
                && form == old(form) && editing == old(editing) && dialogOpen == old(dialogOpen)
    {
      error := "";
      success := "";
      var submitData := BuildPayload(form, editing.Some?);
      if editing.Some? {
        calls := calls + [AtualizarUsuario(editing.value.id, submitData)];
        if ok {
          success := Atualizado;
        }
      } else {
        calls := calls + [CriarUsuario(submitData)];
        if ok {
          success := Cadastrado;
        }
      }
      if ok {
        dialogOpen := false;
        editing := None;
        form := EmptyForm;
        calls := calls + Fetch;
      } else {
        error := MessageOr(failure, ErroSalvar);
      }
    }

    /** `handleEdit(usuario)`: the dialog opens on that user's form. */
    method HandleEdit(u: Usuario)
      modifies this
      ensures editing == Some(u) && form == FormFor(u) && dialogOpen
      ensures error == old(error) && success == old(success) && calls == old(calls)
    {
      editing := Some(u);
      form := FormFor(u);
      dialogOpen := true;
    }

    /** `handleDelete(usuario)`. Deleting oneself only sets the error; a declined
        confirmation does nothing; otherwise the delete is sent and either the list is
        fetched again or the error is shown. */
    method HandleDelete(me: ClientUser, u: Usuario, confirmed: bool, ok: bool)
      modifies this
      ensures form == old(form) && editing == old(editing) && dialogOpen == old(dialogOpen)
      ensures IsSelf(me, u) ==> calls == old(calls) && error == ProprioUsuarioCliente && success == old(success)
      ensures !IsSelf(me, u) && !confirmed ==> calls == old(calls) && error == old(error) && success == old(success)
      ensures !IsSelf(me, u) && confirmed && ok ==>
                calls == old(calls) + [DeletarUsuario(u.id)] + Fetch && success == Deletado && error == old(error)
      ensures !IsSelf(me, u) && confirmed && !ok ==>
                calls == old(calls) + [DeletarUsuario(u.id)] && error == ErroDeletar && success == old(success)
    {
      if "id" in me && me["id"] == JInt(u.id) {
        error := ProprioUsuarioCliente;
        return;
      }
      if confirmed {
        calls := calls + [DeletarUsuario(u.id)];
        if ok {
          success := Deletado;
          calls := calls + Fetch;
        } else {
          error := ErroDeletar;
        }
      }
    }

    /** `handleCloseDialog`: the dialog closes, the form empties and the error clears. */
    method HandleCloseDialog()
      modifies this
      ensures !dialogOpen && editing.None? && form == EmptyForm && error == ""
      ensures success == old(success) && calls == old(calls)
    {
      dialogOpen := false;
      editing := None;
      form := EmptyForm;
      error := "";
    }
  }

  /** The page's self-guard is the backend's: for the user the backend signed in, the
      page refuses exactly the deletion the backend answers with 'Não é possível deletar
      seu próprio usuário'. */
  lemma SelfGuardAgrees(usuarios: seq<Usuario>, log: seq<Auditoria>, actor: Usuario, u: Usuario)
    requires FindUsuario(usuarios, actor.id) == Some(actor) && actor.nivelAcesso >= AdminCidade
    requires UsuariosRoutes.IndexOfUsuario(usuarios, u.id).Some?
    ensures IsSelf(UsuarioToDict(actor), u) <==> u.id == actor.id
    ensures IsSelf(UsuarioToDict(actor), u) ==>
              UsuariosRoutes.DecideDeletar(usuarios, log, actor.id, u.id) == Answer(Error(400, UsuariosRoutes.ProprioUsuario))
  {
  }
}
