/** The client's HTTP layer: the two interceptors every request goes through, the
    builder that turns a filter object into a query string, and the bodies and query
    strings of the calls the pages make. */
module ApiClient {
  import opened Common
  import opened Records
  import opened Http
  import opened Browser
  import ProfissionaisRoutes
  import EquipamentosRoutes

  // ---------------------------------------------------------------------------
  // Request interceptor
  // ---------------------------------------------------------------------------

  /** The headers of an outgoing request (axios `config.headers`). */
  class RequestConfig {
    var headers: map<string, string>

    /** The instance defaults: every request is sent as JSON. */
    constructor ()
      ensures headers == map["Content-Type" := "application/json"]
    {
      headers := map["Content-Type" := "application/json"];
    }
  }

  /** The credential a request carries: the stored token, when it is truthy. */
  function Authorization(storage: map<string, Stored>): (h: Option<string>)
    requires TokenKey in storage ==> storage[TokenKey].Text?
    ensures h.Some? <==> TokenKey in storage && storage[TokenKey].s != ""
    ensures h.Some? ==> h.value == "Bearer " + storage[TokenKey].s
  {
    if Truthy(if TokenKey in storage then Some(storage[TokenKey]) else None) then
      Some("Bearer " + storage[TokenKey].s)
    else None
  }

  /** The request interceptor: with a stored token the request gets an
      `Authorization: Bearer <token>` header; otherwise its headers stay as they were. */
  method AttachToken(w: Window, config: RequestConfig)
    requires w.Valid()
    modifies config
    ensures Authorization(w.storage).Some? ==>
              config.headers == old(config.headers)["Authorization" := Authorization(w.storage).value]
    ensures Authorization(w.storage).None? ==> config.headers == old(config.headers)
  {
    var token := w.GetItem(TokenKey);
    if Truthy(token) {
      config.headers := config.headers["Authorization" := "Bearer " + token.value.s];
    }
  }

  /** Once the session keys are cleared, requests go out with no credential; after a
      login has stored a token, they carry it. */
  lemma AuthorizationFollowsSession(storage: map<string, Stored>, token: string)
    requires TokenKey in storage ==> storage[TokenKey].Text?
    ensures Authorization(Cleared(storage)).None?
    ensures token != "" ==> Authorization(storage[TokenKey := Text(token)]) == Some("Bearer " + token)
    ensures token == "" ==> Authorization(storage[TokenKey := Text(token)]).None?
  {
  }

  // ---------------------------------------------------------------------------
  // Response interceptor
  // ---------------------------------------------------------------------------

  /** A rejected request as axios reports it: the status and body of the response, or
      None for both when no response arrived. */
  datatype ApiError = ApiError(status: Option<nat>, data: Option<Json>)

  /** The response interceptor's error path: a 401 clears the session keys and loads
      the login page; every error, 401 or not, is passed on to the caller unchanged. */
  method RejectResponse(w: Window, e: ApiError) returns (r: ApiError)
    requires w.Valid()
    modifies w
    ensures w.Valid()
    ensures r == e
    ensures e.status == Some(401) ==>
              w.storage == Cleared(old(w.storage)) && w.path == "/login" && w.reloaded
    ensures e.status != Some(401) ==>
              w.storage == old(w.storage) && w.path == old(w.path) && w.reloaded == old(w.reloaded)
  {
    if e.status == Some(401) {
      w.RemoveItem(TokenKey);
      w.RemoveItem(UserKey);
      assert w.storage == old(w.storage) - {TokenKey} - {UserKey};
      w.AssignLocation("/login");
    }
    r := e;
  }

  /** `error.response?.data?.error`: the backend's message, when the response body is an
      object with a text `error` member. */
  function ErrorMessage(e: ApiError): (m: Option<string>)
    ensures m.Some? <==> e.data.Some? && e.data.value.JObj? && "error" in e.data.value.fields
                         && e.data.value.fields["error"].JStr?
    ensures m.Some? ==> JStr(m.value) == e.data.value.fields["error"]
  {
    match e.data
    case Some(JObj(f)) => if "error" in f && f["error"].JStr? then Some(f["error"].s) else None
    case _ => None
  }

  /** `ErrorMessage(e) || fallback`: the backend's message unless missing or empty. */
  function MessageOr(e: ApiError, fallback: string): (m: string)
    ensures ErrorMessage(e).Some? && ErrorMessage(e).value != "" ==> m == ErrorMessage(e).value
    ensures ErrorMessage(e).None? || ErrorMessage(e).value == "" ==> m == fallback
  {
    match ErrorMessage(e)
    case Some(s) => if s != "" then s else fallback
    case None => fallback
  }

  /** The body Flask's `jsonify({'error': msg})` sends, read back by the client. */
  lemma ErrorMessageOfBackendError(status: nat, msg: string)
    ensures ErrorMessage(ApiError(Some(status), Some(JObj(map["error" := JStr(msg)])))) == Some(msg)
  {
  }

  // ---------------------------------------------------------------------------
  // Query strings
  // ---------------------------------------------------------------------------

  /** A filter member `URLSearchParams` receives: only members with a truthy (non-empty)
      text value are appended. */
  predicate IsSet(entry: (string, string)) {
    entry.1 != ""
  }

  /** The query string built from a filter object whose members are listed in key
      order: the members with non-empty values, in that order, and nothing else. */
  function Query(filtros: seq<(string, string)>): (params: Args)
    ensures IsSubsequence(params, filtros)
    ensures forall e :: e in params <==> e in filtros && e.1 != ""
  {
    Filter(filtros, IsSet)
  }

  /** The loop of `profissionais.listar`, `auditoria.listar`, `relatorios.gerarPDF` and
      `relatorios.gerarExcel`: every key in order, appended when its value is truthy. */
  method BuildParams(filtros: seq<(string, string)>) returns (params: Args)
    ensures params == Query(filtros)
  {
    params := [];
    for i := 0 to |filtros|
      invariant params == Filter(filtros[..i], IsSet)
    {
      assert filtros[..i + 1] == filtros[..i] + [filtros[i]];
      FilterSnoc(filtros[..i], filtros[i], IsSet);
      if filtros[i].1 != "" {
        params := params + [filtros[i]];
      }
    }
    assert filtros[..|filtros|] == filtros;
  }

  /** The value of key in a filter object (its first member with that key). */
  function FiltroValue(filtros: seq<(string, string)>, key: string): (v: Option<string>)
    ensures v.None? <==> forall i :: 0 <= i < |filtros| ==> filtros[i].0 != key
    ensures v.Some? ==> exists i :: 0 <= i < |filtros| && filtros[i] == (key, v.value)
  {
    match FindIndex(filtros, (e: (string, string)) => e.0 == key)
    case None => None
    case Some(i) => Some(filtros[i].1)
  }

  /** What the backend reads from the query string for one key: the filter's value when
      it is non-empty, and nothing when the value is '' or the key is absent. */
  lemma {:induction false} ArgOfQuery(filtros: seq<(string, string)>, key: string)
    requires DistinctKeys(filtros)
    ensures ArgGet(Query(filtros), key)
            == if FiltroValue(filtros, key).Some? && FiltroValue(filtros, key).value != ""
               then FiltroValue(filtros, key) else None
  {
    if filtros != [] {
      var x, rest := filtros[0], filtros[1..];
      assert DistinctKeys(rest) by {
        forall i, j | 0 <= i < j < |rest| ensures rest[i].0 != rest[j].0 {
          assert rest[i] == filtros[i + 1] && rest[j] == filtros[j + 1];
        }
      }
      ArgOfQuery(rest, key);
      var q := Query(filtros);
      assert Filter(filtros, IsSet) == if IsSet(x) then [x] + Filter(rest, IsSet) else Filter(rest, IsSet);
      if x.0 == key {
        assert FiltroValue(filtros, key) == Some(x.1);
        forall i | 0 <= i < |rest| ensures rest[i].0 != key {
          assert rest[i] == filtros[i + 1];
        }
        assert FiltroValue(rest, key).None?;
        if x.1 != "" {
          assert q[0] == (key, x.1);
        }
      } else {
        assert FiltroValue(filtros, key) == FiltroValue(rest, key);
        if IsSet(x) {
          ArgGetCons(x, Query(rest), key);
        }
      }
    }
  }

  /** For a filter object with distinct keys, the query string carries each member's
      value under its key exactly when that value is non-empty. */
  lemma ArgOfEntry(filtros: seq<(string, string)>, i: nat)
    requires DistinctKeys(filtros) && i < |filtros|
    ensures ArgGet(Query(filtros), filtros[i].0) == if filtros[i].1 != "" then Some(filtros[i].1) else None
  {
    var key := filtros[i].0;
    ArgOfQuery(filtros, key);
    var k := FindIndex(filtros, (e: (string, string)) => e.0 == key);
    assert k.Some? && k.value == i;
  }

  lemma ArgGetCons(x: (string, string), args: Args, key: string)
    requires x.0 != key
    ensures ArgGet([x] + args, key) == ArgGet(args, key)
  {
    var s := [x] + args;
    assert s[1..] == args;
  }

  // ---------------------------------------------------------------------------
  // Calls the pages make
  // ---------------------------------------------------------------------------

  /** The requests the pages send, with what the backend reads from each. */
  datatype Call =
    | ListarProfissionais(params: Args)
    | InativarProfissional(id: int, body: Json)
    | ReativarProfissional(id: int)
    | CriarUsuario(usuario: map<string, Json>)
    | AtualizarUsuario(id: int, usuario: map<string, Json>)
    | DeletarUsuario(id: int)
    | ListarUsuarios
    | ListarCidades
    | ListarEquipamentos
    | GerarPdf(params: Args)
    | GerarExcel(params: Args)

  /** The body of `profissionais.inativar(id, motivo)`. */
  function InativarBody(motivo: string): (b: Json)
    ensures b.JObj? && b.fields.Keys == {"motivo_inativacao"}
    ensures b.fields["motivo_inativacao"] == JStr(motivo)
  {
    JObj(map["motivo_inativacao" := JStr(motivo)])
  }

  /** How the backend reads one text member of a JSON body: None when the body is not
      an object or the member is not text or null. */
  function TextMember(body: Json, key: string): (f: Option<Field<string>>)
    ensures body.JObj? && key !in body.fields ==> f == Some(Absent)
    ensures body.JObj? && key in body.fields && body.fields[key].JStr? ==> f == Some(Given(body.fields[key].s))
    ensures !body.JObj? ==> f.None?
  {
    match body
    case JObj(m) =>
      if key !in m then Some(Absent)
      else if m[key].JNull? then Some(Null)
      else if m[key].JStr? then Some(Given(m[key].s))
      else None
    case _ => None
  }

  /** The reason the user types is the reason the backend records: the soft delete
      stores it as given, never the default 'Não informado'. */
  lemma InativarSendsReason(p: Profissional, motivo: string, now: Instant)
    ensures TextMember(InativarBody(motivo), "motivo_inativacao") == Some(Given(motivo))
    ensures ProfissionaisRoutes.Inativado(p, GetOr(Given(motivo), ProfissionaisRoutes.MotivoPadrao), now)
              .motivoInativacao == Some(motivo)
  {
  }

  /** The query string of `equipamentos.listarProfissionais(id, status)`; the status
      defaults to 'ativo' and is written into the path as is, even when empty. */
  function EquipamentoProfissionaisArgs(status: Option<string>): (args: Args)
    ensures status.None? ==> args == [("status", "ativo")]
    ensures status.Some? ==> args == [("status", status.value)]
  {
    [("status", if status.Some? then status.value else "ativo")]
  }

  /** With the default status the facility page lists only active professionals; an
      explicit '' reaches the backend and lists both. */
  lemma FacilityDefaultIsAtivo(profs: seq<Profissional>, id: int, p: Profissional)
    ensures var status := ArgGetOr(EquipamentoProfissionaisArgs(None), "status", "ativo");
            p in EquipamentosRoutes.DoEquipamento(profs, id, status) <==>
            p in profs && p.equipamentoId == id && p.ativo
    ensures var status := ArgGetOr(EquipamentoProfissionaisArgs(Some("")), "status", "ativo");
            p in EquipamentosRoutes.DoEquipamento(profs, id, status) <==> p in profs && p.equipamentoId == id
  {
    var a := EquipamentoProfissionaisArgs(None);
    assert a[0].0 == "status";
    var b := EquipamentoProfissionaisArgs(Some(""));
    assert b[0].0 == "status";
  }
}
