/** The five tables of the backend (cities, facilities, users, professionals and the
    audit log), their column constraints and defaults, their `to_dict` encodings, and
    the session that holds them. */
module Records {
  import opened Common

  // ---------------------------------------------------------------------------
  // Dates and JSON values
  // ---------------------------------------------------------------------------

  /** A calendar day (a `datetime.date`), kept opaque: only its order matters. */
  type Day = int

  const MicrosPerDay: nat := 86_400_000_000

  type Micros = m: nat | m < MicrosPerDay

  /** A timestamp (a `datetime.datetime`): its day and the microseconds since midnight. */
  datatype Instant = Instant(day: Day, micros: Micros)

  /** A position on the time line; timestamps compare by it. */
  function Stamp(t: Instant): int {
    t.day * MicrosPerDay + t.micros
  }

  /** Midnight at the start of a day: what `strptime(s, '%Y-%m-%d')` yields. */
  function Midnight(d: Day): Instant {
    Instant(d, 0)
  }

  /** Timestamps are ordered by day first, then by time of day. */
  lemma StampOrder(a: Instant, b: Instant)
    ensures Stamp(a) < Stamp(b) <==> a.day < b.day || (a.day == b.day && a.micros < b.micros)
  {
    if a.day < b.day {
      assert Stamp(a) < (a.day + 1) * MicrosPerDay <= b.day * MicrosPerDay <= Stamp(b);
    } else if a.day > b.day {
      assert Stamp(b) < (b.day + 1) * MicrosPerDay <= a.day * MicrosPerDay <= Stamp(a);
    }
  }

  /** A JSON value as `jsonify` writes it. `JDay` and `JTime` stand for the ISO text
      that `isoformat()` writes for a date or a timestamp. */
  datatype Json =
    | JNull
    | JBool(b: bool)
    | JInt(i: int)
    | JStr(s: string)
    | JDay(d: Day)
    | JTime(t: Instant)
    | JArr(items: seq<Json>)
    | JObj(fields: map<string, Json>)

  function OptStr(s: Option<string>): Json {
    match s
    case None => JNull
    case Some(v) => JStr(v)
  }

  function OptInt(i: Option<int>): Json {
    match i
    case None => JNull
    case Some(v) => JInt(v)
  }

  function OptTime(t: Option<Instant>): Json {
    match t
    case None => JNull
    case Some(v) => JTime(v)
  }

  /** One member of a JSON request body: missing, an explicit null, or a value.
      `data.get(k)` reads both of the first two as None. */
  datatype Field<T> = Absent | Null | Given(value: T)

  /** `data.get(k)`. */
  function Get<T>(f: Field<T>): Option<T> {
    if f.Given? then Some(f.value) else None
  }

  /** An assignment `if k in data: row.col = data[k]` took effect: a missing member kept
      the column's old value, a given one is its new value. */
  predicate Patched<T(==)>(f: Field<T>, before: T, after: T) {
    (f.Absent? ==> after == before) && (f.Given? ==> after == f.value)
  }

  /** The integer an INTEGER column holds once a JSON value is bound to it: a number as
      is, a boolean as 1 or 0 (Python's bool is an int), and a text in the canonical
      decimal form of an integer converted by the column's INTEGER affinity; None for
      null and for every other value, which the model treats as a failed commit. */
  function StoredInt(j: Json): (r: Option<int>)
    ensures j.JInt? ==> r == Some(j.i)
    ensures j.JNull? ==> r.None?
    ensures j.JStr? && r.Some? ==> j.s == IntToString(r.value)
  {
    match j
    case JInt(n) => Some(n)
    case JBool(b) => Some(if b then 1 else 0)
    case JStr(t) =>
      (match PyInt(t)
       case Some(n) => if IntToString(n) == t then Some(n) else None
       case None => None)
    case _ => None
  }

  /** The text of an integer is stored as that integer. */
  lemma StoredIntOfText(n: int)
    ensures StoredInt(JStr(IntToString(n))) == Some(n)
  {
    PyIntOfIntToString(n);
  }

  /** `data.get(k, default)`: the default only when the key is missing. */
  function GetOr<T>(f: Field<T>, default: T): Option<T> {
    match f
    case Absent => Some(default)
    case Null => None
    case Given(v) => Some(v)
  }

  // ---------------------------------------------------------------------------
  // The records
  // ---------------------------------------------------------------------------

  /** The 'ativo'/'inativo' enum of cities and facilities. */
  datatype Status = Ativo | Inativo

  function StatusText(s: Status): string {
    match s
    case Ativo => "ativo"
    case Inativo => "inativo"
  }

  /** Reads an enum value; None when the text is not a member. */
  function ParseStatus(s: string): (r: Option<Status>)
    ensures r.Some? <==> s == "ativo" || s == "inativo"
    ensures r.Some? ==> StatusText(r.value) == s
  {
    if s == "ativo" then Some(Ativo) else if s == "inativo" then Some(Inativo) else None
  }

  lemma ParseStatusText(s: Status)
    ensures ParseStatus(StatusText(s)) == Some(s)
  {
  }

  /** The column default of both enums. */
  const DefaultStatus: Status := Ativo

  /** The status a row gets from `data.get('status', current)`: a missing member keeps
      `current`; a null or a text outside the enum fails at commit. */
  function ReadStatus(f: Field<string>, current: Status): (r: Option<Status>)
    ensures f.Absent? ==> r == Some(current)
    ensures f.Null? ==> r.None?
    ensures f.Given? ==> r == ParseStatus(f.value)
  {
    match f
    case Absent => Some(current)
    case Null => None
    case Given(s) => ParseStatus(s)
  }

  /** The status a new row gets from `data.get('status', 'ativo')`: a null leaves the
      attribute None, which the ORM leaves out of the INSERT, so the column default
      applies; a given text is parsed against the enum. */
  function CreationStatus(f: Field<string>): (r: Option<Status>)
    ensures !f.Given? ==> r == Some(DefaultStatus)
    ensures f.Given? ==> r == ParseStatus(f.value)
  {
    ReadStatus(if f.Null? then Absent else f, DefaultStatus)
  }

  datatype Cidade = Cidade(id: int, nome: string, status: Status, dataCadastro: Instant)

  datatype Equipamento = Equipamento(id: int, nome: string, descricao: Option<string>,
                                     status: Status, dataCadastro: Instant)

  datatype Usuario = Usuario(id: int, nomeCompleto: string, email: string, senhaHash: string,
                             nivelAcesso: int, cidadeId: Option<int>, dataCadastro: Instant)

  datatype Profissional = Profissional(
    id: int, equipamentoId: int, nomeCompleto: string, dataNascimento: Day,
    cpf: string, rg: string, dataExpedicaoRg: Day, escolaridade: string,
    profissao: string, cargo: string, vinculoInstitucional: string, telefone: string,
    email: string, dataInicioTrabalho: Day, enderecoResidencial: string, cidadeId: int,
    dataCadastro: Instant, ativo: bool, motivoInativacao: Option<string>,
    dataInativacao: Option<Instant>)

  datatype Auditoria = Auditoria(id: int, usuarioId: int, acao: string, tabela: string,
                                 registroId: int, dadosAntigos: Option<Json>,
                                 dadosNovos: Option<Json>, dataHora: Instant,
                                 ipOrigem: Option<string>)

  /** The documented meaning of each access level. */
  const Visualizacao := 1
  const Editor := 2
  const AdminCidade := 3
  const AdminGlobal := 4

  /** A column default: a new professional is active. */
  const DefaultAtivo := true

  function CidadeId(c: Cidade): int { c.id }
  function CidadeNome(c: Cidade): string { c.nome }
  function EquipamentoId(e: Equipamento): int { e.id }
  function UsuarioId(u: Usuario): int { u.id }
  function UsuarioEmail(u: Usuario): string { u.email }
  function ProfissionalId(p: Profissional): int { p.id }
  function ProfissionalCpf(p: Profissional): string { p.cpf }
  function ProfissionalRg(p: Profissional): string { p.rg }
  function ProfissionalEmail(p: Profissional): string { p.email }
  function AuditoriaId(a: Auditoria): int { a.id }

  // ---------------------------------------------------------------------------
  // to_dict
  // ---------------------------------------------------------------------------

  function CidadeToDict(c: Cidade): (d: map<string, Json>)
    ensures d.Keys == {"id", "nome", "status", "data_cadastro"}
  {
    map["id" := JInt(c.id), "nome" := JStr(c.nome), "status" := JStr(StatusText(c.status)),
        "data_cadastro" := JTime(c.dataCadastro)]
  }

  function EquipamentoToDict(e: Equipamento): (d: map<string, Json>)
    ensures d.Keys == {"id", "nome", "descricao", "status", "data_cadastro"}
  {
    map["id" := JInt(e.id), "nome" := JStr(e.nome), "descricao" := OptStr(e.descricao),
        "status" := JStr(StatusText(e.status)), "data_cadastro" := JTime(e.dataCadastro)]
  }

  /** The public view of a user: every column except the password hash. */
  function UsuarioToDict(u: Usuario): (d: map<string, Json>)
    ensures d.Keys == {"id", "nome_completo", "email", "nivel_acesso", "cidade_id", "data_cadastro"}
    ensures "senha_hash" !in d
  {
    map["id" := JInt(u.id), "nome_completo" := JStr(u.nomeCompleto), "email" := JStr(u.email),
        "nivel_acesso" := JInt(u.nivelAcesso), "cidade_id" := OptInt(u.cidadeId),
        "data_cadastro" := JTime(u.dataCadastro)]
  }

  /** The twenty members of a professional's encoding: seventeen registration columns
      and three lifecycle columns. */
  const ProfissionalDataKeys: set<string> :=
    {"id", "equipamento_id", "nome_completo", "data_nascimento", "cpf", "rg",
     "data_expedicao_rg", "escolaridade", "profissao", "cargo", "vinculo_institucional",
     "telefone", "email", "data_inicio_trabalho", "endereco_residencial", "cidade_id",
     "data_cadastro"}
  const LifecycleKeys: set<string> := {"ativo", "motivo_inativacao", "data_inativacao"}

  /** `to_dict` of a professional: its registration columns and its lifecycle columns. */
  function ProfissionalToDict(p: Profissional): (d: map<string, Json>)
    ensures "id" in d && "cpf" in d && "ativo" in d
    ensures LifecycleDict(p).Keys <= d.Keys
  {
    ProfissionalDataDict(p) + LifecycleDict(p)
  }

  /** The encoding of a professional has exactly the twenty members of `to_dict`. */
  lemma ProfissionalDictKeys(p: Profissional)
    ensures ProfissionalToDict(p).Keys == ProfissionalDataKeys + LifecycleKeys
  {
    DataDictKeys(p);
    assert LifecycleDict(p).Keys == LifecycleKeys;
  }

  /** Its dates are the ISO texts of the professional's dates. */
  lemma ProfissionalDictDates(p: Profissional)
    ensures var d := ProfissionalToDict(p);
            && "data_nascimento" in d && d["data_nascimento"] == JDay(p.dataNascimento)
            && "data_expedicao_rg" in d && d["data_expedicao_rg"] == JDay(p.dataExpedicaoRg)
            && "data_inicio_trabalho" in d && d["data_inicio_trabalho"] == JDay(p.dataInicioTrabalho)
            && "data_cadastro" in d && d["data_cadastro"] == JTime(p.dataCadastro)
  {
    var data := ProfissionalDataDict(p);
    assert data["data_nascimento"] == JDay(p.dataNascimento) && data["data_expedicao_rg"] == JDay(p.dataExpedicaoRg);
    assert data["data_inicio_trabalho"] == JDay(p.dataInicioTrabalho) && data["data_cadastro"] == JTime(p.dataCadastro);
  }

  lemma DataDictKeys(p: Profissional)
    ensures ProfissionalDataDict(p).Keys == ProfissionalDataKeys
  {
  }

  function ProfissionalDataDict(p: Profissional): map<string, Json> {
    map["id" := JInt(p.id), "equipamento_id" := JInt(p.equipamentoId),
        "nome_completo" := JStr(p.nomeCompleto), "data_nascimento" := JDay(p.dataNascimento),
        "cpf" := JStr(p.cpf), "rg" := JStr(p.rg), "data_expedicao_rg" := JDay(p.dataExpedicaoRg),
        "escolaridade" := JStr(p.escolaridade), "profissao" := JStr(p.profissao),
        "cargo" := JStr(p.cargo), "vinculo_institucional" := JStr(p.vinculoInstitucional),
        "telefone" := JStr(p.telefone), "email" := JStr(p.email),
        "data_inicio_trabalho" := JDay(p.dataInicioTrabalho),
        "endereco_residencial" := JStr(p.enderecoResidencial), "cidade_id" := JInt(p.cidadeId),
        "data_cadastro" := JTime(p.dataCadastro)]
  }

  /** The columns that inactivation and reactivation change. */
  function LifecycleDict(p: Profissional): map<string, Json> {
    map["ativo" := JBool(p.ativo), "motivo_inativacao" := OptStr(p.motivoInativacao),
        "data_inativacao" := OptTime(p.dataInativacao)]
  }

  function AuditoriaToDict(a: Auditoria): (d: map<string, Json>)
    ensures d.Keys == {"id", "usuario_id", "acao", "tabela", "registro_id", "dados_antigos",
                       "dados_novos", "data_hora", "ip_origem"}
  {
    map["id" := JInt(a.id), "usuario_id" := JInt(a.usuarioId), "acao" := JStr(a.acao),
        "tabela" := JStr(a.tabela), "registro_id" := JInt(a.registroId),
        "dados_antigos" := (if a.dadosAntigos.Some? then a.dadosAntigos.value else JNull),
        "dados_novos" := (if a.dadosNovos.Some? then a.dadosNovos.value else JNull),
        "data_hora" := JTime(a.dataHora), "ip_origem" := OptStr(a.ipOrigem)]
  }

  // Names shown for a key: the first row with that key (a primary-key lookup in the
  // reports, `list.find(x => x.id === id)` in the pages), or 'N/A' when there is none.

  function EquipamentoNomeOr(equipamentos: seq<Equipamento>, id: int): string {
    match FindIndex(equipamentos, (e: Equipamento) => e.id == id)
    case None => "N/A"
    case Some(k) => equipamentos[k].nome
  }

  function CidadeNomeOr(cidades: seq<Cidade>, id: int): string {
    match FindIndex(cidades, (c: Cidade) => c.id == id)
    case None => "N/A"
    case Some(k) => cidades[k].nome
  }

  /** The name shown is that of the first row with the key, and 'N/A' exactly when no
      row has it (a row may itself be named 'N/A'). */
  lemma NomeOrFirstMatch(cidades: seq<Cidade>, equipamentos: seq<Equipamento>, id: int, i: nat)
    ensures (i < |cidades| && cidades[i].id == id && forall j :: 0 <= j < i ==> cidades[j].id != id)
            ==> CidadeNomeOr(cidades, id) == cidades[i].nome
    ensures (forall j :: 0 <= j < |cidades| ==> cidades[j].id != id) ==> CidadeNomeOr(cidades, id) == "N/A"
    ensures (i < |equipamentos| && equipamentos[i].id == id && forall j :: 0 <= j < i ==> equipamentos[j].id != id)
            ==> EquipamentoNomeOr(equipamentos, id) == equipamentos[i].nome
    ensures (forall j :: 0 <= j < |equipamentos| ==> equipamentos[j].id != id)
            ==> EquipamentoNomeOr(equipamentos, id) == "N/A"
  {
    var c := FindIndex(cidades, (c: Cidade) => c.id == id);
    if i < |cidades| && cidades[i].id == id && forall j :: 0 <= j < i ==> cidades[j].id != id {
      assert c.Some? && c.value == i;
    }
    var e := FindIndex(equipamentos, (e: Equipamento) => e.id == id);
    if i < |equipamentos| && equipamentos[i].id == id && forall j :: 0 <= j < i ==> equipamentos[j].id != id {
      assert e.Some? && e.value == i;
    }
  }

  // Decoders: what a client can recover from a `to_dict` encoding.

  function AsInt(j: Json): Option<int> { if j.JInt? then Some(j.i) else None }
  function AsStr(j: Json): Option<string> { if j.JStr? then Some(j.s) else None }
  function AsOptInt(j: Json): Option<Option<int>> {
    if j.JNull? then Some(None) else if j.JInt? then Some(Some(j.i)) else None
  }
  function AsOptStr(j: Json): Option<Option<string>> {
    if j.JNull? then Some(None) else if j.JStr? then Some(Some(j.s)) else None
  }
  function AsOptTime(j: Json): Option<Option<Instant>> {
    if j.JNull? then Some(None) else if j.JTime? then Some(Some(j.t)) else None
  }

  /** Rebuilds a user from its public encoding, given the hash the encoding leaves out. */
  function UsuarioFromDict(d: map<string, Json>, senhaHash: string): Option<Usuario> {
    if "id" in d && "nome_completo" in d && "email" in d && "nivel_acesso" in d && "cidade_id" in d
       && "data_cadastro" in d && d["id"].JInt? && d["nome_completo"].JStr? && d["email"].JStr?
       && d["nivel_acesso"].JInt? && AsOptInt(d["cidade_id"]).Some? && d["data_cadastro"].JTime?
    then Some(Usuario(d["id"].i, d["nome_completo"].s, d["email"].s, senhaHash, d["nivel_acesso"].i,
                      AsOptInt(d["cidade_id"]).value, d["data_cadastro"].t))
    else None
  }

  /** `to_dict` of a user loses the password hash and nothing else. */
  lemma UsuarioDictRoundTrip(u: Usuario)
    ensures UsuarioFromDict(UsuarioToDict(u), u.senhaHash) == Some(u)
    ensures forall h :: UsuarioToDict(u.(senhaHash := h)) == UsuarioToDict(u)
  {
  }

  /** Rebuilds the lifecycle part of a professional (activity, reason, date) from its encoding. */
  function LifecycleFromDict(d: map<string, Json>): Option<(bool, Option<string>, Option<Instant>)> {
    if "ativo" in d && "motivo_inativacao" in d && "data_inativacao" in d && d["ativo"].JBool?
       && AsOptStr(d["motivo_inativacao"]).Some? && AsOptTime(d["data_inativacao"]).Some?
    then Some((d["ativo"].b, AsOptStr(d["motivo_inativacao"]).value, AsOptTime(d["data_inativacao"]).value))
    else None
  }

  /** A professional's encoding carries its lifecycle fields exactly: an absent
      inactivation date is null and a present one is its ISO text. */
  lemma ProfissionalDictLifecycle(p: Profissional)
    ensures LifecycleFromDict(ProfissionalToDict(p)) == Some((p.ativo, p.motivoInativacao, p.dataInativacao))
  {
    var life := LifecycleDict(p);
    var d := ProfissionalToDict(p);
    assert d == ProfissionalDataDict(p) + life;
    assert d["ativo"] == life["ativo"] == JBool(p.ativo);
    assert d["motivo_inativacao"] == life["motivo_inativacao"] == OptStr(p.motivoInativacao);
    assert d["data_inativacao"] == life["data_inativacao"] == OptTime(p.dataInativacao);
    assert AsOptStr(OptStr(p.motivoInativacao)) == Some(p.motivoInativacao);
    assert AsOptTime(OptTime(p.dataInativacao)) == Some(p.dataInativacao);
  }

  // ---------------------------------------------------------------------------
  // Keys and the session
  // ---------------------------------------------------------------------------

  function MaxId(ids: seq<int>): (m: int)
    ensures forall i :: 0 <= i < |ids| ==> ids[i] <= m
    ensures m >= 0
  {
    if ids == [] then 0 else var t := MaxId(ids[1..]); if ids[0] > t then ids[0] else t
  }

  /** The key SQLite gives a new row of an `INTEGER PRIMARY KEY` table: one more than
      the largest key in use, or 1 for an empty table. */
  function NextId(ids: seq<int>): (n: int)
    ensures n >= 1 && n !in ids
  {
    MaxId(ids) + 1
  }

  /** The first user whose key is `id` (`Usuario.query.get(id)`). */
  function FindUsuario(usuarios: seq<Usuario>, id: int): (r: Option<Usuario>)
    ensures r.Some? ==> r.value in usuarios && r.value.id == id
    ensures r.None? ==> forall i :: 0 <= i < |usuarios| ==> usuarios[i].id != id
  {
    Find(usuarios, (u: Usuario) => u.id == id)
  }

  /** The database session: one sequence of rows per table. */
  class Database {
    var cidades: seq<Cidade>
    var equipamentos: seq<Equipamento>
    var usuarios: seq<Usuario>
    var profissionais: seq<Profissional>
    var auditoria: seq<Auditoria>

    /** The primary keys and the UNIQUE columns of every table. */
    ghost predicate Valid()
      reads this
    {
      && Unique(cidades, CidadeId) && Unique(cidades, CidadeNome)
      && Unique(equipamentos, EquipamentoId)
      && Unique(usuarios, UsuarioId) && Unique(usuarios, UsuarioEmail)
      && Unique(profissionais, ProfissionalId) && Unique(profissionais, ProfissionalCpf)
      && Unique(profissionais, ProfissionalRg) && Unique(profissionais, ProfissionalEmail)
      && Unique(auditoria, AuditoriaId)
    }

    /** `db.create_all()` on an empty database file. */
    constructor ()
      ensures Valid()
      ensures cidades == [] && equipamentos == [] && usuarios == [] && profissionais == []
      ensures auditoria == []
    {
      cidades := [];
      equipamentos := [];
      usuarios := [];
      profissionais := [];
      auditoria := [];
    }
  }
}
