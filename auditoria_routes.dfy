/** The `/api/auditoria` endpoints: the filtered audit trail, newest first and at most
    1000 entries, and counts per action, table and author. Admins only. */
module AuditoriaRoutes {
  import opened Common
  import opened Records
  import opened Http
  import opened UsuariosRoutes

  const Limite: nat := 1000

  function AuditoriaJson(a: Auditoria): Json {
    JObj(AuditoriaToDict(a))
  }

  function EntryStamp(a: Auditoria): int {
    Stamp(a.dataHora)
  }

  // ---------------------------------------------------------------------------
  // The date bounds
  // ---------------------------------------------------------------------------

  /** `data_hora >= strptime(data_inicio)`: from midnight of the start day. */
  predicate InicioMatches(a: Auditoria, inicio: Day) {
    Stamp(a.dataHora) >= Stamp(Midnight(inicio))
  }

  /** `data_hora <= strptime(data_fim)`, as written: up to midnight at the START of the
      end day. */
  predicate FimAsWritten(a: Auditoria, fim: Day) {
    Stamp(a.dataHora) <= Stamp(Midnight(fim))
  }

  /** The end bound as the date filter of the audit screen means it: the whole end
      day is included. */
  predicate FimMatches(a: Auditoria, fim: Day) {
    a.dataHora.day <= fim
  }

  /** The start bound keeps exactly the entries of the start day or later. */
  lemma InicioIsByDay(a: Auditoria, inicio: Day)
    ensures InicioMatches(a, inicio) <==> a.dataHora.day >= inicio
  {
    StampOrder(a.dataHora, Midnight(inicio));
  }

  /** The corrected end bound is the half-open SQL bound `data_hora < fim + 1 day`. */
  lemma FimIsBeforeNextMidnight(a: Auditoria, fim: Day)
    ensures FimMatches(a, fim) <==> Stamp(a.dataHora) < Stamp(Midnight(fim + 1))
  {
    StampOrder(a.dataHora, Midnight(fim + 1));
  }

  /** The end bound as written loses exactly the entries made on the end day after
      midnight: an entry at 10:00 on the end day is not listed. */
  lemma FimAsWrittenDropsEndDay(a: Auditoria, fim: Day)
    ensures FimAsWritten(a, fim) ==> FimMatches(a, fim)
    ensures FimMatches(a, fim) && !FimAsWritten(a, fim) <==> a.dataHora.day == fim && a.dataHora.micros > 0
  {
    StampOrder(a.dataHora, Midnight(fim));
    StampOrder(Midnight(fim), a.dataHora);
  }

  /** A concrete instance: filtering one day (`data_inicio == data_fim`) as written
      lists nothing done after midnight of that day. */
  lemma SameDayFilterAsWritten(a: Auditoria, d: Day)
    requires a.dataHora == Instant(d, 36_000_000_000)
    ensures InicioMatches(a, d) && !FimAsWritten(a, d) && FimMatches(a, d)
  {
    FimAsWrittenDropsEndDay(a, d);
    InicioIsByDay(a, d);
  }

  // ---------------------------------------------------------------------------
  // The listing
  // ---------------------------------------------------------------------------

  /** A query-string text the handler tests with `if value:`. */
  function Truthy(args: Args, key: string): (r: Option<string>)
    ensures r.Some? <==> ArgGet(args, key).Some? && ArgGet(args, key).value != ""
    ensures r.Some? ==> r == ArgGet(args, key)
  {
    var v := ArgGet(args, key);
    if v.Some? && v.value != "" then v else None
  }

  /** A present bound, read with `parseDay`; BadArg when it does not parse. */
  datatype DayArg = NoDay | DayArg(d: Day) | BadDay

  function ReadDayArg(args: Args, key: string, parseDay: string -> Option<Day>): (r: DayArg)
    ensures r.NoDay? <==> Truthy(args, key).None?
    ensures r.DayArg? ==> parseDay(Truthy(args, key).value) == Some(r.d)
    ensures r.BadDay? <==> Truthy(args, key).Some? && parseDay(Truthy(args, key).value).None?
  {
    match Truthy(args, key)
    case None => NoDay
    case Some(v) =>
      match parseDay(v)
      case None => BadDay
      case Some(d) => DayArg(d)
  }

  /** Every clause of `listar_auditoria`, with `fimMatches` the end bound. */
  predicate AuditMatches(args: Args, parseDay: string -> Option<Day>, fimMatches: (Auditoria, Day) -> bool,
                         a: Auditoria) {
    && (Truthy(args, "tabela").Some? ==> a.tabela == Truthy(args, "tabela").value)
    && (Truthy(args, "acao").Some? ==> a.acao == Truthy(args, "acao").value)
    && (Truthy(args, "usuario_id").Some? ==> Some(a.usuarioId) == PyInt(Truthy(args, "usuario_id").value))
    && (ReadDayArg(args, "data_inicio", parseDay).DayArg? ==> InicioMatches(a, ReadDayArg(args, "data_inicio", parseDay).d))
    && (ReadDayArg(args, "data_fim", parseDay).DayArg? ==> fimMatches(a, ReadDayArg(args, "data_fim", parseDay).d))
  }

  /** The arguments make the handler raise: a non-integer author, or a date that does not parse. */
  predicate BadQuery(args: Args, parseDay: string -> Option<Day>) {
    || (Truthy(args, "usuario_id").Some? && PyInt(Truthy(args, "usuario_id").value).None?)
    || ReadDayArg(args, "data_inicio", parseDay).BadDay?
    || ReadDayArg(args, "data_fim", parseDay).BadDay?
  }

  /** The text clauses, one `filter_by` after another. */
  function TextClauses(log: seq<Auditoria>, args: Args): (r: Option<seq<Auditoria>>)
    ensures r.None? <==> Truthy(args, "usuario_id").Some? && PyInt(Truthy(args, "usuario_id").value).None?
    ensures r.Some? ==> forall a :: a in r.value <==>
              && a in log
              && (Truthy(args, "tabela").Some? ==> a.tabela == Truthy(args, "tabela").value)
              && (Truthy(args, "acao").Some? ==> a.acao == Truthy(args, "acao").value)
              && (Truthy(args, "usuario_id").Some? ==> Some(a.usuarioId) == PyInt(Truthy(args, "usuario_id").value))
  {
    var tabela := Truthy(args, "tabela");
    var q1 := if tabela.Some? then Filter(log, (a: Auditoria) => a.tabela == tabela.value) else log;
    var acao := Truthy(args, "acao");
    var q2 := if acao.Some? then Filter(q1, (a: Auditoria) => a.acao == acao.value) else q1;
    var uid := Truthy(args, "usuario_id");
    if uid.None? then Some(q2)
    else match PyInt(uid.value)
      case None => None
      case Some(n) => Some(Filter(q2, (a: Auditoria) => a.usuarioId == n))
  }

  /** The rows the query selects before ordering; None when it raises. */
  function AuditQuery(log: seq<Auditoria>, args: Args, parseDay: string -> Option<Day>,
                      fimMatches: (Auditoria, Day) -> bool): (r: Option<seq<Auditoria>>)
    ensures r.None? <==> BadQuery(args, parseDay)
    ensures r.Some? ==> forall a :: a in r.value <==> a in log && AuditMatches(args, parseDay, fimMatches, a)
  {
    match TextClauses(log, args)
    case None => None
    case Some(q3) =>
      match ReadDayArg(args, "data_inicio", parseDay)
      case BadDay => None
      case NoDay => FimClause(q3, args, parseDay, fimMatches)
      case DayArg(ini) =>
        FimClause(Filter(q3, (a: Auditoria) => InicioMatches(a, ini)), args, parseDay, fimMatches)
  }

  /** The end-date clause, when given. */
  function FimClause(q: seq<Auditoria>, args: Args, parseDay: string -> Option<Day>,
                     fimMatches: (Auditoria, Day) -> bool): (r: Option<seq<Auditoria>>)
    ensures r.None? <==> ReadDayArg(args, "data_fim", parseDay).BadDay?
    ensures r.Some? ==> forall a :: a in r.value <==> a in q && (ReadDayArg(args, "data_fim", parseDay).DayArg?
                                                               ==> fimMatches(a, ReadDayArg(args, "data_fim", parseDay).d))
  {
    match ReadDayArg(args, "data_fim", parseDay)
    case BadDay => None
    case NoDay => Some(q)
    case DayArg(fim) => Some(Filter(q, (a: Auditoria) => fimMatches(a, fim)))
  }

  /** `order_by(data_hora.desc()).limit(1000)`: newest first, min(n, 1000) of the n
      entries, and nothing left out is newer than anything kept; all of them when there
      are at most 1000. */
  function Recent(q: seq<Auditoria>): (r: seq<Auditoria>)
    ensures SortedDesc(r, EntryStamp) && |r| == if |q| <= Limite then |q| else Limite
    ensures multiset(r) <= multiset(q)
    ensures |q| <= Limite ==> multiset(r) == multiset(q)
    ensures forall x, y :: x in q && x !in r && y in r ==> EntryStamp(y) >= EntryStamp(x)
  {
    var sorted := SortDesc(q, EntryStamp);
    var r := Take(sorted, Limite);
    TakeSubMultiset(sorted, Limite);
    LimitKeepsLargestElements(sorted, EntryStamp, Limite);
    assert forall x :: x in q ==> x in sorted by {
      forall x | x in q ensures x in sorted {
        assert x in multiset(q);
      }
    }
    r
  }

  /** GET /auditoria. */
  function Listar(usuarios: seq<Usuario>, log: seq<Auditoria>, identity: int, args: Args,
                  parseDay: string -> Option<Day>): (r: Response)
    ensures !IsAdmin(FindUsuario(usuarios, identity)) <==> r == Error(403, PermissaoNegada)
    ensures IsAdmin(FindUsuario(usuarios, identity)) && BadQuery(args, parseDay) ==> r == Raised(Failed)
    ensures IsAdmin(FindUsuario(usuarios, identity)) && !BadQuery(args, parseDay) ==>
              r == Ok(JArr(Map(Recent(AuditQuery(log, args, parseDay, FimMatches).value), AuditoriaJson)))
  {
    if !IsAdmin(FindUsuario(usuarios, identity)) then Error(403, PermissaoNegada)
    else match AuditQuery(log, args, parseDay, FimMatches)
      case None => Raised(Failed)
      case Some(q) => Ok(JArr(Map(Recent(q), AuditoriaJson)))
  }

  /** The listing as written uses the midnight end bound. */
  function ListarAsWritten(usuarios: seq<Usuario>, log: seq<Auditoria>, identity: int, args: Args,
                           parseDay: string -> Option<Day>): (r: Response)
    ensures IsAdmin(FindUsuario(usuarios, identity)) && !BadQuery(args, parseDay) ==>
              r == Ok(JArr(Map(Recent(AuditQuery(log, args, parseDay, FimAsWritten).value), AuditoriaJson)))
    ensures !IsAdmin(FindUsuario(usuarios, identity)) || BadQuery(args, parseDay) ==>
              r == Listar(usuarios, log, identity, args, parseDay)
  {
    if !IsAdmin(FindUsuario(usuarios, identity)) then Error(403, PermissaoNegada)
    else match AuditQuery(log, args, parseDay, FimAsWritten)
      case None => Raised(Failed)
      case Some(q) => Ok(JArr(Map(Recent(q), AuditoriaJson)))
  }

  /** On a one-entry log, an entry made at 10:00 on the end day: the corrected query
      selects it, the query as written does not. */
  lemma EndDayEntryMissingAsWritten(a: Auditoria, fim: Day, texto: string, parseDay: string -> Option<Day>)
    requires parseDay(texto) == Some(fim) && texto != ""
    requires a.dataHora == Instant(fim, 36_000_000_000)
    ensures var args := [("data_fim", texto)];
            && AuditQuery([a], args, parseDay, FimMatches) == Some([a])
            && AuditQuery([a], args, parseDay, FimAsWritten) == Some([])
  {
    var args := [("data_fim", texto)];
    assert args[0] == ("data_fim", texto);
    assert ArgGet(args, "data_fim") == Some(texto);
    assert ArgGet(args, "tabela").None? && ArgGet(args, "acao").None? && ArgGet(args, "usuario_id").None?;
    assert ArgGet(args, "data_inicio").None?;
    assert TextClauses([a], args) == Some([a]);
    assert ReadDayArg(args, "data_inicio", parseDay) == NoDay;
    assert ReadDayArg(args, "data_fim", parseDay) == DayArg(fim);
    FimAsWrittenDropsEndDay(a, fim);
    assert FimMatches(a, fim) && !FimAsWritten(a, fim);
    assert Filter([a], (x: Auditoria) => FimMatches(x, fim)) == [a];
    assert Filter([a], (x: Auditoria) => FimAsWritten(x, fim)) == [];
  }

  // ---------------------------------------------------------------------------
  // Statistics
  // ---------------------------------------------------------------------------

  /** The author names of the (inner) join of the log with the users, one per entry
      whose author still exists. */
  function AuthorNames(usuarios: seq<Usuario>, log: seq<Auditoria>): (r: seq<string>)
    ensures |r| <= |log|
    ensures (forall i :: 0 <= i < |log| ==> FindUsuario(usuarios, log[i].usuarioId).Some?) ==> |r| == |log|
    ensures forall n :: n in r ==> exists i :: 0 <= i < |log| && FindUsuario(usuarios, log[i].usuarioId).Some?
                                             && FindUsuario(usuarios, log[i].usuarioId).value.nomeCompleto == n
  {
    if log == [] then []
    else
      var rest := AuthorNames(usuarios, log[1..]);
      assert forall n :: n in rest ==> exists i :: 0 <= i < |log| && FindUsuario(usuarios, log[i].usuarioId).Some?
                                                  && FindUsuario(usuarios, log[i].usuarioId).value.nomeCompleto == n by {
        forall n | n in rest
          ensures exists i :: 0 <= i < |log| && FindUsuario(usuarios, log[i].usuarioId).Some?
                              && FindUsuario(usuarios, log[i].usuarioId).value.nomeCompleto == n
        {
          var i :| 0 <= i < |log[1..]| && FindUsuario(usuarios, log[1..][i].usuarioId).Some?
                   && FindUsuario(usuarios, log[1..][i].usuarioId).value.nomeCompleto == n;
          assert log[1..][i] == log[i + 1];
        }
      }
      match FindUsuario(usuarios, log[0].usuarioId)
      case None => rest
      case Some(u) => [u.nomeCompleto] + rest
  }

  /** The entries whose author still exists and is named n. */
  function AuthoredBy(usuarios: seq<Usuario>, n: string): Auditoria -> bool {
    (a: Auditoria) => FindUsuario(usuarios, a.usuarioId).Some? && FindUsuario(usuarios, a.usuarioId).value.nomeCompleto == n
  }

  /** A name occurs in the join once per entry by an existing author of that name. */
  lemma {:induction false} AuthorNameCount(usuarios: seq<Usuario>, log: seq<Auditoria>, n: string)
    ensures Occurrences(AuthorNames(usuarios, log), n) == |Filter(log, AuthoredBy(usuarios, n))|
  {
    if log != [] {
      AuthorNameCount(usuarios, log[1..], n);
      var rest := AuthorNames(usuarios, log[1..]);
      match FindUsuario(usuarios, log[0].usuarioId)
      case None =>
      case Some(u) =>
        OccurrencesCons(u.nomeCompleto, rest, n);
    }
  }

  function Acao(a: Auditoria): string { a.acao }
  function Tabela(a: Auditoria): string { a.tabela }

  datatype AuditStats = AuditStats(acoes: seq<(string, nat)>, tabelas: seq<(string, nat)>,
                                   usuarios: seq<(string, nat)>)

  /** The three GROUP BY counts of `estatisticas_auditoria`. Every entry is counted once
      per action and once per table; the count of an author name is the number of
      entries whose author still exists and bears that name, so authors that share a
      name are merged. */
  function Stats(usuarios: seq<Usuario>, log: seq<Auditoria>): (r: AuditStats)
    ensures DistinctKeys(r.acoes) && DistinctKeys(r.tabelas) && DistinctKeys(r.usuarios)
    ensures SumCounts(r.acoes) == |log| && SumCounts(r.tabelas) == |log|
    ensures SumCounts(r.usuarios) <= |log|
    ensures forall k :: CountFor(r.acoes, k) == Occurrences(Map(log, Acao), k)
    ensures forall k :: CountFor(r.tabelas, k) == Occurrences(Map(log, Tabela), k)
    ensures forall k :: HasKey(r.acoes, k) <==> exists a :: a in log && a.acao == k
    ensures forall k :: HasKey(r.tabelas, k) <==> exists a :: a in log && a.tabela == k
    ensures forall n :: CountFor(r.usuarios, n) == |Filter(log, AuthoredBy(usuarios, n))|
  {
    var acoes := Map(log, Acao);
    MapMembers(log, Acao);
    MapMembers(log, Tabela);
    forall n ensures Occurrences(AuthorNames(usuarios, log), n) == |Filter(log, AuthoredBy(usuarios, n))| {
      AuthorNameCount(usuarios, log, n);
    }
    AuditStats(GroupCount(acoes), GroupCount(Map(log, Tabela)), GroupCount(AuthorNames(usuarios, log)))
  }

  /** When every entry's author still exists, the per-author counts also add up to the
      size of the log. */
  lemma AuthorCountsCoverLog(usuarios: seq<Usuario>, log: seq<Auditoria>)
    requires forall i :: 0 <= i < |log| ==> FindUsuario(usuarios, log[i].usuarioId).Some?
    ensures SumCounts(Stats(usuarios, log).usuarios) == |log|
  {
  }

  function Group(column: string, rows: seq<(string, nat)>): (r: seq<Json>)
    ensures |r| == |rows|
    ensures forall i :: 0 <= i < |rows| ==> r[i] == JObj(map[column := JStr(rows[i].0), "total" := JInt(rows[i].1)])
  {
    if rows == [] then []
    else [JObj(map[column := JStr(rows[0].0), "total" := JInt(rows[0].1)])] + Group(column, rows[1..])
  }

  /** GET /auditoria/estatisticas. */
  function Estatisticas(usuarios: seq<Usuario>, log: seq<Auditoria>, identity: int): (r: Response)
    ensures !IsAdmin(FindUsuario(usuarios, identity)) <==> r == Error(403, PermissaoNegada)
    ensures IsAdmin(FindUsuario(usuarios, identity)) ==>
              var s := Stats(usuarios, log);
              r == Ok(JObj(map["acoes" := JArr(Group("acao", s.acoes)), "tabelas" := JArr(Group("tabela", s.tabelas)),
                               "usuarios" := JArr(Group("usuario", s.usuarios))]))
  {
    if !IsAdmin(FindUsuario(usuarios, identity)) then Error(403, PermissaoNegada)
    else
      var s := Stats(usuarios, log);
      Ok(JObj(map["acoes" := JArr(Group("acao", s.acoes)), "tabelas" := JArr(Group("tabela", s.tabelas)),
                  "usuarios" := JArr(Group("usuario", s.usuarios))]))
  }
}
