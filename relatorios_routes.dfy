/** The `/api/relatorios` endpoints: the PDF and Excel exports of the professionals a
    user may see, and the dashboard statistics. All three require an editor or more.
    Both exports select their rows with the listing's scope, status, city and facility
    clauses, lay them out, and record an EXPORT entry in the audit log. */
module RelatoriosRoutes {
  import opened Common
  import opened Records
  import opened Http
  import opened AuditLog
  import opened UsuariosRoutes
  import opened ProfissionaisRoutes

  // ---------------------------------------------------------------------------
  // Permission
  // ---------------------------------------------------------------------------

  /** `verificar_permissao_relatorios`: the token's user exists with level 2 or more. */
  predicate PodeRelatorios(actor: Option<Usuario>) {
    actor.Some? && actor.value.nivelAcesso >= Editor
  }

  /** Whoever may edit some professional, and every admin, may produce reports; a
      viewer may not. */
  lemma ReportPermissionLevels(actor: Option<Usuario>, target: Option<Profissional>)
    ensures PodeEditar(actor, target) ==> PodeRelatorios(actor)
    ensures IsAdmin(actor) ==> PodeRelatorios(actor)
    ensures actor.Some? && actor.value.nivelAcesso == Visualizacao ==> !PodeRelatorios(actor)
    ensures PodeRelatorios(actor) && actor.value.nivelAcesso <= AdminGlobal ==> PodeEditar(actor, None)
  {
  }

  // ---------------------------------------------------------------------------
  // The rows of both exports
  // ---------------------------------------------------------------------------

  /** The decision both export handlers take before rendering: the permission, then the
      shared query, whose `int()` of a city or facility argument may raise. */
  function DecideExport(usuarios: seq<Usuario>, profs: seq<Profissional>, identity: int, args: Args)
    : (r: Outcome<seq<Profissional>>)
    ensures !PodeRelatorios(FindUsuario(usuarios, identity)) <==> r == Answer(Error(403, PermissaoNegada))
    ensures r.Answer? && PodeRelatorios(FindUsuario(usuarios, identity)) ==> r == Answer(Raised(Failed))
    ensures r.Commit? <==> PodeRelatorios(FindUsuario(usuarios, identity))
                           && !ReadIntArg(args, "cidade_id").BadArg? && !ReadIntArg(args, "equipamento_id").BadArg?
    ensures r.Commit? ==> IsSubsequence(r.value, profs)
    ensures r.Commit? ==> forall p :: p in r.value <==>
                            p in profs && ReportMatches(FindUsuario(usuarios, identity).value, args, p)
  {
    var actor := FindUsuario(usuarios, identity);
    if !PodeRelatorios(actor) then Answer(Error(403, PermissaoNegada))
    else
      match ReportQuery(profs, actor.value, args)
      case None => Answer(Raised(Failed))
      case Some(rows) => Commit(rows)
  }

  /** The listing is the report narrowed by its two text clauses: it succeeds exactly
      when the report does, keeps the report's order, and holds the report rows whose
      profession and position match. */
  lemma ListingNarrowsReport(profs: seq<Profissional>, u: Usuario, args: Args)
    ensures Listing(profs, u, args).Some? <==> ReportQuery(profs, u, args).Some?
    ensures Listing(profs, u, args).Some? ==>
              IsSubsequence(Listing(profs, u, args).value, ReportQuery(profs, u, args).value)
    ensures Listing(profs, u, args).Some? ==>
              forall p :: p in Listing(profs, u, args).value <==>
                p in ReportQuery(profs, u, args).value
                && TextArgMatches(args, "profissao", p.profissao) && TextArgMatches(args, "cargo", p.cargo)
  {
    match ReportQuery(profs, u, args)
    case None =>
    case Some(q4) =>
      var q5 := TextStep(q4, args, "profissao", ProfProfissao);
      var q6 := TextStep(q5, args, "cargo", ProfCargo);
      assert Listing(profs, u, args) == Some(q6);
      IsSubsequenceTrans(q6, q5, q4);
  }

  /** Without a profession or position filter, an export holds exactly the listing. */
  lemma {:induction false} ExportIsListingWithoutText(profs: seq<Profissional>, u: Usuario, args: Args)
    requires ArgGet(args, "profissao").None? || ArgGet(args, "profissao").value == ""
    requires ArgGet(args, "cargo").None? || ArgGet(args, "cargo").value == ""
    ensures Listing(profs, u, args) == ReportQuery(profs, u, args)
  {
    match ReportQuery(profs, u, args)
    case None =>
    case Some(q4) =>
      assert TextStep(q4, args, "profissao", ProfProfissao) == q4;
      assert TextStep(q4, args, "cargo", ProfCargo) == q4;
  }

  /** An export reads only the status, city and facility arguments: two queries that
      agree on those select the same rows, whatever text filters they carry. */
  lemma ExportIgnoresOtherArgs(profs: seq<Profissional>, u: Usuario, a: Args, b: Args)
    requires ArgGet(a, "status") == ArgGet(b, "status")
    requires ArgGet(a, "cidade_id") == ArgGet(b, "cidade_id")
    requires ArgGet(a, "equipamento_id") == ArgGet(b, "equipamento_id")
    ensures ReportQuery(profs, u, a) == ReportQuery(profs, u, b)
  {
    assert ArgGetOr(a, "status", "ativo") == ArgGetOr(b, "status", "ativo");
    ReportQueryReadsOnlyItsArgs(profs, u, a, b);
  }

  // ---------------------------------------------------------------------------
  // Layout shared by the two documents
  // ---------------------------------------------------------------------------

  function StatusLabel(ativo: bool): string {
    if ativo then "Ativo" else "Inativo"
  }

  /** The EXPORT entry's payload: the kind of document and the query string. */
  function ExportDados(tipo: string, args: Args): (j: Json)
    ensures j.JObj? && j.fields.Keys == {"tipo", "filtros"} && j.fields["tipo"] == JStr(tipo)
    ensures j.fields["filtros"].JObj?
    ensures forall k :: k in j.fields["filtros"].fields <==> ArgGet(args, k).Some?
    ensures forall k :: k in j.fields["filtros"].fields ==> j.fields["filtros"].fields[k] == JStr(ArgGet(args, k).value)
  {
    var d := ArgsToDict(args);
    JObj(map["tipo" := JStr(tipo), "filtros" := JObj(map k | k in d :: JStr(d[k]))])
  }

  /** What an export handler hands back: a JSON answer, or the document. */
  datatype Export<F> = Refused(response: Response) | Sent(file: F)

  // ---------------------------------------------------------------------------
  // PDF
  // ---------------------------------------------------------------------------

  const PdfHeaders := ["Nome", "CPF", "Profissão", "Cargo", "Equipamento", "Status"]

  function PdfRow(equipamentos: seq<Equipamento>, p: Profissional): seq<string> {
    [p.nomeCompleto, p.cpf, p.profissao, p.cargo, EquipamentoNomeOr(equipamentos, p.equipamentoId),
     StatusLabel(p.ativo)]
  }

  /** The professionals table of the PDF: the header row, then one row per selected
      professional in query order, each with six cells. */
  function PdfTable(rows: seq<Profissional>, equipamentos: seq<Equipamento>): (t: seq<seq<string>>)
    ensures |t| == |rows| + 1 && t[0] == PdfHeaders
    ensures forall i :: 0 <= i < |t| ==> |t[i]| == |PdfHeaders|
    ensures forall i :: 0 <= i < |rows| ==>
              t[i + 1][0] == rows[i].nomeCompleto && t[i + 1][1] == rows[i].cpf
              && t[i + 1][2] == rows[i].profissao && t[i + 1][3] == rows[i].cargo
              && t[i + 1][4] == EquipamentoNomeOr(equipamentos, rows[i].equipamentoId)
              && t[i + 1][5] == StatusLabel(rows[i].ativo)
  {
    [PdfHeaders] + Map(rows, (p: Profissional) => PdfRow(equipamentos, p))
  }

  /** The parts of the PDF the model keeps: the record count of its information table,
      and the professionals table, or None for the 'no professional found' paragraph. */
  datatype PdfDocument = PdfDocument(total: nat, table: Option<seq<seq<string>>>)

  function Pdf(rows: seq<Profissional>, equipamentos: seq<Equipamento>): (d: PdfDocument)
    ensures d.total == |rows|
    ensures d.table.None? <==> rows == []
    ensures d.table.Some? ==> d.table.value == PdfTable(rows, equipamentos)
  {
    PdfDocument(|rows|, if rows == [] then None else Some(PdfTable(rows, equipamentos)))
  }

  /** GET /relatorios/profissionais/pdf. The entry records the identity of the token,
      key 0, and the document kind with the query string. */
  method ExportarPdf(db: Database, identity: int, args: Args, ip: Option<string>, now: Instant,
                     auditFails: bool) returns (r: Export<PdfDocument>)
    requires db.Valid()
    modifies db
    ensures db.Valid()
    ensures db.cidades == old(db.cidades) && db.equipamentos == old(db.equipamentos)
    ensures db.usuarios == old(db.usuarios) && db.profissionais == old(db.profissionais)
    ensures match DecideExport(old(db.usuarios), old(db.profissionais), identity, args)
            case Answer(a) => r == Refused(a) && db.auditoria == old(db.auditoria)
            case Commit(rows) =>
              r == Sent(Pdf(rows, db.equipamentos))
              && db.auditoria == Logged(old(db.auditoria), auditFails, identity, "EXPORT", "profissionais", 0,
                                        None, Some(ExportDados("PDF", args)), ip, now)
  {
    match DecideExport(db.usuarios, db.profissionais, identity, args)
    case Answer(a) =>
      return Refused(a);
    case Commit(rows) =>
      var doc := Pdf(rows, db.equipamentos);
      Registrar(db, identity, "EXPORT", "profissionais", 0, None, Some(ExportDados("PDF", args)), ip, now,
                auditFails);
      r := Sent(doc);
  }

  // ---------------------------------------------------------------------------
  // Excel
  // ---------------------------------------------------------------------------

  const ExcelHeaders := ["Nome Completo", "CPF", "RG", "Data Nascimento", "Escolaridade",
                         "Profissão", "Cargo", "Vínculo", "Telefone", "Email",
                         "Data Início Trabalho", "Endereço", "Cidade", "Equipamento", "Status"]

  /** The fifteen cells of a professional's row. `formatDay` is `strftime('%d/%m/%Y')`;
      both dates are NOT NULL, so the '' fallback is never taken. */
  function ExcelRow(cidades: seq<Cidade>, equipamentos: seq<Equipamento>, formatDay: Day -> string,
                    p: Profissional): (r: seq<string>)
    ensures |r| == |ExcelHeaders|
  {
    [p.nomeCompleto, p.cpf, p.rg, formatDay(p.dataNascimento), p.escolaridade,
     p.profissao, p.cargo, p.vinculoInstitucional, p.telefone, p.email,
     formatDay(p.dataInicioTrabalho), p.enderecoResidencial, CidadeNomeOr(cidades, p.cidadeId),
     EquipamentoNomeOr(equipamentos, p.equipamentoId), StatusLabel(p.ativo)]
  }

  /** A worksheet: its title, its cells keyed by (row, column) from 1, the widths set
      per column, and the largest row and column written (1 on an empty sheet, as
      `max_row` and `max_column` report). */
  class Worksheet {
    var title: string
    var cells: map<(int, int), string>
    var widths: map<int, int>
    var maxRow: int
    var maxColumn: int

    ghost predicate Valid()
      reads this
    {
      && 1 <= maxRow && 1 <= maxColumn
      && forall k :: k in cells ==> 1 <= k.0 <= maxRow && 1 <= k.1 <= maxColumn
    }

    /** `Workbook().active`. */
    constructor ()
      ensures Valid()
      ensures title == "Sheet" && cells == map[] && widths == map[] && maxRow == 1 && maxColumn == 1
    {
      title := "Sheet";
      cells := map[];
      widths := map[];
      maxRow := 1;
      maxColumn := 1;
    }

    /** `ws.cell(row=row, column=column, value=value)`. */
    method SetCell(row: int, column: int, value: string)
      requires Valid() && 1 <= row && 1 <= column
      modifies this
      ensures Valid()
      ensures cells == old(cells)[(row, column) := value]
      ensures maxRow == (if row > old(maxRow) then row else old(maxRow))
      ensures maxColumn == (if column > old(maxColumn) then column else old(maxColumn))
      ensures title == old(title) && widths == old(widths)
    {
      cells := cells[(row, column) := value];
      if row > maxRow {
        maxRow := row;
      }
      if column > maxColumn {
        maxColumn := column;
      }
    }

    /** `ws.column_dimensions[letter].width = width`. */
    method SetWidth(column: int, width: int)
      modifies this
      ensures widths == old(widths)[column := width]
      ensures title == old(title) && cells == old(cells) && maxRow == old(maxRow) && maxColumn == old(maxColumn)
    {
      widths := widths[column := width];
    }
  }

  /** The sheet's content: row 1 holds the headers, and row i + 2 the professional at
      index i. */
  function ExcelTable(rows: seq<Profissional>, cidades: seq<Cidade>, equipamentos: seq<Equipamento>,
                      formatDay: Day -> string): (t: seq<seq<string>>)
    ensures |t| == |rows| + 1 && t[0] == ExcelHeaders
    ensures forall i :: 0 <= i < |rows| ==> t[i + 1] == ExcelRow(cidades, equipamentos, formatDay, rows[i])
    ensures forall i :: 0 <= i < |t| ==> |t[i]| == |ExcelHeaders|
  {
    [ExcelHeaders] + seq(|rows|, i requires 0 <= i < |rows| => ExcelRow(cidades, equipamentos, formatDay, rows[i]))
  }

  /** Rows 1..n of the cells hold the first n rows of t, row r and column c (from 1)
      holding t[r - 1][c - 1], and nothing else is written. */
  ghost predicate Filled(cells: map<(int, int), string>, t: seq<seq<string>>, n: nat)
    requires n <= |t|
  {
    && (forall k :: k in cells <==> 1 <= k.0 <= n && 1 <= k.1 <= |t[k.0 - 1]|)
    && (forall k :: k in cells ==> cells[k] == t[k.0 - 1][k.1 - 1])
  }

  /** The cells hold the whole table t. */
  ghost predicate SheetHolds(cells: map<(int, int), string>, t: seq<seq<string>>) {
    Filled(cells, t, |t|)
  }

  /** Writing row n + 1 of t into cells that hold its first n rows. */
  lemma FilledNext(cells: map<(int, int), string>, next: map<(int, int), string>, t: seq<seq<string>>, n: nat)
    requires n < |t| && Filled(cells, t, n)
    requires forall k :: k in next <==> k in cells || (k.0 == n + 1 && 1 <= k.1 <= |t[n]|)
    requires forall k :: k in next ==> next[k] == if k.0 == n + 1 && 1 <= k.1 <= |t[n]| then t[n][k.1 - 1] else cells[k]
    ensures Filled(next, t, n + 1)
  {
  }

  function Max(a: int, b: int): int { if a < b then b else a }

  /** One row of the handler's loops, `ws.cell(row=row, column=col, value=value)` for
      each value of `data` from column 1: that row's first |data| cells are replaced
      and every other cell is kept. */
  method WriteRow(ws: Worksheet, row: int, data: seq<string>)
    requires ws.Valid() && 1 <= row
    modifies ws
    ensures ws.Valid()
    ensures forall k :: k in ws.cells <==> k in old(ws.cells) || (k.0 == row && 1 <= k.1 <= |data|)
    ensures forall k :: k in ws.cells ==>
              ws.cells[k] == if k.0 == row && 1 <= k.1 <= |data| then data[k.1 - 1] else old(ws.cells)[k]
    ensures ws.maxRow == (if data == [] then old(ws.maxRow) else Max(old(ws.maxRow), row))
    ensures ws.maxColumn == (if data == [] then old(ws.maxColumn) else Max(old(ws.maxColumn), |data|))
    ensures ws.title == old(ws.title) && ws.widths == old(ws.widths)
  {
    for col := 0 to |data|
      invariant ws.Valid() && ws.title == old(ws.title) && ws.widths == old(ws.widths)
      invariant forall k :: k in ws.cells <==> k in old(ws.cells) || (k.0 == row && 1 <= k.1 <= col)
      invariant forall k :: k in ws.cells ==>
                  ws.cells[k] == if k.0 == row && 1 <= k.1 <= col then data[k.1 - 1] else old(ws.cells)[k]
      invariant ws.maxRow == (if col == 0 then old(ws.maxRow) else Max(old(ws.maxRow), row))
      invariant ws.maxColumn == (if col == 0 then old(ws.maxColumn) else Max(old(ws.maxColumn), col))
    {
      ws.SetCell(row, col + 1, data[col]);
    }
  }

  /** Row n + 1 of the sheet written from row n of t, onto cells holding t's first n rows. */
  method WriteTableRow(ws: Worksheet, ghost t: seq<seq<string>>, n: nat, data: seq<string>)
    requires ws.Valid() && n < |t| && data == t[n] && Filled(ws.cells, t, n)
    modifies ws
    ensures ws.Valid() && Filled(ws.cells, t, n + 1)
    ensures ws.maxRow == (if data == [] then old(ws.maxRow) else Max(old(ws.maxRow), n + 1))
    ensures ws.maxColumn == (if data == [] then old(ws.maxColumn) else Max(old(ws.maxColumn), |data|))
    ensures ws.title == old(ws.title) && ws.widths == old(ws.widths)
  {
    ghost var before := ws.cells;
    WriteRow(ws, n + 1, data);
    FilledNext(before, ws.cells, t, n);
  }

  /** The two loops that fill the sheet: the headers into row 1, then each professional
      into the next row. */
  method FillSheet(rows: seq<Profissional>, cidades: seq<Cidade>, equipamentos: seq<Equipamento>,
                   formatDay: Day -> string) returns (ws: Worksheet)
    ensures fresh(ws) && ws.Valid()
    ensures SheetHolds(ws.cells, ExcelTable(rows, cidades, equipamentos, formatDay))
    ensures ws.title == "Profissionais" && ws.widths == map[]
    ensures ws.maxRow == |rows| + 1 && ws.maxColumn == |ExcelHeaders|
  {
    ghost var t := ExcelTable(rows, cidades, equipamentos, formatDay);
    var n := |ExcelHeaders|;
    ws := new Worksheet();
    ws.title := "Profissionais";
    WriteTableRow(ws, t, 0, ExcelHeaders);
    for i := 0 to |rows|
      invariant ws.Valid() && ws.title == "Profissionais" && ws.widths == map[]
      invariant ws.maxRow == i + 1 && ws.maxColumn == n
      invariant Filled(ws.cells, t, i + 1)
    {
      var data := ExcelRow(cidades, equipamentos, formatDay, rows[i]);
      assert data == t[i + 1];
      WriteTableRow(ws, t, i + 1, data);
    }
  }

  /** The cells of a sheet holding t, position by position. */
  lemma SheetCells(cells: map<(int, int), string>, t: seq<seq<string>>)
    requires SheetHolds(cells, t)
    ensures forall r, c :: 1 <= r <= |t| && 1 <= c <= |t[r - 1]| ==> (r, c) in cells && cells[(r, c)] == t[r - 1][c - 1]
  {
    forall r, c | 1 <= r <= |t| && 1 <= c <= |t[r - 1]|
      ensures (r, c) in cells && cells[(r, c)] == t[r - 1][c - 1]
    {
      var k := (r, c);
      assert k.0 == r && k.1 == c;
    }
  }

  /** Row 1 holds the fifteen headers in order; row r from 2 holds the fifteen cells of
      the professional at index r - 2; nothing lies beyond column 15 or after the last
      professional. */
  lemma ExcelLayout(rows: seq<Profissional>, cidades: seq<Cidade>, equipamentos: seq<Equipamento>,
                    formatDay: Day -> string, cells: map<(int, int), string>)
    requires SheetHolds(cells, ExcelTable(rows, cidades, equipamentos, formatDay))
    ensures forall c :: 1 <= c <= |ExcelHeaders| ==> (1, c) in cells && cells[(1, c)] == ExcelHeaders[c - 1]
    ensures forall r, c :: 2 <= r <= |rows| + 1 && 1 <= c <= |ExcelHeaders| ==>
              (r, c) in cells && cells[(r, c)] == ExcelRow(cidades, equipamentos, formatDay, rows[r - 2])[c - 1]
    ensures forall k :: k in cells ==> 1 <= k.0 <= |rows| + 1 && 1 <= k.1 <= |ExcelHeaders|
  {
    var t := ExcelTable(rows, cidades, equipamentos, formatDay);
    var body := seq(|rows|, i requires 0 <= i < |rows| => ExcelRow(cidades, equipamentos, formatDay, rows[i]));
    assert t == [ExcelHeaders] + body by {
      forall i | 0 <= i < |rows| ensures t[i + 1] == body[i] {}
    }
    TableLayout(cells, ExcelHeaders, body);
  }

  /** A sheet holding a header row followed by body rows of the header's width: row 1
      is the header, row r from 2 is body row r - 2, and nothing lies outside. */
  lemma TableLayout(cells: map<(int, int), string>, header: seq<string>, body: seq<seq<string>>)
    requires SheetHolds(cells, [header] + body)
    requires forall i :: 0 <= i < |body| ==> |body[i]| == |header|
    ensures forall c :: 1 <= c <= |header| ==> (1, c) in cells && cells[(1, c)] == header[c - 1]
    ensures forall r, c :: 2 <= r <= |body| + 1 && 1 <= c <= |header| ==>
              (r, c) in cells && cells[(r, c)] == body[r - 2][c - 1]
    ensures forall k :: k in cells ==> 1 <= k.0 <= |body| + 1 && 1 <= k.1 <= |header|
  {
    var t := [header] + body;
    SheetCells(cells, t);
    forall r, c | 2 <= r <= |body| + 1 && 1 <= c <= |header|
      ensures (r, c) in cells && cells[(r, c)] == body[r - 2][c - 1]
    {
      assert t[r - 1] == body[r - 2];
    }
    forall k | k in cells ensures 1 <= k.0 <= |body| + 1 && 1 <= k.1 <= |header| {
      assert 1 <= k.0 <= |t| && 1 <= k.1 <= |t[k.0 - 1]|;
      if k.0 > 1 {
        assert t[k.0 - 1] == body[k.0 - 2];
      }
    }
  }

  // ---------------------------------------------------------------------------
  // Column widths
  // ---------------------------------------------------------------------------

  /** `str(cell.value)` for the cell at (r, c): a cell never written reads as None,
      whose text is 'None'. */
  function CellText(cells: map<(int, int), string>, r: int, c: int): string {
    if (r, c) in cells then cells[(r, c)] else "None"
  }

  /** The length of the longest text among rows 1..n of column c (0 when n is 0). */
  function Longest(cells: map<(int, int), string>, c: int, n: nat): (m: nat)
    ensures forall r :: 1 <= r <= n ==> |CellText(cells, r, c)| <= m
    ensures n > 0 ==> exists r :: 1 <= r <= n && |CellText(cells, r, c)| == m
    ensures n == 0 ==> m == 0
  {
    if n == 0 then 0
    else
      var m := Longest(cells, c, n - 1);
      if |CellText(cells, n, c)| > m then |CellText(cells, n, c)| else m
  }

  /** `min(max_length + 2, 50)`. */
  function Width(cells: map<(int, int), string>, c: int, n: nat): int {
    var m := Longest(cells, c, n);
    if m + 2 < 50 then m + 2 else 50
  }

  /** A column is never wider than 50 nor narrower than 2; it leaves two characters
      beyond its longest text unless that would pass 50, and is exactly that wide. */
  lemma WidthBounds(cells: map<(int, int), string>, c: int, n: nat)
    ensures 2 <= Width(cells, c, n) <= 50
    ensures forall r :: 1 <= r <= n ==> Width(cells, c, n) == 50 || |CellText(cells, r, c)| + 2 <= Width(cells, c, n)
    ensures n > 0 && Width(cells, c, n) < 50 ==>
              exists r :: 1 <= r <= n && |CellText(cells, r, c)| + 2 == Width(cells, c, n)
  {
    var m := Longest(cells, c, n);
    if n > 0 && Width(cells, c, n) < 50 {
      var r :| 1 <= r <= n && |CellText(cells, r, c)| == m;
      assert |CellText(cells, r, c)| + 2 == Width(cells, c, n);
    }
  }

  /** The width loop: for every column of the sheet, the longest text of its cells,
      then `min(longest + 2, 50)`. */
  method AdjustWidths(ws: Worksheet)
    requires ws.Valid()
    modifies ws
    ensures ws.Valid()
    ensures ws.cells == old(ws.cells) && ws.title == old(ws.title)
    ensures ws.maxRow == old(ws.maxRow) && ws.maxColumn == old(ws.maxColumn)
    ensures forall c :: c in ws.widths <==> c in old(ws.widths) || 1 <= c <= ws.maxColumn
    ensures forall c :: 1 <= c <= ws.maxColumn ==> ws.widths[c] == Width(ws.cells, c, ws.maxRow)
    ensures forall c :: c in old(ws.widths) && !(1 <= c <= ws.maxColumn) ==> ws.widths[c] == old(ws.widths)[c]
  {
    var nrows := ws.maxRow;
    var ncols := ws.maxColumn;
    for c := 1 to ncols + 1
      invariant ws.Valid()
      invariant ws.cells == old(ws.cells) && ws.title == old(ws.title)
      invariant ws.maxRow == nrows && ws.maxColumn == ncols
      invariant forall c' :: c' in ws.widths <==> c' in old(ws.widths) || 1 <= c' < c
      invariant forall c' :: 1 <= c' < c ==> ws.widths[c'] == Width(ws.cells, c', nrows)
      invariant forall c' :: c' in old(ws.widths) && !(1 <= c' < c) ==> ws.widths[c'] == old(ws.widths)[c']
    {
      var maxLength := 0;
      for r := 1 to nrows + 1
        invariant maxLength == Longest(ws.cells, c, r - 1)
      {
        var text := if (r, c) in ws.cells then ws.cells[(r, c)] else "None";
        if |text| > maxLength {
          maxLength := |text|;
        }
      }
      var adjusted := if maxLength + 2 < 50 then maxLength + 2 else 50;
      ws.SetWidth(c, adjusted);
    }
  }

  /** GET /relatorios/profissionais/excel: the filled sheet with its widths set, and
      the EXPORT entry. */
  method ExportarExcel(db: Database, identity: int, args: Args, formatDay: Day -> string,
                       ip: Option<string>, now: Instant, auditFails: bool) returns (r: Export<Worksheet>)
    requires db.Valid()
    modifies db
    ensures db.Valid()
    ensures db.cidades == old(db.cidades) && db.equipamentos == old(db.equipamentos)
    ensures db.usuarios == old(db.usuarios) && db.profissionais == old(db.profissionais)
    ensures match DecideExport(old(db.usuarios), old(db.profissionais), identity, args)
            case Answer(a) => r == Refused(a) && db.auditoria == old(db.auditoria)
            case Commit(rows) =>
              && r.Sent? && fresh(r.file) && r.file.Valid()
              && SheetHolds(r.file.cells, ExcelTable(rows, db.cidades, db.equipamentos, formatDay))
              && r.file.title == "Profissionais"
              && r.file.maxRow == |rows| + 1 && r.file.maxColumn == |ExcelHeaders|
              && (forall c :: c in r.file.widths <==> 1 <= c <= |ExcelHeaders|)
              && (forall c :: 1 <= c <= |ExcelHeaders| ==> r.file.widths[c] == Width(r.file.cells, c, |rows| + 1))
              && db.auditoria == Logged(old(db.auditoria), auditFails, identity, "EXPORT", "profissionais", 0,
                                        None, Some(ExportDados("Excel", args)), ip, now)
  {
    match DecideExport(db.usuarios, db.profissionais, identity, args)
    case Answer(a) =>
      return Refused(a);
    case Commit(rows) =>
      var ws := FillSheet(rows, db.cidades, db.equipamentos, formatDay);
      AdjustWidths(ws);
      Registrar(db, identity, "EXPORT", "profissionais", 0, None, Some(ExportDados("Excel", args)), ip, now,
                auditFails);
      r := Sent(ws);
  }

  // ---------------------------------------------------------------------------
  // Statistics
  // ---------------------------------------------------------------------------

  /** `obter_statisticas` as written: the per-facility query hands `func.case` a Python
      list and an `else_` keyword, which builds a call of an SQL function named `case`
      rather than a CASE expression, so every permitted request ends in the `except`
      clause. */
  function EstatisticasAsWritten(usuarios: seq<Usuario>, identity: int): (r: Response)
    ensures !PodeRelatorios(FindUsuario(usuarios, identity)) <==> r == Error(403, PermissaoNegada)
    ensures PodeRelatorios(FindUsuario(usuarios, identity)) <==> r == Raised(Failed)
  {
    if !PodeRelatorios(FindUsuario(usuarios, identity)) then Error(403, PermissaoNegada)
    else Raised(Failed)
  }

  /** As written, no user at all receives statistics: the answer is 403 or 500. */
  lemma StatisticsNeverServedAsWritten(usuarios: seq<Usuario>, identity: int)
    ensures StatusAsWritten(EstatisticasAsWritten(usuarios, identity)) in {403, 500}
    ensures !EstatisticasAsWritten(usuarios, identity).Reply? || EstatisticasAsWritten(usuarios, identity).status != 200
  {
  }

  /** One row of a per-facility or per-city breakdown. */
  datatype StatRow = StatRow(nome: string, total: nat, ativos: nat, inativos: nat)

  function PairNome(x: (string, bool)): string { x.0 }
  function PairAtivo(x: (string, bool)): bool { x.1 }
  function PairInativo(x: (string, bool)): bool { !x.1 }

  /** The inner join of the professionals with a table of named rows on one of the
      professional's keys: one (name, active) pair per professional whose key exists.
      The tables' keys are unique, so each professional joins at most one row. */
  function Joined<E>(profs: seq<Profissional>, table: seq<E>, key: E -> int, nome: E -> string,
                     col: Profissional -> int): (r: seq<(string, bool)>)
    ensures |r| <= |profs|
    ensures (forall i :: 0 <= i < |profs| ==> exists e :: e in table && key(e) == col(profs[i])) ==> |r| == |profs|
  {
    if profs == [] then []
    else
      var rest := Joined(profs[1..], table, key, nome, col);
      assert (forall i :: 0 <= i < |profs| ==> exists e :: e in table && key(e) == col(profs[i])) ==>
               (forall i :: 0 <= i < |profs[1..]| ==> exists e :: e in table && key(e) == col(profs[1..][i])) by {
        assert forall i :: 0 <= i < |profs[1..]| ==> profs[1..][i] == profs[i + 1];
      }
      match Find(table, (e: E) => key(e) == col(profs[0]))
      case None => rest
      case Some(e) => [(nome(e), profs[0].ativo)] + rest
  }

  function EquipamentoNome(e: Equipamento): string { e.nome }

  /** The professionals the inner join keeps: those whose key has a row in the table. */
  function Joins<E>(table: seq<E>, key: E -> int, col: Profissional -> int): Profissional -> bool {
    (p: Profissional) => exists j :: 0 <= j < |table| && key(table[j]) == col(p)
  }

  /** Pair i of r comes from the i-th professional of m and a row of the table with
      its key. */
  predicate PairsFrom<E>(r: seq<(string, bool)>, m: seq<Profissional>, table: seq<E>, key: E -> int,
                               nome: E -> string, col: Profissional -> int) {
    |r| == |m|
    && forall i :: 0 <= i < |r| ==>
         exists j :: 0 <= j < |table| && key(table[j]) == col(m[i]) && r[i] == (nome(table[j]), m[i].ativo)
  }

  /** Adding a professional with its row in front keeps the correspondence. */
  lemma PairsFromCons<E>(x: (string, bool), p: Profissional, j0: nat, r: seq<(string, bool)>, m: seq<Profissional>,
                         table: seq<E>, key: E -> int, nome: E -> string, col: Profissional -> int)
    requires j0 < |table| && key(table[j0]) == col(p) && x == (nome(table[j0]), p.ativo)
    requires PairsFrom(r, m, table, key, nome, col)
    ensures PairsFrom([x] + r, [p] + m, table, key, nome, col)
  {
    forall i | 0 <= i < |[x] + r|
      ensures exists j :: 0 <= j < |table| && key(table[j]) == col(([p] + m)[i])
                          && ([x] + r)[i] == (nome(table[j]), ([p] + m)[i].ativo)
    {
      if i > 0 {
        assert ([x] + r)[i] == r[i - 1] && ([p] + m)[i] == m[i - 1];
      } else {
        assert ([x] + r)[0] == x && ([p] + m)[0] == p;
      }
    }
  }

  /** The join in order: pair i comes from the i-th professional that has a row, and
      carries the name of a row with its key and that professional's active flag. */
  lemma {:induction false} JoinedPairs<E>(profs: seq<Profissional>, table: seq<E>, key: E -> int,
                                          nome: E -> string, col: Profissional -> int)
    ensures PairsFrom(Joined(profs, table, key, nome, col), Filter(profs, Joins(table, key, col)), table, key, nome, col)
  {
    if profs != [] {
      JoinedPairs(profs[1..], table, key, nome, col);
      var m' := Filter(profs[1..], Joins(table, key, col));
      var rest := Joined(profs[1..], table, key, nome, col);
      match Find(table, (e: E) => key(e) == col(profs[0]))
      case None =>
        forall j | 0 <= j < |table| ensures key(table[j]) != col(profs[0]) {
          assert !(e => key(e) == col(profs[0]))(table[j]);
        }
      case Some(e) =>
        assert Joins(table, key, col)(profs[0]);
        var j0 :| 0 <= j0 < |table| && table[j0] == e;
        PairsFromCons((nome(e), profs[0].ativo), profs[0], j0, rest, m', table, key, nome, col);
    }
  }

  /** GROUP BY name with COUNT, SUM(active) and SUM(inactive). */
  function Breakdown(pairs: seq<(string, bool)>): (r: seq<StatRow>)
    ensures |r| == |GroupCount(Map(pairs, PairNome))|
    ensures forall i :: 0 <= i < |r| ==>
              && r[i].nome == GroupCount(Map(pairs, PairNome))[i].0
              && r[i].total == GroupCount(Map(pairs, PairNome))[i].1
              && r[i].ativos == Occurrences(Map(Filter(pairs, PairAtivo), PairNome), r[i].nome)
              && r[i].inativos == Occurrences(Map(Filter(pairs, PairInativo), PairNome), r[i].nome)
  {
    var ativos := Map(Filter(pairs, PairAtivo), PairNome);
    var inativos := Map(Filter(pairs, PairInativo), PairNome);
    Map(GroupCount(Map(pairs, PairNome)),
        (g: (string, nat)) => StatRow(g.0, g.1, Occurrences(ativos, g.0), Occurrences(inativos, g.0)))
  }

  /** Row i of a breakdown counts exactly the joined professionals under its name,
      and they split into its active and inactive counts. */
  lemma BreakdownRow(pairs: seq<(string, bool)>, i: nat)
    requires i < |Breakdown(pairs)|
    ensures Breakdown(pairs)[i].total == Occurrences(Map(pairs, PairNome), Breakdown(pairs)[i].nome)
    ensures Breakdown(pairs)[i].total == Breakdown(pairs)[i].ativos + Breakdown(pairs)[i].inativos
  {
    GroupCountRow(Map(pairs, PairNome), i);
    OccurrencesSplit(pairs, PairNome, PairAtivo, PairInativo, Breakdown(pairs)[i].nome);
  }

  /** Every row of a breakdown is balanced, the names are distinct, and the totals add
      up to the size of the join. */
  lemma BreakdownBalanced(pairs: seq<(string, bool)>)
    ensures forall i :: 0 <= i < |Breakdown(pairs)| ==>
              Breakdown(pairs)[i].total == Breakdown(pairs)[i].ativos + Breakdown(pairs)[i].inativos
    ensures forall i, j :: 0 <= i < j < |Breakdown(pairs)| ==> Breakdown(pairs)[i].nome != Breakdown(pairs)[j].nome
    ensures SumCounts(GroupCount(Map(pairs, PairNome))) == |pairs|
  {
    forall i | 0 <= i < |Breakdown(pairs)|
      ensures Breakdown(pairs)[i].total == Breakdown(pairs)[i].ativos + Breakdown(pairs)[i].inativos
    {
      BreakdownRow(pairs, i);
    }
  }

  function Total(g: (string, nat)): int { g.1 }

  /** GROUP BY profession ORDER BY count DESC LIMIT 10. */
  function TopProfissoes(rows: seq<Profissional>): (r: seq<(string, nat)>)
    ensures |r| <= 10
    ensures SortedDesc(r, Total)
    ensures forall g :: g in r ==> g.1 == Occurrences(Map(rows, ProfProfissao), g.0) && g.1 > 0
    ensures forall g, h :: g in GroupCount(Map(rows, ProfProfissao)) && g !in r && h in r ==> Total(h) >= Total(g)
    ensures DistinctKeys(r)
    ensures |r| == (if |GroupCount(Map(rows, ProfProfissao))| < 10 then |GroupCount(Map(rows, ProfProfissao))| else 10)
    ensures forall k :: k in Map(rows, ProfProfissao) && |GroupCount(Map(rows, ProfProfissao))| <= 10
                        ==> exists g :: g in r && g.0 == k
  {
    TopRows(Map(rows, ProfProfissao), Total, 10);
    Take(SortDesc(GroupCount(Map(rows, ProfProfissao)), Total), 10)
  }

  /** The statistics the dashboard reads, without the floating-point activity rate. */
  datatype Panorama = Panorama(total: nat, ativos: nat, inativos: nat, porEquipamento: seq<StatRow>,
                               porCidade: seq<StatRow>, porProfissao: seq<(string, nat)>)

  function IsAtivoProf(p: Profissional): bool { p.ativo }
  function IsInativoProf(p: Profissional): bool { !p.ativo }

  /** The four queries of `obter_estatisticas` for actor u, with the CASE sums the
      handler evidently intends: totals, per facility and per profession within the
      actor's city scope, and per city (unscoped) for a global admin only. */
  function ComputePanorama(u: Usuario, cidades: seq<Cidade>, equipamentos: seq<Equipamento>,
                           profs: seq<Profissional>): (r: Panorama)
    ensures r.total == |ScopeStep(profs, u)| && r.total == r.ativos + r.inativos
    ensures r.ativos == |Filter(ScopeStep(profs, u), IsAtivoProf)|
    ensures u.nivelAcesso != AdminGlobal ==> r.porCidade == []
    ensures u.nivelAcesso == AdminGlobal ==>
              r.porCidade == Breakdown(Joined(profs, cidades, CidadeId, CidadeNome, ProfCidade))
    ensures r.porEquipamento ==
              Breakdown(Joined(ScopeStep(profs, u), equipamentos, EquipamentoId, EquipamentoNome, ProfEquipamento))
    ensures r.porProfissao == TopProfissoes(ScopeStep(profs, u))
  {
    var scoped := ScopeStep(profs, u);
    FilterSplit(scoped, IsAtivoProf, IsInativoProf);
    Panorama(|scoped|, |Filter(scoped, IsAtivoProf)|, |Filter(scoped, IsInativoProf)|,
             Breakdown(Joined(scoped, equipamentos, EquipamentoId, EquipamentoNome, ProfEquipamento)),
             if u.nivelAcesso == AdminGlobal then Breakdown(Joined(profs, cidades, CidadeId, CidadeNome, ProfCidade))
             else [],
             TopProfissoes(scoped))
  }

  /** Within the scope, a per-facility row never counts more professionals than the
      general total. */
  lemma FacilityRowsWithinTotal(u: Usuario, cidades: seq<Cidade>, equipamentos: seq<Equipamento>,
                                profs: seq<Profissional>)
    ensures var p := ComputePanorama(u, cidades, equipamentos, profs);
            SumCounts(GroupCount(Map(Joined(ScopeStep(profs, u), equipamentos, EquipamentoId, EquipamentoNome,
                                            ProfEquipamento), PairNome))) <= p.total
  {
    var pairs := Joined(ScopeStep(profs, u), equipamentos, EquipamentoId, EquipamentoNome, ProfEquipamento);
    BreakdownBalanced(pairs);
  }

  function StatRowJson(column: string, s: StatRow): Json {
    JObj(map[column := JStr(s.nome), "total" := JInt(s.total), "ativos" := JInt(s.ativos),
             "inativos" := JInt(s.inativos)])
  }

  function ProfissaoJson(g: (string, nat)): Json {
    JObj(map["profissao" := JStr(g.0), "total" := JInt(g.1)])
  }

  function PanoramaJson(p: Panorama): Json {
    JObj(map[
      "geral" := JObj(map["total_profissionais" := JInt(p.total), "profissionais_ativos" := JInt(p.ativos),
                          "profissionais_inativos" := JInt(p.inativos)]),
      "por_equipamento" := JArr(Map(p.porEquipamento, (s: StatRow) => StatRowJson("equipamento", s))),
      "por_cidade" := JArr(Map(p.porCidade, (s: StatRow) => StatRowJson("cidade", s))),
      "por_profissao" := JArr(Map(p.porProfissao, ProfissaoJson))])
  }

  /** GET /relatorios/estatisticas with the CASE sums written as intended. */
  function Estatisticas(usuarios: seq<Usuario>, cidades: seq<Cidade>, equipamentos: seq<Equipamento>,
                        profs: seq<Profissional>, identity: int): (r: Response)
    ensures !PodeRelatorios(FindUsuario(usuarios, identity)) <==> r == Error(403, PermissaoNegada)
    ensures PodeRelatorios(FindUsuario(usuarios, identity)) ==>
              r == Ok(PanoramaJson(ComputePanorama(FindUsuario(usuarios, identity).value, cidades, equipamentos, profs)))
  {
    var actor := FindUsuario(usuarios, identity);
    if !PodeRelatorios(actor) then Error(403, PermissaoNegada)
    else Ok(PanoramaJson(ComputePanorama(actor.value, cidades, equipamentos, profs)))
  }

  /** The written handler and the corrected one agree on every refusal and differ on
      every permitted request. */
  lemma StatisticsFinding(usuarios: seq<Usuario>, cidades: seq<Cidade>, equipamentos: seq<Equipamento>,
                          profs: seq<Profissional>, identity: int)
    ensures !PodeRelatorios(FindUsuario(usuarios, identity)) ==>
              EstatisticasAsWritten(usuarios, identity) == Estatisticas(usuarios, cidades, equipamentos, profs, identity)
    ensures PodeRelatorios(FindUsuario(usuarios, identity)) ==>
              StatusAsWritten(EstatisticasAsWritten(usuarios, identity)) == 500
              && StatusOf(Estatisticas(usuarios, cidades, equipamentos, profs, identity)) == 200
  {
  }
}
