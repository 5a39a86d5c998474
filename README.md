# Sistema de Gestão de Profissionais — access control and record lifecycle

This project is a Dafny model of the core of *sistemags*, a dashboard for managing
health professionals (`profissionais`), the cities (`cidades`) and facilities
(`equipamentos`) they work in, the dashboard's users (`usuarios`, each with an access
level 1..4 and an optional city) and the audit log (`auditoria`). The model follows the
program's structure:

- The Flask backend.
  - `Records` holds the five tables. They are the fields of a `Database` class, and its
    `Valid()` invariant states the keys and UNIQUE columns.
  - `Http` holds query strings and responses, including the exception that a handler's
    `except` clause catches.
  - `AuditLog` is `registrar_auditoria`.
  - There is one module per blueprint: `AuthRoutes`, `ProfissionaisRoutes`,
    `UsuariosRoutes`, `CidadesRoutes`, `EquipamentosRoutes`, `AuditoriaRoutes` and
    `RelatoriosRoutes`.
  - Each write endpoint is two members:
    - a pure decision (`Decide…`), which answers without touching the database or names
      the row to commit;
    - a method on the `Database` that states the whole new state and keeps it `Valid()`.
- The React client.
  - `Browser` holds `localStorage` and the location, as a `Window` class.
  - `ApiClient` is the axios instance and its interceptors, plus the request builders of
    `lib/api.js`.
  - `Auth` is the session provider, as an `AuthProvider` class.
  - `AppRoutes` is the route table and `Layout` is the menu.
  - `ProfissionaisPage` and `UsuariosPage` are the two pages modelled. Each is a `Page`
    class whose handlers append the API calls they make to a `calls` log.

The parts the model cannot see become parameters:

- Password hashing becomes `checkPw`, `senhaHash` and `novoHash`.
- Date parsing (`strptime`) becomes `parseDay`, and date formatting becomes `formatDay`.
- The clock becomes `now`, and the client address becomes `ip`.
- The outcome of a request the client sends becomes `ok`.
- A failing audit commit becomes `fails`.

Behaviour worth knowing before reading the contracts:

- A failed login that the backend answers with 401 passes through the client's response
  interceptor. That interceptor clears both storage keys and loads the login page, so a
  wrong password clears storage too (`Auth.AuthProvider.Login`).
- At start-up the provider adopts only the user from storage. It adopts nothing when
  either key is falsy. Unparseable user text makes the effect throw, and the provider then
  stays in the loading state (`Auth.AuthProvider.Bootstrap`).
- A missing record is reported with status 500, not 404 (see Findings).
- The text filters of the listing are SQL `ILIKE '%t%'`, so a `%` or `_` the user types is
  a wildcard (`Common.Like`, `ProfissionaisRoutes.PercentTextMatchesAll`).

## Model

| member | source | states |
|---|---|---|
| Http.ArgGet | profissionais_backend/src/routes/profissionais.py:48-52 | `request.args.get`: None exactly when no pair has the name; otherwise the value of the first pair with it |
| Http.ArgGetOr | profissionais_backend/src/routes/profissionais.py:48 | the default is used only when the name is absent, and never overrides a present value |
| Http.ArgsToDict | profissionais_backend/src/routes/relatorios.py:156 | `args.to_dict()` has exactly the names present, each mapped to its first value |
| Http.StatusOf | profissionais_backend/src/routes/profissionais.py:145 | the corrected status: a raised NotFound is 404 and any other caught failure is 500 |
| Http.MissingKeyAnswers500 | profissionais_backend/src/routes/profissionais.py:144-157 | as written, a missing key answers 500 where 404 is intended, and this is the only response on which the two readings differ |
| Records.StampOrder | profissionais_backend/src/models/database.py:129 | timestamps are ordered by day first, then by the time within the day |
| Records.ParseStatus | profissionais_backend/src/models/database.py:11 | the status enum accepts exactly 'ativo' and 'inativo', and its text form inverts the parse |
| Records.ParseStatusText | profissionais_backend/src/models/database.py:11 | printing a status and parsing it back gives the same status |
| Records.ReadStatus | profissionais_backend/src/routes/cidades.py:71-72 | an absent member keeps the current status, null breaks NOT NULL, and a given text is parsed against the enum |
| Records.CreationStatus | profissionais_backend/src/routes/cidades.py:35-37 | on creation a missing or null status gives the column default 'ativo' (the ORM leaves a None attribute out of the INSERT), and a given text is parsed against the enum |
| Records.StoredInt | profissionais_backend/src/models/database.py:54 | the INTEGER level column holds a number as sent, a boolean as 1 or 0, and a text only when it is the canonical decimal form of the integer stored; null holds nothing |
| Records.StoredIntOfText | profissionais_backend/src/models/database.py:54 | the text of an integer is stored as that integer |
| Records.CidadeToDict | profissionais_backend/src/models/database.py:18-24 | the public record of a city has exactly its four columns |
| Records.EquipamentoToDict | profissionais_backend/src/models/database.py:38-45 | the public record of a facility has exactly its five columns |
| Records.UsuarioToDict | profissionais_backend/src/models/database.py:61-69 | the public record of a user has exactly six keys and never the password hash |
| Records.ProfissionalToDict | profissionais_backend/src/models/database.py:95-117 | the public record carries the key, the CPF and every lifecycle member; the full key set and the dates are stated by the two lemmas below |
| Records.ProfissionalDictKeys | profissionais_backend/src/models/database.py:95-117 | the public record of a professional has exactly the twenty keys of `to_dict`: its seventeen registration columns and its three lifecycle columns |
| Records.ProfissionalDictDates | profissionais_backend/src/models/database.py:100-113 | the birth date, the RG issue date and the start date are the ISO texts of those days, and the registration date that of the timestamp |
| Records.AuditoriaToDict | profissionais_backend/src/models/database.py:132-143 | the public record of an audit entry has exactly its nine columns |
| Records.NomeOrFirstMatch | profissionais_frontend/src/pages/Profissionais.jsx:122-130 | a name lookup gives the name of the first row with that id, and 'N/A' when no row has it |
| Records.UsuarioDictRoundTrip | profissionais_backend/src/models/database.py:61-69 | the public record of a user determines every column except the hash, which it never depends on |
| Records.ProfissionalDictLifecycle | profissionais_backend/src/models/database.py:112-116 | the public record gives back the active flag, the reason and the inactivation time |
| Records.MaxId | profissionais_backend/src/models/database.py:73 | an upper bound of every key in use |
| Records.NextId | profissionais_backend/src/models/database.py:73 | the key the database assigns is positive and unused |
| Records.FindUsuario | profissionais_backend/src/routes/profissionais.py:11-12 | `Usuario.query.get`: the row with that key, or None exactly when no row has it |
| Records.Database.constructor | profissionais_backend/src/models/database.py:6-143 | the empty database satisfies every key and UNIQUE constraint |
| AuditLog.Entry | profissionais_backend/src/utils/auditoria.py:17-28 | the audit row has a fresh key, the given columns and the insertion time |
| AuditLog.Logged | profissionais_backend/src/utils/auditoria.py:3-33 | recording appends exactly one entry, or leaves the log unchanged when the commit fails |
| AuditLog.EntryKeepsKeysUnique | profissionais_backend/src/utils/auditoria.py:17-28 | a fresh key keeps the audit keys unique |
| AuditLog.Registrar | profissionais_backend/src/utils/auditoria.py:3-33 | only the audit table changes, to the logged log; optional columns default to null; a failure never reaches the caller |
| AuthRoutes.FindByEmail | profissionais_backend/src/routes/auth.py:18 | the first user with the email, or None exactly when nobody has it |
| AuthRoutes.Login | profissionais_backend/src/routes/auth.py:8-31 | 400 exactly when the email or password is missing or empty; a token exactly when the first user with that email passes the password check, carrying that user's key and public record; every other status is 400 or 401 |
| AuthRoutes.UnknownEmailLooksLikeWrongPassword | profissionais_backend/src/routes/auth.py:18-21 | a wrong password and an unknown email get the same 401 answer |
| AuthRoutes.Me | profissionais_backend/src/routes/auth.py:33-46 | 404 exactly when the token's user is gone, otherwise that user's public record |
| AuthRoutes.NewUsuario | profissionais_backend/src/routes/auth.py:60-69 | an insert succeeds exactly when name, email and level are present, with a fresh key and the given columns |
| AuthRoutes.AddUsuarioKeepsValid | profissionais_backend/src/models/database.py:52 | a fresh key and an unused email keep the users table valid |
| AuthRoutes.Register | profissionais_backend/src/routes/auth.py:48-75 | a duplicate email gives 400 and changes nothing; 201 exactly when the password is given and the row can be built, with the level stored from the value sent (1 when missing); only the users table may change |
| AuthRoutes.LevelOf | profissionais_backend/src/routes/usuarios.py:58 | `get('nivel_acesso', 1)`: 1 when the member is missing, null for null, and otherwise the value sent |
| ProfissionaisRoutes.PodeEditarTable | profissionais_backend/src/routes/profissionais.py:9-32 | nobody edits without a user; level 4 edits everything; levels 2 and 3 edit only their own city's records (or create); other levels edit nothing |
| ProfissionaisRoutes.PodeEditarMonotone | profissionais_backend/src/routes/profissionais.py:9-32 | within levels 1..4 a higher level keeps every edit permission of a lower one |
| ProfissionaisRoutes.EditImpliesView | profissionais_backend/src/routes/profissionais.py:151-152 | whoever may edit a record may also view it |
| ProfissionaisRoutes.Scope | profissionais_backend/src/routes/profissionais.py:44-45 | the listing is confined to the actor's city exactly when the level is below 4 and the city is set and non-zero |
| ProfissionaisRoutes.ReadIntArg | profissionais_backend/src/routes/profissionais.py:59-63 | an absent or empty argument imposes nothing; otherwise `int()` of it, failing exactly when it is not an integer |
| ProfissionaisRoutes.ListingMatchesSplit | profissionais_backend/src/routes/profissionais.py:38-69 | the listing's condition is the status clause and the other clauses together |
| ProfissionaisRoutes.OtherClausesReadOnlyTheirArgs | profissionais_backend/src/routes/profissionais.py:59-69 | the non-status clauses depend only on the city, facility, profession and position arguments |
| ProfissionaisRoutes.ScopeStep | profissionais_backend/src/routes/profissionais.py:44-45 | the city clause keeps, in order, exactly the records of the scoped city |
| ProfissionaisRoutes.StatusStep | profissionais_backend/src/routes/profissionais.py:54-57 | the status clause keeps, in order, exactly the records the status selects |
| ProfissionaisRoutes.IntStep | profissionais_backend/src/routes/profissionais.py:59-63 | an integer clause keeps, in order, exactly the records whose column equals the argument |
| ProfissionaisRoutes.TextStep | profissionais_backend/src/routes/profissionais.py:65-69 | an `ilike` clause keeps, in order, exactly the records whose column matches the pattern `%t%`, wildcards in the text included |
| ProfissionaisRoutes.LiteralTextIsSubstring | profissionais_backend/src/routes/profissionais.py:65-69 | for a text with no `%` or `_`, the clause is a case-insensitive substring test |
| ProfissionaisRoutes.PercentTextMatchesAll | profissionais_backend/src/routes/profissionais.py:65-66 | the text `%` keeps every record |
| ProfissionaisRoutes.ReportQuery | profissionais_backend/src/routes/relatorios.py:31-54 | the reports' query fails exactly on a bad integer argument; otherwise it is the ordered sub-list of records that match scope, status, city and facility |
| ProfissionaisRoutes.Listing | profissionais_backend/src/routes/profissionais.py:38-73 | the listing fails exactly on a bad integer argument; otherwise it is the ordered sub-list of exactly the records that meet every clause |
| ProfissionaisRoutes.ListingReadsOnlyItsArgs | profissionais_backend/src/routes/profissionais.py:48-52 | two query strings that agree on the five arguments read (status with its default) give the same listing |
| ProfissionaisRoutes.ReportQueryReadsOnlyItsArgs | profissionais_backend/src/routes/relatorios.py:31-54 | queries that agree on the status (with its default), city and facility arguments give the same shared clauses |
| ProfissionaisRoutes.Listar | profissionais_backend/src/routes/profissionais.py:34-76 | a token whose user is gone fails; otherwise 200 with the listing, or a failure on a bad integer argument |
| ProfissionaisRoutes.DefaultStatusIsAtivo | profissionais_backend/src/routes/profissionais.py:48 | with no status argument only active records are listed |
| ProfissionaisRoutes.CitylessUserListsAllButOpensNone | profissionais_backend/src/routes/profissionais.py:44-45 | a user below level 4 with no city lists every active record yet may open none of them |
| ProfissionaisRoutes.IndexOf | profissionais_backend/src/routes/profissionais.py:145 | `get_or_404`: the position of the row with that key, or None exactly when there is none |
| ProfissionaisRoutes.Obter | profissionais_backend/src/routes/profissionais.py:141-157 | NotFound exactly when the key is missing; a failure when the token's user is gone; 200 with the record exactly when the viewer may see it; 403 when the viewer exists and may not |
| ProfissionaisRoutes.NewProfissional | profissionais_backend/src/routes/profissionais.py:104-120 | a row exactly when all twelve non-date members are given; it carries each of them and the three dates, has a fresh key, is active with no lifecycle data, and is stamped now |
| ProfissionaisRoutes.DecideCreate | profissionais_backend/src/routes/profissionais.py:78-139 | 403 without permission, then CPF, RG and email duplicates in that order (each 400); past them, a commit exactly when every member is given and every date parses, else a failure; a commit carries the body's twelve members and parsed dates, is active and stamped now |
| ProfissionaisRoutes.AddProfissionalKeepsValid | profissionais_backend/src/models/database.py:78-86 | a row whose key, CPF, RG and email are unused keeps the table valid |
| ProfissionaisRoutes.Criar | profissionais_backend/src/routes/profissionais.py:78-139 | the database follows the decision; a committed row is appended and audited as CREATE; the other tables are unchanged |
| ProfissionaisRoutes.Assign | profissionais_backend/src/routes/profissionais.py:171-201 | an absent member keeps the column, a given one sets it, and null breaks NOT NULL |
| ProfissionaisRoutes.AssignDate | profissionais_backend/src/routes/profissionais.py:184-186 | a date member that is absent keeps the column; a given one is parsed; null fails |
| ProfissionaisRoutes.ApplyPatch | profissionais_backend/src/routes/profissionais.py:171-201 | the update fails exactly when a member is null or a given date does not parse; otherwise it keeps the key, the creation date and the lifecycle, and for each of the fifteen members keeps the column when absent and sets it (a date to its parse) when given |
| ProfissionaisRoutes.EmptyPatchKeepsRecord | profissionais_backend/src/routes/profissionais.py:171-201 | an empty body changes nothing |
| ProfissionaisRoutes.PatchIdempotent | profissionais_backend/src/routes/profissionais.py:171-201 | applying the same body twice is the same as applying it once |
| ProfissionaisRoutes.ReplaceProfissionalKeepsValid | profissionais_backend/src/models/database.py:78-86 | replacing a row by one with the same key and unique columns no other row holds keeps the table valid |
| ProfissionaisRoutes.Atualizar | profissionais_backend/src/routes/profissionais.py:159-220 | NotFound for a missing key, 403 without permission, a failure when a NOT NULL or UNIQUE column is broken; otherwise that row alone becomes the patched record and UPDATE is logged |
| ProfissionaisRoutes.Inativado | profissionais_backend/src/routes/profissionais.py:235-237 | inactivation leaves the data columns as they were and sets inactive, the reason and the time |
| ProfissionaisRoutes.Reativado | profissionais_backend/src/routes/profissionais.py:270-272 | reactivation leaves the data columns as they were, sets active and clears reason and time |
| ProfissionaisRoutes.ReativarUndoesInativar | profissionais_backend/src/routes/profissionais.py:235-272 | reactivating an inactivated record that was active gives back the original |
| ProfissionaisRoutes.LifecycleKeepsKeys | profissionais_backend/src/routes/profissionais.py:235-272 | both transitions keep the key and the CPF, RG and email |
| ProfissionaisRoutes.ResubmittedCreationBodyKeepsRecord | profissionais_backend/src/routes/profissionais.py:171-201 | sending a record's creation body as an update leaves the record as it was |
| ProfissionaisRoutes.ReplaceSameKeysKeepsValid | profissionais_backend/src/models/database.py:78-86 | a row replaced with the same keys keeps the table valid |
| ProfissionaisRoutes.Inativar | profissionais_backend/src/routes/profissionais.py:222-256 | NotFound for a missing key, 403 without permission, a failure with no JSON body; otherwise only that row is inactivated with the body's reason (or the default one) and DELETE is logged |
| ProfissionaisRoutes.Reativar | profissionais_backend/src/routes/profissionais.py:258-292 | NotFound for a missing key, 403 without permission; otherwise only that row is reactivated and UPDATE is logged |
| UsuariosRoutes.AdminGlobalIsAdmin | profissionais_backend/src/routes/usuarios.py:9-17 | a global admin is an admin, a city admin is an admin but not global, and nobody without a user is either |
| UsuariosRoutes.VisibleUsuarios | profissionais_backend/src/routes/usuarios.py:32-33 | the visible users are, in order, exactly those of the actor's city when the actor is a city admin with a city, and everyone otherwise |
| UsuariosRoutes.Listar | profissionais_backend/src/routes/usuarios.py:19-39 | 403 exactly for a non-admin; otherwise 200 with the visible users' public records |
| UsuariosRoutes.UnconfinedAdminSeesAll | profissionais_backend/src/routes/usuarios.py:32-33 | an unconfined admin sees every user |
| UsuariosRoutes.DecideCriar | profissionais_backend/src/routes/usuarios.py:41-92 | 403 for a non-admin, then 400 for a duplicate email, then 403 when a city admin asks for a level the guard refuses; past them a commit exactly when password, name and email are given and the level can be stored, else a failure; a commit has a fresh key, the body's name and email, the stored level and city |
| UsuariosRoutes.CityAdminCreatesNoAdminGlobal | profissionais_backend/src/routes/usuarios.py:58-62 | with the intended guard, a user created by a city admin is never level 4 |
| UsuariosRoutes.TextLevelCreatesAdminGlobalAsWritten | profissionais_backend/src/routes/usuarios.py:58-76 | with the guard as written, a city admin sending the level as the text "4" creates a level-4 user |
| UsuariosRoutes.CreatedUsuarioCanLogIn | profissionais_backend/src/routes/usuarios.py:64-76 | a created user logs in with the password sent and gets a token for its own key |
| UsuariosRoutes.Criar | profissionais_backend/src/routes/usuarios.py:41-92 | the corrected endpoint: the database follows `DecideCriar` run with the corrected guard `AsksAdminGlobal` (the stored level is 4), not the written `== 4` of usuarios.py:61; a new user is appended and audited as CREATE |
| UsuariosRoutes.IndexOfUsuario | profissionais_backend/src/routes/usuarios.py:101 | the position of the user with that key, or None exactly when there is none |
| UsuariosRoutes.PatchUsuario | profissionais_backend/src/routes/usuarios.py:115-127 | the patch fails exactly when the name, email or password is null or the level cannot be stored; otherwise it keeps the key and creation date, each absent member keeps its column, the name and email are set as given, the password rehashed, the level stored from the value sent and the city set |
| UsuariosRoutes.EmptyUsuarioPatch | profissionais_backend/src/routes/usuarios.py:115-127 | an empty body changes nothing |
| UsuariosRoutes.PatchUsuarioIdempotent | profissionais_backend/src/routes/usuarios.py:115-127 | sending the same update again changes nothing but a fresh password hash |
| UsuariosRoutes.DecideAtualizar | profissionais_backend/src/routes/usuarios.py:94-146 | 403 for a non-admin, NotFound for a missing key, 403 for a city admin outside its city, a failure for a null password, 403 when a city admin asks for a refused level; otherwise a commit of the patched row exactly when the patch succeeds and no other user has its email, else a failure |
| UsuariosRoutes.CityAdminGrantsNoGlobalAdmin | profissionais_backend/src/routes/usuarios.py:121-124 | with the intended guard, after an update committed by a city admin the user is level 4 only if it already was |
| UsuariosRoutes.TextLevelGrantsAdminGlobalAsWritten | profissionais_backend/src/routes/usuarios.py:121-125 | with the guard as written, a city admin sending the level as the text "4" makes a user of its city level 4 |
| UsuariosRoutes.CityAdminCanDemoteGlobalAdmin | profissionais_backend/src/routes/usuarios.py:108-127 | a city admin may lower a global admin of the same city to level 1 |
| UsuariosRoutes.PatchKeepsValid | profissionais_backend/src/models/database.py:52 | replacing a user by one with the same key and an email no other user holds keeps the table valid |
| UsuariosRoutes.Atualizar | profissionais_backend/src/routes/usuarios.py:94-146 | the corrected endpoint: the database follows `DecideAtualizar` run with the corrected guard `AsksAdminGlobal`, not the written `== 4` of usuarios.py:123; a committed patch replaces that row alone and is audited as UPDATE |
| UsuariosRoutes.Without | profissionais_backend/src/routes/usuarios.py:170-171 | deleting a row keeps, in order, every other row |
| UsuariosRoutes.DecideDeletar | profissionais_backend/src/routes/usuarios.py:148-187 | 403 for a non-admin, NotFound for a missing key, 400 for deleting oneself, 403 outside a city admin's city, a failure for a user with audit entries, and a commit exactly when none of these applies |
| UsuariosRoutes.DeletionGuards | profissionais_backend/src/routes/usuarios.py:162-171 | a committed deletion is never of oneself nor of a user referenced by the audit log |
| UsuariosRoutes.WithoutRemovesKey | profissionais_backend/src/routes/usuarios.py:170-171 | after deletion no remaining user has the deleted key |
| UsuariosRoutes.Deletar | profissionais_backend/src/routes/usuarios.py:148-187 | the database follows the decision; a committed deletion removes that row alone and is audited as DELETE |
| CidadesRoutes.Ativas | profissionais_backend/src/routes/cidades.py:17 | the active cities, in order, exactly |
| CidadesRoutes.Listar | profissionais_backend/src/routes/cidades.py:13-20 | 200 with exactly the active cities' records, for any signed-in user |
| CidadesRoutes.IndexOfCidade | profissionais_backend/src/routes/cidades.py:66 | the position of the city with that key, or None exactly when there is none |
| CidadesRoutes.DecideCriar | profissionais_backend/src/routes/cidades.py:22-57 | 403 for a non-admin, 400 for a name in use; a commit exactly when the name is given and the status is missing, null (both give the default 'ativo') or a text in the enum, with a fresh key, that name and status, stamped now |
| CidadesRoutes.NewCidadeIsListed | profissionais_backend/src/routes/cidades.py:35-37 | a city created with a missing or null status is active and listed |
| CidadesRoutes.AddCidadeKeepsValid | profissionais_backend/src/models/database.py:10 | a fresh key and an unused name keep the cities table valid |
| CidadesRoutes.Criar | profissionais_backend/src/routes/cidades.py:22-57 | the database follows the decision; a new city is appended and audited as CREATE |
| CidadesRoutes.DecideAtualizar | profissionais_backend/src/routes/cidades.py:59-91 | 403 for a non-admin, NotFound for a missing key; for an existing city, a commit exactly when the name is not null, the status is absent or a text in the enum, and no other city has the resulting name, and otherwise a failure; a commit keeps the key and creation date and each absent member's column, and sets each given one |
| CidadesRoutes.EmptyUpdateKeepsCidade | profissionais_backend/src/routes/cidades.py:71-72 | an empty body commits the city unchanged |
| CidadesRoutes.Atualizar | profissionais_backend/src/routes/cidades.py:59-91 | the database follows the decision; a committed update replaces that row alone and is audited as UPDATE |
| CidadesRoutes.Inativada | profissionais_backend/src/routes/cidades.py:104 | deleting a city only marks it inactive |
| CidadesRoutes.DecideDeletar | profissionais_backend/src/routes/cidades.py:93-122 | 403 for a non-admin, NotFound for a missing key, otherwise the row to deactivate |
| CidadesRoutes.InativarDropsFromListing | profissionais_backend/src/routes/cidades.py:104 | after deactivation the listing is the old one without that city |
| CidadesRoutes.InativarIdempotent | profissionais_backend/src/routes/cidades.py:104 | deactivating twice is the same as once |
| CidadesRoutes.Deletar | profissionais_backend/src/routes/cidades.py:93-122 | the database follows the decision; only that row is deactivated and DELETE is logged |
| EquipamentosRoutes.Ativos | profissionais_backend/src/routes/equipamentos.py:17 | the active facilities, in order, exactly |
| EquipamentosRoutes.Listar | profissionais_backend/src/routes/equipamentos.py:13-20 | 200 with exactly the active facilities' records, with no level check |
| EquipamentosRoutes.IndexOfEquipamento | profissionais_backend/src/routes/equipamentos.py:63 | the position of the facility with that key, or None exactly when there is none |
| EquipamentosRoutes.DecideCriar | profissionais_backend/src/routes/equipamentos.py:22-54 | 403 for a non-admin; a commit exactly when a name is given and the status is missing, null (both give the default 'ativo') or a text in the enum, otherwise a failure; a commit is a fresh facility with that name, the description sent or null, that status, stamped now |
| EquipamentosRoutes.NewEquipamentoIsListed | profissionais_backend/src/routes/equipamentos.py:31-35 | a facility created with a missing or null status is active and listed |
| EquipamentosRoutes.AddEquipamentoKeepsValid | profissionais_backend/src/models/database.py:26-45 | a fresh key keeps the facilities table valid |
| EquipamentosRoutes.Criar | profissionais_backend/src/routes/equipamentos.py:22-54 | the database follows the decision; a new facility is appended and audited as CREATE |
| EquipamentosRoutes.ReadDescricao | profissionais_backend/src/routes/equipamentos.py:69 | an absent description keeps the old one and a present one (null included) replaces it |
| EquipamentosRoutes.DecideAtualizar | profissionais_backend/src/routes/equipamentos.py:56-89 | 403 for a non-admin, NotFound for a missing key; for an existing facility, a commit exactly when the name is not null and the status is absent or a text in the enum, and otherwise a failure; a commit names that row, keeps its other columns, and takes each given member |
| EquipamentosRoutes.EmptyUpdateKeepsEquipamento | profissionais_backend/src/routes/equipamentos.py:68-70 | an empty body commits the facility unchanged |
| EquipamentosRoutes.Atualizar | profissionais_backend/src/routes/equipamentos.py:56-89 | the database follows the decision; a committed update replaces that row alone and is audited as UPDATE |
| EquipamentosRoutes.Inativado | profissionais_backend/src/routes/equipamentos.py:102 | deleting a facility only marks it inactive |
| EquipamentosRoutes.DecideDeletar | profissionais_backend/src/routes/equipamentos.py:91-120 | 403 for a non-admin, NotFound for a missing key, otherwise the row to deactivate |
| EquipamentosRoutes.InativarDropsFromListing | profissionais_backend/src/routes/equipamentos.py:102 | after deactivation the listing is the old one without that facility |
| EquipamentosRoutes.Deletar | profissionais_backend/src/routes/equipamentos.py:91-120 | the database follows the decision; only that row is deactivated and DELETE is logged |
| EquipamentosRoutes.DoEquipamento | profissionais_backend/src/routes/equipamentos.py:131-137 | the facility's professionals, in order, exactly those of that facility the status selects |
| EquipamentosRoutes.PorEquipamento | profissionais_backend/src/routes/equipamentos.py:122-145 | NotFound exactly when the facility is missing; otherwise the facility and its professionals under the status argument (default 'ativo') |
| EquipamentosRoutes.ByFacilityAgreesWithListing | profissionais_backend/src/routes/equipamentos.py:131-137 | for a global admin the per-facility list is the general listing with that facility argument |
| EquipamentosRoutes.ArgsOfFacilityQuery | profissionais_frontend/src/lib/api.js:102-105 | the query the client sends carries exactly the facility and the status |
| AuditoriaRoutes.InicioIsByDay | profissionais_backend/src/routes/auditoria.py:37-40 | `data_inicio` keeps exactly the entries from that day's midnight on |
| AuditoriaRoutes.FimIsBeforeNextMidnight | profissionais_backend/src/routes/auditoria.py:42-45 | the intended `data_fim` keeps exactly the entries before the next day |
| AuditoriaRoutes.FimAsWrittenDropsEndDay | profissionais_backend/src/routes/auditoria.py:42-45 | the written `data_fim` keeps fewer entries, differing exactly on that day's entries after midnight |
| AuditoriaRoutes.SameDayFilterAsWritten | profissionais_backend/src/routes/auditoria.py:37-45 | as written, an entry at 10:00 is excluded by a filter from and to its own day |
| AuditoriaRoutes.Truthy | profissionais_backend/src/routes/auditoria.py:20-24 | an argument counts exactly when it is present and non-empty |
| AuditoriaRoutes.ReadDayArg | profissionais_backend/src/routes/auditoria.py:37-45 | an empty or absent date imposes nothing; a present one is parsed, failing exactly when it does not parse |
| AuditoriaRoutes.TextClauses | profissionais_backend/src/routes/auditoria.py:28-35 | the table, action and user clauses fail exactly on a non-integer user and otherwise keep exactly the entries that match |
| AuditoriaRoutes.AuditQuery | profissionais_backend/src/routes/auditoria.py:28-45 | the query fails exactly on a bad argument; otherwise its members are exactly the entries that meet every clause |
| AuditoriaRoutes.FimClause | profissionais_backend/src/routes/auditoria.py:42-45 | the end-date clause fails exactly on an unparseable date and otherwise keeps exactly the entries that meet it |
| AuditoriaRoutes.Recent | profissionais_backend/src/routes/auditoria.py:48 | the min(n, 1000) newest of the n matching entries, newest first, drawn from the query, all of them when there are at most 1000, and never dropping a newer entry for an older one |
| AuditoriaRoutes.Listar | profissionais_backend/src/routes/auditoria.py:12-53 | 403 exactly for a non-admin; a bad query fails; otherwise 200 with the most recent matching entries under the corrected end date |
| AuditoriaRoutes.ListarAsWritten | profissionais_backend/src/routes/auditoria.py:12-53 | the same endpoint with the end date compared with that day's midnight |
| AuditoriaRoutes.EndDayEntryMissingAsWritten | profissionais_backend/src/routes/auditoria.py:42-45 | an entry made during the end day is listed by the corrected endpoint and missing from the written one |
| AuditoriaRoutes.AuthorNames | profissionais_backend/src/routes/auditoria.py:77-81 | the join gives one name per entry whose author still exists, and every name comes from such an entry |
| AuditoriaRoutes.Stats | profissionais_backend/src/routes/auditoria.py:65-81 | the three groups have distinct keys; each action and table count is that value's occurrences, those groups cover exactly the values in the log and add up to its size; an author name's count is the number of entries by existing users of that name |
| AuditoriaRoutes.AuthorNameCount | profissionais_backend/src/routes/auditoria.py:76-81 | a name occurs in the join of the log with the users once per entry whose existing author has that name |
| AuditoriaRoutes.AuthorCountsCoverLog | profissionais_backend/src/routes/auditoria.py:77-81 | when every author exists, the users' counts add up to the log size |
| AuditoriaRoutes.Group | profissionais_backend/src/routes/auditoria.py:83-87 | one object per group, with that group's name and total |
| AuditoriaRoutes.Estatisticas | profissionais_backend/src/routes/auditoria.py:55-90 | 403 exactly for a non-admin, otherwise 200 with the three groupings |
| RelatoriosRoutes.ReportPermissionLevels | profissionais_backend/src/routes/relatorios.py:18-21 | editors and admins may export, viewers may not, and whoever may export may create records |
| RelatoriosRoutes.DecideExport | profissionais_backend/src/routes/relatorios.py:25-54 | 403 exactly without the reports permission; a bad argument fails; otherwise the ordered rows of the reports' query |
| RelatoriosRoutes.ListingNarrowsReport | profissionais_backend/src/routes/relatorios.py:31-54 | the listing and the export fail together, and every listed row is exported |
| RelatoriosRoutes.ExportIsListingWithoutText | profissionais_backend/src/routes/relatorios.py:31-54 | without profession and position arguments the export is exactly the listing |
| RelatoriosRoutes.ExportIgnoresOtherArgs | profissionais_backend/src/routes/relatorios.py:31-33 | the export reads only the status, city and facility arguments |
| RelatoriosRoutes.ExportDados | profissionais_backend/src/routes/relatorios.py:156 | the audited data is the export type and exactly the query-string arguments |
| RelatoriosRoutes.PdfTable | profissionais_backend/src/routes/relatorios.py:106-120 | the header row, then one six-cell row per professional in order: name, CPF, profession, position, facility name, and 'Ativo' or 'Inativo' |
| RelatoriosRoutes.Pdf | profissionais_backend/src/routes/relatorios.py:94-144 | the total is the row count, and the table is present exactly when there are rows |
| RelatoriosRoutes.ExportarPdf | profissionais_backend/src/routes/relatorios.py:23-168 | the database follows the export decision; an export is audited as EXPORT with type 'PDF' and its filters, and returns the document |
| RelatoriosRoutes.ExcelRow | profissionais_backend/src/routes/relatorios.py:229-252 | a row has one cell per header |
| RelatoriosRoutes.Worksheet.constructor | profissionais_backend/src/routes/relatorios.py:206-208 | a new sheet is empty, with one row and one column in use |
| RelatoriosRoutes.Worksheet.SetCell | profissionais_backend/src/routes/relatorios.py:222-226 | writing a cell sets that cell alone and extends the used range to cover it |
| RelatoriosRoutes.Worksheet.SetWidth | profissionais_backend/src/routes/relatorios.py:265 | setting a width changes that column's width alone |
| RelatoriosRoutes.ExcelTable | profissionais_backend/src/routes/relatorios.py:216-252 | the header row, then one row per professional in order |
| RelatoriosRoutes.FilledNext | profissionais_backend/src/routes/relatorios.py:222-252 | writing the next row keeps the rows already written |
| RelatoriosRoutes.WriteRow | profissionais_backend/src/routes/relatorios.py:222-226 | the row's cells are set in order and nothing else changes |
| RelatoriosRoutes.WriteTableRow | profissionais_backend/src/routes/relatorios.py:222-226 | writing row n + 1 from the table's row n onto cells that hold its first n rows leaves cells that hold its first n + 1 rows |
| RelatoriosRoutes.FillSheet | profissionais_backend/src/routes/relatorios.py:206-252 | the sheet holds exactly the header and the rows, and the used range is their size |
| RelatoriosRoutes.SheetCells | profissionais_backend/src/routes/relatorios.py:222-252 | every cell of the table is in the sheet at its row and column |
| RelatoriosRoutes.ExcelLayout | profissionais_backend/src/routes/relatorios.py:216-252 | row 1 holds the headers, row r holds professional r-2, and there are no other cells |
| RelatoriosRoutes.Longest | profissionais_backend/src/routes/relatorios.py:257-263 | the length of the longest cell text in the column |
| RelatoriosRoutes.WidthBounds | profissionais_backend/src/routes/relatorios.py:255-265 | a width lies in 2..50 and fits every cell of the column plus two unless it is capped at 50 |
| RelatoriosRoutes.AdjustWidths | profissionais_backend/src/routes/relatorios.py:255-265 | every used column gets its computed width, and nothing else changes |
| RelatoriosRoutes.ExportarExcel | profissionais_backend/src/routes/relatorios.py:170-290 | the database follows the export decision; an export is audited as EXPORT with type 'Excel' and its filters, and returns the filled sheet |
| RelatoriosRoutes.EstatisticasAsWritten | profissionais_backend/src/routes/relatorios.py:292-385 | as written, 403 exactly without permission and a failure exactly with it |
| RelatoriosRoutes.StatisticsNeverServedAsWritten | profissionais_backend/src/routes/relatorios.py:316-317 | as written, the statistics endpoint never answers 200 |
| RelatoriosRoutes.Joined | profissionais_backend/src/routes/relatorios.py:313-348 | the inner join gives at most one pair per professional, and one for each when every reference exists |
| RelatoriosRoutes.JoinedPairs | profissionais_backend/src/routes/relatorios.py:313-348 | pair i of the join comes, in order, from the i-th professional with a matching row, and carries that row's name and the professional's active flag |
| RelatoriosRoutes.Breakdown | profissionais_backend/src/routes/relatorios.py:313-335 | one row per distinct name, with its total, active and inactive counts |
| RelatoriosRoutes.BreakdownRow | profissionais_backend/src/routes/relatorios.py:313-325 | a row's total counts its name's occurrences and is its active count plus its inactive count |
| RelatoriosRoutes.BreakdownBalanced | profissionais_backend/src/routes/relatorios.py:313-335 | every row is balanced, the names are distinct, and the totals add up to the joined rows |
| RelatoriosRoutes.TopProfissoes | profissionais_backend/src/routes/relatorios.py:338-348 | min(10, number of professions) rows with distinct professions, largest first, each with its true count, none smaller than a profession left out, and every profession when there are at most ten |
| RelatoriosRoutes.ComputePanorama | profissionais_backend/src/routes/relatorios.py:304-348 | the total is the scoped count and active plus inactive; the per-city rows only for level 4; the top professions of the scope |
| RelatoriosRoutes.FacilityRowsWithinTotal | profissionais_backend/src/routes/relatorios.py:313-325 | the per-facility totals never exceed the overall total |
| RelatoriosRoutes.Estatisticas | profissionais_backend/src/routes/relatorios.py:292-382 | the corrected endpoint: 403 exactly without permission, otherwise 200 with the panorama |
| RelatoriosRoutes.StatisticsFinding | profissionais_backend/src/routes/relatorios.py:316-317 | the written and corrected endpoints agree on refusals and differ on every permitted request |
| Common.ParseIntJsOfIntToString | profissionais_frontend/src/pages/Usuarios.jsx:69-74 | `parseInt` of a printed integer gives that integer back |
| Common.PyIntOfIntToString | profissionais_backend/src/routes/profissionais.py:59-63 | `int()` of a printed integer gives that integer back |
| Common.TrimEmptyIffBlank | profissionais_frontend/src/pages/Profissionais.jsx:59-62 | a reason trims to nothing exactly when it is all whitespace |
| Common.TrimStartRemovesOnlySpace | profissionais_frontend/src/pages/Profissionais.jsx:59-62 | everything `trim` removes at the start is white space |
| Common.TrimEndRemovesOnlySpace | profissionais_frontend/src/pages/Profissionais.jsx:59-62 | everything `trim` removes at the end is white space, and what it keeps does not end with white space |
| Common.LikeContains | profissionais_backend/src/routes/profissionais.py:65-69 | for a text with no wildcard, the LIKE pattern `%t%` matches exactly the strings containing t |
| Common.ILikeContains | profissionais_backend/src/routes/profissionais.py:65-69 | the same after ASCII lower-casing of both sides, as `ilike` runs on SQLite |
| Common.TopRows | profissionais_backend/src/routes/relatorios.py:338-348 | ORDER BY count DESC LIMIT n keeps min(n, groups) sorted rows of the group table with distinct keys, none smaller than a row left out |
| Browser.Cleared | profissionais_frontend/src/lib/auth.jsx:47-51 | clearing removes the token and the user and keeps every other key and value |
| Browser.ClearedIdempotent | profissionais_frontend/src/lib/api.js:29-34 | clearing twice is the same as once, so repeated rejections are harmless |
| Browser.Window.constructor | profissionais_frontend/src/lib/auth.jsx:18-27 | a page load starts with the stored keys and the current path |
| Browser.Window.GetItem | profissionais_frontend/src/lib/auth.jsx:19-20 | reading a key gives its stored value, or nothing exactly when it is absent |
| Browser.Window.SetItem | profissionais_frontend/src/lib/auth.jsx:34-35 | writing a key sets it alone |
| Browser.Window.RemoveItem | profissionais_frontend/src/lib/auth.jsx:48-49 | removing a key removes it alone |
| Browser.Window.AssignLocation | profissionais_frontend/src/lib/api.js:33 | assigning the location loads the page at that path |
| Browser.Window.Navigate | profissionais_frontend/src/components/Layout.jsx:25 | router navigation changes the path without a page load |
| ApiClient.RequestConfig.constructor | profissionais_frontend/src/lib/api.js:4-9 | every request starts with the JSON content type |
| ApiClient.Authorization | profissionais_frontend/src/lib/api.js:12-19 | a bearer header exactly when the stored token is non-empty, carrying that token |
| ApiClient.AttachToken | profissionais_frontend/src/lib/api.js:12-19 | the request gets the bearer header when there is a token and is left as it was otherwise |
| ApiClient.AuthorizationFollowsSession | profissionais_frontend/src/lib/api.js:12-19 | after logout no header is sent; after a login the login's token is sent |
| ApiClient.RejectResponse | profissionais_frontend/src/lib/api.js:26-37 | a 401 clears both keys and loads the login page; any other error leaves everything; the error is passed on unchanged |
| ApiClient.ErrorMessage | profissionais_frontend/src/lib/auth.jsx:39-44 | the backend's `error` text, exactly when the body carries one |
| ApiClient.MessageOr | profissionais_frontend/src/lib/auth.jsx:39-44 | the backend's message when it is non-empty, otherwise the fallback |
| ApiClient.ErrorMessageOfBackendError | profissionais_frontend/src/lib/auth.jsx:39-44 | the client reads back the message a backend error carries |
| ApiClient.Query | profissionais_frontend/src/lib/api.js:110-120 | the query string keeps, in order, exactly the filters with a non-empty value |
| ApiClient.BuildParams | profissionais_frontend/src/lib/api.js:111-116 | the loop builds exactly that query string |
| ApiClient.FiltroValue | profissionais_frontend/src/lib/api.js:112-116 | the value of a filter, or nothing exactly when it is not among them |
| ApiClient.ArgOfQuery | profissionais_frontend/src/lib/api.js:112-116 | the backend reads an argument exactly when the filter was non-empty, with the filter's value |
| ApiClient.ArgOfEntry | profissionais_frontend/src/lib/api.js:112-116 | each filter reaches the backend exactly when non-empty |
| ApiClient.InativarBody | profissionais_frontend/src/lib/api.js:137-142 | the inactivation body carries exactly the reason |
| ApiClient.TextMember | profissionais_backend/src/routes/profissionais.py:232 | reading a text member of a JSON body: absent, given, or no body at all |
| ApiClient.InativarSendsReason | profissionais_frontend/src/lib/api.js:137-142 | the reason the client sends is the one the backend stores |
| ApiClient.EquipamentoProfissionaisArgs | profissionais_frontend/src/lib/api.js:102-105 | the per-facility query carries the given status, 'ativo' by default |
| ApiClient.FacilityDefaultIsAtivo | profissionais_frontend/src/lib/api.js:102-105 | with no status, or an empty one, only active professionals come back |
| Auth.NivelAcesso | profissionais_frontend/src/lib/auth.jsx:57-59 | the stored level, exactly when it is a number |
| Auth.HasPermissionLaws | profissionais_frontend/src/lib/auth.jsx:53-59 | nobody signed in has no permission; a permission implies being signed in and every lower permission |
| Auth.PermissionOfSignedInUser | profissionais_frontend/src/lib/auth.jsx:57-59 | for a user the backend signed in, the permission check is the user's own level |
| Auth.OverHttp | profissionais_frontend/src/lib/auth.jsx:29-44 | a 200 reply becomes the token and user; a rejection keeps its status and message |
| Auth.StoredUser | profissionais_frontend/src/lib/auth.jsx:18-27 | the user adopted at start-up exists exactly when the token is truthy and the user entry is a serialised object |
| Auth.SignedIn | profissionais_frontend/src/lib/auth.jsx:34-35 | a login stores the token and the user and keeps every other key |
| Auth.ReloadRestoresSession | profissionais_frontend/src/lib/auth.jsx:18-38 | a reload after a login restores its user; after a logout nobody is signed in |
| Auth.AuthProvider.constructor | profissionais_frontend/src/lib/auth.jsx:15-16 | the provider starts with nobody signed in and still loading |
| Auth.AuthProvider.Bootstrap | profissionais_frontend/src/lib/auth.jsx:18-27 | both keys truthy and a parseable user: adopt it and stop loading; unparseable: throw and stay loading; otherwise only stop loading |
| Auth.AuthProvider.Login | profissionais_frontend/src/lib/auth.jsx:29-45 | success stores and adopts the token and user; failure returns the message or 'Erro ao fazer login', and a 401 has cleared storage and loaded the login page |
| Auth.AuthProvider.Logout | profissionais_frontend/src/lib/auth.jsx:47-51 | both keys are removed and nobody is signed in |
| Auth.LoginOverHttp | profissionais_frontend/src/lib/auth.jsx:29-44 | an accepted login leaves the client holding a user of the table with that user's permissions; a rejection shows the backend's own message |
| AppRoutes.RouteInDeclared | profissionais_frontend/src/App.jsx:20-39 | the route found is declared with that path, and none is found exactly when none is declared |
| AppRoutes.OnlyLoginIsOpen | profissionais_frontend/src/App.jsx:20-39 | the login page is the only route outside the signed-in gate |
| AppRoutes.RouteLevels | profissionais_frontend/src/App.jsx:32-34 | exactly cities, users and the audit log need level 3 |
| AppRoutes.FormRoutesShareThePage | profissionais_frontend/src/App.jsx:29-30 | creating and editing a professional render the same form |
| Layout.VisibleMenu | profissionais_frontend/src/components/Layout.jsx:67-69 | the menu keeps, in order, exactly the items whose level the user holds |
| Layout.VisibleMenuEmptyWithoutLevel | profissionais_frontend/src/components/Layout.jsx:67-69 | nobody signed in, or a non-numeric level, sees no item |
| Layout.VisibleMenuMonotone | profissionais_frontend/src/components/Layout.jsx:67-69 | a higher level sees every item a lower one sees |
| Layout.VisibleMenuByLevel | profissionais_frontend/src/components/Layout.jsx:28-69 | level 3 and up see all six items, levels 1 and 2 the first three, lower levels none |
| Layout.MenuAgreesWithRoutes | profissionais_frontend/src/components/Layout.jsx:28-65 | every item links to a signed-in route whose level gate matches the item's level |
| Layout.ItemAgreesWithRoute | profissionais_frontend/src/components/Layout.jsx:28-65 | each single item agrees with its route |
| Layout.RoleLabel | profissionais_frontend/src/components/Layout.jsx:125-127 | the label is one of the four role names |
| Layout.RoleLabelOfLevel | profissionais_frontend/src/components/Layout.jsx:125-127 | levels 4, 3 and 2 get their own names, each exactly, and anything else reads as a viewer |
| Layout.HandleLogout | profissionais_frontend/src/components/Layout.jsx:23-26 | logout clears the session and goes to the login page without a page load |
| ProfissionaisPage.Entries | profissionais_frontend/src/pages/Profissionais.jsx:19-25 | the filters have distinct names |
| ProfissionaisPage.ArgsOfFiltros | profissionais_frontend/src/pages/Profissionais.jsx:38-56 | the backend reads each filter exactly when it is non-empty |
| ProfissionaisPage.InitialListingIsActive | profissionais_frontend/src/pages/Profissionais.jsx:19-25 | the page opens on the listing of active professionals |
| ProfissionaisPage.WithStatus | profissionais_frontend/src/pages/Profissionais.jsx:202-211 | choosing a status changes that filter alone |
| ProfissionaisPage.TodosAsWrittenListsOnlyActive | profissionais_frontend/src/pages/Profissionais.jsx:209 | as written, the 'Todos' option lists the same rows as the active option |
| ProfissionaisPage.TodosListsBoth | profissionais_frontend/src/pages/Profissionais.jsx:209 | with the corrected value, 'Todos' lists every active and every inactive match |
| ProfissionaisPage.TodosUnion | profissionais_backend/src/routes/profissionais.py:54-57 | the status 'todos' lists exactly the union of the active and inactive listings |
| ProfissionaisPage.StatusUnion | profissionais_backend/src/routes/profissionais.py:54-57 | a record matches under 'todos' exactly when it matches under 'ativo' or 'inativo' |
| ProfissionaisPage.ExportCoversListing | profissionais_frontend/src/pages/Profissionais.jsx:84-114 | the exports get the page's filters, and every listed row is exported |
| ProfissionaisPage.Search | profissionais_frontend/src/pages/Profissionais.jsx:116-120 | the search keeps, in order, exactly the rows whose name or email contains the term ignoring case, or whose CPF contains it |
| ProfissionaisPage.EmptySearchKeepsAll | profissionais_frontend/src/pages/Profissionais.jsx:116-120 | an empty search keeps every row |
| ProfissionaisPage.DeactivatedCityShowsNA | profissionais_frontend/src/pages/Profissionais.jsx:122-125 | a professional of a deactivated city shows 'N/A' as city |
| ProfissionaisPage.HeaderControls | profissionais_frontend/src/pages/Profissionais.jsx:150-167 | editors and above see the two exports and 'new'; others see nothing |
| ProfissionaisPage.RowControls | profissionais_frontend/src/pages/Profissionais.jsx:316-345 | the row shows edit and one lifecycle button exactly for editors and above |
| ProfissionaisPage.ControlsAgainstBackend | profissionais_frontend/src/pages/Profissionais.jsx:316-345 | whoever may edit sees the controls, and an editor outside the record's city sees controls the backend refuses |
| ProfissionaisPage.ReasonMissing | profissionais_frontend/src/pages/Profissionais.jsx:59-62 | the reason is missing exactly when it is blank |
| ProfissionaisPage.Page.constructor | profissionais_frontend/src/pages/Profissionais.jsx:19-36 | the page starts with the initial filters and fetches once |
| ProfissionaisPage.Page.SetStatus | profissionais_frontend/src/pages/Profissionais.jsx:34-36 | a status change sets that filter and refetches |
| ProfissionaisPage.Page.OpenInativar | profissionais_frontend/src/pages/Profissionais.jsx:328-331 | the dialog opens on that professional |
| ProfissionaisPage.Page.HandleInativar | profissionais_frontend/src/pages/Profissionais.jsx:58-73 | a blank reason is refused without a call; otherwise the inactivation is sent, and success closes the dialog and refetches while failure sets the error |
| ProfissionaisPage.Page.HandleReativar | profissionais_frontend/src/pages/Profissionais.jsx:75-82 | the reactivation is sent; success refetches, failure sets the error |
| ProfissionaisPage.Page.HandleExport | profissionais_frontend/src/pages/Profissionais.jsx:84-114 | one export call with the page's filters; failure sets the export's error |
| UsuariosPage.CidadePayload | profissionais_frontend/src/pages/Usuarios.jsx:69-74 | an empty city is sent as null, otherwise as `parseInt` of it |
| UsuariosPage.SubmitPayload | profissionais_frontend/src/pages/Usuarios.jsx:56-82 | the payload carries the four fields, plus the password when creating or when one was typed |
| UsuariosPage.BuildPayload | profissionais_frontend/src/pages/Usuarios.jsx:62-74 | copying the form, deleting an empty password on an edit and then converting the city yields exactly the payload described above |
| UsuariosPage.SubmittedBody | profissionais_frontend/src/pages/Usuarios.jsx:56-82 | the body the backend reads is the form's fields, the password absent exactly when not sent |
| UsuariosPage.FormFor | profissionais_frontend/src/pages/Usuarios.jsx:99-109 | editing fills the form with the user's fields and an empty password |
| UsuariosPage.EditRoundTrip | profissionais_frontend/src/pages/Usuarios.jsx:99-109 | saving an untouched edit form leaves the user as it was |
| UsuariosPage.NivelAcessoTexto | profissionais_frontend/src/pages/Usuarios.jsx:151-159 | levels 2, 3 and 4 get their names, each exactly, and anything else reads as a viewer |
| UsuariosPage.LabelsAgree | profissionais_frontend/src/pages/Usuarios.jsx:151-159 | the table label and the menu's role label agree |
| UsuariosPage.NivelOptions | profissionais_frontend/src/pages/Usuarios.jsx:276-281 | levels 1..3 are always offered, and level 4 exactly to a global admin |
| UsuariosPage.OptionsAgreeWithBackend | profissionais_frontend/src/pages/Usuarios.jsx:268-283 | each option's label names its level, every level lies in 1..4, and a city admin is never offered what the backend refuses |
| UsuariosPage.GateMatchesRoute | profissionais_frontend/src/pages/Usuarios.jsx:177-190 | the page's own access check is the route's level-3 gate |
| UsuariosPage.UsuarioCidadeNome | profissionais_frontend/src/pages/Usuarios.jsx:171-175 | no city reads 'Todas as cidades', any other the city's name or 'N/A' |
| UsuariosPage.AllCitiesMeansUnconfined | profissionais_frontend/src/pages/Usuarios.jsx:171-175 | 'Todas as cidades' is shown exactly for a user with no city, who is never confined |
| UsuariosPage.Page.constructor | profissionais_frontend/src/pages/Usuarios.jsx:32-37 | the page fetches exactly when the user may manage users |
| UsuariosPage.Page.HandleSubmit | profissionais_frontend/src/pages/Usuarios.jsx:56-97 | one create or update call with the payload; success resets the form and refetches, failure shows the backend's message |
| UsuariosPage.Page.HandleEdit | profissionais_frontend/src/pages/Usuarios.jsx:99-109 | the dialog opens on that user's form |
| UsuariosPage.Page.HandleDelete | profissionais_frontend/src/pages/Usuarios.jsx:111-126 | deleting oneself is refused without a call; an unconfirmed deletion does nothing; otherwise one delete call, then a refetch or the error |
| UsuariosPage.Page.HandleCloseDialog | profissionais_frontend/src/pages/Usuarios.jsx:128-139 | closing the dialog resets the form and the error |
| UsuariosPage.SelfGuardAgrees | profissionais_backend/src/routes/usuarios.py:162-163 | the client's self-deletion guard is the backend's, and the backend refuses the same deletion with 400 |

## Left out

- Password hashing is a parameter: `checkPw`, plus `senhaHash` and `novoHash` for hashes computed with a fresh salt. bcrypt itself is a foreign library.
- JWT tokens are modelled by the identity they carry. `encode` stands for the signed text. Signing, expiry and `@jwt_required` rejections are not modelled.
- `datetime.strptime` is `parseDay`, `utcnow` is `now`, and `isoformat`, `strftime` and the date format are `formatDay`. Date arithmetic is left out; a day is an integer.
- The request's remote address is the parameter `ip`.
- SQLAlchemy sessions, rollback and lazy loading are not modelled: one decision either commits one value or answers without writing. The row order of an unordered `query.all()` is taken as insertion order.
- The database's NOT NULL and foreign-key constraints are only modelled where a handler can break them (a null member on update or for a column without a default, a user referenced by the audit log). On creation a null status is left out of the INSERT, so the column default applies.
- PDF and Excel styling is left out: fonts, colours, the title, the generation-date line, the info lines of the PDF (relatorios.py:80-92), and cell alignment. `send_file`, blobs and file names are left out too.
- `taxa_atividade` (relatorios.py:355) is a floating-point ratio and is left out.
- `Promise.all`, React rendering, the `loading` flag of the pages, and the pages' fetch-error banner are left out. The pages' requests are modelled as entries in a `calls` log, with each outcome a parameter `ok`.
- `window.confirm` is a boolean parameter.
- Case-insensitive matching (`ilike`, `toLowerCase`) folds ASCII letters only.
- JavaScript coercions are modelled only for numbers: `parseInt` and the `===` comparisons of levels.
- The Usuarios page's level select holds strings in the browser; its options are modelled by their integer levels.
- URL encoding of query strings is left out.
- `JSON.parse` of stored text is modelled as either a serialised object or text that makes it throw.
- `ProtectedRoute` is not part of this model; the route table's gates are stated by `AppRoutes`.
- These are not part of this model: the Login, Dashboard, Cidades, Equipamentos, Auditoria and ProfissionalForm pages, and `main.py`.
- The level icon and colour mappings of the Usuarios page are presentation only.
- The client calls `auditoria.estatisticas` and `relatorios.obterEstatisticas` are one-line GETs and have no model beyond the endpoints they reach.
- AuditoriaRoutes.AuthorNames: its own contract states the join's size and where each name comes from; the count per name is stated by `AuditoriaRoutes.AuthorNameCount`.
- Request bodies are taken as parsed JSON objects. A missing or non-JSON body makes `get_json()` return None, and the handler then answers 500; this is not modelled for login, registration, or any create or update of professionals, users, cities and facilities.
- The `status` enum of cities, facilities and professionals is assumed to be enforced when the row is written: an unknown status is a failed commit. SQLAlchemy 1.4 and later on SQLite add no CHECK constraint for a non-native enum, so such a row would be stored and would raise on reading. The installed version is not pinned, so the model keeps the enforcing reading.
- Records.StoredInt: only a text in canonical decimal form is converted to an integer; any other text is treated as a failed commit, where SQLite would also convert a padded or zero-prefixed integer text and store other text as is. JSON numbers with a fraction are not modelled.
- Common.PyInt: it strips the whitespace set of `Common.IsSpace` and reads plain digits. Python's `int()` also accepts underscores between digits and strips U+001C..U+001F, U+0085 and the other Unicode spaces, but does not strip U+FEFF.
- Common.IsSpace: `String.prototype.trim` removes every Unicode space and line terminator; the model removes the ASCII ones, U+00A0 and U+FEFF.
- ApiClient.TextMember: a member that is neither text nor null reads as None, a malformed request; the backend would store a number or boolean in a text column as SQLite converts it.
- The Cancel button of the professional form dialog only closes it and is not modelled.
- RelatoriosRoutes.Pdf: only the table, the total and the audit entry are stated; the document's layout is left out.

## Findings

| source | as written | input that shows it | evidently intended | confidence | as-written member | corrected member |
|---|---|---|---|---|---|---|
| profissionais_backend/src/routes/profissionais.py:144-157 | `get_or_404` runs inside `try … except Exception`, which also catches the NotFound it raises and answers 500 (the same pattern is in every handler that looks up a key) | GET /profissionais/999 with no such row | 404 for a missing key | not executed | Http.MissingKeyAnswers500 | Http.StatusOf |
| profissionais_frontend/src/pages/Profissionais.jsx:209 | the 'Todos' status option has the value '', which the client drops from the query string, so the backend applies its default 'ativo' | choose 'Todos' while an inactive professional exists: it is not listed | 'Todos' lists active and inactive professionals | not executed | ProfissionaisPage.TodosAsWrittenListsOnlyActive | ProfissionaisPage.TodosListsBoth |
| profissionais_backend/src/routes/auditoria.py:42-45 | `data_fim` is parsed to that day's midnight and compared with `<=`, so the end day itself is excluded | an entry at 10:00 on D with `data_inicio=D&data_fim=D` | entries of the whole end day are included | not executed | AuditoriaRoutes.EndDayEntryMissingAsWritten | AuditoriaRoutes.Listar |
| profissionais_backend/src/routes/usuarios.py:61 | the level-4 guard compares the JSON value with the number 4, so the text "4" passes it; the INTEGER column then stores 4 | a city admin POSTs /usuarios with `"nivel_acesso": "4"` | a city admin cannot create a global admin, whatever the form of the level | not executed | UsuariosRoutes.TextLevelCreatesAdminGlobalAsWritten | UsuariosRoutes.CityAdminCreatesNoAdminGlobal |
| profissionais_backend/src/routes/usuarios.py:123 | the same comparison in the update lets the text "4" through | a city admin PUTs /usuarios/<id of a user of its city> with `{"nivel_acesso": "4"}` | a city admin cannot make anyone a global admin | not executed | UsuariosRoutes.TextLevelGrantsAdminGlobalAsWritten | UsuariosRoutes.CityAdminGrantsNoGlobalAdmin |
| profissionais_backend/src/routes/relatorios.py:316-317 | `func.case([...], else_=0)` builds a call of an SQL function named `case`, which the database rejects, so the handler answers 500 | GET /relatorios/estatisticas as an editor | 200 with the counts per facility, city and profession | not executed | RelatoriosRoutes.StatisticsNeverServedAsWritten | RelatoriosRoutes.Estatisticas |
