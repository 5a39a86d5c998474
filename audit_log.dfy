/** `registrar_auditoria`: appends one row to the audit log and commits it; a failure
    while doing so is reported on the console, rolled back and never reaches the caller. */
module AuditLog {
  import opened Common
  import opened Records

  /** The row `registrar_auditoria` adds to a log holding `log`. */
  function Entry(log: seq<Auditoria>, usuarioId: int, acao: string, tabela: string, registroId: int,
                 dadosAntigos: Option<Json>, dadosNovos: Option<Json>, ipOrigem: Option<string>,
                 now: Instant): (a: Auditoria)
    ensures a.id !in Map(log, AuditoriaId)
    ensures a.usuarioId == usuarioId && a.acao == acao && a.tabela == tabela
    ensures a.registroId == registroId && a.dadosAntigos == dadosAntigos
    ensures a.dadosNovos == dadosNovos && a.ipOrigem == ipOrigem && a.dataHora == now
  {
    Auditoria(NextId(Map(log, AuditoriaId)), usuarioId, acao, tabela, registroId,
              dadosAntigos, dadosNovos, now, ipOrigem)
  }

  /** The log after recording one action: one more entry, or the same log when the
      commit fails. */
  function Logged(log: seq<Auditoria>, fails: bool, usuarioId: int, acao: string, tabela: string,
                  registroId: int, dadosAntigos: Option<Json>, dadosNovos: Option<Json>,
                  ipOrigem: Option<string>, now: Instant): (r: seq<Auditoria>)
    ensures log <= r && |r| == |log| + (if fails then 0 else 1)
    ensures !fails ==> r[|log|] == Entry(log, usuarioId, acao, tabela, registroId, dadosAntigos,
                                          dadosNovos, ipOrigem, now)
  {
    if fails then log
    else log + [Entry(log, usuarioId, acao, tabela, registroId, dadosAntigos, dadosNovos, ipOrigem, now)]
  }

  /** A fresh key keeps the audit keys unique. */
  lemma EntryKeepsKeysUnique(log: seq<Auditoria>, a: Auditoria)
    requires Unique(log, AuditoriaId)
    requires a.id !in Map(log, AuditoriaId)
    ensures Unique(log + [a], AuditoriaId)
  {
    forall i | 0 <= i < |log| ensures AuditoriaId(log[i]) != AuditoriaId(a) {
      assert Map(log, AuditoriaId)[i] == log[i].id;
    }
    UniqueAppend(log, a, AuditoriaId);
  }

  /** Records one action. `fails` stands for a commit that raises (the database is
      unavailable, say): the log is then left as it was and nothing is raised. The
      timestamp `now` is `datetime.utcnow()` at insertion. */
  method Registrar(db: Database, usuarioId: int, acao: string, tabela: string, registroId: int,
                   dadosAntigos: Option<Json> := None, dadosNovos: Option<Json> := None,
                   ipOrigem: Option<string> := None, now: Instant, fails: bool)
    requires db.Valid()
    modifies db
    ensures db.Valid()
    ensures db.cidades == old(db.cidades) && db.equipamentos == old(db.equipamentos)
    ensures db.usuarios == old(db.usuarios) && db.profissionais == old(db.profissionais)
    ensures db.auditoria == Logged(old(db.auditoria), fails, usuarioId, acao, tabela, registroId,
                                   dadosAntigos, dadosNovos, ipOrigem, now)
  {
    if !fails {
      var a := Entry(db.auditoria, usuarioId, acao, tabela, registroId, dadosAntigos, dadosNovos,
                     ipOrigem, now);
      EntryKeepsKeysUnique(db.auditoria, a);
      db.auditoria := db.auditoria + [a];
    }
  }
}
