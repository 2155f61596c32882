/**
 * `ConsultaService`: the record `criarConsulta` writes and the two status
 * transitions `confirmarConsulta` and `cancelarConsulta`, each an update
 * through `atualizarConsulta` that also stamps `atualizadoEm`. The document
 * store is left out: each operation maps the stored record to the new one,
 * and `agora` is the server time of the write.
 *
 * The code checks no current status: any consultation can be confirmed or
 * cancelled, a cancelled one included.
 */
module ConsultaLifecycle {
  import opened Common
  import opened Domain
  import Availability
  import Registry

  /**
   * `criarConsulta(consultaData)`: `{ ...consultaData, status: 'agendada',
   * confirmacao, historico, criadoEm, atualizadoEm }`. The spread comes
   * first, so whatever status, confirmation, history or stamps the input
   * carries are overwritten.
   */
  function CriarConsulta(dados: Consulta, agora: int): (c: Consulta) {
    dados.(
      status := Agendada,
      confirmacao := Confirmacao(false, None, None, None),
      historico := [Evento(Agendada, dados.criadoPor, agora, "Consulta agendada no sistema")],
      criadoEm := agora,
      atualizadoEm := agora)
  }

  /**
   * `confirmarConsulta(id, confirmadoPor = 'recepcionista')`: status
   * 'confirmada'; the dotted field paths set only `confirmadoEm` and
   * `confirmadoPor` inside `confirmacao`.
   */
  function ConfirmarConsulta(c: Consulta, confirmadoPor: Option<string>, agora: int): Consulta {
    c.(
      status := Confirmada,
      confirmacao := c.confirmacao.(confirmadoEm := Some(agora), confirmadoPor := Some(confirmadoPor.GetOr("recepcionista"))),
      atualizadoEm := agora)
  }

  /** `cancelarConsulta(id, motivo = '')`: status 'cancelada' and the reason. */
  function CancelarConsulta(c: Consulta, motivo: Option<string>, agora: int): Consulta {
    c.(status := Cancelada, motivoCancelamento := Some(motivo.GetOr("")), atualizadoEm := agora)
  }

  /** The fields a consultation's author chooses; none of the three operations touches them. */
  predicate MesmosDados(a: Consulta, b: Consulta) {
    && a.clinicaId == b.clinicaId && a.pacienteId == b.pacienteId && a.medicoId == b.medicoId
    && a.dataHora == b.dataHora && a.duracao == b.duracao && a.motivo == b.motivo
    && a.observacoes == b.observacoes && a.tipoConsulta == b.tipoConsulta && a.criadoPor == b.criadoPor
    && a.valorConsulta == b.valorConsulta
  }

  /**
   * A new consultation is 'agendada' whatever the input said, has not been
   * sent or confirmed, and carries a one-entry history crediting its author,
   * with every field the author chose copied.
   */
  lemma CriarConsultaRecord(dados: Consulta, agora: int)
    ensures var c := CriarConsulta(dados, agora);
      && c.status == Agendada
      && !c.confirmacao.whatsappEnviado && c.confirmacao.dataEnvio.None?
      && c.confirmacao.confirmadoEm.None? && c.confirmacao.confirmadoPor.None?
      && |c.historico| == 1 && c.historico[0].acao == Agendada && c.historico[0].usuarioId == dados.criadoPor
      && MesmosDados(c, dados) && c.motivoCancelamento == dados.motivoCancelamento
  {
  }

  /** Confirming sets the status and the confirmation, with 'recepcionista' by default, and nothing else. */
  lemma ConfirmarConsultaRecord(c: Consulta, por: Option<string>, agora: int)
    ensures var d := ConfirmarConsulta(c, por, agora);
      && d.status == Confirmada
      && d.confirmacao.confirmadoEm == Some(agora)
      && d.confirmacao.confirmadoPor == Some(if por.Some? then por.value else "recepcionista")
      && d.confirmacao.whatsappEnviado == c.confirmacao.whatsappEnviado
      && d.confirmacao.dataEnvio == c.confirmacao.dataEnvio
      && MesmosDados(d, c) && d.historico == c.historico && d.motivoCancelamento == c.motivoCancelamento
      && d.criadoEm == c.criadoEm && d.atualizadoEm == agora
  {
  }

  /** Cancelling sets the status and the reason, '' by default, and nothing else. */
  lemma CancelarConsultaRecord(c: Consulta, motivo: Option<string>, agora: int)
    ensures var d := CancelarConsulta(c, motivo, agora);
      && d.status == Cancelada
      && d.motivoCancelamento == Some(if motivo.Some? then motivo.value else "")
      && MesmosDados(d, c) && d.confirmacao == c.confirmacao && d.historico == c.historico
      && d.criadoEm == c.criadoEm && d.atualizadoEm == agora
  {
  }

  // ---------------------------------------------------------------------------
  // Effect on the rest of the system
  // ---------------------------------------------------------------------------

  /** A new or confirmed consultation holds the calendar; a cancelled one does not. */
  lemma CalendarHolding(dados: Consulta, c: Consulta, opcao: Option<string>, agora: int)
    ensures HoldsCalendar(CriarConsulta(dados, agora).status)
    ensures HoldsCalendar(ConfirmarConsulta(c, opcao, agora).status)
    ensures !HoldsCalendar(CancelarConsulta(c, opcao, agora).status)
  {
  }

  /**
   * Once created, a consultation takes its slot: no slot the doctor's
   * availability offers that day is occupied by it.
   */
  lemma CreatedConsultationTakesSlot(medicos: map<string, Medico>, consultas: seq<Consulta>,
                                     dados: Consulta, agora: int, dia: int, s: Availability.Intervalo)
    requires Availability.Books(dados.(status := Agendada), dados.medicoId, dia)
    requires var cs := consultas + [CriarConsulta(dados, agora)];
      && Availability.Agenda(medicos, cs, dados.medicoId, dia).Ok?
      && s in Availability.Agenda(medicos, cs, dados.medicoId, dia).value
    ensures !Availability.Ocupa(Availability.Ocupacao(CriarConsulta(dados, agora)), s.inicio, s.fim)
  {
    var c := CriarConsulta(dados, agora);
    var cs := consultas + [c];
    assert c in cs;
    Availability.AgendaSlotsAreFree(medicos, cs, dados.medicoId, dia, s, c);
  }

  /** Cancelling a consultation gives its time back: availability is as if it had never been booked. */
  lemma CancelledConsultationFreesSlot(medicos: map<string, Medico>, consultas: seq<Consulta>,
                                       c: Consulta, motivo: Option<string>, agora: int, medicoId: string, dia: int)
    ensures Availability.Agenda(medicos, consultas + [CancelarConsulta(c, motivo, agora)], medicoId, dia)
         == Availability.Agenda(medicos, consultas, medicoId, dia)
  {
    Availability.IgnoredConsultationChangesNothing(medicos, consultas, medicoId, dia, CancelarConsulta(c, motivo, agora));
  }

  /** A future consultation just created blocks deleting its patient; once cancelled it no longer does. */
  lemma CreatedConsultationBlocksDeletion(consultas: seq<Consulta>, dados: Consulta, agora: int, motivo: Option<string>,
                                          quando: int)
    requires dados.dataHora > quando
    ensures |Registry.GetConsultasFuturas(consultas + [CriarConsulta(dados, agora)], dados.pacienteId, quando)| > 0
    ensures Registry.GetConsultasFuturas([CancelarConsulta(CriarConsulta(dados, agora), motivo, agora)], dados.pacienteId, quando) == []
  {
    var c := CriarConsulta(dados, agora);
    var cs := consultas + [c];
    assert cs[|consultas|] == c;
    Registry.FuturasBloqueiamExclusao(cs, dados.pacienteId, quando);
  }
}
