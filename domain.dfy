/**
 * Records shared by the services, reports and views: patients, doctors,
 * consultations, and the "HH:MM" time-of-day strings they carry.
 *
 * Instants are whole minutes on a local clock: minute `m` of local day `d`
 * (days counted from Thursday 1 January 1970) is `d * MinutesPerDay + m`.
 * A status is the raw string the database holds; the empty string stands
 * for a missing status (both are falsy in JavaScript).
 */
module Domain {
  import opened Common

  const MinutesPerDay: int := 1440

  const Agendada: string := "agendada"
  const Confirmada: string := "confirmada"
  const Realizada: string := "realizada"
  const Cancelada: string := "cancelada"
  const Faltou: string := "faltou"

  /** Weekday names indexed by `Date.prototype.getDay()`: 0 is Sunday. */
  const Dias: seq<string> := ["domingo", "segunda", "terca", "quarta", "quinta", "sexta", "sabado"]

  /**
   * A value of a settings object held in component state: the JSON-like
   * values the settings screen stores. A missing key stands for `undefined`.
   */
  datatype Valor =
    | Texto(s: string)
    | Numero(n: int)
    | Booleano(b: bool)
    | Objeto(campos: map<string, Valor>)

  /** Errors the services raise, one constructor per thrown message. */
  datatype Erro =
    | MedicoNaoEncontrado       // 'Médico não encontrado'
    | PacienteNaoEncontrado     // updateDoc on a missing document
    | CpfDuplicado              // 'Já existe um paciente cadastrado com este CPF'
    | CrmDuplicado              // 'Já existe um médico cadastrado com este CRM'
    | ConsultasFuturas          // 'Não é possível excluir paciente com consultas futuras agendadas'
    | DuracaoNegativa           // a configured duration below zero
    | SecaoInexistente          // reading a field of an undefined configuration section

  /** One working period of a doctor's day, as configured: two "HH:MM" strings. */
  datatype Periodo = Periodo(inicio: string, fim: string)

  /** `medico.configuracoes`: periods per weekday name, and the appointment length. */
  datatype ConfigMedico = ConfigMedico(
    horarioAtendimento: map<string, seq<Periodo>>,
    duracaoConsulta: Option<int>)

  datatype Medico = Medico(
    nome: string,
    crm: string,
    clinicaId: string,
    ativo: bool,
    configuracoes: ConfigMedico,
    criadoEm: int)

  datatype Paciente = Paciente(
    nome: string,
    cpf: string,
    telefone: string,
    email: string,
    clinicaId: string,
    ativo: bool,
    criadoEm: int,
    atualizadoEm: int)

  /** A query result row: the document id next to the document's fields. */
  datatype PacienteDoc = PacienteDoc(id: string, dados: Paciente)

  /** `confirmacao` sub-document of a consultation. */
  datatype Confirmacao = Confirmacao(
    whatsappEnviado: bool,
    dataEnvio: Option<int>,
    confirmadoEm: Option<int>,
    confirmadoPor: Option<string>)

  /** One entry of a consultation's `historico`. */
  datatype Evento = Evento(acao: string, usuarioId: string, dataHora: int, observacao: string)

  /**
   * A consultation document. `valorConsulta` is `valores.valorConsulta`,
   * 0 when absent (a falsy amount is never added to a total).
   */
  datatype Consulta = Consulta(
    clinicaId: string,
    pacienteId: string,
    medicoId: string,
    dataHora: int,
    duracao: int,
    motivo: string,
    observacoes: string,
    tipoConsulta: string,
    criadoPor: string,
    status: string,
    confirmacao: Confirmacao,
    historico: seq<Evento>,
    valorConsulta: int,
    motivoCancelamento: Option<string>,
    criadoEm: int,
    atualizadoEm: int)

  /** A status that keeps its slot on the calendar: `where('status', 'in', ['agendada', 'confirmada'])`. */
  predicate HoldsCalendar(status: string) {
    status == Agendada || status == Confirmada
  }

  /**
   * `const [h, m] = s.split(':').map(Number)` followed by `h * 60 + m`, in
   * minutes since midnight. A segment that is not a string of decimal digits
   * (or a missing minutes segment) yields NaN in JavaScript, rendered here as
   * None; an empty segment is 0, as `Number('')` is; segments after the
   * second are ignored by the destructuring.
   */
  function ParseHorario(s: string): (r: Option<int>)
    ensures r.Some? ==> r.value >= 0
  {
    var parts := Split(s, ':');
    if |parts| >= 2 && AllDigits(parts[0]) && AllDigits(parts[1]) then
      Some(DecimalValue(parts[0]) * 60 + DecimalValue(parts[1]))
    else
      None
  }

  /** The "HH:MM" text an `<input type="time">` produces. */
  function FormatHorario(h: nat, m: nat): (s: string)
    requires h < 24 && m < 60
    ensures |s| == 5 && s[2] == ':'
  {
    [DigitChar(h / 10), DigitChar(h % 10), ':', DigitChar(m / 10), DigitChar(m % 10)]
  }

  /** Reading back a formatted time of day gives its minutes since midnight. */
  lemma ParseFormatHorario(h: nat, m: nat)
    requires h < 24 && m < 60
    ensures ParseHorario(FormatHorario(h, m)) == Some(h * 60 + m)
  {
    var s := FormatHorario(h, m);
    var hh, mm := s[..2], s[3..];
    assert s == hh + [':'] + mm;
    SplitPrefix(hh, ':', mm);
    SplitNoSeparator(mm, ':');
    assert Split(s, ':') == [hh, mm];
    assert hh[..1] == [hh[0]] && hh[..1][..0] == [];
    assert DecimalValue(hh[..1]) == h / 10;
    assert mm[..1] == [mm[0]] && mm[..1][..0] == [];
    assert DecimalValue(mm[..1]) == m / 10;
    assert DecimalValue(hh) == (h / 10) * 10 + h % 10;
    assert DecimalValue(mm) == (m / 10) * 10 + m % 10;
  }
}
