/**
 * `RelatorioService`: the reports computed over the consultations of a
 * clinic in a date range. The range query is external; each report takes
 * its result as a list of consultations, in query order.
 *
 * The reference definitions are per-key sums from `Grouping`: how many
 * consultations, or how much billed, carry a given status, doctor or day.
 */
module Reports {
  import opened Common
  import opened Domain
  import opened Grouping

  // ---------------------------------------------------------------------------
  // Keys and weights
  // ---------------------------------------------------------------------------

  function Status(c: Consulta): string { c.status }

  /** `consulta.status || 'indefinido'`. */
  function StatusKey(c: Consulta): string { if c.status != "" then c.status else "indefinido" }

  function MedicoId(c: Consulta): string { c.medicoId }

  /** The local day of the consultation. */
  function DiaDe(c: Consulta): int { c.dataHora / MinutesPerDay }

  function Um(c: Consulta): int { 1 }

  function SeRealizada(c: Consulta): int { if c.status == Realizada then 1 else 0 }

  function SeCancelada(c: Consulta): int { if c.status == Cancelada then 1 else 0 }

  function SeAgendada(c: Consulta): int { if c.status == Agendada then 1 else 0 }

  /** The amount a consultation adds to the billing: its value when it took place. */
  function ValorRealizado(c: Consulta): int { if c.status == Realizada then c.valorConsulta else 0 }

  lemma {:induction false} SomaUm(cs: seq<Consulta>)
    ensures Soma(cs, Um) == |cs|
  {
    if cs != [] {
      SomaUm(cs[..|cs| - 1]);
    }
  }

  // ---------------------------------------------------------------------------
  // getEstatisticasGerais
  // ---------------------------------------------------------------------------

  datatype Estatisticas = Estatisticas(
    totalConsultas: int,
    consultasRealizadas: int,
    consultasCanceladas: int,
    consultasAgendadas: int,
    consultasConfirmadas: int,
    faltasRegistradas: int,
    faturamentoTotal: int)

  function ComStatus(s: string): Consulta -> bool {
    (c: Consulta) => c.status == s
  }

  /** `c.status === 'realizada' && c.valores?.valorConsulta`. */
  function RealizadaComValor(c: Consulta): bool {
    c.status == Realizada && c.valorConsulta != 0
  }

  function Valor(c: Consulta): int { c.valorConsulta }

  /** The counts by `filter(...).length` and the billing by `filter(...).reduce(+, 0)`; the rates are left out. */
  function GetEstatisticasGerais(cs: seq<Consulta>): Estatisticas {
    Estatisticas(
      |cs|,
      |Filter(cs, ComStatus(Realizada))|,
      |Filter(cs, ComStatus(Cancelada))|,
      |Filter(cs, ComStatus(Agendada))|,
      |Filter(cs, ComStatus(Confirmada))|,
      |Filter(cs, ComStatus(Faltou))|,
      Soma(Filter(cs, RealizadaComValor), Valor))
  }

  lemma FilterSnoc<T>(cs: seq<T>, c: T, keep: T -> bool)
    ensures Filter(cs + [c], keep) == Filter(cs, keep) + (if keep(c) then [c] else [])
  {
    FilterAppend(cs, [c], keep);
    assert [c][1..] == [];
  }

  /** Each count of the report is the number of consultations with exactly that status. */
  lemma {:induction false} ContagemPorStatus(cs: seq<Consulta>, s: string)
    ensures |Filter(cs, ComStatus(s))| == SomaPor(cs, Status, s, Um)
  {
    if cs != [] {
      var ini := cs[..|cs| - 1];
      assert cs == ini + [cs[|cs| - 1]];
      ContagemPorStatus(ini, s);
      FilterSnoc(ini, cs[|cs| - 1], ComStatus(s));
    }
  }

  /** The billing total is the sum of the values of the consultations that took place. */
  lemma {:induction false} FaturamentoTotalSoma(cs: seq<Consulta>)
    ensures Soma(Filter(cs, RealizadaComValor), Valor) == Soma(cs, ValorRealizado)
  {
    if cs != [] {
      var ini, c := cs[..|cs| - 1], cs[|cs| - 1];
      assert cs == ini + [c];
      FaturamentoTotalSoma(ini);
      FilterSnoc(ini, c, RealizadaComValor);
      SomaSnoc(ini, c, ValorRealizado);
      var f := Filter(ini, RealizadaComValor);
      if RealizadaComValor(c) {
        assert Filter(cs, RealizadaComValor) == f + [c];
        SomaSnoc(f, c, Valor);
      } else {
        assert Filter(cs, RealizadaComValor) == f;
        assert ValorRealizado(c) == 0;
      }
    }
  }

  /** One consultation adds to at most one of the five status counts. */
  lemma {:induction false} CincoStatusAtMostTotal(cs: seq<Consulta>)
    ensures SomaPor(cs, Status, Realizada, Um) + SomaPor(cs, Status, Cancelada, Um)
          + SomaPor(cs, Status, Agendada, Um) + SomaPor(cs, Status, Confirmada, Um)
          + SomaPor(cs, Status, Faltou, Um) <= |cs|
  {
    if cs != [] {
      CincoStatusAtMostTotal(cs[..|cs| - 1]);
    }
  }

  /**
   * The general statistics: the total is the list length, each status count
   * is the number of consultations with that exact status (so the five add
   * up to at most the total), and the billing sums the value of the
   * consultations that took place and of no other.
   */
  lemma EstatisticasGerais(cs: seq<Consulta>)
    ensures var e := GetEstatisticasGerais(cs);
      && e.totalConsultas == |cs|
      && e.consultasRealizadas == SomaPor(cs, Status, Realizada, Um)
      && e.consultasCanceladas == SomaPor(cs, Status, Cancelada, Um)
      && e.consultasAgendadas == SomaPor(cs, Status, Agendada, Um)
      && e.consultasConfirmadas == SomaPor(cs, Status, Confirmada, Um)
      && e.faltasRegistradas == SomaPor(cs, Status, Faltou, Um)
      && e.consultasRealizadas + e.consultasCanceladas + e.consultasAgendadas
         + e.consultasConfirmadas + e.faltasRegistradas <= e.totalConsultas
      && e.faturamentoTotal == Soma(cs, ValorRealizado)
  {
    ContagemPorStatus(cs, Realizada);
    ContagemPorStatus(cs, Cancelada);
    ContagemPorStatus(cs, Agendada);
    ContagemPorStatus(cs, Confirmada);
    ContagemPorStatus(cs, Faltou);
    CincoStatusAtMostTotal(cs);
    FaturamentoTotalSoma(cs);
  }

  // ---------------------------------------------------------------------------
  // getConsultasPorStatus
  // ---------------------------------------------------------------------------

  /** One slice of the status chart. */
  datatype Fatia = Fatia(name: string, value: int)

  /** `statusLabels[status] || status`. */
  function Rotulo(status: string): string {
    if status == Agendada then "Agendadas"
    else if status == Confirmada then "Confirmadas"
    else if status == Realizada then "Realizadas"
    else if status == Cancelada then "Canceladas"
    else if status == Faltou then "Faltas"
    else status
  }

  /** One slice per status key, in order of first appearance, holding that key's count. */
  function PorStatus(cs: seq<Consulta>): seq<Fatia> {
    var o := Ordem(cs, StatusKey);
    seq(|o|, j requires 0 <= j < |o| => Fatia(Rotulo(o[j]), SomaPor(cs, StatusKey, o[j], Um)))
  }

  /** `getConsultasPorStatus`: the `statusCount` loop, then one entry per key. */
  method GetConsultasPorStatus(consultas: seq<Consulta>) returns (r: seq<Fatia>)
    ensures r == PorStatus(consultas)
  {
    var statusCount: map<string, int> := map[];
    var chaves: seq<string> := [];
    for i := 0 to |consultas|
      invariant chaves == Ordem(consultas[..i], StatusKey)
      invariant forall k :: k in statusCount <==> k in chaves
      invariant forall k :: k in statusCount ==> statusCount[k] == SomaPor(consultas[..i], StatusKey, k, Um)
    {
      var c := consultas[i];
      var status := if c.status != "" then c.status else "indefinido";
      assert consultas[..i + 1] == consultas[..i] + [c];
      forall k | k in statusCount
        ensures SomaPor(consultas[..i + 1], StatusKey, k, Um)
             == SomaPor(consultas[..i], StatusKey, k, Um) + (if k == status then 1 else 0)
      {
        SomaPorSnoc(consultas[..i], c, StatusKey, k, Um);
      }
      if status !in statusCount {
        OrdemMembers(consultas[..i], StatusKey, status);
        SomaPorAusente(consultas[..i], StatusKey, status, Um);
        SomaPorSnoc(consultas[..i], c, StatusKey, status, Um);
        chaves := chaves + [status];
      }
      var anterior := if status in statusCount then statusCount[status] else 0;
      statusCount := statusCount[status := anterior + 1];
    }
    assert consultas[..|consultas|] == consultas;
    r := seq(|chaves|, j requires 0 <= j < |chaves| => Fatia(Rotulo(chaves[j]), statusCount[chaves[j]]));
  }

  function ValorFatia(f: Fatia): int { f.value }

  /** The chart's values add up to the number of consultations. */
  lemma PorStatusSomaTotal(cs: seq<Consulta>)
    ensures Soma(PorStatus(cs), ValorFatia) == |cs|
  {
    var o := Ordem(cs, StatusKey);
    SomaMapeada(PorStatus(cs), ValorFatia, o, cs, StatusKey, Um);
    Particao(cs, StatusKey, Um);
    SomaUm(cs);
  }

  /**
   * Every slice counts at least one consultation, and a consultation without
   * a status is counted under 'indefinido'.
   */
  lemma PorStatusIndefinido(cs: seq<Consulta>, i: nat)
    requires i < |cs| && cs[i].status == ""
    ensures exists j :: 0 <= j < |PorStatus(cs)| && PorStatus(cs)[j].name == "indefinido"
                        && PorStatus(cs)[j].value >= 1
  {
    var o := Ordem(cs, StatusKey);
    OrdemMembers(cs, StatusKey, "indefinido");
    var j :| 0 <= j < |o| && o[j] == "indefinido";
    SomaPorAtLeast(cs, StatusKey, "indefinido", Um, i);
    assert PorStatus(cs)[j].name == "indefinido";
  }

  /** No slice is empty: each key comes from some consultation. */
  lemma PorStatusPositivo(cs: seq<Consulta>, j: nat)
    requires j < |PorStatus(cs)|
    ensures PorStatus(cs)[j].value >= 1
  {
    var o := Ordem(cs, StatusKey);
    OrdemMembers(cs, StatusKey, o[j]);
    var i :| 0 <= i < |cs| && StatusKey(cs[i]) == o[j];
    SomaPorAtLeast(cs, StatusKey, o[j], Um, i);
  }

  // ---------------------------------------------------------------------------
  // getConsultasPorMedico
  // ---------------------------------------------------------------------------

  datatype ResumoMedico = ResumoMedico(medico: string, total: int, realizadas: int, canceladas: int, faturamento: int)

  /** `medicos[medicoId]?.nome || 'Médico não encontrado'`, over the active doctors of the clinic. */
  function NomeMedico(medicos: map<string, Medico>, medicoId: string): string {
    if medicoId in medicos && medicos[medicoId].nome != "" then medicos[medicoId].nome
    else "Médico não encontrado"
  }

  /** The tallies of one doctor. */
  function Resumo(cs: seq<Consulta>, medicos: map<string, Medico>, medicoId: string): ResumoMedico {
    ResumoMedico(
      NomeMedico(medicos, medicoId),
      SomaPor(cs, MedicoId, medicoId, Um),
      SomaPor(cs, MedicoId, medicoId, SeRealizada),
      SomaPor(cs, MedicoId, medicoId, SeCancelada),
      SomaPor(cs, MedicoId, medicoId, ValorRealizado))
  }

  /** One entry per doctor, in order of first appearance. */
  function PorMedico(cs: seq<Consulta>, medicos: map<string, Medico>): seq<ResumoMedico> {
    var o := Ordem(cs, MedicoId);
    seq(|o|, j requires 0 <= j < |o| => Resumo(cs, medicos, o[j]))
  }

  lemma ResumoSnoc(cs: seq<Consulta>, c: Consulta, medicos: map<string, Medico>, medicoId: string)
    ensures var a, b := Resumo(cs, medicos, medicoId), Resumo(cs + [c], medicos, medicoId);
      if c.medicoId == medicoId then
        b == a.(total := a.total + 1, realizadas := a.realizadas + SeRealizada(c),
                canceladas := a.canceladas + SeCancelada(c), faturamento := a.faturamento + ValorRealizado(c))
      else b == a
  {
    SomaPorSnoc(cs, c, MedicoId, medicoId, Um);
    SomaPorSnoc(cs, c, MedicoId, medicoId, SeRealizada);
    SomaPorSnoc(cs, c, MedicoId, medicoId, SeCancelada);
    SomaPorSnoc(cs, c, MedicoId, medicoId, ValorRealizado);
  }

  lemma ResumoVazio(cs: seq<Consulta>, medicos: map<string, Medico>, medicoId: string)
    requires forall i :: 0 <= i < |cs| ==> cs[i].medicoId != medicoId
    ensures Resumo(cs, medicos, medicoId) == ResumoMedico(NomeMedico(medicos, medicoId), 0, 0, 0, 0)
  {
    SomaPorAusente(cs, MedicoId, medicoId, Um);
    SomaPorAusente(cs, MedicoId, medicoId, SeRealizada);
    SomaPorAusente(cs, MedicoId, medicoId, SeCancelada);
    SomaPorAusente(cs, MedicoId, medicoId, ValorRealizado);
  }

  /** `getConsultasPorMedico`: the `consultasPorMedico` loop, then `Object.values`. */
  method GetConsultasPorMedico(consultas: seq<Consulta>, medicos: map<string, Medico>) returns (r: seq<ResumoMedico>)
    ensures r == PorMedico(consultas, medicos)
  {
    var porMedico: map<string, ResumoMedico> := map[];
    var chaves: seq<string> := [];
    for i := 0 to |consultas|
      invariant chaves == Ordem(consultas[..i], MedicoId)
      invariant forall k :: k in porMedico <==> k in chaves
      invariant forall k :: k in porMedico ==> porMedico[k] == Resumo(consultas[..i], medicos, k)
    {
      var c := consultas[i];
      var medicoId := c.medicoId;
      var medicoNome := NomeMedico(medicos, medicoId);
      assert consultas[..i + 1] == consultas[..i] + [c];
      forall k | k in porMedico && k != medicoId
        ensures Resumo(consultas[..i + 1], medicos, k) == Resumo(consultas[..i], medicos, k)
      {
        ResumoSnoc(consultas[..i], c, medicos, k);
      }
      ResumoSnoc(consultas[..i], c, medicos, medicoId);
      if medicoId !in porMedico {
        OrdemMembers(consultas[..i], MedicoId, medicoId);
        ResumoVazio(consultas[..i], medicos, medicoId);
        porMedico := porMedico[medicoId := ResumoMedico(medicoNome, 0, 0, 0, 0)];
        chaves := chaves + [medicoId];
      }
      var g := porMedico[medicoId];
      g := g.(total := g.total + 1);
      if c.status == Realizada {
        g := g.(realizadas := g.realizadas + 1);
        if c.valorConsulta != 0 {
          g := g.(faturamento := g.faturamento + c.valorConsulta);
        }
      } else if c.status == Cancelada {
        g := g.(canceladas := g.canceladas + 1);
      }
      porMedico := porMedico[medicoId := g];
    }
    assert consultas[..|consultas|] == consultas;
    r := seq(|chaves|, j requires 0 <= j < |chaves| => porMedico[chaves[j]]);
  }

  /** Per doctor, the consultations that took place and the cancelled ones are among the doctor's total. */
  lemma {:induction false} RealizadasCanceladasAtMostTotal(cs: seq<Consulta>, medicoId: string)
    ensures SomaPor(cs, MedicoId, medicoId, SeRealizada) + SomaPor(cs, MedicoId, medicoId, SeCancelada)
         <= SomaPor(cs, MedicoId, medicoId, Um)
  {
    if cs != [] {
      RealizadasCanceladasAtMostTotal(cs[..|cs| - 1], medicoId);
    }
  }

  function TotalResumo(g: ResumoMedico): int { g.total }

  function FaturamentoResumo(g: ResumoMedico): int { g.faturamento }

  /**
   * The doctors' entries partition the consultations: their totals add up to
   * the number of consultations, their billing to the clinic's billing total,
   * and within each entry `realizadas + canceladas <= total`.
   */
  lemma PorMedicoParticiona(cs: seq<Consulta>, medicos: map<string, Medico>)
    ensures Soma(PorMedico(cs, medicos), TotalResumo) == |cs|
    ensures Soma(PorMedico(cs, medicos), FaturamentoResumo) == GetEstatisticasGerais(cs).faturamentoTotal
    ensures forall j :: 0 <= j < |PorMedico(cs, medicos)| ==>
      PorMedico(cs, medicos)[j].realizadas + PorMedico(cs, medicos)[j].canceladas <= PorMedico(cs, medicos)[j].total
  {
    var o := Ordem(cs, MedicoId);
    var r := PorMedico(cs, medicos);
    SomaMapeada(r, TotalResumo, o, cs, MedicoId, Um);
    Particao(cs, MedicoId, Um);
    SomaUm(cs);
    SomaMapeada(r, FaturamentoResumo, o, cs, MedicoId, ValorRealizado);
    Particao(cs, MedicoId, ValorRealizado);
    FaturamentoTotalSoma(cs);
    forall j | 0 <= j < |r|
      ensures r[j].realizadas + r[j].canceladas <= r[j].total
    {
      RealizadasCanceladasAtMostTotal(cs, o[j]);
    }
  }

  /** A doctor missing from the active doctors of the clinic is reported under a placeholder name. */
  lemma MedicoInativoSemNome(cs: seq<Consulta>, medicos: map<string, Medico>, j: nat)
    requires j < |PorMedico(cs, medicos)| && Ordem(cs, MedicoId)[j] !in medicos
    ensures PorMedico(cs, medicos)[j].medico == "Médico não encontrado"
  {
  }

  // ---------------------------------------------------------------------------
  // getConsultasPorDia
  // ---------------------------------------------------------------------------

  datatype ResumoDia = ResumoDia(data: int, total: int, realizadas: int, canceladas: int, agendadas: int)

  function ComStatusPeso(s: string): Consulta -> int {
    (c: Consulta) => if c.status == s then 1 else 0
  }

  /**
   * `getConsultasPorDia` as written: the day's record starts with plural
   * counters, but the loop increments the field named by the singular status
   * (`consultasPorDia[data][consulta.status]++`). A plural counter therefore
   * only moves for a status spelled like it, and `total` also moves for a
   * status spelled `total`.
   */
  function PorDiaAsWritten(cs: seq<Consulta>): seq<ResumoDia> {
    var o := Ordem(cs, DiaDe);
    seq(|o|, j requires 0 <= j < |o| =>
      ResumoDia(o[j],
        SomaPor(cs, DiaDe, o[j], Um) + SomaPor(cs, DiaDe, o[j], ComStatusPeso("total")),
        SomaPor(cs, DiaDe, o[j], ComStatusPeso("realizadas")),
        SomaPor(cs, DiaDe, o[j], ComStatusPeso("canceladas")),
        SomaPor(cs, DiaDe, o[j], ComStatusPeso("agendadas"))))
  }

  /** The day's tallies by status. */
  function ResumoDoDia(cs: seq<Consulta>, dia: int): ResumoDia {
    ResumoDia(dia,
      SomaPor(cs, DiaDe, dia, Um),
      SomaPor(cs, DiaDe, dia, SeRealizada),
      SomaPor(cs, DiaDe, dia, SeCancelada),
      SomaPor(cs, DiaDe, dia, SeAgendada))
  }

  /** One entry per day, in order of first appearance (ascending, as the query orders by time). */
  function PorDia(cs: seq<Consulta>): seq<ResumoDia> {
    var o := Ordem(cs, DiaDe);
    seq(|o|, j requires 0 <= j < |o| => ResumoDoDia(cs, o[j]))
  }

  /** As written, a day with one consultation that took place reports no consultation taken place. */
  lemma PorDiaAsWrittenMissesRealizada(c: Consulta)
    requires c.status == Realizada
    ensures PorDiaAsWritten([c])[0].realizadas == 0
    ensures PorDia([c])[0].realizadas == 1
  {
    assert [c][..0] == [];
    assert Ordem([c], DiaDe) == [DiaDe(c)];
    assert SomaPor([c], DiaDe, DiaDe(c), ComStatusPeso("realizadas")) == 0;
    assert SomaPor([c], DiaDe, DiaDe(c), SeRealizada) == 1;
  }

  lemma ResumoDoDiaSnoc(cs: seq<Consulta>, c: Consulta, dia: int)
    ensures var a, b := ResumoDoDia(cs, dia), ResumoDoDia(cs + [c], dia);
      if DiaDe(c) == dia then
        b == a.(total := a.total + 1, realizadas := a.realizadas + SeRealizada(c),
                canceladas := a.canceladas + SeCancelada(c), agendadas := a.agendadas + SeAgendada(c))
      else b == a
  {
    SomaPorSnoc(cs, c, DiaDe, dia, Um);
    SomaPorSnoc(cs, c, DiaDe, dia, SeRealizada);
    SomaPorSnoc(cs, c, DiaDe, dia, SeCancelada);
    SomaPorSnoc(cs, c, DiaDe, dia, SeAgendada);
  }

  lemma ResumoDoDiaVazio(cs: seq<Consulta>, dia: int)
    requires forall i :: 0 <= i < |cs| ==> DiaDe(cs[i]) != dia
    ensures ResumoDoDia(cs, dia) == ResumoDia(dia, 0, 0, 0, 0)
  {
    SomaPorAusente(cs, DiaDe, dia, Um);
    SomaPorAusente(cs, DiaDe, dia, SeRealizada);
    SomaPorAusente(cs, DiaDe, dia, SeCancelada);
    SomaPorAusente(cs, DiaDe, dia, SeAgendada);
  }

  /** `getConsultasPorDia` with each status counted under its own plural counter. */
  method GetConsultasPorDia(consultas: seq<Consulta>) returns (r: seq<ResumoDia>)
    ensures r == PorDia(consultas)
  {
    var porDia: map<int, ResumoDia> := map[];
    var chaves: seq<int> := [];
    for i := 0 to |consultas|
      invariant chaves == Ordem(consultas[..i], DiaDe)
      invariant forall k :: k in porDia <==> k in chaves
      invariant forall j :: 0 <= j < |chaves| ==> chaves[j] in porDia
      invariant forall k :: k in porDia ==> porDia[k] == ResumoDoDia(consultas[..i], k)
    {
      var c := consultas[i];
      var data := c.dataHora / MinutesPerDay;
      assert consultas[..i + 1] == consultas[..i] + [c];
      forall k | k in porDia && k != data
        ensures ResumoDoDia(consultas[..i + 1], k) == ResumoDoDia(consultas[..i], k)
      {
        ResumoDoDiaSnoc(consultas[..i], c, k);
      }
      ResumoDoDiaSnoc(consultas[..i], c, data);
      if data !in porDia {
        OrdemMembers(consultas[..i], DiaDe, data);
        ResumoDoDiaVazio(consultas[..i], data);
        porDia := porDia[data := ResumoDia(data, 0, 0, 0, 0)];
        chaves := chaves + [data];
      }
      var g := porDia[data];
      g := g.(total := g.total + 1);
      if c.status == Realizada {
        g := g.(realizadas := g.realizadas + 1);
      } else if c.status == Cancelada {
        g := g.(canceladas := g.canceladas + 1);
      } else if c.status == Agendada {
        g := g.(agendadas := g.agendadas + 1);
      }
      porDia := porDia[data := g];
    }
    assert consultas[..|consultas|] == consultas;
    r := seq(|chaves|, j requires 0 <= j < |chaves| => porDia[chaves[j]]);
  }

  lemma {:induction false} TresStatusAtMostTotalDia(cs: seq<Consulta>, dia: int)
    ensures SomaPor(cs, DiaDe, dia, SeRealizada) + SomaPor(cs, DiaDe, dia, SeCancelada)
          + SomaPor(cs, DiaDe, dia, SeAgendada) <= SomaPor(cs, DiaDe, dia, Um)
  {
    if cs != [] {
      TresStatusAtMostTotalDia(cs[..|cs| - 1], dia);
    }
  }

  function TotalDia(g: ResumoDia): int { g.total }

  /** The days partition the consultations, and each day's status counters fit inside its total. */
  lemma PorDiaParticiona(cs: seq<Consulta>)
    ensures Soma(PorDia(cs), TotalDia) == |cs|
    ensures forall j :: 0 <= j < |PorDia(cs)| ==>
      PorDia(cs)[j].realizadas + PorDia(cs)[j].canceladas + PorDia(cs)[j].agendadas <= PorDia(cs)[j].total
  {
    var o := Ordem(cs, DiaDe);
    var r := PorDia(cs);
    SomaMapeada(r, TotalDia, o, cs, DiaDe, Um);
    Particao(cs, DiaDe, Um);
    SomaUm(cs);
    forall j | 0 <= j < |r|
      ensures r[j].realizadas + r[j].canceladas + r[j].agendadas <= r[j].total
    {
      TresStatusAtMostTotalDia(cs, o[j]);
    }
  }
}
