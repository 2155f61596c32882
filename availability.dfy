/**
 * The doctor availability slot generator of `MedicoService`
 * (`getAgendaDisponibilidade` and `getDiaSemana`).
 *
 * For the requested day the generator reads the doctor's working periods for
 * that weekday and walks each period from its own start in steps of the
 * appointment length. A candidate `[cursor, cursor + duracao)` is kept when it
 * ends inside the period and no booked interval "occupies" it; the cursor
 * advances whether or not the candidate was kept.
 *
 * The occupancy test is the one the code applies: a booking `[a, b)` occupies
 * a candidate `[s, e)` when `a <= s < b` or `a < e <= b`. This is not the
 * general overlap test `s < b && a < e`: a candidate that strictly contains a
 * shorter booking is accepted (see `ShorterBookingInsideSlotIsAccepted`). The
 * two agree when no booking is shorter than the candidate
 * (`OccupiedIsOverlapForLongBookings`).
 */
module Availability {
  import opened Common
  import opened Domain

  /** A half-open interval of minutes: a free slot, or a booked consultation. */
  datatype Intervalo = Intervalo(inicio: int, fim: int)

  // ---------------------------------------------------------------------------
  // Weekday
  // ---------------------------------------------------------------------------

  /** `Date.prototype.getDay()` of a local day number: 0 is Sunday; day 0 was a Thursday. */
  function DiaDaSemana(dia: int): (w: int)
    ensures 0 <= w < 7
  {
    (dia + 4) % 7
  }

  /** `getDiaSemana(data)`: the key under which the doctor's periods for that day are stored. */
  function GetDiaSemana(dia: int): (nome: string)
    ensures nome in Dias
  {
    Dias[DiaDaSemana(dia)]
  }

  /** The seven weekday names are distinct. */
  lemma DiasDistinct()
    ensures forall i, j :: 0 <= i < j < 7 ==> Dias[i] != Dias[j]
  {
  }

  /** The weekday repeats every seven days. */
  lemma GetDiaSemanaWeekly(dia: int)
    ensures GetDiaSemana(dia + 7) == GetDiaSemana(dia)
  {
    assert (dia + 7 + 4) % 7 == (dia + 4) % 7 by {
      ModShift(dia + 4, 7);
    }
  }

  /** Seven consecutive days resolve to seven different weekday names. */
  lemma GetDiaSemanaWeekDistinct(dia: int, i: int, j: int)
    requires 0 <= i < j < 7
    ensures GetDiaSemana(dia + i) != GetDiaSemana(dia + j)
  {
    var a, b := DiaDaSemana(dia + i), DiaDaSemana(dia + j);
    if a == b {
      ModDifference(dia + i + 4, dia + j + 4, 7);
      assert false;
    }
    DiasDistinct();
  }

  // ---------------------------------------------------------------------------
  // Arithmetic helpers
  // ---------------------------------------------------------------------------

  /** A multiple of a positive `d` by a non-zero factor is at least `d` away from 0. */
  lemma MulAwayFromZero(d: int, k: int)
    requires d > 0
    ensures k >= 1 ==> d * k >= d
    ensures k <= -1 ==> d * k <= -d
  {
    if k >= 1 {
      assert d * k == d + d * (k - 1);
    } else if k <= -1 {
      assert d * k == -d + d * (k + 1);
    }
  }

  lemma DivModUnique(a: int, d: int, q: int, r: int)
    requires d > 0 && 0 <= r < d && a == d * q + r
    ensures a / d == q && a % d == r
  {
    var q', r' := a / d, a % d;
    assert d * (q' - q) == r - r';
    MulAwayFromZero(d, q' - q);
  }

  lemma ModShift(a: int, d: int)
    requires d > 0
    ensures (a + d) % d == a % d
  {
    var q, r := a / d, a % d;
    assert a + d == d * (q + 1) + r;
    DivModUnique(a + d, d, q + 1, r);
  }

  /** Two numbers that differ by less than `d` but not at all have different remainders. */
  lemma ModDifference(x: int, y: int, d: int)
    requires d > 0 && x < y < x + d
    ensures x % d != y % d
  {
    var qx, qy := x / d, y / d;
    assert y - x == d * (qy - qx) + (y % d - x % d);
    MulAwayFromZero(d, qy - qx);
  }

  /** A positive multiple of `d` is at least `d`, and one step lower is still a multiple. */
  lemma MultipleStep(a: int, d: int)
    requires d > 0 && a > 0 && a % d == 0
    ensures a >= d && (a - d) % d == 0
  {
    var q := a / d;
    assert a == d * q;
    MulAwayFromZero(d, q);
    assert a - d == d * (q - 1) + 0;
    DivModUnique(a - d, d, q - 1, 0);
  }

  // ---------------------------------------------------------------------------
  // Occupancy
  // ---------------------------------------------------------------------------

  /** `ocupacao` occupies `[s, e)` as written: the start falls in `[a, b)` or the end in `(a, b]`. */
  predicate Ocupa(o: Intervalo, s: int, e: int) {
    (s >= o.inicio && s < o.fim) || (e > o.inicio && e <= o.fim)
  }

  /** `consultasOcupadas.some(...)`. */
  predicate Ocupado(s: int, e: int, occ: seq<Intervalo>) {
    exists k :: 0 <= k < |occ| && Ocupa(occ[k], s, e)
  }

  /** Half-open intervals `[s, e)` and `[o.inicio, o.fim)` share a minute. */
  predicate Overlaps(o: Intervalo, s: int, e: int) {
    s < o.fim && o.inicio < e
  }

  /**
   * When no booking is shorter than the candidate, the occupancy test as
   * written is exactly the half-open overlap test.
   */
  lemma OccupiedIsOverlapForLongBookings(s: int, e: int, occ: seq<Intervalo>)
    requires s < e
    requires forall k :: 0 <= k < |occ| ==> occ[k].fim - occ[k].inicio >= e - s
    ensures Ocupado(s, e, occ) <==> exists k :: 0 <= k < |occ| && Overlaps(occ[k], s, e)
  {
    forall k | 0 <= k < |occ|
      ensures Ocupa(occ[k], s, e) <==> Overlaps(occ[k], s, e)
    {
    }
  }

  /** A 10-minute booking strictly inside a 30-minute candidate does not occupy it. */
  lemma ShorterBookingInsideSlotIsAccepted()
    ensures Overlaps(Intervalo(550, 560), 540, 570)
    ensures !Ocupado(540, 570, [Intervalo(550, 560)])
    ensures PeriodSlots(540, 570, 30, [Intervalo(550, 560)]) == [Intervalo(540, 570)]
  {
    assert !Ocupa([Intervalo(550, 560)][0], 540, 570);
  }

  /** A booking that only touches a candidate at an endpoint never occupies it. */
  lemma TouchingBookingsDoNotOccupy(s: int, e: int, occ: seq<Intervalo>)
    requires s < e
    requires forall k :: 0 <= k < |occ| ==> occ[k].inicio < occ[k].fim
    requires forall k :: 0 <= k < |occ| ==> occ[k].fim <= s || occ[k].inicio >= e
    ensures !Ocupado(s, e, occ)
  {
  }

  // ---------------------------------------------------------------------------
  // Booked intervals
  // ---------------------------------------------------------------------------

  /** The consultation holds the doctor's calendar on that day (the query at :323-329). */
  predicate Books(c: Consulta, medicoId: string, dia: int) {
    && c.medicoId == medicoId
    && dia * MinutesPerDay <= c.dataHora < (dia + 1) * MinutesPerDay
    && HoldsCalendar(c.status)
  }

  /** The interval a consultation occupies: `[dataHora, dataHora + duracao)`. */
  function Ocupacao(c: Consulta): Intervalo {
    Intervalo(c.dataHora, c.dataHora + c.duracao)
  }

  /** `consultasOcupadas`: the query's result mapped to intervals. */
  function Ocupacoes(cs: seq<Consulta>, medicoId: string, dia: int): (occ: seq<Intervalo>)
    ensures |occ| <= |cs|
  {
    if cs == [] then []
    else (if Books(cs[0], medicoId, dia) then [Ocupacao(cs[0])] else []) + Ocupacoes(cs[1..], medicoId, dia)
  }

  /** The booked intervals are exactly those of the consultations that hold the calendar. */
  lemma {:induction false} OcupacoesExactly(cs: seq<Consulta>, medicoId: string, dia: int, o: Intervalo)
    ensures o in Ocupacoes(cs, medicoId, dia) <==>
      exists c :: c in cs && Books(c, medicoId, dia) && Ocupacao(c) == o
  {
    if cs != [] {
      OcupacoesExactly(cs[1..], medicoId, dia, o);
      assert forall c :: c in cs <==> c == cs[0] || c in cs[1..];
    }
  }

  lemma {:induction false} OcupacoesAppend(cs: seq<Consulta>, ds: seq<Consulta>, medicoId: string, dia: int)
    ensures Ocupacoes(cs + ds, medicoId, dia) == Ocupacoes(cs, medicoId, dia) + Ocupacoes(ds, medicoId, dia)
  {
    if cs == [] {
      assert cs + ds == ds;
    } else {
      assert (cs + ds)[1..] == cs[1..] + ds;
      OcupacoesAppend(cs[1..], ds, medicoId, dia);
    }
  }

  // ---------------------------------------------------------------------------
  // One period
  // ---------------------------------------------------------------------------

  /**
   * The slots the `while (slotAtual < fimPeriodo)` loop of one period pushes,
   * starting at `cursor`.
   */
  function PeriodSlots(cursor: int, fim: int, duracao: int, occ: seq<Intervalo>): seq<Intervalo>
    requires duracao > 0
    decreases fim - cursor
  {
    if cursor >= fim then []
    else
      var fimSlot := cursor + duracao;
      (if fimSlot <= fim && !Ocupado(cursor, fimSlot, occ) then [Intervalo(cursor, fimSlot)] else [])
      + PeriodSlots(fimSlot, fim, duracao, occ)
  }

  /** `x` is a grid point of a period that starts at `inicio`: `inicio + k * duracao` for some k >= 0. */
  predicate OnGrid(x: int, inicio: int, duracao: int)
    requires duracao > 0
  {
    x >= inicio && (x - inicio) % duracao == 0
  }

  /**
   * A slot the period `[inicio, fim)` offers: it starts on the period's grid,
   * has exactly the appointment length, ends inside the period, and is not
   * occupied by any booking.
   */
  predicate Bookable(s: Intervalo, inicio: int, fim: int, duracao: int, occ: seq<Intervalo>)
    requires duracao > 0
  {
    && OnGrid(s.inicio, inicio, duracao)
    && s.fim == s.inicio + duracao
    && s.fim <= fim
    && !Ocupado(s.inicio, s.fim, occ)
  }

  /** A period yields exactly its bookable slots, no more and no fewer. */
  lemma {:induction false} PeriodSlotsExactly(inicio: int, fim: int, duracao: int, occ: seq<Intervalo>, s: Intervalo)
    requires duracao > 0
    ensures s in PeriodSlots(inicio, fim, duracao, occ) <==> Bookable(s, inicio, fim, duracao, occ)
    decreases fim - inicio
  {
    if inicio < fim {
      var next := inicio + duracao;
      PeriodSlotsExactly(next, fim, duracao, occ, s);
      if s in PeriodSlots(next, fim, duracao, occ) {
        ModShift(s.inicio - next, duracao);
      }
      if Bookable(s, inicio, fim, duracao, occ) && s.inicio != inicio {
        MultipleStep(s.inicio - inicio, duracao);
        assert Bookable(s, next, fim, duracao, occ);
      }
    }
  }

  /** Every slot of a period starts at or after the cursor it was generated from. */
  lemma {:induction false} PeriodSlotsStartAfter(cursor: int, fim: int, duracao: int, occ: seq<Intervalo>)
    requires duracao > 0
    ensures forall s :: s in PeriodSlots(cursor, fim, duracao, occ) ==> s.inicio >= cursor
  {
    forall s | s in PeriodSlots(cursor, fim, duracao, occ)
      ensures s.inicio >= cursor
    {
      PeriodSlotsExactly(cursor, fim, duracao, occ, s);
    }
  }

  /** Each interval ends no later than any later one starts: chronological and pairwise disjoint. */
  predicate Chronological(r: seq<Intervalo>) {
    forall i, j :: 0 <= i < j < |r| ==> r[i].fim <= r[j].inicio
  }

  /** Within a period, slots are in chronological order and pairwise disjoint. */
  lemma {:induction false} PeriodSlotsSorted(cursor: int, fim: int, duracao: int, occ: seq<Intervalo>)
    requires duracao > 0
    ensures Chronological(PeriodSlots(cursor, fim, duracao, occ))
    decreases fim - cursor
  {
    if cursor < fim {
      var next := cursor + duracao;
      PeriodSlotsSorted(next, fim, duracao, occ);
      PeriodSlotsStartAfter(next, fim, duracao, occ);
      var head := if next <= fim && !Ocupado(cursor, next, occ) then [Intervalo(cursor, next)] else [];
      var tail := PeriodSlots(next, fim, duracao, occ);
      var r := head + tail;
      assert r == PeriodSlots(cursor, fim, duracao, occ);
      forall i, j | 0 <= i < j < |r|
        ensures r[i].fim <= r[j].inicio
      {
        if i < |head| {
          assert r[i] == head[0] && r[i].fim == next;
          assert r[j] == tail[j - |head|];
          assert r[j] in tail;
          assert r[j].inicio >= next;
        } else {
          assert r[i] == tail[i - |head|] && r[j] == tail[j - |head|];
        }
      }
    }
  }

  /** A period shorter than the appointment length, or an inverted one, contributes nothing. */
  lemma {:induction false} ShortPeriodIsEmpty(inicio: int, fim: int, duracao: int, occ: seq<Intervalo>)
    requires duracao > 0 && fim - inicio < duracao
    ensures PeriodSlots(inicio, fim, duracao, occ) == []
  {
    if inicio < fim {
      assert PeriodSlots(inicio + duracao, fim, duracao, occ) == [];
    }
  }

  /** With nothing booked, a period offers `(fim - inicio) / duracao` back-to-back slots. */
  lemma {:induction false} FreePeriodSlotCount(inicio: int, fim: int, duracao: int)
    requires duracao > 0 && inicio <= fim
    ensures |PeriodSlots(inicio, fim, duracao, [])| == (fim - inicio) / duracao
    decreases fim - inicio
  {
    if fim - inicio < duracao {
      ShortPeriodIsEmpty(inicio, fim, duracao, []);
      DivModUnique(fim - inicio, duracao, 0, fim - inicio);
    } else {
      FreePeriodSlotCount(inicio + duracao, fim, duracao);
      var q := (fim - inicio - duracao) / duracao;
      var r := (fim - inicio - duracao) % duracao;
      assert fim - inicio == duracao * (q + 1) + r;
      DivModUnique(fim - inicio, duracao, q + 1, r);
    }
  }

  /** A period 09:00-10:00 with 30-minute appointments and nothing booked. */
  lemma ExampleFreeHour()
    ensures PeriodSlots(540, 600, 30, []) == [Intervalo(540, 570), Intervalo(570, 600)]
  {
  }

  /** The same period with 09:30-10:00 booked. */
  lemma ExampleSecondHalfBooked()
    ensures PeriodSlots(540, 600, 30, [Intervalo(570, 600)]) == [Intervalo(540, 570)]
  {
    assert !Ocupa([Intervalo(570, 600)][0], 540, 570);
    assert Ocupa([Intervalo(570, 600)][0], 570, 600);
  }

  // ---------------------------------------------------------------------------
  // One day
  // ---------------------------------------------------------------------------

  /**
   * The slots one configured period contributes. A period whose "HH:MM" text
   * does not parse has NaN bounds in the source, so `slotAtual < fimPeriodo`
   * is false at once and it contributes nothing.
   */
  function PeriodoSlots(p: Periodo, dia: int, duracao: int, occ: seq<Intervalo>): seq<Intervalo>
    requires duracao > 0
  {
    match (ParseHorario(p.inicio), ParseHorario(p.fim))
    case (Some(a), Some(b)) => PeriodSlots(dia * MinutesPerDay + a, dia * MinutesPerDay + b, duracao, occ)
    case _ => []
  }

  /** The slots of a day's periods, period after period, in configuration order. */
  function DaySlots(ps: seq<Periodo>, dia: int, duracao: int, occ: seq<Intervalo>): seq<Intervalo>
    requires duracao > 0
  {
    if ps == [] then []
    else DaySlots(ps[..|ps| - 1], dia, duracao, occ) + PeriodoSlots(ps[|ps| - 1], dia, duracao, occ)
  }

  /** A slot is offered by configured period `p` of day `dia`. */
  predicate OfferedBy(s: Intervalo, p: Periodo, dia: int, duracao: int, occ: seq<Intervalo>)
    requires duracao > 0
  {
    && ParseHorario(p.inicio).Some? && ParseHorario(p.fim).Some?
    && Bookable(s, dia * MinutesPerDay + ParseHorario(p.inicio).value,
                dia * MinutesPerDay + ParseHorario(p.fim).value, duracao, occ)
  }

  lemma PeriodoSlotsExactly(p: Periodo, dia: int, duracao: int, occ: seq<Intervalo>, s: Intervalo)
    requires duracao > 0
    ensures s in PeriodoSlots(p, dia, duracao, occ) <==> OfferedBy(s, p, dia, duracao, occ)
  {
    var a, b := ParseHorario(p.inicio), ParseHorario(p.fim);
    if a.Some? && b.Some? {
      PeriodSlotsExactly(dia * MinutesPerDay + a.value, dia * MinutesPerDay + b.value, duracao, occ, s);
    }
  }

  /** A day's slots are exactly the slots some configured period offers. */
  lemma {:induction false} DaySlotsExactly(ps: seq<Periodo>, dia: int, duracao: int, occ: seq<Intervalo>, s: Intervalo)
    requires duracao > 0
    ensures s in DaySlots(ps, dia, duracao, occ) <==>
      exists k :: 0 <= k < |ps| && OfferedBy(s, ps[k], dia, duracao, occ)
  {
    if ps != [] {
      var init, last := ps[..|ps| - 1], ps[|ps| - 1];
      DaySlotsExactly(init, dia, duracao, occ, s);
      PeriodoSlotsExactly(last, dia, duracao, occ, s);
      assert s in DaySlots(ps, dia, duracao, occ) <==>
        s in DaySlots(init, dia, duracao, occ) || s in PeriodoSlots(last, dia, duracao, occ);
      if exists k :: 0 <= k < |ps| && OfferedBy(s, ps[k], dia, duracao, occ) {
        var k :| 0 <= k < |ps| && OfferedBy(s, ps[k], dia, duracao, occ);
        if k < |ps| - 1 {
          assert init[k] == ps[k];
        }
      }
      if exists k :: 0 <= k < |init| && OfferedBy(s, init[k], dia, duracao, occ) {
        var k :| 0 <= k < |init| && OfferedBy(s, init[k], dia, duracao, occ);
        assert ps[k] == init[k];
      }
    }
  }

  // ---------------------------------------------------------------------------
  // Appointment length
  // ---------------------------------------------------------------------------

  /** `medico.configuracoes?.duracaoConsulta || 30` as written: unset and 0 fall back to 30. */
  function DuracaoAsWritten(cfg: Option<int>): int {
    if cfg.None? || cfg.value == 0 then 30 else cfg.value
  }

  /**
   * With a negative length the cursor moves backwards: after any number of
   * steps it is still before the period's end, so the `while` loop of the
   * source never exits.
   */
  lemma NegativeDurationNeverLeavesPeriod(inicio: int, fim: int, duracao: int, k: nat)
    requires duracao < 0 && inicio < fim
    ensures inicio + k * duracao < fim
  {
    assert k * duracao <= 0;
  }

  /** The same, for a concrete configuration: `-15` survives the fallback. */
  lemma NegativeDurationExample()
    ensures DuracaoAsWritten(Some(-15)) == -15
    ensures forall k: nat :: 480 + k * DuracaoAsWritten(Some(-15)) < 540
  {
    forall k: nat
      ensures 480 + k * DuracaoAsWritten(Some(-15)) < 540
    {
      NegativeDurationNeverLeavesPeriod(480, 540, -15, k);
    }
  }

  /**
   * The appointment length the generator uses: the written fallback, with a
   * negative configured length reported as an error instead of looping.
   */
  function DuracaoConsulta(cfg: Option<int>): (r: Result<int, Erro>)
    ensures r.Ok? <==> (cfg.None? || cfg.value >= 0)
    ensures r.Ok? ==> r.value > 0 && r.value == DuracaoAsWritten(cfg)
    ensures r.Err? ==> r.error == DuracaoNegativa
  {
    if cfg.Some? && cfg.value < 0 then Err(DuracaoNegativa) else Ok(DuracaoAsWritten(cfg))
  }

  // ---------------------------------------------------------------------------
  // The request
  // ---------------------------------------------------------------------------

  /** `medico.configuracoes?.horarioAtendimento?.[diaSemana]`, with a missing day read as no periods. */
  function ConfigDia(m: Medico, dia: int): seq<Periodo> {
    var nome := GetDiaSemana(dia);
    if nome in m.configuracoes.horarioAtendimento then m.configuracoes.horarioAtendimento[nome] else []
  }

  /** What `getAgendaDisponibilidade(medicoId, data)` returns, as a function of its inputs. */
  function Agenda(medicos: map<string, Medico>, consultas: seq<Consulta>, medicoId: string, dia: int)
    : Result<seq<Intervalo>, Erro>
  {
    if medicoId !in medicos then Err(MedicoNaoEncontrado)
    else
      var m := medicos[medicoId];
      var configDia := ConfigDia(m, dia);
      if configDia == [] then Ok([])
      else
        match DuracaoConsulta(m.configuracoes.duracaoConsulta)
        case Err(e) => Err(e)
        case Ok(d) => Ok(DaySlots(configDia, dia, d, Ocupacoes(consultas, medicoId, dia)))
  }

  /**
   * The generator: a loop over the day's periods and, inside it, the cursor
   * loop that walks each period and pushes the free slots.
   */
  method GetAgendaDisponibilidade(medicos: map<string, Medico>, consultas: seq<Consulta>, medicoId: string, dia: int)
    returns (r: Result<seq<Intervalo>, Erro>)
    ensures r == Agenda(medicos, consultas, medicoId, dia)
  {
    if medicoId !in medicos {
      return Err(MedicoNaoEncontrado);
    }
    var medico := medicos[medicoId];
    var configDia := ConfigDia(medico, dia);
    if |configDia| == 0 {
      return Ok([]);
    }
    var consultasOcupadas := Ocupacoes(consultas, medicoId, dia);
    var duracao := DuracaoConsulta(medico.configuracoes.duracaoConsulta);
    if duracao.Err? {
      return Err(duracao.error);
    }
    var duracaoConsulta := duracao.value;

    var slotsDisponiveis: seq<Intervalo> := [];
    for i := 0 to |configDia|
      invariant slotsDisponiveis == DaySlots(configDia[..i], dia, duracaoConsulta, consultasOcupadas)
    {
      var periodo := configDia[i];
      assert configDia[..i + 1][..i] == configDia[..i];
      assert DaySlots(configDia[..i + 1], dia, duracaoConsulta, consultasOcupadas)
          == slotsDisponiveis + PeriodoSlots(periodo, dia, duracaoConsulta, consultasOcupadas);
      var inicio, fim := ParseHorario(periodo.inicio), ParseHorario(periodo.fim);
      if inicio.Some? && fim.Some? {
        var doPeriodo := SlotsDoPeriodo(dia * MinutesPerDay + inicio.value, dia * MinutesPerDay + fim.value,
                                        duracaoConsulta, consultasOcupadas);
        slotsDisponiveis := slotsDisponiveis + doPeriodo;
      } else {
        assert PeriodoSlots(periodo, dia, duracaoConsulta, consultasOcupadas) == [];
      }
    }
    assert configDia[..|configDia|] == configDia;
    return Ok(slotsDisponiveis);
  }

  /**
   * The inner loop of the generator for one period: the cursor starts at the
   * period's start and advances by the appointment length until it reaches
   * the period's end; each candidate that fits and is not occupied is pushed.
   */
  method SlotsDoPeriodo(inicioPeriodo: int, fimPeriodo: int, duracaoConsulta: int, consultasOcupadas: seq<Intervalo>)
    returns (slots: seq<Intervalo>)
    requires duracaoConsulta > 0
    ensures slots == PeriodSlots(inicioPeriodo, fimPeriodo, duracaoConsulta, consultasOcupadas)
  {
    slots := [];
    var slotAtual := inicioPeriodo;
    while slotAtual < fimPeriodo
      invariant slots + PeriodSlots(slotAtual, fimPeriodo, duracaoConsulta, consultasOcupadas)
                == PeriodSlots(inicioPeriodo, fimPeriodo, duracaoConsulta, consultasOcupadas)
      decreases fimPeriodo - slotAtual
    {
      var fimSlot := slotAtual + duracaoConsulta;
      ghost var pushed: seq<Intervalo> := [];
      if fimSlot <= fimPeriodo {
        var ocupado := Ocupado(slotAtual, fimSlot, consultasOcupadas);
        if !ocupado {
          pushed := [Intervalo(slotAtual, fimSlot)];
          slots := slots + [Intervalo(slotAtual, fimSlot)];
        }
      }
      assert PeriodSlots(slotAtual, fimPeriodo, duracaoConsulta, consultasOcupadas)
          == pushed + PeriodSlots(fimSlot, fimPeriodo, duracaoConsulta, consultasOcupadas);
      slotAtual := slotAtual + duracaoConsulta;
    }
  }

  // ---------------------------------------------------------------------------
  // Properties of the request
  // ---------------------------------------------------------------------------

  /** A weekday with no configured periods has no slots, and that is not an error. */
  lemma ClosedDayIsEmpty(medicos: map<string, Medico>, consultas: seq<Consulta>, medicoId: string, dia: int)
    requires medicoId in medicos
    requires GetDiaSemana(dia) !in medicos[medicoId].configuracoes.horarioAtendimento
          || medicos[medicoId].configuracoes.horarioAtendimento[GetDiaSemana(dia)] == []
    ensures Agenda(medicos, consultas, medicoId, dia) == Ok([])
  {
  }

  /**
   * Every offered slot has exactly the configured length, lies on the grid of
   * one of the day's periods, and is occupied by none of the doctor's
   * consultations that hold the calendar that day.
   */
  lemma AgendaSlotsAreFree(medicos: map<string, Medico>, consultas: seq<Consulta>, medicoId: string, dia: int,
                           s: Intervalo, c: Consulta)
    requires Agenda(medicos, consultas, medicoId, dia).Ok?
    requires s in Agenda(medicos, consultas, medicoId, dia).value
    requires c in consultas && Books(c, medicoId, dia)
    ensures medicoId in medicos
    ensures var d := DuracaoAsWritten(medicos[medicoId].configuracoes.duracaoConsulta);
      && d > 0
      && s.fim - s.inicio == d
      && (exists k :: 0 <= k < |ConfigDia(medicos[medicoId], dia)| &&
            OfferedBy(s, ConfigDia(medicos[medicoId], dia)[k], dia, d, Ocupacoes(consultas, medicoId, dia)))
    ensures !Ocupa(Ocupacao(c), s.inicio, s.fim)
  {
    var m := medicos[medicoId];
    var d := DuracaoAsWritten(m.configuracoes.duracaoConsulta);
    var occ := Ocupacoes(consultas, medicoId, dia);
    DaySlotsExactly(ConfigDia(m, dia), dia, d, occ, s);
    OcupacoesExactly(consultas, medicoId, dia, Ocupacao(c));
    var k :| 0 <= k < |occ| && occ[k] == Ocupacao(c);
  }

  /** Consultations that do not hold the calendar (cancelled, no-show, other doctors or days) change nothing. */
  lemma IgnoredConsultationChangesNothing(medicos: map<string, Medico>, consultas: seq<Consulta>,
                                          medicoId: string, dia: int, c: Consulta)
    requires !Books(c, medicoId, dia)
    ensures Agenda(medicos, consultas + [c], medicoId, dia) == Agenda(medicos, consultas, medicoId, dia)
  {
    OcupacoesAppend(consultas, [c], medicoId, dia);
    assert Ocupacoes([c], medicoId, dia) == [];
    assert Ocupacoes(consultas + [c], medicoId, dia) == Ocupacoes(consultas, medicoId, dia);
  }
}
