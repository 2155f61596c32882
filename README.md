# MediAgenda core, modelled in Dafny

MediAgenda is a clinic-booking web application: React screens over a Firestore
database. This project models its sequential logic, with the database, the
clock and React replaced by plain values.

- **Slot generator.** `MedicoService.getAgendaDisponibilidade` turns a doctor's
  working periods for the weekday into free slots of `duracaoConsulta`
  minutes. It drops every candidate that a booked consultation occupies.
- **Create and delete guards** of `PacienteService` and `MedicoService`:
  - a CPF an active patient of the same clinic already holds is refused;
  - a CRM an active doctor already holds is refused;
  - deletion is a soft delete, refused while future consultations exist.
- **Validators and formatters** for CPF (the modulo-11 check digits), phone,
  CEP and opening hours.
- **Report aggregation** of `RelatorioService`: general statistics, and
  counts by status, by doctor and by day.
- **Nested settings update** of `Configuracoes.updateConfig`, and the
  patient form's `handleInputChange`.
- **Screen logic:**
  - the three-step booking wizard of `AgendamentoModal`;
  - patient filtering and pagination;
  - the status label, colour and icon maps;
  - the notification list;
  - the age shown on a patient's page;
  - the role-based side menu;
  - the consultation record written on creation, confirmation and
    cancellation.

Conventions used throughout:

- Times are whole minutes. An absolute time is `day * 1440 + minute of the day`,
  in local time; day 0 is 1970-01-01, a Thursday.
- A status is a string, and the empty string stands for a missing status.
  Both are falsy in JavaScript.
- Money is an integer.
- Query results are sequences of records in collection order. The
  `pacientes` and `medicos` collections are maps from document id to record.
- Generated ids and the current time are parameters.

One module per file:

- `Common`: Option and Result, digits, split and join, ASCII lower case, filter,
  sublists.
- `Domain`: the records.
- `Availability`
- `Registry`
- `PatientSearch`
- `Formatters`
- `Validators`
- `Grouping`: generic group-by sums.
- `Reports`
- `Settings`
- `Wizard`
- `PatientList`
- `StatusMaps`
- `Notifications`
- `Age`
- `Menu`
- `ConsultaLifecycle`

Two behaviours of the code worth knowing before reading the model:

- **Occupancy.** The code's test is not the half-open overlap test. It checks
  whether the slot's start falls in `[a, b)` or its end in `(a, b]`, so a slot
  that strictly contains a shorter booking is still offered. `Availability.ShorterBookingInsideSlotIsAccepted` states this.
  `Availability.OccupiedIsOverlapForLongBookings` proves the two tests agree
  when no booking is shorter than the slot.
- **Dotted settings fields.** `updateConfig` uses only the first two segments
  of the field. The opening-hours editor passes three, so it replaces the
  whole day (Findings, row 1).

## Model

| member | source | states |
|---|---|---|
| Availability.GetDiaSemana | mediagenda-services-complete.js:384-387 | the weekday key is one of the seven names domingo..sabado |
| Availability.GetDiaSemanaWeekly | mediagenda-services-complete.js:384-387 | the weekday name repeats every seven days |
| Availability.GetDiaSemanaWeekDistinct | mediagenda-services-complete.js:384-387 | seven consecutive days get seven different names |
| Availability.OccupiedIsOverlapForLongBookings | mediagenda-services-complete.js:361-364 | when every booking is at least as long as the candidate, the as-written occupancy test holds iff some booking overlaps `[s, e)` |
| Availability.ShorterBookingInsideSlotIsAccepted | mediagenda-services-complete.js:361-364 | a 10-minute booking strictly inside a 30-minute candidate overlaps it, yet the candidate is not occupied and is offered |
| Availability.TouchingBookingsDoNotOccupy | mediagenda-services-complete.js:361-364 | bookings that only touch the candidate at an endpoint never occupy it |
| Availability.Ocupacoes | mediagenda-services-complete.js:323-338 | the booked intervals are at most as many as the consultations |
| Availability.OcupacoesExactly | mediagenda-services-complete.js:323-338 | an interval is booked iff it is `[dataHora, dataHora + duracao)` of a consultation of that doctor and day whose status is agendada or confirmada |
| Availability.OcupacoesAppend | mediagenda-services-complete.js:323-338 | the booked intervals of two lists of consultations are those of each list, in order |
| Availability.PeriodSlotsExactly | mediagenda-services-complete.js:354-375 | a period yields exactly the bookable slots: on the grid from the period start, of length `duracao`, inside the period, and not occupied |
| Availability.PeriodSlotsStartAfter | mediagenda-services-complete.js:354-375 | no slot starts before the cursor |
| Availability.PeriodSlotsSorted | mediagenda-services-complete.js:354-375 | a period's slots are in chronological order and pairwise disjoint |
| Availability.ShortPeriodIsEmpty | mediagenda-services-complete.js:356-359 | a period shorter than the duration, or an inverted one, contributes nothing |
| Availability.FreePeriodSlotCount | mediagenda-services-complete.js:354-375 | with nothing booked a period offers `(fim - inicio) / duracao` slots, so partial trailing slots are dropped |
| Availability.ExampleFreeHour | mediagenda-services-complete.js:354-375 | 09:00-10:00 with 30-minute appointments gives 09:00 and 09:30 |
| Availability.ExampleSecondHalfBooked | mediagenda-services-complete.js:354-375 | with 09:30-10:00 booked, only 09:00 is left |
| Availability.PeriodoSlotsExactly | mediagenda-services-complete.js:344-352 | a configured period of a day offers exactly its bookable slots, with "HH:MM" read as minutes |
| Availability.DaySlotsExactly | mediagenda-services-complete.js:344-375 | a day's slots are exactly those some configured period offers, period after period in configuration order |
| Availability.NegativeDurationNeverLeavesPeriod | mediagenda-services-complete.js:356-374 | with a negative duration the cursor never reaches the period end: the loop as written does not stop |
| Availability.NegativeDurationExample | mediagenda-services-complete.js:342 | the duration -15 survives the fallback to 30, and the cursor of an 08:00-09:00 period stays below 09:00 forever |
| Availability.DuracaoConsulta | mediagenda-services-complete.js:342 | unset or zero falls back to 30; a positive value is kept; a negative one is an error rather than a loop that never ends |
| Availability.GetAgendaDisponibilidade | mediagenda-services-complete.js:305-382 | the method's result equals the function `Agenda`: the unknown doctor and the negative duration are errors, and otherwise the day's slots in period order |
| Availability.SlotsDoPeriodo | mediagenda-services-complete.js:354-375 | the `while` loop over one period returns exactly that period's bookable slots in order |
| Availability.ClosedDayIsEmpty | mediagenda-services-complete.js:309-314 | a weekday with no configured periods gives an empty list, not an error |
| Availability.AgendaSlotsAreFree | mediagenda-services-complete.js:305-382 | every slot returned lies inside a configured period, has length `duracao`, and is not occupied by any consultation holding the calendar |
| Availability.IgnoredConsultationChangesNothing | mediagenda-services-complete.js:323-329 | consultations of other doctors or days, or not agendada or confirmada, do not change the result |
| Domain.ParseFormatHorario | mediagenda-services-complete.js:345-349 | reading "HH:MM" with `split(':').map(Number)` gives `h * 60 + m` |
| Registry.GetConsultasFuturas | mediagenda-services-complete.js:165-182 | the result is exactly the patient's agendada or confirmada consultations strictly after now |
| Registry.FuturasBloqueiamExclusao | mediagenda-services-complete.js:59-72 | the guard blocks iff some consultation of the patient is future and holds the calendar |
| Registry.InserirPacientePreservaCpfs | mediagenda-services-complete.js:24-45 | inserting a patient whose CPF passed the guard keeps active CPFs unique per clinic |
| Registry.InserirSemGuardaQuebraCpfs | mediagenda-services-complete.js:27-32 | without the guard a second active patient with that CPF breaks uniqueness |
| Registry.DesativarPacientePreservaCpfs | mediagenda-services-complete.js:59-72 | deactivating a patient keeps CPFs unique |
| Registry.InserirMedicoPreservaCrms | mediagenda-services-complete.js:225-244 | inserting a doctor whose CRM passed the guard keeps active CRMs unique |
| Registry.Registro.constructor | mediagenda-services-complete.js:24-45 | the tables start empty and unique |
| Registry.Registro.CriarPaciente | mediagenda-services-complete.js:24-45 | refused with CpfDuplicado iff the CPF is non-empty and held by an active patient of the same clinic; otherwise the record is written active under the new id, which is returned |
| Registry.Registro.CriarMedico | mediagenda-services-complete.js:225-244 | refused with CrmDuplicado iff an active doctor holds the CRM; otherwise the record is written active; the doctor table stays unique |
| Registry.Registro.DeletePaciente | mediagenda-services-complete.js:59-72 | refused while future consultations exist; a missing record is an error; otherwise only `ativo` (and its stamp) changes |
| PatientSearch.BuscarPacientesCorrect | mediagenda-services-complete.js:105-126 | the corrected search returns exactly the first ten patients, in name order, that match on name (case-insensitive), CPF or phone, or all of them when fewer match |
| PatientSearch.LimitBeforeFilterMissesMatch | mediagenda-services-complete.js:105-126 | with ten other patients sorted first, the search as written does not find the eleventh, "zeca" |
| PatientSearch.CorrectedSearchFindsMatch | mediagenda-services-complete.js:105-126 | the corrected search finds that patient |
| PatientSearch.AsWrittenAgreesForSmallClinics | mediagenda-services-complete.js:105-126 | with at most ten active patients, the code as written and the corrected search agree |
| Formatters.FormatCpfKeepsDigits | mediagenda-final-components.js:763-770 | the CPF formatter keeps exactly the first 11 digits of the input, in order |
| Formatters.FormatCpfShape | mediagenda-final-components.js:763-770 | with 11 or more digits the result is `ddd.ddd.ddd-dd` |
| Formatters.FormatCpfIdempotent | mediagenda-final-components.js:763-770 | formatting a formatted CPF changes nothing |
| Formatters.FormatPhoneKeepsDigits | mediagenda-final-components.js:773-780 | the phone formatter keeps exactly the first 11 digits |
| Formatters.FormatCepKeepsDigits | mediagenda-final-components.js:783-788 | the CEP formatter keeps exactly the first 8 digits |
| Formatters.FormatCepDash | mediagenda-final-components.js:783-788 | a dash appears iff the input has more than 5 digits |
| Formatters.FormatCepIdempotent | mediagenda-final-components.js:783-788 | formatting a formatted CEP changes nothing |
| Validators.DigitoVerificador | mediagenda-final-components.js:831-835 | the reference definition of a check digit, `(Σ d_i · weight_i) · 10 mod 11` with 10 mapped to 0, which the loops of `ValidarCpf` are proved against; its contract shows it is below 10 |
| Validators.ValidarCpf | mediagenda-final-components.js:823-848 | the loops of `validators.cpf` compute exactly `CpfValido`: digits only, exactly 11, not all equal, and both check digits match |
| Validators.CpfDependsOnlyOnDigits | mediagenda-final-components.js:826-828 | two inputs with the same digits get the same verdict |
| Validators.CpfIgnoresPunctuation | mediagenda-final-components.js:826 | inserting non-digits anywhere does not change the verdict |
| Validators.FormatCpfKeepsVerdict | mediagenda-final-components.js:763-770 | a CPF with at most 11 digits is valid iff its formatted form is |
| Validators.RepeatedDigitsRejected | mediagenda-final-components.js:829 | eleven identical digits are rejected |
| Validators.CompletarCpf | mediagenda-final-components.js:831-847 | appending the two computed check digits to nine digits gives eleven digits that start with them |
| Validators.CpfValidoIffCompletion | mediagenda-final-components.js:823-848 | an input is valid iff its digits are eleven, not all equal, and the check-digit completion of their first nine |
| Validators.CpfExampleValid | mediagenda-final-components.js:831-847 | 529.982.247-25 passes both check digits |
| Validators.CpfExampleInvalid | mediagenda-final-components.js:842-846 | 529.982.247-24 fails the second check digit |
| Validators.FormatPhoneValid | mediagenda-final-components.js:857-860 | a formatted phone is valid iff the input had at least 10 digits |
| Validators.FormatCepValid | mediagenda-final-components.js:863-866 | a formatted CEP is valid iff the input had at least 8 digits |
| Validators.PhoneCepIgnorePunctuation | mediagenda-final-components.js:857-866 | inserting non-digits does not change the phone or CEP verdict |
| Validators.ClosedDay | mediagenda-final-components.js:883-885 | a day with no entry, or a blank opening or closing time, is closed at every time |
| Validators.BusinessHoursWindow | mediagenda-final-components.js:877-896 | for "HH:MM" times, a day configured `inicio`-`fim` is open exactly from the opening minute to the closing minute, both included, whatever the other weekdays hold |
| Reports.EstatisticasGerais | mediagenda-final-components.js:30-39 | the total is the list length; each count is the number with that exact status; the five counts add up to at most the total; billing sums `valorConsulta` over realizada consultations only |
| Reports.ContagemPorStatus | mediagenda-final-components.js:32-36 | `filter(c => c.status === s).length` equals the number of consultations with status `s` |
| Reports.FaturamentoTotalSoma | mediagenda-final-components.js:37-39 | filtering realizada consultations with a value and summing equals summing the value of realizada consultations |
| Reports.CincoStatusAtMostTotal | mediagenda-final-components.js:30-36 | the five status counts add up to at most the list length |
| Reports.GetConsultasPorStatus | mediagenda-final-components.js:151-184 | the counting loop returns one slice per status in order of first appearance, labelled, and with a missing status counted as "indefinido" |
| Reports.PorStatusSomaTotal | mediagenda-final-components.js:163-167 | the slice values add up to the number of consultations |
| Reports.PorStatusIndefinido | mediagenda-final-components.js:165 | a consultation without a status gives an "indefinido" slice |
| Reports.PorStatusPositivo | mediagenda-final-components.js:163-167 | every slice counts at least one consultation |
| Reports.GetConsultasPorMedico | mediagenda-final-components.js:96-149 | the loop returns one summary per doctor in order of first appearance, with the doctor's name or "Médico não encontrado", and the total, realizada, cancelada and billing counts |
| Reports.PorMedicoParticiona | mediagenda-final-components.js:120-143 | the per-doctor totals add up to the number of consultations; the per-doctor billing adds up to the general billing; per doctor, realizadas + canceladas <= total |
| Reports.RealizadasCanceladasAtMostTotal | mediagenda-final-components.js:133-141 | per doctor, realizadas + canceladas <= total |
| Reports.MedicoInativoSemNome | mediagenda-final-components.js:121 | a doctor missing from the active doctors is named "Médico não encontrado" |
| Reports.GetConsultasPorDia | mediagenda-final-components.js:59-94 | the corrected loop returns one summary per day in order of first appearance, with the total and the realizada, cancelada and agendada counts |
| Reports.PorDiaParticiona | mediagenda-final-components.js:74-88 | the per-day totals add up to the number of consultations, and per day the three counts add up to at most the total |
| Reports.PorDiaAsWrittenMissesRealizada | mediagenda-final-components.js:76-87 | as written, a realizada consultation leaves `realizadas` at 0; the corrected count is 1 |
| Settings.GetSetPath | mediagenda-final-components.js:350-372 | after a nested spread update the path reads back the new value |
| Settings.SetPathKeepsOthers | mediagenda-final-components.js:350-372 | every path that diverges from the updated one reads what it read before |
| Settings.UpdateConfigFails | mediagenda-final-components.js:351-356 | a dotted field throws iff the section is missing, both as written and corrected |
| Settings.UpdateConfigFrame | mediagenda-final-components.js:350-372 | only that section changes; its field path reads the value; every diverging path and every other section is unchanged |
| Settings.UpdateConfigAsWrittenFrame | mediagenda-final-components.js:350-372 | as written, only the named section changes; the first two segments of the field hold the value and every diverging path reads as before; with three or more segments the full path reads inside the value itself, `undefined` for text |
| Settings.HandleInputChangeFrame | mediagenda-services-complete.js:492-508 | the patient form's update writes the value under the field's first two segments and reads it back; every diverging path is unchanged; it never fails, and a missing parent becomes `{ [child]: value }` |
| Settings.AsWrittenAgreesUpToTwoSegments | mediagenda-final-components.js:350-372 | with at most one '.', the code as written and the full-path update agree |
| Settings.CaminhoAsWritten | mediagenda-final-components.js:352 | the code uses one or two segments of the field |
| Settings.CaminhoHorario | mediagenda-final-components.js:472 | the opening-hours field splits into three segments |
| Settings.AsWrittenReplacesDay | mediagenda-final-components.js:350-372 | as written, editing a day's opening time replaces the day object by the text: the closing time reads as missing, and the day is closed at every time |
| Settings.UpdateConfigSetsOpeningTime | mediagenda-final-components.js:472-478 | the full-path update sets the opening time and keeps the closing time |
| Wizard.ErroAoAvancar | mediagenda-modals-components.js:80-101 | step 1 passes iff a patient is chosen or a new patient has a name; step 2 passes iff doctor, date and reason are filled; other steps pass; each failure has its own message |
| Wizard.Agendamento.constructor | mediagenda-modals-components.js:148-171 | the wizard starts at its defaults |
| Wizard.Agendamento.HandleNextStep | mediagenda-modals-components.js:80-101 | on a failed guard the step stays and the message is shown; otherwise the step advances by one and the error clears; the form is untouched, and steps 1..3 with earlier steps complete stay invariant |
| Wizard.Agendamento.HandlePrevStep | mediagenda-modals-components.js:103-106 | the step goes back by one and the error clears; the form is untouched |
| Wizard.Agendamento.ResetForm | mediagenda-modals-components.js:148-171 | every field returns to its default: step 1, duracao 30, tipoConsulta 'primeira-vez', sexo 'M', empty strings and lists |
| Wizard.Agendamento.SetPacientes | mediagenda-modals-components.js:61-71 | the search results replace the list shown and nothing else changes |
| Wizard.Agendamento.HandlePacienteSelect | mediagenda-modals-components.js:73-78 | the patient is selected, its id and name are taken, and the list closes |
| Wizard.Agendamento.EditarPaciente | mediagenda-modals-components.js:207-352 | the step 1 inputs set the search term, the new-patient flag and the new patient's data |
| Wizard.Agendamento.EditarDetalhes | mediagenda-modals-components.js:353-433 | the step 2 inputs set doctor, date, length, kind, reason and notes |
| PatientList.FilterPacientes | mediagenda-modals-components.js:955-970 | an empty term keeps the list and the page; otherwise the order-preserving sublist of exactly the matching patients, with the page reset to 1 |
| PatientList.FilterPacientesIdempotent | mediagenda-modals-components.js:955-970 | filtering the filtered list again changes nothing |
| PatientList.EmptyTermShortcutAgrees | mediagenda-modals-components.js:956-959 | the empty-term shortcut gives the same list the filter would |
| PatientList.PaginaAtual | mediagenda-modals-components.js:1002-1004 | the page shown has at most 10 items and is the slice starting at `(p - 1) * 10` |
| PatientList.TotalPages | mediagenda-modals-components.js:1005 | `ceil(n / 10)`: zero iff the list is empty, and the last page is the one holding the n-th item |
| PatientList.NavigationStaysInRange | mediagenda-modals-components.js:1133-1146 | previous and next clamp the page to 1..totalPages |
| PatientList.PagesCoverList | mediagenda-modals-components.js:1001-1005 | the pages 1..totalPages together are the whole list, in order |
| PatientList.PageBeyondLastIsEmpty | mediagenda-modals-components.js:1001-1005 | a page past the last one is empty |
| StatusMaps.ColoursAgree | mediagenda-modals-components.js:635-644 | the modal's colour map, the today list's colour switch and the badge colour agree on every status |
| StatusMaps.UnknownStatusFallsBack | mediagenda-modals-components.js:646-655 | an unknown status keeps its own label, in the modal and in the badge, and gets '#6c757d', '📋' and, on the calendar, '#3174ad' |
| StatusMaps.EventColorAgrees | mediagenda-react-components.js:513-532 | the calendar colour equals the status colour iff the status is known and not 'faltou' |
| StatusMaps.KnownStatusesAreDistinguished | mediagenda-auxiliary-components.js:54-74 | the five statuses have different labels, icons and colours, and only realizada is grey |
| Notifications.SemRemovesOnlyId | mediagenda-auxiliary-components.js:597-599 | removal keeps, in order, every entry with another id and none with that id |
| Notifications.SemAbsentId | mediagenda-auxiliary-components.js:597-599 | removing an absent id leaves the list unchanged |
| Notifications.AddThenRemove | mediagenda-auxiliary-components.js:588-599 | adding under a fresh id and then removing that id restores the list |
| Notifications.RemoveOtherKeeps | mediagenda-auxiliary-components.js:597-599 | removing another id keeps a notification |
| Notifications.NotificationProvider.constructor | mediagenda-auxiliary-components.js:586 | the list starts empty |
| Notifications.NotificationProvider.AddNotification | mediagenda-auxiliary-components.js:588-595 | exactly one entry is appended at the end, earlier entries untouched, and its id is returned |
| Notifications.NotificationProvider.RemoveNotification | mediagenda-auxiliary-components.js:597-599 | the list becomes the old list without that id |
| Notifications.NotificationProvider.Success | mediagenda-auxiliary-components.js:601-603 | appends a 'success' entry titled 'Sucesso' unless a title is given |
| Notifications.NotificationProvider.Error | mediagenda-auxiliary-components.js:605-607 | appends an 'error' entry titled 'Erro' by default |
| Notifications.NotificationProvider.Warning | mediagenda-auxiliary-components.js:609-611 | appends a 'warning' entry titled 'Atenção' by default |
| Notifications.NotificationProvider.Info | mediagenda-auxiliary-components.js:613-615 | appends an 'info' entry titled 'Informação' by default |
| Age.Idade | mediagenda-auxiliary-components.js:179-186 | the age is the number of whole years: its anniversary is on or before today, the next one is after |
| Age.AnosCompletosUnicos | mediagenda-auxiliary-components.js:179-186 | at most one number of years meets both conditions, so the age is determined |
| Age.CalcularIdade | mediagenda-auxiliary-components.js:176-189 | 'Não informado' iff no birth date is given; otherwise "<age> anos" with the age above |
| Age.BirthdayCounts | mediagenda-auxiliary-components.js:184 | on the birthday itself the year already counts |
| Menu.RestrictedProfilesSeeThree | mediagenda-react-components.js:197-203 | perfil 'medico' or 'recepcionista' sees exactly Dashboard, Agenda and Pacientes, in that order |
| Menu.OtherProfilesSeeAll | mediagenda-react-components.js:204 | every other profile, a missing one included, sees all five entries |
| Menu.MenuIsSublist | mediagenda-react-components.js:188-205 | the menu shown is an order-preserving sublist of the full menu and keeps Dashboard |
| ConsultaLifecycle.CriarConsultaRecord | mediagenda-react-components.js:712-736 | a new consultation is agendada whatever the input said, not sent or confirmed, with one history entry crediting its author, and every chosen field copied |
| ConsultaLifecycle.ConfirmarConsultaRecord | mediagenda-react-components.js:815-825 | confirming sets status confirmada, `confirmadoEm`, and `confirmadoPor` defaulting to 'recepcionista'; everything else is untouched but `atualizadoEm` |
| ConsultaLifecycle.CancelarConsultaRecord | mediagenda-react-components.js:827-836 | cancelling sets status cancelada and `motivoCancelamento`, defaulting to ''; everything else is untouched but `atualizadoEm` |
| ConsultaLifecycle.CalendarHolding | mediagenda-react-components.js:712-836 | created and confirmed consultations hold the calendar; cancelled ones do not |
| ConsultaLifecycle.CreatedConsultationTakesSlot | mediagenda-react-components.js:712-736 | once created, a consultation occupies no slot the availability then offers |
| ConsultaLifecycle.CancelledConsultationFreesSlot | mediagenda-react-components.js:827-836 | after cancelling, availability is as if the consultation had never been booked |
| ConsultaLifecycle.CreatedConsultationBlocksDeletion | mediagenda-react-components.js:712-736 | a newly created future consultation blocks deleting its patient; once cancelled it does not |

## Left out

- Firestore is left out: `addDoc`, `getDocs`, `query`/`where`/`orderBy`, `Timestamp`, and async/await. Query results are input sequences; the collections are in-memory maps; ids are parameters.
- Consistency and concurrency between two callers booking the same slot are left out. They belong to the storage layer.
- React is left out: rendering, hooks, the timing of `useEffect`, the `searchTerm.length > 2` trigger, and the notification close timers.
- The clock is left out: today, the weekday and the current minute are parameters.
- Time zones are not modelled. Days are local day numbers. `toISOString` groups per-day reports by UTC day; here the day is `dataHora / 1440`. A birth date `new Date("YYYY-MM-DD")` is read in UTC, which can shift the day by one; here it is a calendar triple.
- Floating point is left out: `taxaPresenca`, `taxaCancelamento` and `mediaConsultasPorDia`, `toFixed`, and currency formatting.
- `getFaturamento` is left out. Its grouping is by the UTC month and the sums are floating point.
- PDF and Excel export, `testarWhatsApp`, localStorage, login and logout are left out. All of them are I/O.
- The email regex is left out. Modelling it would mean modelling a regex engine.
- Regex chains are modelled by their digit-grouping effect, not by a regex engine.
- The JavaScript Number forms in "HH:MM" parsing are left out: a sign, spaces, decimal or exponent forms. Such a time reads as malformed here.
- Lower case is ASCII only. JavaScript's `toLowerCase` also folds other letters.
- `Object.values`/`Object.entries` put integer-like keys before the others, in ascending order. The reports here list keys in order of first appearance, which is the JavaScript order when no key is integer-like.
- Settings.Espalhar: spreading a string, a number or a boolean is modelled as the empty object. JavaScript spreads a string's characters under index keys.
- Reports.PorDiaAsWritten: it does not model the extra NaN-valued fields that the as-written counters create on each day record.
- `handleSubmit` of the booking wizard is left out. It composes the modelled creation with database calls. So are `atualizarPaciente` and the patient form's submit.
- Exceptions other than a missing settings section are left out: a TypeError on a missing `nome`, or on a field that is not a string.
- The notification payload is reduced to type, title and message.
- Availability.GetAgendaDisponibilidade: a negative duration is an error even on a day whose periods are all empty or inverted, where the code returns `[]` because its loop is never entered.
- No status precondition is modelled for confirming or cancelling, because the code checks none: any consultation can be confirmed or cancelled, a cancelled one included.

## Findings

| source | as written | input that shows it | evidently intended | confidence | as-written member | corrected member |
|---|---|---|---|---|---|---|
| mediagenda-final-components.js:350-372 | `updateConfig` uses only the first two segments of a dotted field. The opening-hours inputs (lines 472, 478) pass `horarioFuncionamento.<dia>.inicio`, so the day object is replaced by the typed text. | `updateConfig('geral', 'horarioFuncionamento.segunda.inicio', '09:00')` makes `horarioFuncionamento.segunda` the string '09:00'. Its `fim` is lost, and `businessHours` reports Monday as closed. | set `horarioFuncionamento.segunda.inicio` and keep `fim` | high, not executed | Settings.AsWrittenReplacesDay | Settings.UpdateConfigSetsOpeningTime |
| mediagenda-services-complete.js:105-126 | `buscarPacientes` fetches the first ten active patients by name (`limit(10)`) and filters those locally. | With eleven active patients, ten named "ana" and one named "zeca", searching "zeca" returns nothing. | the first ten patients that match | high, not executed | PatientSearch.LimitBeforeFilterMissesMatch | PatientSearch.BuscarPacientesCorrect |
| mediagenda-services-complete.js:342, 356-374 | The fallback `duracaoConsulta or 30` lets a negative duration through. The cursor then moves backwards, and the `while` loop never ends for any period with start before end. Only when every period is empty or inverted does the code still return `[]`; the corrected model reports the negative duration as an error in that case too. | `duracaoConsulta = -15` with a period 08:00-09:00: the cursor stays below 09:00 forever. | reject durations that are not positive | medium, not executed | Availability.NegativeDurationExample | Availability.DuracaoConsulta |
| mediagenda-final-components.js:76-87 | The per-day record initialises `realizadas`, `canceladas` and `agendadas`. The loop increments `[consulta.status]`, a singular key such as `realizada`, so the plural counters stay 0. | one realizada consultation: `realizadas` is 0 | count 1 under `realizadas` | high, not executed | Reports.PorDiaAsWrittenMissesRealizada | Reports.GetConsultasPorDia |
