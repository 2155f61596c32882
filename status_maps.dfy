/**
 * The status presentation tables of the views: the colour and label maps of
 * the consultation details modal, the icon and colour switches of today's
 * list, the badge table of the patient page, and the calendar's event colour.
 */
module StatusMaps {
  import opened Domain

  const Amarelo: string := "#ffc107"
  const Verde: string := "#28a745"
  const Cinza: string := "#6c757d"
  const Vermelho: string := "#dc3545"
  const Laranja: string := "#fd7e14"
  const AzulCalendario: string := "#3174ad"

  /** One of the five statuses the application writes. */
  predicate Conhecido(status: string) {
    status == Agendada || status == Confirmada || status == Realizada || status == Cancelada || status == Faltou
  }

  /** `getStatusColor` of the details modal: `colors[status] || '#6c757d'`. */
  function CorStatus(status: string): string {
    if status == Agendada then Amarelo
    else if status == Confirmada then Verde
    else if status == Realizada then Cinza
    else if status == Cancelada then Vermelho
    else if status == Faltou then Laranja
    else Cinza
  }

  /** `getStatusLabel` of the details modal: `labels[status] || status`. */
  function RotuloStatus(status: string): string {
    if status == Agendada then "Agendada"
    else if status == Confirmada then "Confirmada"
    else if status == Realizada then "Realizada"
    else if status == Cancelada then "Cancelada"
    else if status == Faltou then "Paciente Faltou"
    else status
  }

  /** `getStatusIcon` of today's list. */
  function IconeStatus(status: string): string {
    if status == Confirmada then "✅"
    else if status == Agendada then "⏰"
    else if status == Realizada then "✔️"
    else if status == Cancelada then "❌"
    else if status == Faltou then "⚠️"
    else "📋"
  }

  /** `getStatusColor` of today's list, a `switch` with the default '#6c757d'. */
  function CorStatusHoje(status: string): string {
    if status == Confirmada then Verde
    else if status == Agendada then Amarelo
    else if status == Realizada then Cinza
    else if status == Cancelada then Vermelho
    else if status == Faltou then Laranja
    else Cinza
  }

  datatype Badge = Badge(cor: string, rotulo: string)

  /** `getStatusBadge` of the patient page: `statusConfig[status] || { color: '#6c757d', label: status }`. */
  function StatusBadge(status: string): Badge {
    if status == Agendada then Badge(Amarelo, "Agendada")
    else if status == Confirmada then Badge(Verde, "Confirmada")
    else if status == Realizada then Badge(Cinza, "Realizada")
    else if status == Cancelada then Badge(Vermelho, "Cancelada")
    else if status == Faltou then Badge(Laranja, "Faltou")
    else Badge(Cinza, status)
  }

  /** `eventStyleGetter`: the calendar colour, with '#3174ad' for every other status. */
  function EventColor(status: string): string {
    if status == Confirmada then Verde
    else if status == Agendada then Amarelo
    else if status == Cancelada then Vermelho
    else if status == Realizada then Cinza
    else AzulCalendario
  }

  /** The three views that colour a status agree on every status, known or not. */
  lemma ColoursAgree(status: string)
    ensures CorStatus(status) == CorStatusHoje(status) == StatusBadge(status).cor
  {
  }

  /** An unknown status keeps its own text as label and falls back to the neutral colour and icon. */
  lemma UnknownStatusFallsBack(status: string)
    requires !Conhecido(status)
    ensures RotuloStatus(status) == status && StatusBadge(status).rotulo == status
    ensures CorStatus(status) == Cinza && IconeStatus(status) == "📋"
    ensures EventColor(status) == AzulCalendario
  {
  }

  /** The calendar agrees with the other views except on 'faltou' and unknown statuses. */
  lemma EventColorAgrees(status: string)
    ensures EventColor(status) == CorStatus(status) <==> Conhecido(status) && status != Faltou
  {
  }

  /**
   * Two different known statuses get different labels, icons and colours;
   * 'realizada' shares its grey with the fallback of unknown statuses.
   */
  lemma KnownStatusesAreDistinguished(a: string, b: string)
    requires Conhecido(a) && Conhecido(b) && a != b
    ensures RotuloStatus(a) != RotuloStatus(b) && IconeStatus(a) != IconeStatus(b)
    ensures CorStatus(a) != CorStatus(b)
    ensures CorStatus(a) == Cinza <==> a == Realizada
  {
  }
}
