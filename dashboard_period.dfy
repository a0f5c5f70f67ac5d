/** The status-and-period filter that the dashboard cards repeat word for word
    (src/components/Dashboard/DashboardKPIs.tsx, GraficoServicos.tsx,
    GraficoProfissionais.tsx and RankingFuncionarias.tsx). */
module DashboardPeriod {
  import opened Wrappers
  import opened Types
  import opened Seqs

  /** The status clause: a status filter that is set, non-empty and not 'todos' keeps
      only that status. */
  predicate StatusPasses(a: Agendamento, f: DashboardFilters) {
    !(f.status.Some? && f.status.value != "" && f.status.value != "todos" &&
      a.status != f.status.value)
  }

  /** The period clause for an appointment starting at `t`. 'hoje' keeps the calendar
      day of now; 'semana' and 'mes' keep the instants from 7 days or one month ago up
      to now, both ends included; 'personalizado' keeps the chosen range, ends
      included, or everything while a date is missing; any other period keeps
      everything. */
  predicate PeriodPasses(t: Timestamp, f: DashboardFilters, clock: Clock) {
    match f.periodo
    case "hoje" => Day(t) == Day(clock.now)
    case "semana" => clock.now - 7 * MsPerDay <= t <= clock.now
    case "mes" => clock.monthAgo <= t <= clock.now
    case "personalizado" =>
      if f.dataInicio.Some? && f.dataFim.Some? then f.dataInicio.value <= t <= f.dataFim.value
      else true
    case _ => true
  }

  predicate PassesFilter(a: Agendamento, f: DashboardFilters, clock: Clock) {
    StatusPasses(a, f) && PeriodPasses(a.dataHora, f, clock)
  }

  /** The appointments that pass, in list order. */
  function Filtrados(agendamentos: seq<Agendamento>, f: DashboardFilters, clock: Clock)
    : (r: seq<Agendamento>)
    ensures |r| <= |agendamentos|
    ensures forall a :: a in r <==> a in agendamentos && PassesFilter(a, f, clock)
  {
    var r := Filter(agendamentos, a => PassesFilter(a, f, clock));
    forall a | a in agendamentos && PassesFilter(a, f, clock) ensures a in r {
      var i :| 0 <= i < |agendamentos| && agendamentos[i] == a;
    }
    r
  }

  /** With a real status selected, every appointment kept has that status. */
  lemma StatusFilterExact(agendamentos: seq<Agendamento>, f: DashboardFilters, clock: Clock)
    requires f.status.Some? && f.status.value != "" && f.status.value != "todos"
    ensures forall a :: a in Filtrados(agendamentos, f, clock) ==> a.status == f.status.value
  {
  }

  /** With no status, an empty one or 'todos', and a period that does not restrict
      ('personalizado' with a date missing, or an unknown period), nothing is dropped. */
  lemma {:induction false} UnrestrictedKeepsAll(agendamentos: seq<Agendamento>,
                                               f: DashboardFilters, clock: Clock)
    requires f.status.None? || f.status.value == "" || f.status.value == "todos"
    requires (f.periodo == "personalizado" && (f.dataInicio.None? || f.dataFim.None?)) ||
             f.periodo !in {"hoje", "semana", "mes", "personalizado"}
    ensures Filtrados(agendamentos, f, clock) == agendamentos
  {
    FilterAll(agendamentos, a => PassesFilter(a, f, clock));
  }

  /** 'hoje' keeps the appointments of the current calendar day that pass the status
      clause, and nothing else. */
  lemma HojeKeepsToday(agendamentos: seq<Agendamento>, f: DashboardFilters, clock: Clock)
    requires f.periodo == "hoje"
    ensures forall a :: a in Filtrados(agendamentos, f, clock) <==>
              a in agendamentos && StatusPasses(a, f) && Day(a.dataHora) == Day(clock.now)
  {
  }

  /** The bounds are inclusive: an appointment exactly at either end of the 'semana'
      window, or of a custom range, is kept (when its status passes). */
  lemma BoundsInclusive(a: Agendamento, f: DashboardFilters, clock: Clock)
    requires StatusPasses(a, f)
    ensures f.periodo == "semana" &&
            (a.dataHora == clock.now - 7 * MsPerDay || a.dataHora == clock.now) ==>
              PassesFilter(a, f, clock)
    ensures f.periodo == "personalizado" && f.dataInicio.Some? && f.dataFim.Some? &&
            f.dataInicio.value <= f.dataFim.value &&
            (a.dataHora == f.dataInicio.value || a.dataHora == f.dataFim.value) ==>
              PassesFilter(a, f, clock)
  {
  }
}
