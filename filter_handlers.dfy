/** The filter-record updates of the two dashboard filter panels:
    src/components/Dashboard/FiltrosDashboard.tsx checks each new value against the
    allowed ones, src/components/Dashboard/DashboardFilters.tsx stores what it is given. */
module FilterHandlers {
  import opened Wrappers
  import opened Types
  import opened Seqs
  import opened DashboardPeriod

  const Periodos: set<string> := {"hoje", "semana", "mes", "personalizado"}
  const Statuses: set<string> := {Agendado, Concluido, NaoCompareceu}

  /** A filter record of the declared type: a known period, and no status or one of the
      three appointment statuses ('todos' is stored as no status). */
  predicate Valid(f: DashboardFilters) {
    f.periodo in Periodos && (f.status.None? || f.status.value in Statuses)
  }

  // ---------------------------------------------------------------- validated (FiltrosDashboard)

  /** A new period is taken only when it is one of the four; nothing else changes. */
  function HandlePeriodoChange(filters: DashboardFilters, periodo: string): (r: DashboardFilters)
    ensures r.status == filters.status && r.dataInicio == filters.dataInicio &&
            r.dataFim == filters.dataFim
    ensures r.periodo == (if periodo in Periodos then periodo else filters.periodo)
    ensures Valid(filters) ==> Valid(r)
  {
    if periodo in Periodos then filters.(periodo := periodo) else filters
  }

  /** 'todos' clears the status, a known status is stored, anything else is ignored;
      nothing else changes. */
  function HandleStatusChange(filters: DashboardFilters, status: string): (r: DashboardFilters)
    ensures r.periodo == filters.periodo && r.dataInicio == filters.dataInicio &&
            r.dataFim == filters.dataFim
    ensures status == "todos" ==> r.status.None?
    ensures status in Statuses ==> r.status == Some(status)
    ensures status != "todos" && status !in Statuses ==> r == filters
    ensures Valid(filters) ==> Valid(r)
  {
    if status in {"todos", Agendado, Concluido, NaoCompareceu} then
      filters.(status := if status == "todos" then None else Some(status))
    else filters
  }

  /** An empty date field clears the date, any other text is read as a date by `parse`
      (the platform's date parser). */
  function HandleDataInicioChange(filters: DashboardFilters, dataInicio: string,
                                  parse: string -> Timestamp): (r: DashboardFilters)
    ensures r.periodo == filters.periodo && r.status == filters.status && r.dataFim == filters.dataFim
    ensures r.dataInicio.None? <==> dataInicio == ""
    ensures dataInicio != "" ==> r.dataInicio == Some(parse(dataInicio))
    ensures Valid(filters) ==> Valid(r)
  {
    filters.(dataInicio := if dataInicio != "" then Some(parse(dataInicio)) else None)
  }

  function HandleDataFimChange(filters: DashboardFilters, dataFim: string,
                               parse: string -> Timestamp): (r: DashboardFilters)
    ensures r.periodo == filters.periodo && r.status == filters.status &&
            r.dataInicio == filters.dataInicio
    ensures r.dataFim.None? <==> dataFim == ""
    ensures dataFim != "" ==> r.dataFim == Some(parse(dataFim))
    ensures Valid(filters) ==> Valid(r)
  {
    filters.(dataFim := if dataFim != "" then Some(parse(dataFim)) else None)
  }

  // ---------------------------------------------------------------- unvalidated (DashboardFilters)

  /** A new period, whatever its text, and both dates cleared. */
  function HandlePeriodoChangeRaw(filters: DashboardFilters, periodo: string): (r: DashboardFilters)
    ensures r.periodo == periodo && r.status == filters.status
    ensures r.dataInicio.None? && r.dataFim.None?
  {
    filters.(periodo := periodo, dataInicio := None, dataFim := None)
  }

  /** The selected text stored as the status, including 'todos' and 'cancelado'. */
  function HandleStatusChangeRaw(filters: DashboardFilters, status: string): (r: DashboardFilters)
    ensures r.status == Some(status)
    ensures r.periodo == filters.periodo && r.dataInicio == filters.dataInicio &&
            r.dataFim == filters.dataFim
  {
    filters.(status := Some(status))
  }

  function HandleDataInicioChangeRaw(filters: DashboardFilters, date: Option<Timestamp>)
    : (r: DashboardFilters)
    ensures r.dataInicio == date
    ensures r.periodo == filters.periodo && r.status == filters.status && r.dataFim == filters.dataFim
  {
    filters.(dataInicio := date)
  }

  function HandleDataFimChangeRaw(filters: DashboardFilters, date: Option<Timestamp>)
    : (r: DashboardFilters)
    ensures r.dataFim == date
    ensures r.periodo == filters.periodo && r.status == filters.status &&
            r.dataInicio == filters.dataInicio
  {
    filters.(dataFim := date)
  }

  /** The unvalidated period handler agrees with the validated one on the four declared
      periods, except that it also clears both dates; from a record of the declared type
      it gives one exactly when the period is declared. */
  lemma RawPeriodoAgrees(filters: DashboardFilters, periodo: string)
    ensures periodo in Periodos ==>
              HandlePeriodoChangeRaw(filters, periodo)
              == HandlePeriodoChange(filters, periodo).(dataInicio := None, dataFim := None)
    ensures Valid(filters) ==>
              (Valid(HandlePeriodoChangeRaw(filters, periodo)) <==> periodo in Periodos)
  {
  }

  /** The unvalidated status handler agrees with the validated one on the three declared
      statuses; from a record of the declared type it gives one exactly for those. */
  lemma RawStatusAgrees(filters: DashboardFilters, status: string)
    ensures status in Statuses ==>
              HandleStatusChangeRaw(filters, status) == HandleStatusChange(filters, status)
    ensures Valid(filters) ==>
              (Valid(HandleStatusChangeRaw(filters, status)) <==> status in Statuses)
  {
  }

  /** Storing the date the text field reads (none for an empty field) is what the
      validated date handlers do; storing any date keeps a record of the declared type. */
  lemma RawDatesAgree(filters: DashboardFilters, texto: string, parse: string -> Timestamp,
                      date: Option<Timestamp>)
    ensures HandleDataInicioChangeRaw(filters, if texto != "" then Some(parse(texto)) else None)
            == HandleDataInicioChange(filters, texto, parse)
    ensures HandleDataFimChangeRaw(filters, if texto != "" then Some(parse(texto)) else None)
            == HandleDataFimChange(filters, texto, parse)
    ensures Valid(filters) ==>
              Valid(HandleDataInicioChangeRaw(filters, date)) &&
              Valid(HandleDataFimChangeRaw(filters, date))
  {
  }

  /** The unvalidated status handler leaves the declared type: 'cancelado', offered by
      that panel's selector, is stored, while the validated handler ignores it. */
  lemma CanceladoLeavesType(filters: DashboardFilters)
    requires Valid(filters)
    ensures !Valid(HandleStatusChangeRaw(filters, "cancelado"))
    ensures HandleStatusChange(filters, "cancelado") == filters
  {
  }

  /** With 'cancelado' stored, the cards keep only appointments whose status is
      'cancelado', so none of the appointments with one of the three statuses. */
  lemma CanceladoHidesAll(agendamentos: seq<Agendamento>, filters: DashboardFilters, clock: Clock)
    requires forall a :: a in agendamentos ==> a.status in Statuses
    ensures Filtrados(agendamentos, HandleStatusChangeRaw(filters, "cancelado"), clock) == []
  {
    var f := HandleStatusChangeRaw(filters, "cancelado");
    forall i | 0 <= i < |agendamentos| ensures !PassesFilter(agendamentos[i], f, clock) {
      assert agendamentos[i] in agendamentos;
    }
    FilterNone(agendamentos, a => PassesFilter(a, f, clock));
  }

  /** Storing 'todos' raw, as the unvalidated panel does, filters exactly like the
      validated panel's cleared status. */
  lemma {:induction false} TodosSameAsNone(agendamentos: seq<Agendamento>, filters: DashboardFilters,
                                           clock: Clock)
    ensures Filtrados(agendamentos, HandleStatusChangeRaw(filters, "todos"), clock) ==
            Filtrados(agendamentos, HandleStatusChange(filters, "todos"), clock)
  {
    var f1 := HandleStatusChangeRaw(filters, "todos");
    var f2 := HandleStatusChange(filters, "todos");
    forall a ensures PassesFilter(a, f1, clock) == PassesFilter(a, f2, clock) {
      TodosPasses(a, filters, clock);
    }
    FilterExt(agendamentos, a => PassesFilter(a, f1, clock), a => PassesFilter(a, f2, clock));
  }

  lemma TodosPasses(a: Agendamento, filters: DashboardFilters, clock: Clock)
    ensures PassesFilter(a, HandleStatusChangeRaw(filters, "todos"), clock) ==
            PassesFilter(a, HandleStatusChange(filters, "todos"), clock)
  {
  }
}
