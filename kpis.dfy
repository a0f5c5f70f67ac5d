/** The indicator cards of src/components/Dashboard/DashboardKPIs.tsx: revenue, mean
    ticket and attendance rate of the filtered appointments, and their change against
    the previous period. */
module Kpis {
  import opened Wrappers
  import opened Types
  import opened Seqs
  import opened Ratios
  import opened DashboardPeriod

  predicate IsConcluido(a: Agendamento) {
    a.status == Concluido
  }

  function Preco(a: Agendamento): real {
    a.preco
  }

  function Concluidos(s: seq<Agendamento>): seq<Agendamento> {
    Filter(s, IsConcluido)
  }

  /** Revenue: the sum of the prices of the given appointments. */
  function Faturamento(s: seq<Agendamento>): real {
    SumBy(s, Preco)
  }

  /** The concluded appointments are exactly the filtered ones with status 'concluido';
      with prices that are not negative, revenue is not negative. */
  lemma ConcluidosSpec(s: seq<Agendamento>)
    ensures |Concluidos(s)| <= |s|
    ensures forall a :: a in Concluidos(s) <==> a in s && IsConcluido(a)
    ensures (forall i :: 0 <= i < |s| ==> s[i].preco >= 0.0) ==> Faturamento(Concluidos(s)) >= 0.0
  {
    forall a | a in s && IsConcluido(a) ensures a in Concluidos(s) {
      var i :| 0 <= i < |s| && s[i] == a;
    }
    if forall i :: 0 <= i < |s| ==> s[i].preco >= 0.0 {
      var c := Concluidos(s);
      forall i | 0 <= i < |c| ensures Preco(c[i]) >= 0.0 {
        var j :| 0 <= j < |s| && s[j] == c[i];
      }
      SumByNonNegative(c, Preco);
    }
  }

  // ---------------------------------------------------------------- previous period

  /** The comparison window as the component computes it. For 'hoje' both ends are set to
      the same instant one day before now. */
  function PeriodoAnteriorAsWritten(periodo: string, clock: Clock): Option<Window> {
    match periodo
    case "hoje" => Some(Window(clock.now - MsPerDay, clock.now - MsPerDay))
    case "semana" => Some(Window(clock.now - 14 * MsPerDay, clock.now - 7 * MsPerDay))
    case "mes" => Some(Window(clock.twoMonthsAgo, clock.monthAgo))
    case _ => None
  }

  /** As written, the 'hoje' comparison window holds a single instant, so yesterday's
      concluded appointments are counted only if one started exactly 24 hours ago. */
  lemma HojePreviousWindowIsInstant(clock: Clock)
    ensures PeriodoAnteriorAsWritten("hoje", clock).Some?
    ensures forall t :: InWindow(t, PeriodoAnteriorAsWritten("hoje", clock).value) <==>
                          t == clock.now - MsPerDay
  {
  }

  /** The comparison window with 'hoje' read as the whole of yesterday. */
  function PeriodoAnterior(periodo: string, clock: Clock): (w: Option<Window>)
    ensures w.Some? <==> periodo in {"hoje", "semana", "mes"}
    ensures periodo != "hoje" ==> w == PeriodoAnteriorAsWritten(periodo, clock)
  {
    match periodo
    case "hoje" => Some(Window(DayStart(clock.now) - MsPerDay, DayStart(clock.now) - 1))
    case _ => PeriodoAnteriorAsWritten(periodo, clock)
  }

  /** The corrected 'hoje' window is the calendar day before today. */
  lemma PeriodoAnteriorHojeIsYesterday(clock: Clock, t: Timestamp)
    ensures InWindow(t, PeriodoAnterior("hoje", clock).value) <==> Day(t) == Day(clock.now) - 1
  {
    var d := Day(clock.now);
    assert DayStart(clock.now) == d * MsPerDay;
    assert d * MsPerDay - MsPerDay == (d - 1) * MsPerDay;
  }

  /** The concluded appointments of the whole list inside a comparison window. */
  function Anteriores(agendamentos: seq<Agendamento>, w: Window): seq<Agendamento> {
    Filter(agendamentos, a => IsConcluido(a) && InWindow(a.dataHora, w))
  }

  // ---------------------------------------------------------------- the cards

  datatype KpiSummary = KpiSummary(
    totalAgendamentos: nat, agendamentosConcluidos: nat, faturamentoTotal: real,
    ticketMedio: real, taxaComparecimento: real, faturamentoAnterior: real,
    agendamentosAnterior: nat, variacaoFaturamento: real, variacaoAgendamentos: real)

  /** The cards for the filter `f`, comparing with `janela` as the previous period. */
  function KpisFor(agendamentos: seq<Agendamento>, f: DashboardFilters, clock: Clock,
                   janela: Option<Window>): (k: KpiSummary)
    ensures k.totalAgendamentos == |Filtrados(agendamentos, f, clock)|
    ensures k.agendamentosConcluidos == |Concluidos(Filtrados(agendamentos, f, clock))|
    ensures k.agendamentosConcluidos <= k.totalAgendamentos
    ensures k.faturamentoTotal == Faturamento(Concluidos(Filtrados(agendamentos, f, clock)))
    ensures k.agendamentosConcluidos == 0 ==> k.ticketMedio == 0.0
    ensures k.ticketMedio == Mean(k.faturamentoTotal, k.agendamentosConcluidos)
    ensures k.totalAgendamentos == 0 ==> k.taxaComparecimento == 0.0
    ensures 0.0 <= k.taxaComparecimento <= 100.0
    ensures k.taxaComparecimento == Percent(k.agendamentosConcluidos, k.totalAgendamentos)
    ensures janela.None? ==> k.faturamentoAnterior == 0.0 && k.agendamentosAnterior == 0
    ensures janela.Some? ==>
              k.faturamentoAnterior == Faturamento(Anteriores(agendamentos, janela.value)) &&
              k.agendamentosAnterior == |Anteriores(agendamentos, janela.value)|
    ensures k.faturamentoAnterior <= 0.0 ==> k.variacaoFaturamento == 0.0
    ensures k.agendamentosAnterior == 0 ==> k.variacaoAgendamentos == 0.0
    ensures k.variacaoFaturamento == Variation(k.faturamentoTotal, k.faturamentoAnterior)
    ensures k.variacaoAgendamentos ==
              Variation(k.agendamentosConcluidos as real, k.agendamentosAnterior as real)
    ensures k.faturamentoAnterior > 0.0 ==>
              (k.variacaoFaturamento > 0.0 <==> k.faturamentoTotal > k.faturamentoAnterior)
  {
    var filtrados := Filtrados(agendamentos, f, clock);
    var concluidos := Concluidos(filtrados);
    var faturamento := Faturamento(concluidos);
    var anteriores := if janela.Some? then Anteriores(agendamentos, janela.value) else [];
    var faturamentoAnterior := if janela.Some? then Faturamento(anteriores) else 0.0;
    var agendamentosAnterior := if janela.Some? then |anteriores| else 0;
    KpiSummary(
      |filtrados|, |concluidos|, faturamento, Mean(faturamento, |concluidos|),
      Percent(|concluidos|, |filtrados|), faturamentoAnterior, agendamentosAnterior,
      Variation(faturamento, faturamentoAnterior),
      Variation(|concluidos| as real, agendamentosAnterior as real))
  }

  /** The cards as the component computes them. */
  function DashboardKpisAsWritten(agendamentos: seq<Agendamento>, f: DashboardFilters,
                                  clock: Clock): KpiSummary
  {
    KpisFor(agendamentos, f, clock, PeriodoAnteriorAsWritten(f.periodo, clock))
  }

  /** The cards with yesterday as the previous period of 'hoje'. */
  function DashboardKpis(agendamentos: seq<Agendamento>, f: DashboardFilters, clock: Clock)
    : (k: KpiSummary)
    ensures f.periodo !in {"hoje", "semana", "mes"} ==>
              k.variacaoFaturamento == 0.0 && k.variacaoAgendamentos == 0.0
    ensures f.periodo != "hoje" ==> k == DashboardKpisAsWritten(agendamentos, f, clock)
  {
    KpisFor(agendamentos, f, clock, PeriodoAnterior(f.periodo, clock))
  }

  /** One concluded appointment yesterday at 10:00, seen today at 15:00 with the 'hoje'
      filter: the component's comparison misses it, the whole-day window counts it. */
  lemma HojeComparisonMissesYesterday()
    ensures var clock := Clock(10 * MsPerDay + 15 * 3_600_000, 0, 0);
            var ontem := Agendamento("a", "Ana", "55", "f", "s", 100.0, 60,
                                     9 * MsPerDay + 10 * 3_600_000, "#fff", None, Concluido);
            var f := DashboardFilters("hoje", None, None, None);
            DashboardKpisAsWritten([ontem], f, clock).faturamentoAnterior == 0.0 &&
            DashboardKpis([ontem], f, clock).faturamentoAnterior == 100.0
  {
    var clock := Clock(10 * MsPerDay + 15 * 3_600_000, 0, 0);
    var ontem := Agendamento("a", "Ana", "55", "f", "s", 100.0, 60,
                             9 * MsPerDay + 10 * 3_600_000, "#fff", None, Concluido);
    assert Anteriores([ontem], PeriodoAnteriorAsWritten("hoje", clock).value) == [];
    assert DayStart(clock.now) == 10 * MsPerDay;
    assert Anteriores([ontem], PeriodoAnterior("hoje", clock).value) == [ontem];
  }
}
