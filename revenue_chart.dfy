/** The revenue line chart of src/components/Dashboard/GraficoFaturamento.tsx: a series
    of days chosen by the period filter, the revenue of the concluded appointments on
    each of those days, and the total and daily mean over the series. The status filter
    plays no part. */
module RevenueChart {
  import opened Wrappers
  import opened Types
  import opened Seqs
  import opened Ratios
  import opened Kpis

  /** Moving an instant by whole days moves its calendar day by as many days. */
  lemma DayShift(t: Timestamp, j: int)
    ensures Day(t + j * MsPerDay) == Day(t) + j
  {
    var q := Day(t);
    var r := t - q * MsPerDay;
    assert 0 <= r < MsPerDay;
    assert t + j * MsPerDay == (q + j) * MsPerDay + r;
  }

  // ---------------------------------------------------------------- the days

  /** The `n` days ending with `now`, oldest first: `now - (n-1) days`, ..., `now`. */
  function Ultimos(now: Timestamp, n: nat): (dias: seq<Timestamp>)
    ensures |dias| == n
    ensures forall k :: 0 <= k < n ==> Day(dias[k]) == Day(now) - (n - 1 - k)
    ensures n > 0 ==> dias[n - 1] == now
  {
    var dias := seq(n, k requires 0 <= k < n => now - (n - 1 - k) * MsPerDay);
    assert forall k :: 0 <= k < n ==> dias[k] == now + (-(n - 1 - k)) * MsPerDay;
    forall k | 0 <= k < n ensures Day(dias[k]) == Day(now) - (n - 1 - k) {
      DayShift(now, -(n - 1 - k));
    }
    dias
  }

  /** `n` consecutive days starting with `inicio`. */
  function APartirDe(inicio: Timestamp, n: nat): (dias: seq<Timestamp>)
    ensures |dias| == n
    ensures forall k :: 0 <= k < n ==> Day(dias[k]) == Day(inicio) + k
    ensures n > 0 ==> dias[0] == inicio
  {
    var dias := seq(n, k requires 0 <= k < n => inicio + k * MsPerDay);
    forall k | 0 <= k < n ensures Day(dias[k]) == Day(inicio) + k {
      DayShift(inicio, k);
    }
    dias
  }

  /** `Math.ceil(Math.abs(fim - inicio) / one day)`. */
  function DiffDays(inicio: Timestamp, fim: Timestamp): (d: nat)
    ensures (d - 1) * MsPerDay < (if fim >= inicio then fim - inicio else inicio - fim) <= d * MsPerDay
            || (d == 0 && fim == inicio)
  {
    var diff := if fim >= inicio then fim - inicio else inicio - fim;
    (diff + MsPerDay - 1) / MsPerDay
  }

  /** The days of the series: today alone for 'hoje', the last 7 or 30 days for 'semana'
      and 'mes', and for 'personalizado' with both dates the days from the start date
      counting as many whole-or-partial days as separate the two dates; nothing
      otherwise. */
  function SerieDias(f: DashboardFilters, now: Timestamp): seq<Timestamp> {
    match f.periodo
    case "hoje" => [now]
    case "semana" => Ultimos(now, 7)
    case "mes" => Ultimos(now, 30)
    case "personalizado" =>
      if f.dataInicio.Some? && f.dataFim.Some? then
        APartirDe(f.dataInicio.value, DiffDays(f.dataInicio.value, f.dataFim.value) + 1)
      else []
    case _ => []
  }

  /** The series has one day for 'hoje', 7 for 'semana' and 30 for 'mes', made of
      consecutive calendar days in ascending order and ending today; a custom period with
      both dates has one day more than the days between them, from the start date on; a
      custom period without both dates, or any other period, has none. */
  lemma SerieDiasShape(f: DashboardFilters, now: Timestamp)
    ensures var dias := SerieDias(f, now);
            var n := |dias|;
            (f.periodo == "hoje" ==> n == 1) &&
            (f.periodo == "semana" ==> n == 7) &&
            (f.periodo == "mes" ==> n == 30) &&
            (f.periodo in {"hoje", "semana", "mes"} ==>
               dias[n - 1] == now &&
               forall k :: 0 <= k < n ==> Day(dias[k]) == Day(now) - (n - 1 - k)) &&
            (f.periodo == "personalizado" && f.dataInicio.Some? && f.dataFim.Some? ==>
               n == DiffDays(f.dataInicio.value, f.dataFim.value) + 1 &&
               n >= 1 && dias[0] == f.dataInicio.value &&
               forall k :: 0 <= k < n ==> Day(dias[k]) == Day(f.dataInicio.value) + k) &&
            (f.periodo == "personalizado" && (f.dataInicio.None? || f.dataFim.None?) ==> n == 0) &&
            (f.periodo !in {"hoje", "semana", "mes", "personalizado"} ==> n == 0)
  {
  }

  /** `for (let i = n - 1; i >= 0; i--) dias.push(now - i days)`. */
  method PushUltimos(now: Timestamp, n: nat) returns (dias: seq<Timestamp>)
    ensures dias == Ultimos(now, n)
  {
    dias := [];
    var i: int := n - 1;
    while i >= 0
      invariant -1 <= i <= n - 1
      invariant |dias| == n - 1 - i
      invariant forall k :: 0 <= k < |dias| ==> dias[k] == now - (n - 1 - k) * MsPerDay
    {
      dias := dias + [now - i * MsPerDay];
      i := i - 1;
    }
  }

  /** `for (let i = 0; i <= diffDays; i++) dias.push(inicio + i days)`. */
  method PushAPartirDe(inicio: Timestamp, diffDays: nat) returns (dias: seq<Timestamp>)
    ensures dias == APartirDe(inicio, diffDays + 1)
  {
    dias := [];
    var i := 0;
    while i <= diffDays
      invariant 0 <= i <= diffDays + 1
      invariant |dias| == i
      invariant forall k :: 0 <= k < i ==> dias[k] == inicio + k * MsPerDay
    {
      dias := dias + [inicio + i * MsPerDay];
      i := i + 1;
    }
  }

  /** The `switch` that fills `dias`. */
  method DiasDoPeriodo(f: DashboardFilters, now: Timestamp) returns (dias: seq<Timestamp>)
    ensures dias == SerieDias(f, now)
  {
    dias := [];
    match f.periodo {
      case "hoje" =>
        dias := [now];
      case "semana" =>
        dias := PushUltimos(now, 7);
      case "mes" =>
        dias := PushUltimos(now, 30);
      case "personalizado" =>
        if f.dataInicio.Some? && f.dataFim.Some? {
          var inicio, fim := f.dataInicio.value, f.dataFim.value;
          var diffDays := DiffDays(inicio, fim);
          dias := PushAPartirDe(inicio, diffDays);
        }
      case _ =>
    }
  }

  // ---------------------------------------------------------------- revenue per day

  datatype Ponto = Ponto(dia: Timestamp, faturamento: real)

  /** Revenue of the concluded appointments on the calendar day of `dia`, filtering the
      concluded ones first and then the day, as the component does. */
  function FaturamentoDia(agendamentos: seq<Agendamento>, dia: Timestamp): real {
    SumBy(Filter(Concluidos(agendamentos), (a: Agendamento) => Day(a.dataHora) == Day(dia)), Preco)
  }

  function Pontos(agendamentos: seq<Agendamento>, dias: seq<Timestamp>): (pts: seq<Ponto>)
    ensures |pts| == |dias|
    ensures forall k :: 0 <= k < |dias| ==>
              pts[k].dia == dias[k] && pts[k].faturamento == FaturamentoDia(agendamentos, dias[k])
  {
    MapSeq(dias, dia => Ponto(dia, FaturamentoDia(agendamentos, dia)))
  }

  function ValorPonto(p: Ponto): real {
    p.faturamento
  }

  /** The chart: its points, the total over them and the mean per day of the series. */
  method GraficoFaturamento(agendamentos: seq<Agendamento>, f: DashboardFilters, now: Timestamp)
    returns (pts: seq<Ponto>, total: real, mediaDiaria: real)
    ensures pts == Pontos(agendamentos, SerieDias(f, now))
    ensures total == SumBy(pts, ValorPonto)
    ensures mediaDiaria == Mean(total, |SerieDias(f, now)|)
  {
    var dias := DiasDoPeriodo(f, now);
    pts := Pontos(agendamentos, dias);
    total := SumBy(pts, ValorPonto);
    mediaDiaria := Mean(total, |pts|);
  }

  // ---------------------------------------------------------------- reference

  function ConcludedBetween(lo: int, hi: int): Agendamento -> real {
    (a: Agendamento) => if a.status == Concluido && lo <= Day(a.dataHora) <= hi then a.preco else 0.0
  }

  /** Revenue of the concluded appointments of the calendar days `lo..hi`. */
  function RangeRevenue(agendamentos: seq<Agendamento>, lo: int, hi: int): real {
    SumBy(agendamentos, ConcludedBetween(lo, hi))
  }

  /** A day's value is the revenue of the concluded appointments of that day alone. */
  lemma FaturamentoDiaIsDayRevenue(agendamentos: seq<Agendamento>, dia: Timestamp)
    ensures FaturamentoDia(agendamentos, dia) == RangeRevenue(agendamentos, Day(dia), Day(dia))
  {
    var sameDay := (a: Agendamento) => Day(a.dataHora) == Day(dia);
    var both := (a: Agendamento) => IsConcluido(a) && sameDay(a);
    FilterFilter(agendamentos, IsConcluido, sameDay, both);
    SumByFilter(agendamentos, both, Preco, ConcludedBetween(Day(dia), Day(dia)));
  }

  lemma RangeSnoc(agendamentos: seq<Agendamento>, lo: int, hi: int)
    requires lo <= hi + 1
    ensures RangeRevenue(agendamentos, lo, hi + 1) ==
            RangeRevenue(agendamentos, lo, hi) + RangeRevenue(agendamentos, hi + 1, hi + 1)
  {
    SumByAdd(agendamentos, ConcludedBetween(lo, hi), ConcludedBetween(hi + 1, hi + 1),
             ConcludedBetween(lo, hi + 1));
  }

  /** Over consecutive days starting at day `lo`, the values add up to the revenue of the
      concluded appointments of those days: nothing is counted twice or missed. */
  lemma {:induction false} SeriesTotal(agendamentos: seq<Agendamento>, dias: seq<Timestamp>, lo: int)
    requires forall k :: 0 <= k < |dias| ==> Day(dias[k]) == lo + k
    ensures SumBy(Pontos(agendamentos, dias), ValorPonto) ==
            RangeRevenue(agendamentos, lo, lo + |dias| - 1)
  {
    var pts := Pontos(agendamentos, dias);
    if dias == [] {
      SumByZero(agendamentos, ConcludedBetween(lo, lo - 1));
    } else {
      var n := |dias|;
      assert pts[..n - 1] == Pontos(agendamentos, dias[..n - 1]);
      SeriesTotal(agendamentos, dias[..n - 1], lo);
      FaturamentoDiaIsDayRevenue(agendamentos, dias[n - 1]);
      RangeSnoc(agendamentos, lo, lo + n - 2);
    }
  }

  /** For 'semana' the chart's total is the revenue of the concluded appointments of the
      last 7 calendar days, today included; for 'mes', of the last 30. */
  lemma TotalIsRecentRevenue(agendamentos: seq<Agendamento>, f: DashboardFilters, now: Timestamp)
    requires f.periodo in {"hoje", "semana", "mes"}
    ensures var n := if f.periodo == "hoje" then 1 else if f.periodo == "semana" then 7 else 30;
            SumBy(Pontos(agendamentos, SerieDias(f, now)), ValorPonto) ==
            RangeRevenue(agendamentos, Day(now) - (n - 1), Day(now))
  {
    var n := if f.periodo == "hoje" then 1 else if f.periodo == "semana" then 7 else 30;
    SerieDiasShape(f, now);
    SeriesTotal(agendamentos, SerieDias(f, now), Day(now) - (n - 1));
  }

  /** The status filter does not change the chart. */
  lemma StatusIgnored(agendamentos: seq<Agendamento>, f: DashboardFilters, now: Timestamp,
                      status: Option<string>)
    ensures Pontos(agendamentos, SerieDias(f.(status := status), now)) ==
            Pontos(agendamentos, SerieDias(f, now))
  {
  }
}
