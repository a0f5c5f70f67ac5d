/** The purchase report of src/components/Estoque/RelatorioCompras.tsx: the window of
    dates a period selects, the purchase records inside it newest first, and the totals
    shown above the table. */
module PurchaseReport {
  import opened Wrappers
  import opened Types
  import opened Seqs
  import opened Ratios

  /** The start of a day is at or before `u` exactly when `u` is on that day or later;
      its last millisecond is at or after `u` exactly when `u` is on that day or before. */
  lemma DayBounds(x: Timestamp, u: Timestamp)
    ensures DayStart(x) <= u <==> Day(x) <= Day(u)
    ensures u <= DayStart(x) + MsPerDay - 1 <==> Day(u) <= Day(x)
  {
    var d, e := Day(x), Day(u);
    assert e * MsPerDay <= u < e * MsPerDay + MsPerDay;
    if e < d {
      assert e * MsPerDay + MsPerDay <= d * MsPerDay;
    }
    if d < e {
      assert d * MsPerDay + MsPerDay <= e * MsPerDay;
    }
  }

  lemma DayBoundsAll(x: Timestamp)
    ensures forall u :: DayStart(x) <= u <==> Day(x) <= Day(u)
    ensures forall u :: u <= DayStart(x) + MsPerDay - 1 <==> Day(u) <= Day(x)
  {
    forall u ensures DayStart(x) <= u <==> Day(x) <= Day(u) {
      DayBounds(x, u);
    }
    forall u ensures u <= DayStart(x) + MsPerDay - 1 <==> Day(u) <= Day(x) {
      DayBounds(x, u);
    }
  }

  /** The last millisecond of the day `t` falls on: `setHours(23, 59, 59, 999)`. */
  function FimDoDia(t: Timestamp): (r: Timestamp)
    ensures forall u :: u <= r <==> Day(u) <= Day(t)
  {
    DayBoundsAll(t);
    DayStart(t) + MsPerDay - 1
  }

  /** The dates the report keeps, for the selected period and the two date fields (""
      when empty; `parse` is the platform's date parser). 'hoje' is today from midnight
      to its last millisecond; 'semana' runs from 7 days before now, 'mes' from a month
      before now, to now; 'personalizado' with both fields runs from the start date to
      the end of the end date's day, and without them falls back to the last month. */
  function Janela(periodo: string, dataInicio: string, dataFim: string,
                  parse: string -> Timestamp, clock: Clock): (w: Window)
    ensures periodo == "hoje" ==>
              forall t :: InWindow(t, w) <==> Day(t) == Day(clock.now)
    ensures periodo == "semana" ==>
              forall t :: InWindow(t, w) <==> clock.now - 7 * MsPerDay <= t <= clock.now
    ensures periodo == "personalizado" && dataInicio != "" && dataFim != "" ==>
              forall t :: InWindow(t, w) <==> parse(dataInicio) <= t && Day(t) <= Day(parse(dataFim))
    ensures periodo != "hoje" && periodo != "semana" &&
            !(periodo == "personalizado" && dataInicio != "" && dataFim != "") ==>
              forall t :: InWindow(t, w) <==> clock.monthAgo <= t <= clock.now
  {
    match periodo
    case "hoje" =>
      DayBoundsAll(clock.now);
      Window(DayStart(clock.now), FimDoDia(clock.now))
    case "semana" => Window(clock.now - 7 * MsPerDay, clock.now)
    case "personalizado" =>
      if dataInicio != "" && dataFim != "" then Window(parse(dataInicio), FimDoDia(parse(dataFim)))
      else Window(clock.monthAgo, clock.now)
    case _ => Window(clock.monthAgo, clock.now)
  }

  function DataNegada(r: RegistroCompra): real {
    -(r.dataCompra as real)
  }

  /** The records inside the window, most recent purchase first. */
  function RegistrosFiltrados(registros: seq<RegistroCompra>, w: Window): (r: seq<RegistroCompra>)
    ensures multiset(r) == multiset(Filter(registros, (x: RegistroCompra) => InWindow(x.dataCompra, w)))
    ensures forall x :: x in r <==> x in registros && InWindow(x.dataCompra, w)
    ensures forall i, j :: 0 <= i < j < |r| ==> r[i].dataCompra >= r[j].dataCompra
  {
    var noPeriodo := Filter(registros, (x: RegistroCompra) => InWindow(x.dataCompra, w));
    var r := SortBy(noPeriodo, DataNegada);
    forall x ensures x in r <==> x in registros && InWindow(x.dataCompra, w) {
      SameMultisetSameElements(r, noPeriodo, x);
      if x in registros && InWindow(x.dataCompra, w) {
        var i :| 0 <= i < |registros| && registros[i] == x;
      }
    }
    r
  }

  datatype Estatisticas = Estatisticas(totalGasto: real, totalItens: real, numeroCompras: nat,
                                       ticketMedio: real)

  function ValorTotal(r: RegistroCompra): real {
    r.valorTotal
  }

  function Quantidade(r: RegistroCompra): real {
    r.quantidade
  }

  /** Money spent, units bought, number of purchases and the mean per purchase (0 with
      no purchase). */
  function EstatisticasDe(registros: seq<RegistroCompra>): (e: Estatisticas)
    ensures e.numeroCompras == |registros|
    ensures e.ticketMedio == Mean(e.totalGasto, e.numeroCompras)
    ensures registros == [] ==> e == Estatisticas(0.0, 0.0, 0, 0.0)
  {
    var total := SumBy(registros, ValorTotal);
    Estatisticas(total, SumBy(registros, Quantidade), |registros|, Mean(total, |registros|))
  }

  /** Purchases of non-negative value give a non-negative total and mean. */
  lemma EstatisticasNonNegative(registros: seq<RegistroCompra>)
    requires forall i :: 0 <= i < |registros| ==> registros[i].valorTotal >= 0.0
    ensures EstatisticasDe(registros).totalGasto >= 0.0
    ensures EstatisticasDe(registros).ticketMedio >= 0.0
  {
    SumByNonNegative(registros, ValorTotal);
  }

  /** The report of the records inside a window. */
  function Relatorio(registros: seq<RegistroCompra>, w: Window): (seq<RegistroCompra>, Estatisticas) {
    var lista := RegistrosFiltrados(registros, w);
    (lista, EstatisticasDe(lista))
  }

  function GastoNaJanela(w: Window): RegistroCompra -> real {
    (x: RegistroCompra) => if InWindow(x.dataCompra, w) then x.valorTotal else 0.0
  }

  function ItensNaJanela(w: Window): RegistroCompra -> real {
    (x: RegistroCompra) => if InWindow(x.dataCompra, w) then x.quantidade else 0.0
  }

  /** The totals are those of all records inside the window, whatever their order: the
      money and units of every record dated in the window and of no other, and the count
      of such records. */
  lemma {:induction false} RelatorioTotals(registros: seq<RegistroCompra>, w: Window)
    ensures var (lista, e) := Relatorio(registros, w);
            e.totalGasto == SumBy(registros, GastoNaJanela(w)) &&
            e.totalItens == SumBy(registros, ItensNaJanela(w)) &&
            e.numeroCompras == Count(registros, (x: RegistroCompra) => InWindow(x.dataCompra, w))
  {
    var p := (x: RegistroCompra) => InWindow(x.dataCompra, w);
    var noPeriodo := Filter(registros, p);
    SumBySort(noPeriodo, DataNegada, ValorTotal);
    SumBySort(noPeriodo, DataNegada, Quantidade);
    SumByFilter(registros, p, ValorTotal, GastoNaJanela(w));
    SumByFilter(registros, p, Quantidade, ItensNaJanela(w));
  }
}
