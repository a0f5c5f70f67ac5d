/** The management alerts of src/components/Dashboard/AlertasGestao.tsx: a list built by
    up to five conditional pushes, from the stock levels, today's appointments, the
    revenue of the last seven days, the no-show rate of the last thirty days and the most
    booked service of the last seven days. */
module Alerts {
  import opened Wrappers
  import opened Types
  import opened Seqs
  import opened Ratios
  import opened Tally
  import opened Kpis

  datatype Tipo = Success | Warning | Info

  /** One alert with the figures it displays. */
  datatype Alerta =
    | EstoqueBaixo(quantos: nat, nomes: seq<string>)
    | AgendamentosHoje(quantos: nat, pendentes: nat)
    | OtimaSemana(faturamento: real)
    | FaturamentoBaixo(faturamento: real)
    | AltaTaxaFaltas(taxa: real)
    | ServicoEmAlta(nome: string, agendamentos: nat)

  function TipoDe(a: Alerta): Tipo {
    match a
    case EstoqueBaixo(_, _) => Warning
    case AgendamentosHoje(_, _) => Info
    case OtimaSemana(_) => Success
    case FaturamentoBaixo(_) => Warning
    case AltaTaxaFaltas(_) => Warning
    case ServicoEmAlta(_, _) => Info
  }

  /** The block of the component that pushes the alert; the two revenue alerts come from
      the same `if`/`else if`. */
  function Bloco(a: Alerta): nat {
    match a
    case EstoqueBaixo(_, _) => 0
    case AgendamentosHoje(_, _) => 1
    case OtimaSemana(_) => 2
    case FaturamentoBaixo(_) => 2
    case AltaTaxaFaltas(_) => 3
    case ServicoEmAlta(_, _) => 4
  }

  // ---------------------------------------------------------------- the inputs of each alert

  predicate EstoqueBaixoDe(p: Produto) {
    p.quantidadeAtual <= p.estoqueMinimo
  }

  function NomeProduto(p: Produto): string {
    p.nome
  }

  function BaixoEstoque(produtos: seq<Produto>): seq<Produto> {
    Filter(produtos, EstoqueBaixoDe)
  }

  function DoDia(agendamentos: seq<Agendamento>, now: Timestamp): seq<Agendamento> {
    Filter(agendamentos, (a: Agendamento) => Day(a.dataHora) == Day(now))
  }

  function Pendentes(s: seq<Agendamento>): nat {
    Count(s, (a: Agendamento) => a.status == Agendado)
  }

  /** The appointments from `inicio` to `fim`, both ends included. */
  function NaJanela(agendamentos: seq<Agendamento>, inicio: Timestamp, fim: Timestamp)
    : seq<Agendamento>
  {
    Filter(agendamentos, (a: Agendamento) => inicio <= a.dataHora <= fim)
  }

  function Semana(agendamentos: seq<Agendamento>, now: Timestamp): seq<Agendamento> {
    NaJanela(agendamentos, now - 7 * MsPerDay, now)
  }

  function Ultimos30Dias(agendamentos: seq<Agendamento>, now: Timestamp): seq<Agendamento> {
    NaJanela(agendamentos, now - 30 * MsPerDay, now)
  }

  function FaturamentoSemana(agendamentos: seq<Agendamento>, now: Timestamp): real {
    Faturamento(Concluidos(Semana(agendamentos, now)))
  }

  predicate Faltou(a: Agendamento) {
    a.status == NaoCompareceu
  }

  /** The no-show rate of the last 30 days: the share of no-shows among that window's
      appointments, as a percentage, and 0 for an empty window. */
  function TaxaFaltas(agendamentos: seq<Agendamento>, now: Timestamp): (taxa: real)
    ensures |Ultimos30Dias(agendamentos, now)| == 0 ==> taxa == 0.0
    ensures 0.0 <= taxa <= 100.0
    ensures taxa == Percent(Count(Ultimos30Dias(agendamentos, now), Faltou),
                            |Ultimos30Dias(agendamentos, now)|)
  {
    var ultimos := Ultimos30Dias(agendamentos, now);
    var faltas := Count(ultimos, Faltou);
    CountMonotone(ultimos, Faltou, _ => true);
    FilterAll(ultimos, _ => true);
    Percent(faltas, |ultimos|)
  }

  // ---------------------------------------------------------------- most booked service

  function ServicoId(a: Agendamento): Option<string> {
    Some(a.servicoId)
  }

  function MenosAgendamentos(b: Bucket): real {
    -(b.total as real)
  }

  /** The first entry of the per-service counts sorted by count, highest first; among
      equal counts the service met first wins. */
  function MaisPopular(semana: seq<Agendamento>): Option<Bucket> {
    var ordenados := SortBy(GroupBy(semana, ServicoId), MenosAgendamentos);
    if ordenados == [] then None else Some(ordenados[0])
  }

  /** There is a most booked service iff there are appointments; it counts the
      appointments of its service id, and no service id has more. */
  lemma MaisPopularSpec(semana: seq<Agendamento>)
    ensures MaisPopular(semana).None? <==> semana == []
    ensures MaisPopular(semana).Some? ==>
              var b := MaisPopular(semana).value;
              b.total == Count(semana, InGroup(ServicoId, b.key)) &&
              forall a :: a in semana ==> Count(semana, InGroup(ServicoId, a.servicoId)) <= b.total
  {
    var grupos := GroupBy(semana, ServicoId);
    var ordenados := SortBy(grupos, MenosAgendamentos);
    GroupByKeys(semana, ServicoId);
    GroupByStats(semana, ServicoId);
    if semana != [] {
      assert ServicoId(semana[0]).Some?;
      assert HasKey(grupos, semana[0].servicoId);
      assert ordenados != [];
      var b := ordenados[0];
      assert b in multiset(grupos);
      SortedHeadLeast(ordenados, MenosAgendamentos);
      forall a | a in semana
        ensures Count(semana, InGroup(ServicoId, a.servicoId)) <= b.total
      {
        MaisPopularBeats(semana, a);
      }
    }
  }

  /** The head of the sorted counts has at least the count of any service id met. */
  lemma MaisPopularBeats(semana: seq<Agendamento>, a: Agendamento)
    requires a in semana
    ensures SortBy(GroupBy(semana, ServicoId), MenosAgendamentos) != []
    ensures Count(semana, InGroup(ServicoId, a.servicoId)) <=
            SortBy(GroupBy(semana, ServicoId), MenosAgendamentos)[0].total
  {
    var grupos := GroupBy(semana, ServicoId);
    var ordenados := SortBy(grupos, MenosAgendamentos);
    GroupByKeys(semana, ServicoId);
    GroupByStats(semana, ServicoId);
    var i :| 0 <= i < |semana| && semana[i] == a;
    assert ServicoId(semana[i]) == Some(a.servicoId);
    var j :| 0 <= j < |grupos| && grupos[j].key == a.servicoId;
    assert grupos[j] in multiset(ordenados);
    var k :| 0 <= k < |ordenados| && ordenados[k] == grupos[j];
    SortedHeadLeast(ordenados, MenosAgendamentos);
    assert MenosAgendamentos(ordenados[0]) <= MenosAgendamentos(ordenados[k]);
  }

  function ServicoDe(servicos: seq<Servico>, id: string): Option<Servico> {
    Find(servicos, (s: Servico) => s.id == id)
  }

  // ---------------------------------------------------------------- the list

  /** The figures an alert shows are the ones computed from the data. */
  predicate Coerente(x: Alerta, agendamentos: seq<Agendamento>, servicos: seq<Servico>,
                     produtos: seq<Produto>, now: Timestamp)
  {
    match x
    case EstoqueBaixo(quantos, nomes) =>
      quantos == |BaixoEstoque(produtos)| && nomes == MapSeq(BaixoEstoque(produtos), NomeProduto)
    case AgendamentosHoje(quantos, pendentes) =>
      quantos == |DoDia(agendamentos, now)| && pendentes == Pendentes(DoDia(agendamentos, now))
    case OtimaSemana(faturamento) => faturamento == FaturamentoSemana(agendamentos, now)
    case FaturamentoBaixo(faturamento) => faturamento == FaturamentoSemana(agendamentos, now)
    case AltaTaxaFaltas(taxa) => taxa == TaxaFaltas(agendamentos, now)
    case ServicoEmAlta(nome, quantos) =>
      MaisPopular(Semana(agendamentos, now)).Some? &&
      ServicoDe(servicos, MaisPopular(Semana(agendamentos, now)).value.key).Some? &&
      nome == ServicoDe(servicos, MaisPopular(Semana(agendamentos, now)).value.key).value.nome &&
      quantos == MaisPopular(Semana(agendamentos, now)).value.total
  }

  /** What one block pushes: nothing, or one alert of that block. */
  ghost predicate UmDoBloco(r: seq<Alerta>, k: nat) {
    |r| <= 1 && forall x :: x in r ==> Bloco(x) == k
  }

  function AlertaEstoque(produtos: seq<Produto>): (r: seq<Alerta>)
    ensures UmDoBloco(r, 0)
    ensures r != [] <==> |BaixoEstoque(produtos)| > 0
    ensures forall x :: x in r ==> x.EstoqueBaixo? && x.quantos == |BaixoEstoque(produtos)|
  {
    var baixo := BaixoEstoque(produtos);
    if |baixo| > 0 then [EstoqueBaixo(|baixo|, MapSeq(baixo, NomeProduto))] else []
  }

  function AlertaHoje(agendamentos: seq<Agendamento>, now: Timestamp): (r: seq<Alerta>)
    ensures UmDoBloco(r, 1)
    ensures r != [] <==> |DoDia(agendamentos, now)| > 0
    ensures forall x :: x in r ==> x.AgendamentosHoje? && x.pendentes <= x.quantos
  {
    var hoje := DoDia(agendamentos, now);
    CountMonotone(hoje, (a: Agendamento) => a.status == Agendado, _ => true);
    FilterAll(hoje, _ => true);
    if |hoje| > 0 then [AgendamentosHoje(|hoje|, Pendentes(hoje))] else []
  }

  /** The `if`/`else if` on the week's revenue: above 1000 a good week, below 300 a weak
      one, nothing in between. */
  function AlertaSemana(agendamentos: seq<Agendamento>, now: Timestamp): (r: seq<Alerta>)
    ensures UmDoBloco(r, 2)
    ensures r == [] <==> 300.0 <= FaturamentoSemana(agendamentos, now) <= 1000.0
    ensures forall x :: x in r ==>
              (x.OtimaSemana? <==> FaturamentoSemana(agendamentos, now) > 1000.0) &&
              (x.FaturamentoBaixo? <==> FaturamentoSemana(agendamentos, now) < 300.0)
  {
    var faturamentoSemana := FaturamentoSemana(agendamentos, now);
    if faturamentoSemana > 1000.0 then [OtimaSemana(faturamentoSemana)]
    else if faturamentoSemana < 300.0 then [FaturamentoBaixo(faturamentoSemana)]
    else []
  }

  function AlertaFaltas(agendamentos: seq<Agendamento>, now: Timestamp): (r: seq<Alerta>)
    ensures UmDoBloco(r, 3)
    ensures r != [] <==> TaxaFaltas(agendamentos, now) > 20.0
    ensures forall x :: x in r ==> x.AltaTaxaFaltas? && 20.0 < x.taxa <= 100.0
  {
    var taxa := TaxaFaltas(agendamentos, now);
    if taxa > 20.0 then [AltaTaxaFaltas(taxa)] else []
  }

  function AlertaPopular(agendamentos: seq<Agendamento>, servicos: seq<Servico>, now: Timestamp)
    : (r: seq<Alerta>)
    ensures UmDoBloco(r, 4)
    ensures r != [] <==>
              MaisPopular(Semana(agendamentos, now)).Some? &&
              ServicoDe(servicos, MaisPopular(Semana(agendamentos, now)).value.key).Some?
    ensures forall x :: x in r ==> x.ServicoEmAlta? && x.agendamentos >= 1
  {
    var maisPopular := MaisPopular(Semana(agendamentos, now));
    MaisPopularTotal(Semana(agendamentos, now));
    if maisPopular.Some? && ServicoDe(servicos, maisPopular.value.key).Some? then
      [ServicoEmAlta(ServicoDe(servicos, maisPopular.value.key).value.nome, maisPopular.value.total)]
    else []
  }

  lemma MaisPopularTotal(semana: seq<Agendamento>)
    ensures MaisPopular(semana).Some? ==> MaisPopular(semana).value.total >= 1
  {
    var grupos := GroupBy(semana, ServicoId);
    var ordenados := SortBy(grupos, MenosAgendamentos);
    GroupBySizes(semana, ServicoId);
    if ordenados != [] {
      assert ordenados[0] in multiset(grupos);
    }
  }

  /** The alerts in push order. */
  function Alertas(agendamentos: seq<Agendamento>, servicos: seq<Servico>,
                   produtos: seq<Produto>, now: Timestamp): seq<Alerta>
  {
    AlertaEstoque(produtos) + AlertaHoje(agendamentos, now) + AlertaSemana(agendamentos, now) +
    AlertaFaltas(agendamentos, now) + AlertaPopular(agendamentos, servicos, now)
  }

  /** The component's successive conditional pushes. */
  method AlertasGestao(agendamentos: seq<Agendamento>, servicos: seq<Servico>,
                       produtos: seq<Produto>, now: Timestamp) returns (alerts: seq<Alerta>)
    ensures alerts == Alertas(agendamentos, servicos, produtos, now)
  {
    alerts := [];
    var baixo := BaixoEstoque(produtos);
    if |baixo| > 0 {
      alerts := alerts + [EstoqueBaixo(|baixo|, MapSeq(baixo, NomeProduto))];
    }
    assert alerts == AlertaEstoque(produtos);
    var hoje := DoDia(agendamentos, now);
    if |hoje| > 0 {
      alerts := alerts + [AgendamentosHoje(|hoje|, Pendentes(hoje))];
    }
    assert alerts == AlertaEstoque(produtos) + AlertaHoje(agendamentos, now);
    alerts := PushSemanaFaltas(alerts, agendamentos, now);
    var maisPopular := MaisPopular(Semana(agendamentos, now));
    if maisPopular.Some? {
      var servico := ServicoDe(servicos, maisPopular.value.key);
      if servico.Some? {
        alerts := alerts + [ServicoEmAlta(servico.value.nome, maisPopular.value.total)];
      }
    }
  }

  /** The pushes of the revenue block and of the no-show block. */
  method PushSemanaFaltas(prefix: seq<Alerta>, agendamentos: seq<Agendamento>, now: Timestamp)
    returns (alerts: seq<Alerta>)
    ensures alerts == prefix + AlertaSemana(agendamentos, now) + AlertaFaltas(agendamentos, now)
  {
    alerts := prefix;
    var faturamentoSemana := FaturamentoSemana(agendamentos, now);
    if faturamentoSemana > 1000.0 {
      alerts := alerts + [OtimaSemana(faturamentoSemana)];
    } else if faturamentoSemana < 300.0 {
      alerts := alerts + [FaturamentoBaixo(faturamentoSemana)];
    }
    assert alerts == prefix + AlertaSemana(agendamentos, now);
    var taxa := TaxaFaltas(agendamentos, now);
    if taxa > 20.0 {
      alerts := alerts + [AltaTaxaFaltas(taxa)];
    }
  }

  ghost predicate BlocosCrescentes(r: seq<Alerta>) {
    forall i, j :: 0 <= i < j < |r| ==> Bloco(r[i]) < Bloco(r[j])
  }

  lemma PushBloco(r: seq<Alerta>, b: seq<Alerta>, k: nat)
    requires BlocosCrescentes(r) && (forall x :: x in r ==> Bloco(x) < k) && |r| <= k
    requires UmDoBloco(b, k)
    ensures BlocosCrescentes(r + b) && (forall x :: x in r + b ==> Bloco(x) < k + 1)
    ensures |r + b| <= k + 1
  {
    if b != [] {
      forall i, j | 0 <= i < j < |r + b| ensures Bloco((r + b)[i]) < Bloco((r + b)[j]) {
        if j == |r| {
          assert (r + b)[i] in r;
        }
      }
    }
  }

  /** At most five alerts, in the fixed order stock, today, week, no-shows, popular
      service, each block contributing at most one; every alert shows the figures computed
      from the data. */
  lemma AlertasOrder(agendamentos: seq<Agendamento>, servicos: seq<Servico>,
                     produtos: seq<Produto>, now: Timestamp)
    ensures var r := Alertas(agendamentos, servicos, produtos, now);
            |r| <= 5 && BlocosCrescentes(r)
  {
    var p0 := AlertaEstoque(produtos);
    var p1 := AlertaHoje(agendamentos, now);
    var p2 := AlertaSemana(agendamentos, now);
    var p3 := AlertaFaltas(agendamentos, now);
    var p4 := AlertaPopular(agendamentos, servicos, now);
    PushBloco([], p0, 0);
    assert [] + p0 == p0;
    PushBloco(p0, p1, 1);
    PushBloco(p0 + p1, p2, 2);
    PushBloco(p0 + p1 + p2, p3, 3);
    PushBloco(p0 + p1 + p2 + p3, p4, 4);
  }

  /** An alert of a kind that only block `k` pushes is in the list exactly when block
      `k` pushed one. */
  lemma PresentIffBlock(r: seq<Alerta>, p0: seq<Alerta>, p1: seq<Alerta>, p2: seq<Alerta>,
                        p3: seq<Alerta>, p4: seq<Alerta>, k: nat, kind: Alerta -> bool)
    requires k < 5
    requires r == p0 + p1 + p2 + p3 + p4
    requires UmDoBloco(p0, 0) && UmDoBloco(p1, 1) && UmDoBloco(p2, 2) && UmDoBloco(p3, 3) &&
             UmDoBloco(p4, 4)
    requires forall x :: kind(x) ==> Bloco(x) == k
    ensures (exists x :: x in r && kind(x)) <==> (exists x :: x in [p0, p1, p2, p3, p4][k] && kind(x))
  {
    var pk := [p0, p1, p2, p3, p4][k];
    if exists x :: x in r && kind(x) {
      var x :| x in r && kind(x);
      assert x in pk;
    }
  }

  /** The five blocks of the list, each pushing at most one alert of its own kind. */
  lemma Blocos(agendamentos: seq<Agendamento>, servicos: seq<Servico>,
               produtos: seq<Produto>, now: Timestamp)
    ensures Alertas(agendamentos, servicos, produtos, now) ==
            AlertaEstoque(produtos) + AlertaHoje(agendamentos, now) +
            AlertaSemana(agendamentos, now) + AlertaFaltas(agendamentos, now) +
            AlertaPopular(agendamentos, servicos, now)
    ensures UmDoBloco(AlertaEstoque(produtos), 0) && UmDoBloco(AlertaHoje(agendamentos, now), 1) &&
            UmDoBloco(AlertaSemana(agendamentos, now), 2) &&
            UmDoBloco(AlertaFaltas(agendamentos, now), 3) &&
            UmDoBloco(AlertaPopular(agendamentos, servicos, now), 4)
  {
  }

  /** A block of at most one alert has an alert of a kind iff it is non-empty and its
      alert is of that kind. */
  lemma KindInBlock(p: seq<Alerta>, k: nat, kind: Alerta -> bool)
    requires UmDoBloco(p, k)
    ensures (exists x :: x in p && kind(x)) <==> p != [] && kind(p[0])
  {
    if p != [] {
      assert p[0] in p;
    }
  }

  /** The low-stock alert is present exactly when some product is at or below its minimum,
      and the today alert exactly when there are appointments today. */
  lemma AlertasPresenceStockToday(agendamentos: seq<Agendamento>, servicos: seq<Servico>,
                                  produtos: seq<Produto>, now: Timestamp)
    ensures var r := Alertas(agendamentos, servicos, produtos, now);
            ((exists x :: x in r && x.EstoqueBaixo?) <==> |BaixoEstoque(produtos)| > 0) &&
            ((exists x :: x in r && x.AgendamentosHoje?) <==> |DoDia(agendamentos, now)| > 0)
  {
    Blocos(agendamentos, servicos, produtos, now);
    PresentIffBlock(Alertas(agendamentos, servicos, produtos, now), AlertaEstoque(produtos),
                    AlertaHoje(agendamentos, now), AlertaSemana(agendamentos, now),
                    AlertaFaltas(agendamentos, now), AlertaPopular(agendamentos, servicos, now),
                    0, (x: Alerta) => x.EstoqueBaixo?);
    PresentIffBlock(Alertas(agendamentos, servicos, produtos, now), AlertaEstoque(produtos),
                    AlertaHoje(agendamentos, now), AlertaSemana(agendamentos, now),
                    AlertaFaltas(agendamentos, now), AlertaPopular(agendamentos, servicos, now),
                    1, (x: Alerta) => x.AgendamentosHoje?);
    KindInBlock(AlertaEstoque(produtos), 0, (x: Alerta) => x.EstoqueBaixo?);
    KindInBlock(AlertaHoje(agendamentos, now), 1, (x: Alerta) => x.AgendamentosHoje?);
  }

  /** A good week is signalled exactly when the week's revenue is above 1000. */
  lemma AlertasPresenceGoodWeek(agendamentos: seq<Agendamento>, servicos: seq<Servico>,
                                produtos: seq<Produto>, now: Timestamp)
    ensures var r := Alertas(agendamentos, servicos, produtos, now);
            (exists x :: x in r && x.OtimaSemana?) <==> FaturamentoSemana(agendamentos, now) > 1000.0
  {
    Blocos(agendamentos, servicos, produtos, now);
    PresentIffBlock(Alertas(agendamentos, servicos, produtos, now), AlertaEstoque(produtos),
                    AlertaHoje(agendamentos, now), AlertaSemana(agendamentos, now),
                    AlertaFaltas(agendamentos, now), AlertaPopular(agendamentos, servicos, now),
                    2, (x: Alerta) => x.OtimaSemana?);
    SemanaKinds(agendamentos, now);
  }

  /** A weak week is signalled exactly when the week's revenue is below 300; with the
      lemma above, the two are never signalled together and nothing is said in
      between. */
  lemma AlertasPresenceWeakWeek(agendamentos: seq<Agendamento>, servicos: seq<Servico>,
                                produtos: seq<Produto>, now: Timestamp)
    ensures var r := Alertas(agendamentos, servicos, produtos, now);
            (exists x :: x in r && x.FaturamentoBaixo?) <==> FaturamentoSemana(agendamentos, now) < 300.0
  {
    Blocos(agendamentos, servicos, produtos, now);
    PresentIffBlock(Alertas(agendamentos, servicos, produtos, now), AlertaEstoque(produtos),
                    AlertaHoje(agendamentos, now), AlertaSemana(agendamentos, now),
                    AlertaFaltas(agendamentos, now), AlertaPopular(agendamentos, servicos, now),
                    2, (x: Alerta) => x.FaturamentoBaixo?);
    SemanaKinds(agendamentos, now);
  }

  lemma SemanaKinds(agendamentos: seq<Agendamento>, now: Timestamp)
    ensures var p := AlertaSemana(agendamentos, now);
            var fat := FaturamentoSemana(agendamentos, now);
            ((exists x :: x in p && x.OtimaSemana?) <==> fat > 1000.0) &&
            ((exists x :: x in p && x.FaturamentoBaixo?) <==> fat < 300.0)
  {
    var p := AlertaSemana(agendamentos, now);
    if p != [] {
      assert p[0] in p;
    }
  }

  /** The no-show alert is present exactly when the 30-day rate is above 20%. */
  lemma AlertasPresenceNoShow(agendamentos: seq<Agendamento>, servicos: seq<Servico>,
                              produtos: seq<Produto>, now: Timestamp)
    ensures var r := Alertas(agendamentos, servicos, produtos, now);
            (exists x :: x in r && x.AltaTaxaFaltas?) <==> TaxaFaltas(agendamentos, now) > 20.0
  {
    Blocos(agendamentos, servicos, produtos, now);
    PresentIffBlock(Alertas(agendamentos, servicos, produtos, now), AlertaEstoque(produtos),
                    AlertaHoje(agendamentos, now), AlertaSemana(agendamentos, now),
                    AlertaFaltas(agendamentos, now), AlertaPopular(agendamentos, servicos, now),
                    3, (x: Alerta) => x.AltaTaxaFaltas?);
    KindInBlock(AlertaFaltas(agendamentos, now), 3, (x: Alerta) => x.AltaTaxaFaltas?);
  }

  /** The popular-service alert is present exactly when the most booked service id of
      the week is in the catalogue. */
  lemma AlertasPresencePopular(agendamentos: seq<Agendamento>, servicos: seq<Servico>,
                               produtos: seq<Produto>, now: Timestamp)
    ensures var r := Alertas(agendamentos, servicos, produtos, now);
            (exists x :: x in r && x.ServicoEmAlta?) <==>
            MaisPopular(Semana(agendamentos, now)).Some? &&
            ServicoDe(servicos, MaisPopular(Semana(agendamentos, now)).value.key).Some?
  {
    Blocos(agendamentos, servicos, produtos, now);
    PresentIffBlock(Alertas(agendamentos, servicos, produtos, now), AlertaEstoque(produtos),
                    AlertaHoje(agendamentos, now), AlertaSemana(agendamentos, now),
                    AlertaFaltas(agendamentos, now), AlertaPopular(agendamentos, servicos, now),
                    4, (x: Alerta) => x.ServicoEmAlta?);
    PopularKind(agendamentos, servicos, now);
  }

  lemma PopularKind(agendamentos: seq<Agendamento>, servicos: seq<Servico>, now: Timestamp)
    ensures var p := AlertaPopular(agendamentos, servicos, now);
            (exists x :: x in p && x.ServicoEmAlta?) <==>
            MaisPopular(Semana(agendamentos, now)).Some? &&
            ServicoDe(servicos, MaisPopular(Semana(agendamentos, now)).value.key).Some?
  {
    var p := AlertaPopular(agendamentos, servicos, now);
    if p != [] {
      assert p[0] in p;
    }
  }

  /** Every alert shows the figures computed from the data. */
  lemma AlertasCoerentes(agendamentos: seq<Agendamento>, servicos: seq<Servico>,
                         produtos: seq<Produto>, now: Timestamp)
    ensures forall x :: x in Alertas(agendamentos, servicos, produtos, now) ==>
              Coerente(x, agendamentos, servicos, produtos, now)
  {
    var p0 := AlertaEstoque(produtos);
    var p1 := AlertaHoje(agendamentos, now);
    var p2 := AlertaSemana(agendamentos, now);
    var p3 := AlertaFaltas(agendamentos, now);
    var p4 := AlertaPopular(agendamentos, servicos, now);
    forall x | x in p0 + p1 + p2 + p3 + p4
      ensures Coerente(x, agendamentos, servicos, produtos, now)
    {
      if x in p0 {
        CoerenteEstoque(x, agendamentos, servicos, produtos, now);
      } else if x in p1 {
        CoerenteHoje(x, agendamentos, servicos, produtos, now);
      } else if x in p2 {
        CoerenteSemana(x, agendamentos, servicos, produtos, now);
      } else if x in p3 {
        CoerenteFaltas(x, agendamentos, servicos, produtos, now);
      } else {
        CoerentePopular(x, agendamentos, servicos, produtos, now);
      }
    }
  }

  lemma CoerenteEstoque(x: Alerta, agendamentos: seq<Agendamento>, servicos: seq<Servico>,
                        produtos: seq<Produto>, now: Timestamp)
    requires x in AlertaEstoque(produtos)
    ensures Coerente(x, agendamentos, servicos, produtos, now)
  {
  }

  lemma CoerenteHoje(x: Alerta, agendamentos: seq<Agendamento>, servicos: seq<Servico>,
                     produtos: seq<Produto>, now: Timestamp)
    requires x in AlertaHoje(agendamentos, now)
    ensures Coerente(x, agendamentos, servicos, produtos, now)
  {
  }

  lemma CoerenteSemana(x: Alerta, agendamentos: seq<Agendamento>, servicos: seq<Servico>,
                       produtos: seq<Produto>, now: Timestamp)
    requires x in AlertaSemana(agendamentos, now)
    ensures Coerente(x, agendamentos, servicos, produtos, now)
  {
  }

  lemma CoerenteFaltas(x: Alerta, agendamentos: seq<Agendamento>, servicos: seq<Servico>,
                       produtos: seq<Produto>, now: Timestamp)
    requires x in AlertaFaltas(agendamentos, now)
    ensures Coerente(x, agendamentos, servicos, produtos, now)
  {
  }

  lemma CoerentePopular(x: Alerta, agendamentos: seq<Agendamento>, servicos: seq<Servico>,
                        produtos: seq<Produto>, now: Timestamp)
    requires x in AlertaPopular(agendamentos, servicos, now)
    ensures Coerente(x, agendamentos, servicos, produtos, now)
  {
  }
}
