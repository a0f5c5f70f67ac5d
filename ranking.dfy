/** The staff ranking of src/components/Dashboard/RankingFuncionarias.tsx: the filtered
    appointments are folded per staff id into performance records, the ticket and rate
    are filled in, and the records are ordered by revenue. */
module Ranking {
  import opened Wrappers
  import opened Types
  import opened Seqs
  import opened Ratios
  import opened DashboardPeriod
  import opened Tally

  datatype Perf = Perf(funcionariaId: string, nome: string, cargo: string, agendamentos: nat,
                       concluidos: nat, faturamento: real, ticketMedio: real,
                       taxaComparecimento: real)

  function FuncionariaDe(funcionarias: seq<Funcionaria>, id: string): Option<Funcionaria> {
    Find(funcionarias, (x: Funcionaria) => x.id == id)
  }

  /** Appointments whose staff id is unknown are skipped; the others are grouped by their
      staff id. */
  function StaffKey(funcionarias: seq<Funcionaria>): Agendamento -> Option<string> {
    (a: Agendamento) => if FuncionariaDe(funcionarias, a.funcionariaId).Some? then Some(a.funcionariaId) else None
  }

  /** The record of one group, with `concluidos` as the concluded count behind its ticket
      and rate. Name and role come from the staff record of the group's id. */
  function PerfOf(funcionarias: seq<Funcionaria>, b: Bucket, concluidos: nat): Perf {
    var quem := match FuncionariaDe(funcionarias, b.key)
                case Some(x) => x
                case None => Funcionaria(b.key, "", "", false);
    Perf(b.key, quem.nome, quem.cargo, b.total, concluidos, b.faturamento,
         Mean(b.faturamento, concluidos), Percent(concluidos, b.total))
  }

  function NegFaturamento(p: Perf): real {
    -p.faturamento
  }

  // ---------------------------------------------------------------- as written

  /** The concluded count the component uses for every record: it compares the id of the
      first staff member with the record's name against the id of the first staff member
      who has any concluded appointment in the whole list. The comparison does not depend
      on the appointment being counted, so the count is either every filtered concluded
      appointment or none. */
  function ConcluidosAsWritten(agendamentos: seq<Agendamento>, funcionarias: seq<Funcionaria>,
                               filtrados: seq<Agendamento>, nome: string): nat
  {
    var porNome := Find(funcionarias, (x: Funcionaria) => x.nome == nome);
    var comConcluido := Find(funcionarias, (x: Funcionaria) =>
      Find(agendamentos, (ag: Agendamento) => ag.funcionariaId == x.id && ag.status == Concluido).Some?);
    var esquerda := if porNome.Some? then Some(porNome.value.id) else None;
    var direita := if comConcluido.Some? then Some(comConcluido.value.id) else None;
    if esquerda == direita then Count(filtrados, (a: Agendamento) => a.status == Concluido) else 0
  }

  function EntriesAsWritten(agendamentos: seq<Agendamento>, funcionarias: seq<Funcionaria>,
                            f: DashboardFilters, clock: Clock): seq<Perf>
  {
    var filtrados := Filtrados(agendamentos, f, clock);
    var grupos := GroupBy(filtrados, StaffKey(funcionarias));
    MapSeq(grupos, (b: Bucket) =>
      var q := PerfOf(funcionarias, b, 0);
      PerfOf(funcionarias, b, ConcluidosAsWritten(agendamentos, funcionarias, filtrados, q.nome)))
  }

  /** The example of the finding: two staff members with one concluded appointment
      each, every filter open. */
  const Ana := Funcionaria("1", "Ana", "Manicure", false)
  const Bia := Funcionaria("2", "Bia", "Cabeleireira", false)
  const AgAna := Agendamento("a1", "Carla", "55", "1", "s", 100.0, 60, 0, "#fff", None, Concluido)
  const AgBia := Agendamento("a2", "Dora", "55", "2", "s", 50.0, 60, 0, "#fff", None, Concluido)

  lemma ExemploGrupos()
    ensures GroupBy([AgAna, AgBia], StaffKey([Ana, Bia])) ==
            [Bucket("1", 1, 1, 100.0), Bucket("2", 1, 1, 50.0)]
  {
    var s := [AgAna, AgBia];
    var key := StaffKey([Ana, Bia]);
    assert [Ana, Bia][0].id == "1";
    assert [Ana, Bia][1].id == "2";
    assert key(AgAna) == Some("1");
    assert key(AgBia) == Some("2");
    assert s[..1] == [AgAna];
    assert [AgAna][..0] == [];
    assert GroupBy([], key) == [];
    assert KeyIndex([], "1") == 0;
    assert Bump([], "1", AgAna) == [Bucket("1", 1, 1, 100.0)];
    var g1 := GroupBy([AgAna], key);
    assert g1 == [Bucket("1", 1, 1, 100.0)];
    assert KeyIndex(g1, "2") == 1;
  }

  lemma ExemploConcluidos()
    ensures ConcluidosAsWritten([AgAna, AgBia], [Ana, Bia], [AgAna, AgBia], "Ana") == 2
  {
    var s := [AgAna, AgBia];
    assert s[..1] == [AgAna];
    assert Count([AgAna], (a: Agendamento) => a.status == Concluido) == 1;
    assert Count(s, (a: Agendamento) => a.status == Concluido) == 2;
    assert s[0].funcionariaId == Ana.id && s[0].status == Concluido;
    assert [Ana, Bia][0].nome == "Ana";
  }

  /** In the example, as written, the first staff member is credited with both concluded
      appointments and its attendance rate is 200%; with its own concluded count the rate
      is 100%. */
  lemma RateAbove100AsWritten()
    ensures var f := DashboardFilters("todos", None, None, None);
            var clock := Clock(0, 0, 0);
            var comoEscrito := EntriesAsWritten([AgAna, AgBia], [Ana, Bia], f, clock);
            var corrigido := Entries([AgAna, AgBia], [Ana, Bia], f, clock);
            |comoEscrito| > 0 && comoEscrito[0].taxaComparecimento == 200.0 &&
            |corrigido| > 0 && corrigido[0].taxaComparecimento == 100.0
  {
    var f := DashboardFilters("todos", None, None, None);
    var clock := Clock(0, 0, 0);
    UnrestrictedKeepsAll([AgAna, AgBia], f, clock);
    ExemploGrupos();
    ExemploConcluidos();
    FractionBounds(1.0, 1.0);
  }

  // ---------------------------------------------------------------- corrected

  /** One record per staff id met among the filtered appointments, in first-seen order,
      each with its own concluded count. */
  function Entries(agendamentos: seq<Agendamento>, funcionarias: seq<Funcionaria>,
                   f: DashboardFilters, clock: Clock): seq<Perf>
  {
    Metricas(funcionarias, GroupBy(Filtrados(agendamentos, f, clock), StaffKey(funcionarias)))
  }

  /** The `.map` from the accumulated records to the displayed metrics. */
  function Metricas(funcionarias: seq<Funcionaria>, grupos: seq<Bucket>): seq<Perf> {
    MapSeq(grupos, (b: Bucket) => PerfOf(funcionarias, b, b.concluidos))
  }

  /** Each record belongs to a known staff member, whose name and role it carries; it
      counts every filtered appointment of that staff member, concluded or not, and takes
      revenue and the concluded count from the concluded ones only. */
  lemma EntriesSpec(agendamentos: seq<Agendamento>, funcionarias: seq<Funcionaria>,
                    f: DashboardFilters, clock: Clock)
    ensures var filtrados := Filtrados(agendamentos, f, clock);
            var key := StaffKey(funcionarias);
            var r := Entries(agendamentos, funcionarias, f, clock);
            forall i :: 0 <= i < |r| ==>
              FuncionariaDe(funcionarias, r[i].funcionariaId).Some? &&
              r[i].nome == FuncionariaDe(funcionarias, r[i].funcionariaId).value.nome &&
              r[i].cargo == FuncionariaDe(funcionarias, r[i].funcionariaId).value.cargo &&
              r[i].agendamentos == Count(filtrados, InGroup(key, r[i].funcionariaId)) &&
              r[i].concluidos == Count(filtrados, ConcludedInGroup(key, r[i].funcionariaId)) &&
              r[i].faturamento == SumBy(filtrados, GroupRevenue(key, r[i].funcionariaId))
  {
    var filtrados := Filtrados(agendamentos, f, clock);
    var key := StaffKey(funcionarias);
    var grupos := GroupBy(filtrados, key);
    GroupKeysKnown(filtrados, funcionarias);
    GroupByStats(filtrados, key);
  }

  lemma GroupKeysKnown(s: seq<Agendamento>, funcionarias: seq<Funcionaria>)
    ensures forall i :: 0 <= i < |GroupBy(s, StaffKey(funcionarias))| ==>
              FuncionariaDe(funcionarias, GroupBy(s, StaffKey(funcionarias))[i].key).Some?
  {
    var key := StaffKey(funcionarias);
    var grupos := GroupBy(s, key);
    GroupByKeys(s, key);
    forall i | 0 <= i < |grupos| ensures FuncionariaDe(funcionarias, grupos[i].key).Some? {
      assert HasKey(grupos, grupos[i].key);
      var j :| 0 <= j < |s| && key(s[j]) == Some(grupos[i].key);
    }
  }

  /** A record's metrics are consistent: no more concluded than booked, a rate within
      0..100% that is the concluded share of the booked (0 when none was booked), and a
      ticket that, multiplied by the concluded count, gives the record's revenue (0 when
      nothing concluded). */
  ghost predicate MetricasCoerentes(p: Perf) {
    p.concluidos <= p.agendamentos &&
    0.0 <= p.taxaComparecimento <= 100.0 &&
    p.taxaComparecimento == Percent(p.concluidos, p.agendamentos) &&
    (p.agendamentos > 0 ==>
       p.taxaComparecimento * (p.agendamentos as real) == (p.concluidos as real) * 100.0) &&
    (p.concluidos == 0 ==> p.ticketMedio == 0.0) &&
    (p.concluidos > 0 ==> p.ticketMedio * (p.concluidos as real) == p.faturamento)
  }

  /** With its own concluded count, every record's metrics are consistent. */
  lemma EntriesMetrics(agendamentos: seq<Agendamento>, funcionarias: seq<Funcionaria>,
                       f: DashboardFilters, clock: Clock)
    ensures var r := Entries(agendamentos, funcionarias, f, clock);
            forall i :: 0 <= i < |r| ==> MetricasCoerentes(r[i])
  {
    var grupos := GroupBy(Filtrados(agendamentos, f, clock), StaffKey(funcionarias));
    GroupBySizes(Filtrados(agendamentos, f, clock), StaffKey(funcionarias));
    var r := Metricas(funcionarias, grupos);
    forall i | 0 <= i < |r| ensures MetricasCoerentes(r[i]) {
      PerfOfMetrics(funcionarias, grupos[i]);
    }
  }

  lemma PerfOfMetrics(funcionarias: seq<Funcionaria>, b: Bucket)
    requires b.concluidos <= b.total
    ensures MetricasCoerentes(PerfOf(funcionarias, b, b.concluidos))
  {
  }

  /** The records follow the groups one for one, each under its group's key. */
  lemma MetricasKeys(funcionarias: seq<Funcionaria>, grupos: seq<Bucket>)
    ensures |Metricas(funcionarias, grupos)| == |grupos|
    ensures forall i :: 0 <= i < |grupos| ==>
              Metricas(funcionarias, grupos)[i].funcionariaId == grupos[i].key
  {
  }

  /** No staff id has two records. */
  lemma EntriesDistinct(agendamentos: seq<Agendamento>, funcionarias: seq<Funcionaria>,
                        f: DashboardFilters, clock: Clock)
    ensures var r := Entries(agendamentos, funcionarias, f, clock);
            forall i, j :: 0 <= i < j < |r| ==> r[i].funcionariaId != r[j].funcionariaId
  {
    var grupos := GroupBy(Filtrados(agendamentos, f, clock), StaffKey(funcionarias));
    GroupByDistinct(Filtrados(agendamentos, f, clock), StaffKey(funcionarias));
    MetricasKeys(funcionarias, grupos);
  }

  /** Every filtered appointment of a known staff member has the record of its staff id;
      appointments of unknown staff have none. */
  lemma EntriesCover(agendamentos: seq<Agendamento>, funcionarias: seq<Funcionaria>,
                     f: DashboardFilters, clock: Clock)
    ensures var filtrados := Filtrados(agendamentos, f, clock);
            var r := Entries(agendamentos, funcionarias, f, clock);
            forall a :: a in filtrados ==>
              ((exists i :: 0 <= i < |r| && r[i].funcionariaId == a.funcionariaId) <==>
               FuncionariaDe(funcionarias, a.funcionariaId).Some?)
  {
    var filtrados := Filtrados(agendamentos, f, clock);
    var key := StaffKey(funcionarias);
    var grupos := GroupBy(filtrados, key);
    var r := Entries(agendamentos, funcionarias, f, clock);
    GroupByHasKey(filtrados, key);
    GroupKeysKnown(filtrados, funcionarias);
    MetricasKeys(funcionarias, grupos);
    forall a | a in filtrados
      ensures (exists i :: 0 <= i < |r| && r[i].funcionariaId == a.funcionariaId) <==>
              FuncionariaDe(funcionarias, a.funcionariaId).Some?
    {
      if FuncionariaDe(funcionarias, a.funcionariaId).Some? {
        var j :| 0 <= j < |filtrados| && filtrados[j] == a;
        assert key(filtrados[j]) == Some(a.funcionariaId);
        assert HasKey(grupos, a.funcionariaId);
        var i :| 0 <= i < |grupos| && grupos[i].key == a.funcionariaId;
        assert r[i].funcionariaId == a.funcionariaId;
      } else {
        forall i | 0 <= i < |r| ensures r[i].funcionariaId != a.funcionariaId {
          assert FuncionariaDe(funcionarias, grupos[i].key).Some?;
        }
      }
    }
  }

  /** An appointment of a known staff member belongs to the group of its staff id exactly
      when it has that id: the group is "all appointments of that staff member". */
  lemma InGroupIsSameStaff(funcionarias: seq<Funcionaria>, id: string, a: Agendamento)
    requires FuncionariaDe(funcionarias, id).Some?
    ensures InGroup(StaffKey(funcionarias), id)(a) <==> a.funcionariaId == id
  {
  }

  /** The ranking: the fold over the filtered appointments, the per-record metrics, then
      the order by revenue, highest first, equal revenues keeping their first-seen order. */
  method RankingFuncionarias(agendamentos: seq<Agendamento>, funcionarias: seq<Funcionaria>,
                             f: DashboardFilters, clock: Clock) returns (ranking: seq<Perf>)
    ensures ranking == SortBy(Entries(agendamentos, funcionarias, f, clock), NegFaturamento)
    ensures multiset(ranking) == multiset(Entries(agendamentos, funcionarias, f, clock))
    ensures forall i, j :: 0 <= i < j < |ranking| ==> ranking[i].faturamento >= ranking[j].faturamento
  {
    var filtrados := Filtrados(agendamentos, f, clock);
    var grupos := Desempenho(filtrados, funcionarias);
    var entries: seq<Perf> := [];
    for j := 0 to |grupos|
      invariant entries == Metricas(funcionarias, grupos[..j])
    {
      MetricasSnoc(funcionarias, grupos[..j], grupos[j]);
      assert grupos[..j + 1] == grupos[..j] + [grupos[j]];
      entries := entries + [PerfOf(funcionarias, grupos[j], grupos[j].concluidos)];
    }
    assert grupos[..|grupos|] == grupos;
    ranking := SortBy(entries, NegFaturamento);
    PorFaturamento(entries);
  }

  lemma MetricasSnoc(funcionarias: seq<Funcionaria>, grupos: seq<Bucket>, b: Bucket)
    ensures Metricas(funcionarias, grupos + [b]) ==
            Metricas(funcionarias, grupos) + [PerfOf(funcionarias, b, b.concluidos)]
  {
  }

  /** Sorting by the negated revenue puts the highest revenue first. */
  lemma PorFaturamento(entries: seq<Perf>)
    ensures var r := SortBy(entries, NegFaturamento);
            forall i, j :: 0 <= i < j < |r| ==> r[i].faturamento >= r[j].faturamento
  {
    var r := SortBy(entries, NegFaturamento);
    forall i, j | 0 <= i < j < |r| ensures r[i].faturamento >= r[j].faturamento {
      assert NegFaturamento(r[i]) <= NegFaturamento(r[j]);
    }
  }

  /** The `forEach` fold: for each filtered appointment of a known staff member, create
      that staff member's record on first sight and add the appointment to it. */
  method Desempenho(filtrados: seq<Agendamento>, funcionarias: seq<Funcionaria>)
    returns (grupos: seq<Bucket>)
    ensures grupos == GroupBy(filtrados, StaffKey(funcionarias))
  {
    grupos := [];
    for i := 0 to |filtrados|
      invariant grupos == GroupBy(filtrados[..i], StaffKey(funcionarias))
    {
      var a := filtrados[i];
      assert filtrados[..i + 1] == filtrados[..i] + [a];
      assert (filtrados[..i] + [a])[..i] == filtrados[..i];
      if FuncionariaDe(funcionarias, a.funcionariaId).Some? {
        grupos := Bump(grupos, a.funcionariaId, a);
      }
    }
    assert filtrados[..|filtrados|] == filtrados;
  }
}
