/** The two distribution charts of the dashboard: appointments per service name
    (src/components/Dashboard/GraficoServicos.tsx) and statistics per staff name
    (src/components/Dashboard/GraficoProfissionais.tsx). */
module Charts {
  import opened Wrappers
  import opened Types
  import opened Seqs
  import opened Ratios
  import opened DashboardPeriod
  import opened Tally

  const NaoEspecificado: string := "Não especificado"

  /** Name of the service an appointment books, or the placeholder when its id is not
      in the catalogue. */
  function NomeServico(servicos: seq<Servico>, a: Agendamento): string {
    match Find(servicos, (s: Servico) => s.id == a.servicoId)
    case Some(s) => s.nome
    case None => NaoEspecificado
  }

  function NomeFuncionaria(funcionarias: seq<Funcionaria>, a: Agendamento): string {
    match Find(funcionarias, (f: Funcionaria) => f.id == a.funcionariaId)
    case Some(f) => f.nome
    case None => NaoEspecificado
  }

  /** Sum of the group sizes, the `reduce` behind a chart's total. */
  lemma SumTotalsOfGroups(s: seq<Agendamento>, keyOf: Agendamento -> Option<string>)
    requires forall a :: keyOf(a).Some?
    ensures SumTotals(GroupBy(s, keyOf)) == |s|
  {
    GroupByKeys(s, keyOf);
    FilterAll(s, a => keyOf(a).Some?);
  }

  // ---------------------------------------------------------------- per service

  datatype ServicoEntry = ServicoEntry(nome: string, quantidade: nat, porcentagem: real)

  function ServicoKey(servicos: seq<Servico>): Agendamento -> Option<string> {
    a => Some(NomeServico(servicos, a))
  }

  /** The chart data: one entry per service name met in the filtered list, with its count
      and its share of the filtered appointments (the one-decimal rendering of the share
      is not modelled). */
  function DadosServicos(agendamentos: seq<Agendamento>, servicos: seq<Servico>,
                         f: DashboardFilters, clock: Clock): (r: seq<ServicoEntry>)
    ensures |r| == 0 <==> |Filtrados(agendamentos, f, clock)| == 0
    ensures forall i :: 0 <= i < |r| ==>
              r[i].porcentagem == Percent(r[i].quantidade, |Filtrados(agendamentos, f, clock)|)
  {
    var filtrados := Filtrados(agendamentos, f, clock);
    var grupos := GroupBy(filtrados, ServicoKey(servicos));
    SumTotalsOfGroups(filtrados, ServicoKey(servicos));
    MapSeq(grupos, (b: Bucket) => ServicoEntry(b.key, b.total, Percent(b.total, |filtrados|)))
  }

  function TotalQuantidade(r: seq<ServicoEntry>): nat {
    if r == [] then 0 else TotalQuantidade(r[..|r| - 1]) + r[|r| - 1].quantidade
  }

  lemma {:induction false} TotalQuantidadeOfGroups(bs: seq<Bucket>, n: nat)
    ensures TotalQuantidade(MapSeq(bs, (b: Bucket) => ServicoEntry(b.key, b.total, Percent(b.total, n))))
            == SumTotals(bs)
  {
    if bs != [] {
      var g := (b: Bucket) => ServicoEntry(b.key, b.total, Percent(b.total, n));
      assert MapSeq(bs, g)[..|bs| - 1] == MapSeq(bs[..|bs| - 1], g);
      TotalQuantidadeOfGroups(bs[..|bs| - 1], n);
    }
  }

  /** Each entry counts exactly the filtered appointments whose service has that name
      (so services sharing a name share an entry), names do not repeat, every entry counts
      at least one appointment, and the counts add up to the number of filtered
      appointments. */
  lemma DadosServicosSpec(agendamentos: seq<Agendamento>, servicos: seq<Servico>,
                          f: DashboardFilters, clock: Clock)
    ensures var filtrados := Filtrados(agendamentos, f, clock);
            var r := DadosServicos(agendamentos, servicos, f, clock);
            (forall i :: 0 <= i < |r| ==>
               r[i].quantidade == Count(filtrados, a => NomeServico(servicos, a) == r[i].nome) &&
               r[i].quantidade >= 1) &&
            (forall i, j :: 0 <= i < j < |r| ==> r[i].nome != r[j].nome) &&
            TotalQuantidade(r) == |filtrados|
  {
    var filtrados := Filtrados(agendamentos, f, clock);
    var key := ServicoKey(servicos);
    var grupos := GroupBy(filtrados, key);
    var r := DadosServicos(agendamentos, servicos, f, clock);
    GroupByKeys(filtrados, key);
    GroupByStats(filtrados, key);
    GroupBySizes(filtrados, key);
    SumTotalsOfGroups(filtrados, key);
    TotalQuantidadeOfGroups(grupos, |filtrados|);
    forall i | 0 <= i < |r|
      ensures r[i].quantidade == Count(filtrados, a => NomeServico(servicos, a) == r[i].nome)
    {
      FilterExt(filtrados, InGroup(key, grupos[i].key),
                a => NomeServico(servicos, a) == r[i].nome);
    }
  }

  /** An appointment whose service id is unknown is counted under the placeholder. */
  lemma UnknownServiceGrouped(agendamentos: seq<Agendamento>, servicos: seq<Servico>,
                              f: DashboardFilters, clock: Clock, a: Agendamento)
    requires a in Filtrados(agendamentos, f, clock)
    requires forall s :: s in servicos ==> s.id != a.servicoId
    ensures exists i :: 0 <= i < |DadosServicos(agendamentos, servicos, f, clock)| &&
              DadosServicos(agendamentos, servicos, f, clock)[i].nome == NaoEspecificado
  {
    var filtrados := Filtrados(agendamentos, f, clock);
    var key := ServicoKey(servicos);
    var i :| 0 <= i < |filtrados| && filtrados[i] == a;
    assert key(filtrados[i]) == Some(NaoEspecificado);
    GroupByKeys(filtrados, key);
    var j :| 0 <= j < |GroupBy(filtrados, key)| && GroupBy(filtrados, key)[j].key == NaoEspecificado;
    assert DadosServicos(agendamentos, servicos, f, clock)[j].nome == NaoEspecificado;
  }

  // ---------------------------------------------------------------- per staff member

  datatype ProfissionalEntry = ProfissionalEntry(
    nome: string, agendamentos: nat, faturamento: real, concluidos: nat,
    ticketMedio: real, taxaConclusao: real)

  function FuncionariaNomeKey(funcionarias: seq<Funcionaria>): Agendamento -> Option<string> {
    a => Some(NomeFuncionaria(funcionarias, a))
  }

  function ProfissionalOf(b: Bucket): ProfissionalEntry {
    ProfissionalEntry(b.key, b.total, b.faturamento, b.concluidos,
                      Mean(b.faturamento, b.concluidos), Percent(b.concluidos, b.total))
  }

  /** One entry per staff name met in the filtered list, with its size, concluded count,
      revenue, mean ticket and completion rate. */
  function DadosProfissionais(agendamentos: seq<Agendamento>, funcionarias: seq<Funcionaria>,
                              f: DashboardFilters, clock: Clock): (r: seq<ProfissionalEntry>)
    ensures forall i :: 0 <= i < |r| ==> 0.0 <= r[i].taxaConclusao <= 100.0
    ensures forall i :: 0 <= i < |r| && r[i].concluidos == 0 ==> r[i].ticketMedio == 0.0
    ensures forall i :: 0 <= i < |r| ==>
              r[i].taxaConclusao == Percent(r[i].concluidos, r[i].agendamentos)
    ensures forall i :: 0 <= i < |r| ==>
              r[i].ticketMedio == Mean(r[i].faturamento, r[i].concluidos)
  {
    var filtrados := Filtrados(agendamentos, f, clock);
    var grupos := GroupBy(filtrados, FuncionariaNomeKey(funcionarias));
    GroupBySizes(filtrados, FuncionariaNomeKey(funcionarias));
    MapSeq(grupos, ProfissionalOf)
  }

  /** Each entry holds the filtered appointments of the staff members with that name
      (unknown ids under the placeholder): its size, how many of them are concluded — never
      more than its size — and the revenue of the concluded ones only; names do not
      repeat. */
  lemma DadosProfissionaisSpec(agendamentos: seq<Agendamento>, funcionarias: seq<Funcionaria>,
                               f: DashboardFilters, clock: Clock)
    ensures var filtrados := Filtrados(agendamentos, f, clock);
            var key := FuncionariaNomeKey(funcionarias);
            var r := DadosProfissionais(agendamentos, funcionarias, f, clock);
            (forall i :: 0 <= i < |r| ==>
               r[i].agendamentos == Count(filtrados, InGroup(key, r[i].nome)) &&
               r[i].concluidos == Count(filtrados, ConcludedInGroup(key, r[i].nome)) &&
               r[i].faturamento == SumBy(filtrados, GroupRevenue(key, r[i].nome)) &&
               r[i].concluidos <= r[i].agendamentos) &&
            (forall i, j :: 0 <= i < j < |r| ==> r[i].nome != r[j].nome) &&
            SumTotals(GroupBy(filtrados, key)) == |filtrados|
  {
    var filtrados := Filtrados(agendamentos, f, clock);
    var key := FuncionariaNomeKey(funcionarias);
    GroupByKeys(filtrados, key);
    GroupByStats(filtrados, key);
    GroupBySizes(filtrados, key);
    SumTotalsOfGroups(filtrados, key);
  }
}
