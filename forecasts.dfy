/** The forecasts card of src/components/Dashboard/PrevisoesTendencias.tsx: growth of
    revenue and of clients from the month before last to the last month, the services
    trending up, a forecast for the next month and the busiest day of the week. Only
    concluded appointments take part. */
module Forecasts {
  import opened Wrappers
  import opened Types
  import opened Seqs
  import opened Ratios
  import opened Tally
  import opened Kpis

  // ---------------------------------------------------------------- the two months

  /** Concluded appointments from one month ago up to now, both ends included. */
  function UltimoMes(agendamentos: seq<Agendamento>, clock: Clock): seq<Agendamento> {
    Filter(agendamentos, (a: Agendamento) =>
      clock.monthAgo <= a.dataHora <= clock.now && a.status == Concluido)
  }

  /** Concluded appointments from two months ago up to, but not including, one month
      ago. */
  function PenultimoMes(agendamentos: seq<Agendamento>, clock: Clock): seq<Agendamento> {
    Filter(agendamentos, (a: Agendamento) =>
      clock.twoMonthsAgo <= a.dataHora < clock.monthAgo && a.status == Concluido)
  }

  /** The two windows never share an appointment, whatever the clock. */
  lemma MonthsDisjoint(agendamentos: seq<Agendamento>, clock: Clock)
    ensures forall a :: a in UltimoMes(agendamentos, clock) ==> a !in PenultimoMes(agendamentos, clock)
  {
  }

  // ---------------------------------------------------------------- clients

  /** The distinct client names, `new Set(list.map(a => a.clienteNome))`. */
  function Clientes(s: seq<Agendamento>): (nomes: set<string>)
    ensures forall n :: n in nomes <==> exists a :: a in s && a.clienteNome == n
  {
    set a | a in s :: a.clienteNome
  }

  /** There are never more clients than appointments, and at least one when there is an
      appointment. */
  lemma {:induction false} ClientesBound(s: seq<Agendamento>)
    ensures |Clientes(s)| <= |s|
    ensures s != [] ==> |Clientes(s)| >= 1
  {
    if s != [] {
      var init, last := s[..|s| - 1], s[|s| - 1];
      assert s == init + [last];
      assert Clientes(s) == Clientes(init) + {last.clienteNome};
      ClientesBound(init);
      assert last.clienteNome in Clientes(s);
    }
  }

  // ---------------------------------------------------------------- trending services

  function ServicoId(a: Agendamento): Option<string> {
    Some(a.servicoId)
  }

  /** `counts[id] || 0`: the count of a service id in a per-service record. */
  function QuantidadeDe(grupos: seq<Bucket>, id: string): nat {
    var i := KeyIndex(grupos, id);
    if i < |grupos| then grupos[i].total else 0
  }

  /** Looking a service id up in the per-service counts gives the number of appointments
      of that service, 0 when there is none. */
  lemma QuantidadeDeIsCount(s: seq<Agendamento>, id: string)
    ensures QuantidadeDe(GroupBy(s, ServicoId), id) == Count(s, InGroup(ServicoId, id))
  {
    var grupos := GroupBy(s, ServicoId);
    GroupByKeys(s, ServicoId);
    GroupByStats(s, ServicoId);
    if KeyIndex(grupos, id) == |grupos| {
      assert !HasKey(grupos, id);
      StatsEmpty(s, ServicoId, id);
    }
  }

  /** Growth of a service: the percentage change when it had appointments in the month
      before, otherwise a flat 100. */
  function CrescimentoServico(quantidade: nat, anterior: nat): (r: real)
    ensures anterior == 0 ==> r == 100.0
    ensures anterior > 0 ==> (r > 0.0 <==> quantidade > anterior)
    ensures anterior > 0 ==> r * (anterior as real) == ((quantidade - anterior) as real) * 100.0
  {
    if anterior > 0 then Variation(quantidade as real, anterior as real) else 100.0
  }

  datatype Candidato = Candidato(servicoId: string, servico: Option<Servico>, quantidade: nat,
                                 crescimento: real)

  function CandidatoDe(b: Bucket, anteriores: seq<Bucket>, servicos: seq<Servico>): Candidato {
    var anterior := QuantidadeDe(anteriores, b.key);
    Candidato(b.key, Find(servicos, (s: Servico) => s.id == b.key), b.total,
              CrescimentoServico(b.total, anterior))
  }

  /** One candidate per service booked in the last month, with its count there and its
      growth against the month before. */
  function Candidatos(ultimo: seq<Agendamento>, penultimo: seq<Agendamento>,
                      servicos: seq<Servico>): seq<Candidato>
  {
    var anteriores := GroupBy(penultimo, ServicoId);
    MapSeq(GroupBy(ultimo, ServicoId), (b: Bucket) => CandidatoDe(b, anteriores, servicos))
  }

  predicate Elegivel(c: Candidato) {
    c.servico.Some? && c.crescimento > 20.0
  }

  function MenosCrescimento(c: Candidato): real {
    -c.crescimento
  }

  /** `.sort((a, b) => b.crescimento - a.crescimento).slice(0, 3)`. */
  function TopTres(elegiveis: seq<Candidato>): seq<Candidato> {
    var ordenados := SortBy(elegiveis, MenosCrescimento);
    if |ordenados| <= 3 then ordenados else ordenados[..3]
  }

  /** Known services growing by more than 20%, fastest first, at most three. */
  function ServicosEmAlta(ultimo: seq<Agendamento>, penultimo: seq<Agendamento>,
                          servicos: seq<Servico>): seq<Candidato>
  {
    TopTres(Filter(Candidatos(ultimo, penultimo, servicos), Elegivel))
  }

  /** Each candidate counts the appointments of its service in the last month, carries
      the growth of that count against the month before (100 when the service had none
      then), and names the service of that id when the catalogue has one. */
  lemma CandidatosSpec(ultimo: seq<Agendamento>, penultimo: seq<Agendamento>,
                       servicos: seq<Servico>)
    ensures var c := Candidatos(ultimo, penultimo, servicos);
            forall i :: 0 <= i < |c| ==>
              c[i].quantidade == Count(ultimo, InGroup(ServicoId, c[i].servicoId)) &&
              c[i].quantidade >= 1 &&
              (c[i].servico.Some? <==> exists s :: s in servicos && s.id == c[i].servicoId) &&
              (c[i].servico.Some? ==>
                 c[i].servico.value in servicos && c[i].servico.value.id == c[i].servicoId) &&
              c[i].crescimento ==
                CrescimentoServico(c[i].quantidade,
                                   Count(penultimo, InGroup(ServicoId, c[i].servicoId))) &&
              (Count(penultimo, InGroup(ServicoId, c[i].servicoId)) == 0 ==> c[i].crescimento == 100.0)
  {
    var grupos := GroupBy(ultimo, ServicoId);
    var c := Candidatos(ultimo, penultimo, servicos);
    GroupByStats(ultimo, ServicoId);
    GroupBySizes(ultimo, ServicoId);
    forall i | 0 <= i < |c|
      ensures Count(penultimo, InGroup(ServicoId, c[i].servicoId)) == 0 ==> c[i].crescimento == 100.0
      ensures c[i].servico.Some? <==> exists s :: s in servicos && s.id == c[i].servicoId
      ensures c[i].crescimento ==
                CrescimentoServico(c[i].quantidade,
                                   Count(penultimo, InGroup(ServicoId, c[i].servicoId)))
    {
      QuantidadeDeIsCount(penultimo, grupos[i].key);
      if exists s :: s in servicos && s.id == c[i].servicoId {
        var s :| s in servicos && s.id == c[i].servicoId;
        var j :| 0 <= j < |servicos| && servicos[j] == s;
        assert servicos[j].id == grupos[i].key;
      }
    }
  }

  /** The candidates follow the per-service groups of the last month, one for one. */
  lemma CandidatosIds(ultimo: seq<Agendamento>, penultimo: seq<Agendamento>,
                      servicos: seq<Servico>)
    ensures |Candidatos(ultimo, penultimo, servicos)| == |GroupBy(ultimo, ServicoId)|
    ensures forall i :: 0 <= i < |GroupBy(ultimo, ServicoId)| ==>
              Candidatos(ultimo, penultimo, servicos)[i].servicoId ==
              GroupBy(ultimo, ServicoId)[i].key
  {
  }

  /** No service has two candidates. */
  lemma CandidatosDistinct(ultimo: seq<Agendamento>, penultimo: seq<Agendamento>,
                           servicos: seq<Servico>)
    ensures var c := Candidatos(ultimo, penultimo, servicos);
            forall i, j :: 0 <= i < j < |c| ==> c[i].servicoId != c[j].servicoId
  {
    CandidatosIds(ultimo, penultimo, servicos);
    GroupByDistinct(ultimo, ServicoId);
  }

  /** Every service booked in the last month has a candidate. */
  lemma CandidatosCover(ultimo: seq<Agendamento>, penultimo: seq<Agendamento>,
                        servicos: seq<Servico>, a: Agendamento)
    requires a in ultimo
    ensures var c := Candidatos(ultimo, penultimo, servicos);
            exists i :: 0 <= i < |c| && c[i].servicoId == a.servicoId
  {
    var grupos := GroupBy(ultimo, ServicoId);
    CandidatosIds(ultimo, penultimo, servicos);
    GroupByHasKey(ultimo, ServicoId);
    var k :| 0 <= k < |ultimo| && ultimo[k] == a;
    assert ServicoId(ultimo[k]) == Some(a.servicoId);
    assert HasKey(grupos, a.servicoId);
    var j :| 0 <= j < |grupos| && grupos[j].key == a.servicoId;
    assert Candidatos(ultimo, penultimo, servicos)[j].servicoId == a.servicoId;
  }

  /** Every candidate's service was booked in the last month. */
  lemma CandidatosBooked(ultimo: seq<Agendamento>, penultimo: seq<Agendamento>,
                         servicos: seq<Servico>, i: nat)
    requires i < |Candidatos(ultimo, penultimo, servicos)|
    ensures exists a :: a in ultimo &&
              a.servicoId == Candidatos(ultimo, penultimo, servicos)[i].servicoId
  {
    var grupos := GroupBy(ultimo, ServicoId);
    CandidatosIds(ultimo, penultimo, servicos);
    GroupByHasKey(ultimo, ServicoId);
    assert HasKey(grupos, grupos[i].key);
    var k :| 0 <= k < |ultimo| && ServicoId(ultimo[k]) == Some(grupos[i].key);
    assert ultimo[k] in ultimo;
  }

  /** The three fastest-growing candidates, or all of them when there are fewer, fastest
      first. */
  lemma TopTresSpec(elegiveis: seq<Candidato>)
    ensures var r := TopTres(elegiveis);
            |r| == (if |elegiveis| <= 3 then |elegiveis| else 3) &&
            (forall i :: 0 <= i < |r| ==> r[i] in elegiveis) &&
            (forall i, j :: 0 <= i < j < |r| ==> r[i].crescimento >= r[j].crescimento)
  {
    var ordenados := SortBy(elegiveis, MenosCrescimento);
    var r := TopTres(elegiveis);
    forall i | 0 <= i < |r| ensures r[i] in elegiveis {
      assert r[i] == ordenados[i];
      assert ordenados[i] in multiset(elegiveis);
    }
    forall i, j | 0 <= i < j < |r| ensures r[i].crescimento >= r[j].crescimento {
      assert MenosCrescimento(ordenados[i]) <= MenosCrescimento(ordenados[j]);
    }
  }

  /** No candidate left out grows faster than the last one kept. */
  lemma TopTresBest(elegiveis: seq<Candidato>)
    ensures var r := TopTres(elegiveis);
            forall c :: c in elegiveis && c !in r ==> c.crescimento <= r[|r| - 1].crescimento
  {
    var ordenados := SortBy(elegiveis, MenosCrescimento);
    var r := TopTres(elegiveis);
    assert r == ordenados[..|r|];
    forall c | c in elegiveis && c !in r ensures c.crescimento <= r[|r| - 1].crescimento {
      assert c in multiset(ordenados);
      SortedPrefixBound(ordenados, MenosCrescimento, |r|, c);
    }
  }

  lemma TopTresElegiveis(candidatos: seq<Candidato>)
    ensures var elegiveis := Filter(candidatos, Elegivel);
            var r := TopTres(elegiveis);
            |r| == (if |elegiveis| <= 3 then |elegiveis| else 3) &&
            (forall i :: 0 <= i < |r| ==> Elegivel(r[i]) && r[i] in elegiveis) &&
            (forall i, j :: 0 <= i < j < |r| ==> r[i].crescimento >= r[j].crescimento) &&
            (forall c :: c in elegiveis && c !in r ==> c.crescimento <= r[|r| - 1].crescimento)
  {
    var elegiveis := Filter(candidatos, Elegivel);
    TopTresSpec(elegiveis);
    TopTresBest(elegiveis);
    var r := TopTres(elegiveis);
    forall i | 0 <= i < |r| ensures Elegivel(r[i]) {
      FilterHolds(candidatos, Elegivel, r[i]);
    }
  }

  /** The trending list holds only known services growing by more than 20%, at most
      three of them, fastest first, chosen as the fastest among all such services. */
  lemma ServicosEmAltaSpec(ultimo: seq<Agendamento>, penultimo: seq<Agendamento>,
                           servicos: seq<Servico>)
    ensures var elegiveis := Filter(Candidatos(ultimo, penultimo, servicos), Elegivel);
            var r := ServicosEmAlta(ultimo, penultimo, servicos);
            |r| == (if |elegiveis| <= 3 then |elegiveis| else 3) &&
            (forall i :: 0 <= i < |r| ==> Elegivel(r[i]) && r[i] in elegiveis) &&
            (forall i, j :: 0 <= i < j < |r| ==> r[i].crescimento >= r[j].crescimento) &&
            (forall c :: c in elegiveis && c !in r ==> c.crescimento <= r[|r| - 1].crescimento)
  {
    TopTresElegiveis(Candidatos(ultimo, penultimo, servicos));
  }

  // ---------------------------------------------------------------- forecast

  /** `Math.round`: the nearest integer, halves rounded up. */
  function Round(x: real): int {
    (x + 0.5).Floor
  }

  /** `Math.round((n / 30) * 30)`: the daily mean scaled back to thirty days is the
      month's own count. */
  function PrevisaoAgendamentos(n: nat): (r: int)
    ensures r == n
  {
    var mediaDiaria := n as real / 30.0;
    assert mediaDiaria * 30.0 == n as real;
    Round(mediaDiaria * 30.0)
  }

  /** The last month's revenue grown once more by the month's growth rate: unchanged when
      the month before had no revenue, otherwise the last month's revenue times its ratio
      to the month before. */
  function PrevisaoFaturamento(ultimo: real, penultimo: real): (r: real)
    ensures penultimo <= 0.0 ==> r == ultimo
    ensures penultimo > 0.0 ==> r * penultimo == ultimo * ultimo
  {
    var crescimento := Variation(ultimo, penultimo);
    var r := ultimo * (1.0 + crescimento / 100.0);
    GrowthTimesPrevious(ultimo, penultimo, crescimento, r);
    r
  }

  lemma GrowthTimesPrevious(u: real, p: real, v: real, r: real)
    requires p > 0.0 ==> v * p == (u - p) * 100.0
    requires r == u * (1.0 + v / 100.0)
    ensures p > 0.0 ==> r * p == u * u
  {
    if p <= 0.0 {
      return;
    }
    var g := v / 100.0;
    assert g * p == u - p;
    calc {
      r * p;
      == u * (1.0 + g) * p;
      == u * (p + g * p);
      == u * (p + (u - p));
    }
  }

  // ---------------------------------------------------------------- best weekday

  /** `getDay()`: 0 for Sunday to 6 for Saturday; day 0 of the timeline, 1 January 1970,
      was a Thursday. */
  function DiaSemana(t: Timestamp): (d: nat)
    ensures d < 7
  {
    (Day(t) + 4) % 7
  }

  const NomesDias: seq<string> := ["Dom", "Seg", "Ter", "Qua", "Qui", "Sex", "Sáb"]

  datatype DiaContagem = DiaContagem(dia: nat, quantidade: nat)

  function NoDia(s: seq<Agendamento>, d: nat): nat {
    Count(s, (a: Agendamento) => DiaSemana(a.dataHora) == d)
  }

  /** The per-weekday record as `Object.entries` lists it: weekdays with appointments, in
      ascending weekday order (integer keys come out in numeric order). */
  function ContagemDias(s: seq<Agendamento>): seq<DiaContagem> {
    Filter(seq(7, d requires 0 <= d < 7 => DiaContagem(d, NoDia(s, d))),
           (e: DiaContagem) => e.quantidade > 0)
  }

  function MenosQuantidade(e: DiaContagem): real {
    -(e.quantidade as real)
  }

  datatype MelhorDia = MelhorDia(nome: string, quantidade: nat)

  function MelhorDiaDe(s: seq<Agendamento>): Option<MelhorDia> {
    var ordenados := SortBy(ContagemDias(s), MenosQuantidade);
    if ordenados == [] then None
    else if ordenados[0].dia < 7 then Some(MelhorDia(NomesDias[ordenados[0].dia], ordenados[0].quantidade))
    else None
  }

  /** The weekday entries: each carries a weekday and its positive count, and every
      weekday with appointments has its entry. */
  lemma ContagemDiasSpec(s: seq<Agendamento>)
    ensures forall e :: e in ContagemDias(s) ==> e.dia < 7 && e.quantidade == NoDia(s, e.dia)
    ensures forall d :: 0 <= d < 7 && NoDia(s, d) > 0 ==> DiaContagem(d, NoDia(s, d)) in ContagemDias(s)
  {
    var todos := seq(7, d requires 0 <= d < 7 => DiaContagem(d, NoDia(s, d)));
    forall e | e in ContagemDias(s) ensures e.dia < 7 && e.quantidade == NoDia(s, e.dia) {
      var i :| 0 <= i < |todos| && todos[i] == e;
    }
    forall d | 0 <= d < 7 && NoDia(s, d) > 0 ensures DiaContagem(d, NoDia(s, d)) in ContagemDias(s) {
      assert todos[d] == DiaContagem(d, NoDia(s, d));
    }
  }

  /** Some weekday has appointments iff there are any. */
  lemma SomeDiaIffNonEmpty(s: seq<Agendamento>)
    ensures s == [] ==> forall d :: 0 <= d < 7 ==> NoDia(s, d) == 0
    ensures s != [] ==> NoDia(s, DiaSemana(s[0].dataHora)) > 0
  {
    if s != [] {
      var d0 := DiaSemana(s[0].dataHora);
      assert s[0] in Filter(s, (a: Agendamento) => DiaSemana(a.dataHora) == d0);
    }
  }

  /** There is a best day iff there are appointments; no weekday has more appointments
      than it. */
  lemma MelhorDiaSpec(s: seq<Agendamento>)
    ensures MelhorDiaDe(s).None? <==> s == []
    ensures MelhorDiaDe(s).Some? ==>
              forall d :: 0 <= d < 7 ==> NoDia(s, d) <= MelhorDiaDe(s).value.quantidade
  {
    var contagem := ContagemDias(s);
    var ordenados := SortBy(contagem, MenosQuantidade);
    ContagemDiasSpec(s);
    SomeDiaIffNonEmpty(s);
    if s != [] {
      var d0 := DiaSemana(s[0].dataHora);
      assert DiaContagem(d0, NoDia(s, d0)) in multiset(ordenados);
      assert ordenados[0] in multiset(contagem);
      SortedHeadLeast(ordenados, MenosQuantidade);
      forall d | 0 <= d < 7 ensures NoDia(s, d) <= ordenados[0].quantidade {
        if NoDia(s, d) > 0 {
          assert DiaContagem(d, NoDia(s, d)) in multiset(ordenados);
          var k :| 0 <= k < |ordenados| && ordenados[k] == DiaContagem(d, NoDia(s, d));
          assert MenosQuantidade(ordenados[0]) <= MenosQuantidade(ordenados[k]);
        }
      }
    }
  }

  /** The best day is a weekday, shown by its name with its own count. */
  lemma MelhorDiaNome(s: seq<Agendamento>)
    ensures MelhorDiaDe(s).Some? ==>
              exists d :: 0 <= d < 7 && MelhorDiaDe(s).value.nome == NomesDias[d] &&
                          MelhorDiaDe(s).value.quantidade == NoDia(s, d)
  {
    var ordenados := SortBy(ContagemDias(s), MenosQuantidade);
    if ordenados != [] {
      ContagemDiasSpec(s);
      assert ordenados[0] in multiset(ContagemDias(s));
      assert ordenados[0] in ContagemDias(s);
    }
  }

  // ---------------------------------------------------------------- the card

  datatype Analise = Analise(
    crescimentoFaturamento: real, crescimentoClientes: real, servicosEmAlta: seq<Candidato>,
    previsaoAgendamentos: int, previsaoFaturamento: real, melhorDia: Option<MelhorDia>,
    faturamentoUltimoMes: real, clientesUltimoMes: nat)

  function Analises(agendamentos: seq<Agendamento>, servicos: seq<Servico>, clock: Clock)
    : (r: Analise)
    ensures r.faturamentoUltimoMes == Faturamento(UltimoMes(agendamentos, clock))
    ensures Faturamento(PenultimoMes(agendamentos, clock)) <= 0.0 ==> r.crescimentoFaturamento == 0.0
    ensures |Clientes(PenultimoMes(agendamentos, clock))| == 0 ==> r.crescimentoClientes == 0.0
    ensures r.clientesUltimoMes <= |UltimoMes(agendamentos, clock)|
    ensures r.previsaoAgendamentos == |UltimoMes(agendamentos, clock)|
    ensures |r.servicosEmAlta| <= 3
    ensures r.melhorDia.None? <==> UltimoMes(agendamentos, clock) == []
  {
    var ultimo := UltimoMes(agendamentos, clock);
    var penultimo := PenultimoMes(agendamentos, clock);
    var faturamentoUltimo := Faturamento(ultimo);
    var faturamentoPenultimo := Faturamento(penultimo);
    var clientesUltimo := |Clientes(ultimo)|;
    var clientesPenultimo := |Clientes(penultimo)|;
    ClientesBound(ultimo);
    MelhorDiaSpec(ultimo);
    TopTresSpec(Filter(Candidatos(ultimo, penultimo, servicos), Elegivel));
    Analise(
      Variation(faturamentoUltimo, faturamentoPenultimo),
      Variation(clientesUltimo as real, clientesPenultimo as real),
      ServicosEmAlta(ultimo, penultimo, servicos),
      PrevisaoAgendamentos(|ultimo|),
      PrevisaoFaturamento(faturamentoUltimo, faturamentoPenultimo),
      MelhorDiaDe(ultimo),
      faturamentoUltimo,
      clientesUltimo)
  }
}
