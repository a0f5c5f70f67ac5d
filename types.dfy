/** Records of the salon dashboard (src/types/index.ts) and the shared notions of time,
    status and optional values that every other module uses. */
module Types {
  import opened Wrappers

  /** Instants are whole milliseconds of local wall-clock time; time zones and
      daylight-saving changes are not modelled. */
  type Timestamp = int

  const MsPerMinute: int := 60_000
  const MsPerDay: int := 86_400_000

  /** Index of the local calendar day an instant falls on (floor division). */
  function Day(t: Timestamp): int {
    t / MsPerDay
  }

  /** First millisecond of the day `t` falls on. */
  function DayStart(t: Timestamp): (r: Timestamp)
    ensures r <= t < r + MsPerDay
    ensures Day(r) == Day(t)
  {
    Day(t) * MsPerDay
  }

  /** The three appointment statuses the interface declares; stored statuses are plain
      strings because rows from the database are cast without validation. */
  const Agendado: string := "agendado"
  const Concluido: string := "concluido"
  const NaoCompareceu: string := "nao_compareceu"

  datatype User = User(id: string, username: string, isAuthenticated: bool)

  datatype Funcionaria = Funcionaria(id: string, nome: string, cargo: string, isDona: bool)

  datatype Servico = Servico(id: string, nome: string, precoBase: real, duracaoMinutos: int,
                             corPadrao: string)

  datatype Agendamento = Agendamento(
    id: string,
    clienteNome: string,
    clienteWhatsapp: string,
    funcionariaId: string,
    servicoId: string,
    preco: real,
    duracaoMinutos: int,
    dataHora: Timestamp,
    cor: string,
    observacoes: Option<string>,
    status: string)

  datatype Produto = Produto(id: string, nome: string, marca: string, quantidadeAtual: real,
                             unidade: string, estoqueMinimo: real, custoUnitario: real)

  datatype RegistroCompra = RegistroCompra(id: string, produtoId: string, quantidade: real,
                                           custoUnitario: real, valorTotal: real,
                                           dataCompra: Timestamp)

  /** Dashboard filter record. `periodo` and `status` are strings: one of the two filter
      panels stores whatever the select hands it. `None` stands for an undefined field. */
  datatype DashboardFilters = DashboardFilters(periodo: string, status: Option<string>,
                                               dataInicio: Option<Timestamp>,
                                               dataFim: Option<Timestamp>)

  /** "Now" together with the results of the calendar arithmetic the components ask of
      `Date.setMonth`: the same instant one and two months earlier. */
  datatype Clock = Clock(now: Timestamp, monthAgo: Timestamp, twoMonthsAgo: Timestamp)

  /** A closed range of instants, both ends included. */
  datatype Window = Window(inicio: Timestamp, fim: Timestamp)

  predicate InWindow(t: Timestamp, w: Window) {
    w.inicio <= t <= w.fim
  }

  /** Outcome of a remote insert: the row the database stored, with the id and creation
      time it assigned, or a thrown error. */
  datatype Insert = Inserted(id: string, createdAt: string) | InsertFailed
}
