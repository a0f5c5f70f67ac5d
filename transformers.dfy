/** Mappers of src/utils/dataTransformers.ts between the application records
    (camelCase) and the database rows and insert payloads (snake_case).

    Numeric columns that the database returns as text (`preco`, `preco_base`,
    `custo_unitario`, `valor_total`) and the ISO strings of instants are modelled by the
    values they stand for: `parseFloat` of the rendered number and `new Date` of
    `toISOString()` are taken to give the value back. */
module DataTransformers {
  import opened Wrappers
  import opened Types

  // ---------------------------------------------------------------- rows and payloads

  datatype FuncionariaRow = FuncionariaRow(id: string, nome: string, cargo: string,
                                           is_dona: bool, created_at: string)
  datatype FuncionariaPayload = FuncionariaPayload(nome: string, cargo: string, is_dona: bool)

  datatype ServicoRow = ServicoRow(id: string, nome: string, preco_base: real,
                                   duracao_minutos: int, cor_padrao: string, created_at: string)
  datatype ServicoPayload = ServicoPayload(nome: string, preco_base: real,
                                           duracao_minutos: int, cor_padrao: string)

  datatype AgendamentoRow = AgendamentoRow(
    id: string, cliente_nome: string, cliente_whatsapp: string, funcionaria_id: string,
    servico_id: string, preco: real, duracao_minutos: int, data_hora: Timestamp, cor: string,
    observacoes: Option<string>, status: string, created_at: string)
  datatype AgendamentoPayload = AgendamentoPayload(
    cliente_nome: string, cliente_whatsapp: string, funcionaria_id: string,
    servico_id: string, preco: real, duracao_minutos: int, data_hora: Timestamp, cor: string,
    observacoes: Option<string>, status: string)

  datatype ProdutoRow = ProdutoRow(id: string, nome: string, marca: string,
                                   quantidade_atual: real, unidade: string,
                                   estoque_minimo: real, custo_unitario: real,
                                   created_at: string)
  datatype ProdutoPayload = ProdutoPayload(nome: string, marca: string, quantidade_atual: real,
                                           unidade: string, estoque_minimo: real,
                                           custo_unitario: real)

  datatype RegistroCompraRow = RegistroCompraRow(id: string, produto_id: string,
                                                 quantidade: real, custo_unitario: real,
                                                 valor_total: real, data_compra: Timestamp,
                                                 created_at: string)
  datatype RegistroCompraPayload = RegistroCompraPayload(produto_id: string, quantidade: real,
                                                         custo_unitario: real,
                                                         valor_total: real,
                                                         data_compra: Timestamp)

  // ---------------------------------------------------------------- what the table stores
  // An insert returns the payload as a row, with the id and creation time the
  // database assigned.

  function FuncionariaInserted(p: FuncionariaPayload, id: string, createdAt: string): FuncionariaRow {
    FuncionariaRow(id, p.nome, p.cargo, p.is_dona, createdAt)
  }

  function ServicoInserted(p: ServicoPayload, id: string, createdAt: string): ServicoRow {
    ServicoRow(id, p.nome, p.preco_base, p.duracao_minutos, p.cor_padrao, createdAt)
  }

  function AgendamentoInserted(p: AgendamentoPayload, id: string, createdAt: string): AgendamentoRow {
    AgendamentoRow(id, p.cliente_nome, p.cliente_whatsapp, p.funcionaria_id, p.servico_id,
                   p.preco, p.duracao_minutos, p.data_hora, p.cor, p.observacoes, p.status,
                   createdAt)
  }

  function ProdutoInserted(p: ProdutoPayload, id: string, createdAt: string): ProdutoRow {
    ProdutoRow(id, p.nome, p.marca, p.quantidade_atual, p.unidade, p.estoque_minimo,
               p.custo_unitario, createdAt)
  }

  function RegistroCompraInserted(p: RegistroCompraPayload, id: string, createdAt: string): RegistroCompraRow {
    RegistroCompraRow(id, p.produto_id, p.quantidade, p.custo_unitario, p.valor_total,
                      p.data_compra, createdAt)
  }

  // ---------------------------------------------------------------- mappers
  // The `…ToDb` mappers take the record without its id: the id of the argument is
  // ignored.

  function DbToFuncionaria(db: FuncionariaRow): Funcionaria {
    Funcionaria(db.id, db.nome, db.cargo, db.is_dona)
  }

  function FuncionariaToDb(f: Funcionaria): FuncionariaPayload {
    FuncionariaPayload(f.nome, f.cargo, f.isDona)
  }

  function DbToServico(db: ServicoRow): Servico {
    Servico(db.id, db.nome, db.preco_base, db.duracao_minutos, db.cor_padrao)
  }

  function ServicoToDb(s: Servico): ServicoPayload {
    ServicoPayload(s.nome, s.precoBase, s.duracaoMinutos, s.corPadrao)
  }

  /** The stored status string is copied without checking it is one of the three
      declared statuses. */
  function DbToAgendamento(db: AgendamentoRow): (a: Agendamento)
    ensures a.status == db.status
  {
    Agendamento(db.id, db.cliente_nome, db.cliente_whatsapp, db.funcionaria_id, db.servico_id,
                db.preco, db.duracao_minutos, db.data_hora, db.cor, db.observacoes, db.status)
  }

  function AgendamentoToDb(a: Agendamento): (p: AgendamentoPayload)
    ensures p.status == a.status
  {
    AgendamentoPayload(a.clienteNome, a.clienteWhatsapp, a.funcionariaId, a.servicoId, a.preco,
                       a.duracaoMinutos, a.dataHora, a.cor, a.observacoes, a.status)
  }

  function DbToProduto(db: ProdutoRow): Produto {
    Produto(db.id, db.nome, db.marca, db.quantidade_atual, db.unidade, db.estoque_minimo,
            db.custo_unitario)
  }

  function ProdutoToDb(p: Produto): ProdutoPayload {
    ProdutoPayload(p.nome, p.marca, p.quantidadeAtual, p.unidade, p.estoqueMinimo,
                   p.custoUnitario)
  }

  function DbToRegistroCompra(db: RegistroCompraRow): RegistroCompra {
    RegistroCompra(db.id, db.produto_id, db.quantidade, db.custo_unitario, db.valor_total,
                   db.data_compra)
  }

  function RegistroCompraToDb(c: RegistroCompra): RegistroCompraPayload {
    RegistroCompraPayload(c.produtoId, c.quantidade, c.custoUnitario, c.valorTotal, c.dataCompra)
  }

  // ---------------------------------------------------------------- round trips
  // Writing a record and reading back the stored row gives the record with the id the
  // database assigned; reading a row and writing it gives the row without its id.

  lemma FuncionariaRoundTrip(f: Funcionaria, id: string, createdAt: string)
    ensures DbToFuncionaria(FuncionariaInserted(FuncionariaToDb(f), id, createdAt)) == f.(id := id)
  {
  }

  lemma FuncionariaRowRoundTrip(db: FuncionariaRow)
    ensures FuncionariaInserted(FuncionariaToDb(DbToFuncionaria(db)), db.id, db.created_at) == db
  {
  }

  lemma ServicoRoundTrip(s: Servico, id: string, createdAt: string)
    ensures DbToServico(ServicoInserted(ServicoToDb(s), id, createdAt)) == s.(id := id)
  {
  }

  lemma AgendamentoRoundTrip(a: Agendamento, id: string, createdAt: string)
    ensures DbToAgendamento(AgendamentoInserted(AgendamentoToDb(a), id, createdAt)) == a.(id := id)
  {
  }

  lemma AgendamentoRowRoundTrip(db: AgendamentoRow)
    ensures AgendamentoInserted(AgendamentoToDb(DbToAgendamento(db)), db.id, db.created_at) == db
  {
  }

  lemma ProdutoRoundTrip(p: Produto, id: string, createdAt: string)
    ensures DbToProduto(ProdutoInserted(ProdutoToDb(p), id, createdAt)) == p.(id := id)
  {
  }

  lemma RegistroCompraRoundTrip(c: RegistroCompra, id: string, createdAt: string)
    ensures DbToRegistroCompra(RegistroCompraInserted(RegistroCompraToDb(c), id, createdAt))
            == c.(id := id)
  {
  }

  // ---------------------------------------------------------------- partial updates

  /** `Partial<Omit<Agendamento, 'id'>>`: `None` is an absent field. An explicit
      `undefined` is modelled only for `observacoes`, which is itself optional in the
      record: `Some(None)`. */
  datatype AgendamentoPatch = AgendamentoPatch(
    clienteNome: Option<string>, clienteWhatsapp: Option<string>,
    funcionariaId: Option<string>, servicoId: Option<string>, preco: Option<real>,
    duracaoMinutos: Option<int>, dataHora: Option<Timestamp>, cor: Option<string>,
    observacoes: Option<Option<string>>, status: Option<string>)

  const EmptyPatch: AgendamentoPatch :=
    AgendamentoPatch(None, None, None, None, None, None, None, None, None, None)

  /** A column value of an update payload. */
  datatype DbValue = Text(s: string) | Number(x: real) | Integer(n: int) | Instant(t: Timestamp)
                   | Null

  /** The columns of the appointments table an update may set. */
  datatype Column = ClienteNomeCol | ClienteWhatsappCol | FuncionariaIdCol | ServicoIdCol
                  | PrecoCol | DuracaoMinutosCol | DataHoraCol | CorCol | ObservacoesCol
                  | StatusCol

  /** Name of the column in the table. */
  function ColumnName(c: Column): string {
    match c
    case ClienteNomeCol => "cliente_nome"
    case ClienteWhatsappCol => "cliente_whatsapp"
    case FuncionariaIdCol => "funcionaria_id"
    case ServicoIdCol => "servico_id"
    case PrecoCol => "preco"
    case DuracaoMinutosCol => "duracao_minutos"
    case DataHoraCol => "data_hora"
    case CorCol => "cor"
    case ObservacoesCol => "observacoes"
    case StatusCol => "status"
  }

  /** The value a patch gives column `c`, or `None` when the field is undefined in it. */
  function FieldValue(p: AgendamentoPatch, c: Column): Option<DbValue> {
    match c
    case ClienteNomeCol => if p.clienteNome.Some? then Some(Text(p.clienteNome.value)) else None
    case ClienteWhatsappCol =>
      if p.clienteWhatsapp.Some? then Some(Text(p.clienteWhatsapp.value)) else None
    case FuncionariaIdCol =>
      if p.funcionariaId.Some? then Some(Text(p.funcionariaId.value)) else None
    case ServicoIdCol => if p.servicoId.Some? then Some(Text(p.servicoId.value)) else None
    case PrecoCol => if p.preco.Some? then Some(Number(p.preco.value)) else None
    case DuracaoMinutosCol =>
      if p.duracaoMinutos.Some? then Some(Integer(p.duracaoMinutos.value)) else None
    case DataHoraCol => if p.dataHora.Some? then Some(Instant(p.dataHora.value)) else None
    case CorCol => if p.cor.Some? then Some(Text(p.cor.value)) else None
    case ObservacoesCol =>
      if p.observacoes.Some? && p.observacoes.value.Some?
      then Some(Text(p.observacoes.value.value)) else None
    case StatusCol => if p.status.Some? then Some(Text(p.status.value)) else None
  }

  /** The update payload: a column is present exactly when the patch defines its field,
      with that field's value. A patch that carries `observacoes: undefined` leaves the
      column out. */
  function AgendamentoPartialToDb(p: AgendamentoPatch): (updateData: map<Column, DbValue>)
    ensures ClienteNomeCol in updateData <==> p.clienteNome.Some?
    ensures StatusCol in updateData <==> p.status.Some?
    ensures DataHoraCol in updateData <==> p.dataHora.Some?
    ensures p.dataHora.Some? ==> updateData[DataHoraCol] == Instant(p.dataHora.value)
    ensures ObservacoesCol in updateData <==> p.observacoes.Some? && p.observacoes.value.Some?
    ensures p == EmptyPatch ==> updateData == map[]
  {
    map c | FieldValue(p, c).Some? :: FieldValue(p, c).value
  }

  /** The row as the database stores it after an update. A null clears the nullable
      `observacoes`; a value of the wrong type for its column leaves the column as it was
      (the payloads built here have none). */
  function ApplyUpdate(db: AgendamentoRow, updateData: map<Column, DbValue>): AgendamentoRow {
    var text := (c: Column, prior: string) =>
      if c in updateData && updateData[c].Text? then updateData[c].s else prior;
    db.(cliente_nome := text(ClienteNomeCol, db.cliente_nome),
        cliente_whatsapp := text(ClienteWhatsappCol, db.cliente_whatsapp),
        funcionaria_id := text(FuncionariaIdCol, db.funcionaria_id),
        servico_id := text(ServicoIdCol, db.servico_id),
        preco := if PrecoCol in updateData && updateData[PrecoCol].Number?
                 then updateData[PrecoCol].x else db.preco,
        duracao_minutos := if DuracaoMinutosCol in updateData &&
                              updateData[DuracaoMinutosCol].Integer?
                           then updateData[DuracaoMinutosCol].n else db.duracao_minutos,
        data_hora := if DataHoraCol in updateData && updateData[DataHoraCol].Instant?
                     then updateData[DataHoraCol].t else db.data_hora,
        cor := text(CorCol, db.cor),
        observacoes := if ObservacoesCol in updateData && updateData[ObservacoesCol].Text?
                       then Some(updateData[ObservacoesCol].s)
                       else if ObservacoesCol in updateData && updateData[ObservacoesCol].Null?
                       then None
                       else db.observacoes,
        status := text(StatusCol, db.status))
  }

  /** Object spread `{ ...a, ...patch }`: every key the patch carries overwrites, an
      explicit `observacoes: undefined` included. */
  function MergePatch(a: Agendamento, p: AgendamentoPatch): Agendamento {
    a.(clienteNome := if p.clienteNome.Some? then p.clienteNome.value else a.clienteNome,
       clienteWhatsapp := if p.clienteWhatsapp.Some? then p.clienteWhatsapp.value
                          else a.clienteWhatsapp,
       funcionariaId := if p.funcionariaId.Some? then p.funcionariaId.value else a.funcionariaId,
       servicoId := if p.servicoId.Some? then p.servicoId.value else a.servicoId,
       preco := if p.preco.Some? then p.preco.value else a.preco,
       duracaoMinutos := if p.duracaoMinutos.Some? then p.duracaoMinutos.value
                         else a.duracaoMinutos,
       dataHora := if p.dataHora.Some? then p.dataHora.value else a.dataHora,
       cor := if p.cor.Some? then p.cor.value else a.cor,
       observacoes := if p.observacoes.Some? then p.observacoes.value else a.observacoes,
       status := if p.status.Some? then p.status.value else a.status)
  }

  /** The local copy the hook keeps after an edit agrees with the row the database holds
      after applying the update payload, unless the patch clears `observacoes`: the
      spread then drops the note locally while the payload leaves the column as it was. */
  lemma UpdateMatchesLocalMerge(db: AgendamentoRow, p: AgendamentoPatch)
    ensures DbToAgendamento(ApplyUpdate(db, AgendamentoPartialToDb(p)))
            == MergePatch(DbToAgendamento(db), p)
        <==> !(p.observacoes == Some(None) && db.observacoes.Some?)
  {
    ApplyPartial(db, p);
  }

  /** The row after the update payload of a patch: each defined field overwrites its
      column, except a cleared `observacoes`, which the payload leaves out. */
  lemma ApplyPartial(db: AgendamentoRow, p: AgendamentoPatch)
    ensures var u := ApplyUpdate(db, AgendamentoPartialToDb(p));
            u.id == db.id && u.created_at == db.created_at &&
            u.cliente_nome == (if p.clienteNome.Some? then p.clienteNome.value else db.cliente_nome) &&
            u.cliente_whatsapp == (if p.clienteWhatsapp.Some? then p.clienteWhatsapp.value
                                   else db.cliente_whatsapp) &&
            u.funcionaria_id == (if p.funcionariaId.Some? then p.funcionariaId.value
                                 else db.funcionaria_id) &&
            u.servico_id == (if p.servicoId.Some? then p.servicoId.value else db.servico_id) &&
            u.cor == (if p.cor.Some? then p.cor.value else db.cor) &&
            u.status == (if p.status.Some? then p.status.value else db.status)
    ensures var u := ApplyUpdate(db, AgendamentoPartialToDb(p));
            u.preco == (if p.preco.Some? then p.preco.value else db.preco) &&
            u.duracao_minutos == (if p.duracaoMinutos.Some? then p.duracaoMinutos.value
                                  else db.duracao_minutos) &&
            u.data_hora == (if p.dataHora.Some? then p.dataHora.value else db.data_hora) &&
            u.observacoes == (if p.observacoes.Some? && p.observacoes.value.Some?
                              then p.observacoes.value else db.observacoes)
  {
    PayloadColumn(p, ClienteNomeCol);
    PayloadColumn(p, ClienteWhatsappCol);
    PayloadColumn(p, FuncionariaIdCol);
    PayloadColumn(p, ServicoIdCol);
    PayloadColumn(p, PrecoCol);
    PayloadColumn(p, DuracaoMinutosCol);
    PayloadColumn(p, DataHoraCol);
    PayloadColumn(p, CorCol);
    PayloadColumn(p, ObservacoesCol);
    PayloadColumn(p, StatusCol);
  }

  lemma PayloadColumn(p: AgendamentoPatch, c: Column)
    ensures c in AgendamentoPartialToDb(p) <==> FieldValue(p, c).Some?
    ensures c in AgendamentoPartialToDb(p) ==> AgendamentoPartialToDb(p)[c] == FieldValue(p, c).value
  {
  }

  /** Column by column: each of the ten columns is in the payload exactly when the patch
      defines its field, and then holds that field's value. */
  lemma PartialToDbText(p: AgendamentoPatch)
    ensures var u := AgendamentoPartialToDb(p);
            (ClienteNomeCol in u <==> p.clienteNome.Some?) &&
            (p.clienteNome.Some? ==> u[ClienteNomeCol] == Text(p.clienteNome.value)) &&
            (ClienteWhatsappCol in u <==> p.clienteWhatsapp.Some?) &&
            (p.clienteWhatsapp.Some? ==> u[ClienteWhatsappCol] == Text(p.clienteWhatsapp.value)) &&
            (FuncionariaIdCol in u <==> p.funcionariaId.Some?) &&
            (p.funcionariaId.Some? ==> u[FuncionariaIdCol] == Text(p.funcionariaId.value)) &&
            (ServicoIdCol in u <==> p.servicoId.Some?) &&
            (p.servicoId.Some? ==> u[ServicoIdCol] == Text(p.servicoId.value)) &&
            (CorCol in u <==> p.cor.Some?) &&
            (p.cor.Some? ==> u[CorCol] == Text(p.cor.value)) &&
            (StatusCol in u <==> p.status.Some?) &&
            (p.status.Some? ==> u[StatusCol] == Text(p.status.value))
  {
    PayloadColumn(p, ClienteNomeCol);
    PayloadColumn(p, ClienteWhatsappCol);
    PayloadColumn(p, FuncionariaIdCol);
    PayloadColumn(p, ServicoIdCol);
    PayloadColumn(p, CorCol);
    PayloadColumn(p, StatusCol);
  }

  /** The same for the price, duration, start and note columns; a note carried as
      `undefined` leaves its column out. */
  lemma PartialToDbValues(p: AgendamentoPatch)
    ensures var u := AgendamentoPartialToDb(p);
            (PrecoCol in u <==> p.preco.Some?) &&
            (p.preco.Some? ==> u[PrecoCol] == Number(p.preco.value)) &&
            (DuracaoMinutosCol in u <==> p.duracaoMinutos.Some?) &&
            (p.duracaoMinutos.Some? ==> u[DuracaoMinutosCol] == Integer(p.duracaoMinutos.value)) &&
            (DataHoraCol in u <==> p.dataHora.Some?) &&
            (p.dataHora.Some? ==> u[DataHoraCol] == Instant(p.dataHora.value)) &&
            (ObservacoesCol in u <==> p.observacoes.Some? && p.observacoes.value.Some?) &&
            (p.observacoes.Some? && p.observacoes.value.Some? ==>
               u[ObservacoesCol] == Text(p.observacoes.value.value))
  {
    PayloadColumn(p, PrecoCol);
    PayloadColumn(p, DuracaoMinutosCol);
    PayloadColumn(p, DataHoraCol);
    PayloadColumn(p, ObservacoesCol);
  }

  /** A patch that carries `observacoes: undefined` for an appointment with a note: the
      local copy loses the note while the row the update leaves keeps it. */
  lemma ClearedNoteDiverges(db: AgendamentoRow, nota: string)
    requires db.observacoes == Some(nota)
    ensures var p := EmptyPatch.(observacoes := Some(None));
            ApplyUpdate(db, AgendamentoPartialToDb(p)).observacoes == Some(nota) &&
            MergePatch(DbToAgendamento(db), p).observacoes == None
  {
    PayloadColumn(EmptyPatch.(observacoes := Some(None)), ObservacoesCol);
  }

  // ---------------------------------------------------------------- corrected payload

  /** The value the corrected payload gives column `c`: the patch's value as before, and
      a null `observacoes` when the patch carries that key as `undefined`. */
  function UpdateValue(p: AgendamentoPatch, c: Column): Option<DbValue> {
    if c == ObservacoesCol && p.observacoes == Some(None) then Some(Null) else FieldValue(p, c)
  }

  /** The update payload with the cleared note sent as a null column: it is the payload of
      `AgendamentoPartialToDb` plus, when the patch carries `observacoes: undefined`, that
      column set to null. */
  function AgendamentoUpdateData(p: AgendamentoPatch): (updateData: map<Column, DbValue>)
    ensures ObservacoesCol in updateData <==> p.observacoes.Some?
    ensures p.observacoes == Some(None) ==> updateData[ObservacoesCol] == Null
    ensures forall c :: c != ObservacoesCol ==>
              (c in updateData <==> c in AgendamentoPartialToDb(p))
    ensures forall c :: c in AgendamentoPartialToDb(p) ==>
              c in updateData && updateData[c] == AgendamentoPartialToDb(p)[c]
  {
    var u := map c | UpdateValue(p, c).Some? :: UpdateValue(p, c).value;
    forall c ensures c in AgendamentoPartialToDb(p) ==> c in u && u[c] == AgendamentoPartialToDb(p)[c] {
      PayloadColumn(p, c);
    }
    forall c | c != ObservacoesCol ensures c in u <==> c in AgendamentoPartialToDb(p) {
      PayloadColumn(p, c);
    }
    u
  }

  lemma UpdateDataColumn(p: AgendamentoPatch, c: Column)
    ensures c in AgendamentoUpdateData(p) <==> UpdateValue(p, c).Some?
    ensures c in AgendamentoUpdateData(p) ==> AgendamentoUpdateData(p)[c] == UpdateValue(p, c).value
  {
  }

  /** With the corrected payload the local copy the hook keeps after an edit is exactly
      the row the database holds after the update, whatever the patch. */
  lemma UpdateDataMatchesLocalMerge(db: AgendamentoRow, p: AgendamentoPatch)
    ensures DbToAgendamento(ApplyUpdate(db, AgendamentoUpdateData(p)))
            == MergePatch(DbToAgendamento(db), p)
  {
    ApplyUpdateDataText(db, p);
    ApplyUpdateDataValues(db, p);
  }

  /** The text columns after the corrected payload: each defined field overwrites. */
  lemma ApplyUpdateDataText(db: AgendamentoRow, p: AgendamentoPatch)
    ensures var u := ApplyUpdate(db, AgendamentoUpdateData(p));
            u.id == db.id &&
            u.cliente_nome == (if p.clienteNome.Some? then p.clienteNome.value else db.cliente_nome) &&
            u.cliente_whatsapp == (if p.clienteWhatsapp.Some? then p.clienteWhatsapp.value
                                   else db.cliente_whatsapp) &&
            u.funcionaria_id == (if p.funcionariaId.Some? then p.funcionariaId.value
                                 else db.funcionaria_id) &&
            u.servico_id == (if p.servicoId.Some? then p.servicoId.value else db.servico_id) &&
            u.cor == (if p.cor.Some? then p.cor.value else db.cor) &&
            u.status == (if p.status.Some? then p.status.value else db.status)
  {
    UpdateDataColumn(p, ClienteNomeCol);
    UpdateDataColumn(p, ClienteWhatsappCol);
    UpdateDataColumn(p, FuncionariaIdCol);
    UpdateDataColumn(p, ServicoIdCol);
    UpdateDataColumn(p, CorCol);
    UpdateDataColumn(p, StatusCol);
  }

  /** The other columns after the corrected payload: each defined field overwrites, and a
      note carried as `undefined` is cleared. */
  lemma ApplyUpdateDataValues(db: AgendamentoRow, p: AgendamentoPatch)
    ensures var u := ApplyUpdate(db, AgendamentoUpdateData(p));
            u.preco == (if p.preco.Some? then p.preco.value else db.preco) &&
            u.duracao_minutos == (if p.duracaoMinutos.Some? then p.duracaoMinutos.value
                                  else db.duracao_minutos) &&
            u.data_hora == (if p.dataHora.Some? then p.dataHora.value else db.data_hora) &&
            u.observacoes == (if p.observacoes.Some? then p.observacoes.value else db.observacoes)
  {
    UpdateDataColumn(p, PrecoCol);
    UpdateDataColumn(p, DuracaoMinutosCol);
    UpdateDataColumn(p, DataHoraCol);
    UpdateDataColumn(p, ObservacoesCol);
  }

  /** Each field the patch carries takes the patch's value and each other field keeps
      its own, the id included; merging the empty patch changes nothing, and merging the
      same patch twice is merging it once. */
  lemma MergePatchLaws(a: Agendamento, p: AgendamentoPatch)
    ensures MergePatch(a, p).id == a.id
    ensures p.clienteNome.None? ==> MergePatch(a, p).clienteNome == a.clienteNome
    ensures p.clienteNome.Some? ==> MergePatch(a, p).clienteNome == p.clienteNome.value
    ensures p.clienteWhatsapp.None? ==> MergePatch(a, p).clienteWhatsapp == a.clienteWhatsapp
    ensures p.clienteWhatsapp.Some? ==>
              MergePatch(a, p).clienteWhatsapp == p.clienteWhatsapp.value
    ensures p.funcionariaId.None? ==> MergePatch(a, p).funcionariaId == a.funcionariaId
    ensures p.funcionariaId.Some? ==> MergePatch(a, p).funcionariaId == p.funcionariaId.value
    ensures p.servicoId.None? ==> MergePatch(a, p).servicoId == a.servicoId
    ensures p.servicoId.Some? ==> MergePatch(a, p).servicoId == p.servicoId.value
    ensures p.preco.None? ==> MergePatch(a, p).preco == a.preco
    ensures p.preco.Some? ==> MergePatch(a, p).preco == p.preco.value
    ensures p.duracaoMinutos.None? ==> MergePatch(a, p).duracaoMinutos == a.duracaoMinutos
    ensures p.duracaoMinutos.Some? ==> MergePatch(a, p).duracaoMinutos == p.duracaoMinutos.value
    ensures p.dataHora.None? ==> MergePatch(a, p).dataHora == a.dataHora
    ensures p.dataHora.Some? ==> MergePatch(a, p).dataHora == p.dataHora.value
    ensures p.cor.None? ==> MergePatch(a, p).cor == a.cor
    ensures p.cor.Some? ==> MergePatch(a, p).cor == p.cor.value
    ensures p.observacoes.None? ==> MergePatch(a, p).observacoes == a.observacoes
    ensures p.observacoes.Some? ==> MergePatch(a, p).observacoes == p.observacoes.value
    ensures p.status.None? ==> MergePatch(a, p).status == a.status
    ensures p.status.Some? ==> MergePatch(a, p).status == p.status.value
    ensures MergePatch(a, EmptyPatch) == a
    ensures MergePatch(MergePatch(a, p), p) == MergePatch(a, p)
  {
  }
}
