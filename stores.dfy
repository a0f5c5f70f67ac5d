/** The list-keeping hooks of src/hooks: each owns a list of records that every
    operation replaces after its remote call succeeded. The remote call is a parameter:
    the row the database returned (`Insert`), or whether the update or delete threw
    (`ok`). A call that throws leaves the local list as it was. */
module Stores {
  import opened Wrappers
  import opened Types
  import opened Seqs
  import opened DataTransformers

  // ---------------------------------------------------------------- list updates

  /** `s.map(x => x.id === id ? f(x) : x)`. */
  function UpdateById<T>(s: seq<T>, idOf: T -> string, id: string, f: T -> T): (r: seq<T>)
    ensures |r| == |s|
    ensures forall i :: 0 <= i < |s| && idOf(s[i]) == id ==> r[i] == f(s[i])
    ensures forall i :: 0 <= i < |s| && idOf(s[i]) != id ==> r[i] == s[i]
  {
    MapWhere(s, x => idOf(x) == id, f)
  }

  /** `s.filter(x => x.id !== id)`. */
  function RemoveById<T>(s: seq<T>, idOf: T -> string, id: string): seq<T> {
    Filter(s, x => idOf(x) != id)
  }

  /** Delete keeps exactly the elements with another id, and drops one element per
      occurrence of the id. */
  lemma {:induction false} RemoveByIdSpec<T>(s: seq<T>, idOf: T -> string, id: string)
    ensures forall x :: x in RemoveById(s, idOf, id) <==> x in s && idOf(x) != id
    ensures |RemoveById(s, idOf, id)| == |s| - Count(s, x => idOf(x) == id)
  {
    var r := RemoveById(s, idOf, id);
    forall x | x in s && idOf(x) != id ensures x in r {
      var i :| 0 <= i < |s| && s[i] == x;
    }
    CountSplit(s, x => idOf(x) == id, x => idOf(x) != id);
  }

  /** Delete keeps the relative order: deleting from a concatenation is concatenating the
      deletions. */
  lemma RemoveByIdKeepsOrder<T>(a: seq<T>, b: seq<T>, idOf: T -> string, id: string)
    ensures RemoveById(a + b, idOf, id) == RemoveById(a, idOf, id) + RemoveById(b, idOf, id)
  {
    FilterConcat(a, b, x => idOf(x) != id);
  }

  /** Deleting an id nobody has changes nothing; deleting twice is deleting once. */
  lemma RemoveByIdLaws<T>(s: seq<T>, idOf: T -> string, id: string)
    ensures (forall i :: 0 <= i < |s| ==> idOf(s[i]) != id) ==> RemoveById(s, idOf, id) == s
    ensures RemoveById(RemoveById(s, idOf, id), idOf, id) == RemoveById(s, idOf, id)
  {
    if forall i :: 0 <= i < |s| ==> idOf(s[i]) != id {
      FilterAll(s, x => idOf(x) != id);
    }
    FilterAll(RemoveById(s, idOf, id), x => idOf(x) != id);
  }

  /** An update that keeps ids keeps the list of ids, and so the order of the records;
      applying an idempotent update twice is applying it once. */
  lemma UpdateByIdLaws<T>(s: seq<T>, idOf: T -> string, id: string, f: T -> T)
    requires forall x :: idOf(f(x)) == idOf(x)
    ensures MapSeq(UpdateById(s, idOf, id, f), idOf) == MapSeq(s, idOf)
    ensures (forall x :: f(f(x)) == f(x)) ==>
              UpdateById(UpdateById(s, idOf, id, f), idOf, id, f) == UpdateById(s, idOf, id, f)
  {
  }

  /** The edit of the appointment hook: the patch is merged into every appointment with
      that id. */
  function MergeById(s: seq<Agendamento>, id: string, p: AgendamentoPatch): seq<Agendamento> {
    UpdateById(s, (a: Agendamento) => a.id, id, a => MergePatch(a, p))
  }

  /** Merging keeps length, order and ids; an appointment with another id is untouched;
      a field the patch leaves out keeps its value in the edited appointment; merging the
      same patch again changes nothing. */
  lemma MergeByIdLaws(s: seq<Agendamento>, id: string, p: AgendamentoPatch)
    ensures |MergeById(s, id, p)| == |s|
    ensures forall i :: 0 <= i < |s| ==> MergeById(s, id, p)[i].id == s[i].id
    ensures forall i :: 0 <= i < |s| && s[i].id != id ==> MergeById(s, id, p)[i] == s[i]
    ensures forall i :: 0 <= i < |s| && s[i].id == id ==>
              MergeById(s, id, p)[i] == MergePatch(s[i], p)
    ensures forall i :: 0 <= i < |s| && s[i].id == id && p.status.None? ==>
              MergeById(s, id, p)[i].status == s[i].status
    ensures forall i :: 0 <= i < |s| && s[i].id == id && p.dataHora.None? ==>
              MergeById(s, id, p)[i].dataHora == s[i].dataHora
    ensures forall i :: 0 <= i < |s| && s[i].id == id && p.observacoes.None? ==>
              MergeById(s, id, p)[i].observacoes == s[i].observacoes
    ensures MergeById(MergeById(s, id, p), id, p) == MergeById(s, id, p)
    ensures MergeById(s, id, EmptyPatch) == s
  {
    UpdateByIdLaws(s, (a: Agendamento) => a.id, id, a => MergePatch(a, p));
    forall a: Agendamento ensures MergePatch(MergePatch(a, p), p) == MergePatch(a, p) {
      MergePatchLaws(a, p);
    }
    forall a: Agendamento ensures MergePatch(a, EmptyPatch) == a {
      MergePatchLaws(a, p);
    }
    assert MergeById(s, id, EmptyPatch) == s;
  }

  /** The local stock increment of a purchase: every product with that id gains
      `quantidade`; nothing else changes. */
  function AddStock(s: seq<Produto>, produtoId: string, quantidade: real): (r: seq<Produto>)
    ensures |r| == |s|
    ensures forall i :: 0 <= i < |s| ==>
              r[i] == s[i].(quantidadeAtual := s[i].quantidadeAtual +
                                                 (if s[i].id == produtoId then quantidade else 0.0))
  {
    UpdateById(s, (p: Produto) => p.id, produtoId,
               (p: Produto) => p.(quantidadeAtual := p.quantidadeAtual + quantidade))
  }

  /** Stock of one product, and the increment a purchase of `quantidade` of product
      `produtoId` brings it. */
  function Stock(p: Produto): real {
    p.quantidadeAtual
  }

  function Gain(produtoId: string, quantidade: real): Produto -> real {
    (p: Produto) => if p.id == produtoId then quantidade else 0.0
  }

  /** The stock of the whole catalogue grows by `quantidade` per product carrying the
      id, and by nothing when no product carries it. */
  lemma {:induction false} AddStockTotal(s: seq<Produto>, produtoId: string, quantidade: real)
    ensures SumBy(AddStock(s, produtoId, quantidade), Stock)
         == SumBy(s, Stock) + SumBy(s, Gain(produtoId, quantidade))
    ensures (forall i :: 0 <= i < |s| ==> s[i].id != produtoId) ==>
              SumBy(AddStock(s, produtoId, quantidade), Stock) == SumBy(s, Stock)
  {
    if s != [] {
      var init := s[..|s| - 1];
      var r := AddStock(s, produtoId, quantidade);
      AddStockTotal(init, produtoId, quantidade);
      assert r[..|s| - 1] == AddStock(init, produtoId, quantidade);
    }
  }

  // ---------------------------------------------------------------- hooks

  /** `useAgendamentos`. */
  class AgendamentosStore {
    var agendamentos: seq<Agendamento>
    var loading: bool

    constructor()
      ensures agendamentos == [] && !loading
    {
      agendamentos := [];
      loading := false;
    }

    /** Replaces the list by the rows read, or keeps it when the read throws. */
    method Load(rows: Option<seq<AgendamentoRow>>) returns (ok: bool)
      modifies this
      ensures ok <==> rows.Some?
      ensures ok ==> agendamentos == MapSeq(rows.value, DbToAgendamento)
      ensures !ok ==> agendamentos == old(agendamentos)
      ensures !loading
    {
      loading := true;
      if rows.Some? {
        agendamentos := MapSeq(rows.value, DbToAgendamento);
        ok := true;
      } else {
        ok := false;
      }
      loading := false;
    }

    /** Appends the stored row: the appointment with the id the database assigned. */
    method Adicionar(agendamento: Agendamento, insert: Insert) returns (ok: bool)
      modifies this
      ensures ok <==> insert.Inserted?
      ensures ok ==> agendamentos == old(agendamentos) + [agendamento.(id := insert.id)]
      ensures !ok ==> agendamentos == old(agendamentos)
      ensures loading == old(loading)
    {
      var dbData := AgendamentoToDb(agendamento);
      if insert.InsertFailed? {
        return false;
      }
      var novo := DbToAgendamento(AgendamentoInserted(dbData, insert.id, insert.createdAt));
      AgendamentoRoundTrip(agendamento, insert.id, insert.createdAt);
      agendamentos := agendamentos + [novo];
      ok := true;
    }

    /** Sends the payload of the defined fields (a cleared note as a null column), then
        merges the patch locally. */
    method Editar(id: string, patch: AgendamentoPatch, remoteOk: bool)
      returns (updateData: map<Column, DbValue>, ok: bool)
      modifies this
      ensures updateData == AgendamentoUpdateData(patch)
      ensures ok == remoteOk
      ensures ok ==> agendamentos == MergeById(old(agendamentos), id, patch)
      ensures !ok ==> agendamentos == old(agendamentos)
      ensures loading == old(loading)
    {
      updateData := AgendamentoUpdateData(patch);
      if !remoteOk {
        return updateData, false;
      }
      agendamentos := MergeById(agendamentos, id, patch);
      ok := true;
    }

    method Excluir(id: string, remoteOk: bool) returns (ok: bool)
      modifies this
      ensures ok == remoteOk
      ensures ok ==> agendamentos == RemoveById(old(agendamentos), (a: Agendamento) => a.id, id)
      ensures !ok ==> agendamentos == old(agendamentos)
      ensures loading == old(loading)
    {
      if !remoteOk {
        return false;
      }
      agendamentos := RemoveById(agendamentos, (a: Agendamento) => a.id, id);
      ok := true;
    }
  }

  /** `useFuncionarias`. */
  class FuncionariasStore {
    var funcionarias: seq<Funcionaria>
    var loading: bool

    constructor()
      ensures funcionarias == [] && !loading
    {
      funcionarias := [];
      loading := false;
    }

    method Load(rows: Option<seq<FuncionariaRow>>) returns (ok: bool)
      modifies this
      ensures ok <==> rows.Some?
      ensures ok ==> funcionarias == MapSeq(rows.value, DbToFuncionaria)
      ensures !ok ==> funcionarias == old(funcionarias)
      ensures !loading
    {
      loading := true;
      if rows.Some? {
        funcionarias := MapSeq(rows.value, DbToFuncionaria);
        ok := true;
      } else {
        ok := false;
      }
      loading := false;
    }

    method Adicionar(funcionaria: Funcionaria, insert: Insert) returns (ok: bool)
      modifies this
      ensures ok <==> insert.Inserted?
      ensures ok ==> funcionarias == old(funcionarias) + [funcionaria.(id := insert.id)]
      ensures !ok ==> funcionarias == old(funcionarias)
      ensures loading == old(loading)
    {
      var dbData := FuncionariaToDb(funcionaria);
      if insert.InsertFailed? {
        return false;
      }
      var nova := DbToFuncionaria(FuncionariaInserted(dbData, insert.id, insert.createdAt));
      FuncionariaRoundTrip(funcionaria, insert.id, insert.createdAt);
      funcionarias := funcionarias + [nova];
      ok := true;
    }

    /** Replaces every record with that id by the new fields and the same id. */
    method Editar(id: string, funcionaria: Funcionaria, remoteOk: bool) returns (ok: bool)
      modifies this
      ensures ok == remoteOk
      ensures ok ==> funcionarias == UpdateById(old(funcionarias), (f: Funcionaria) => f.id, id,
                                                _ => funcionaria.(id := id))
      ensures !ok ==> funcionarias == old(funcionarias)
      ensures loading == old(loading)
    {
      var dbData := FuncionariaToDb(funcionaria);
      if !remoteOk {
        return false;
      }
      funcionarias := UpdateById(funcionarias, (f: Funcionaria) => f.id, id,
                                 _ => funcionaria.(id := id));
      ok := true;
    }

    /** Deletes every record with that id; this layer does not protect the owner. */
    method Excluir(id: string, remoteOk: bool) returns (ok: bool)
      modifies this
      ensures ok == remoteOk
      ensures ok ==> funcionarias == RemoveById(old(funcionarias), (f: Funcionaria) => f.id, id)
      ensures !ok ==> funcionarias == old(funcionarias)
      ensures loading == old(loading)
    {
      if !remoteOk {
        return false;
      }
      funcionarias := RemoveById(funcionarias, (f: Funcionaria) => f.id, id);
      ok := true;
    }
  }

  /** `useServicos`. */
  class ServicosStore {
    var servicos: seq<Servico>
    var loading: bool

    constructor()
      ensures servicos == [] && !loading
    {
      servicos := [];
      loading := false;
    }

    method Load(rows: Option<seq<ServicoRow>>) returns (ok: bool)
      modifies this
      ensures ok <==> rows.Some?
      ensures ok ==> servicos == MapSeq(rows.value, DbToServico)
      ensures !ok ==> servicos == old(servicos)
      ensures !loading
    {
      loading := true;
      if rows.Some? {
        servicos := MapSeq(rows.value, DbToServico);
        ok := true;
      } else {
        ok := false;
      }
      loading := false;
    }

    method Adicionar(servico: Servico, insert: Insert) returns (ok: bool)
      modifies this
      ensures ok <==> insert.Inserted?
      ensures ok ==> servicos == old(servicos) + [servico.(id := insert.id)]
      ensures !ok ==> servicos == old(servicos)
      ensures loading == old(loading)
    {
      var dbData := ServicoToDb(servico);
      if insert.InsertFailed? {
        return false;
      }
      var novo := DbToServico(ServicoInserted(dbData, insert.id, insert.createdAt));
      ServicoRoundTrip(servico, insert.id, insert.createdAt);
      servicos := servicos + [novo];
      ok := true;
    }

    method Editar(id: string, servico: Servico, remoteOk: bool) returns (ok: bool)
      modifies this
      ensures ok == remoteOk
      ensures ok ==> servicos == UpdateById(old(servicos), (s: Servico) => s.id, id,
                                            _ => servico.(id := id))
      ensures !ok ==> servicos == old(servicos)
      ensures loading == old(loading)
    {
      var dbData := ServicoToDb(servico);
      if !remoteOk {
        return false;
      }
      servicos := UpdateById(servicos, (s: Servico) => s.id, id, _ => servico.(id := id));
      ok := true;
    }

    method Excluir(id: string, remoteOk: bool) returns (ok: bool)
      modifies this
      ensures ok == remoteOk
      ensures ok ==> servicos == RemoveById(old(servicos), (s: Servico) => s.id, id)
      ensures !ok ==> servicos == old(servicos)
      ensures loading == old(loading)
    {
      if !remoteOk {
        return false;
      }
      servicos := RemoveById(servicos, (s: Servico) => s.id, id);
      ok := true;
    }
  }

  /** `useProdutos`: the catalogue and the purchase history. */
  class ProdutosStore {
    var produtos: seq<Produto>
    var registrosCompra: seq<RegistroCompra>
    var loading: bool

    constructor()
      ensures produtos == [] && registrosCompra == [] && !loading
    {
      produtos := [];
      registrosCompra := [];
      loading := false;
    }

    method LoadProdutos(rows: Option<seq<ProdutoRow>>) returns (ok: bool)
      modifies this
      ensures ok <==> rows.Some?
      ensures ok ==> produtos == MapSeq(rows.value, DbToProduto)
      ensures !ok ==> produtos == old(produtos)
      ensures registrosCompra == old(registrosCompra)
      ensures !loading
    {
      loading := true;
      if rows.Some? {
        produtos := MapSeq(rows.value, DbToProduto);
        ok := true;
      } else {
        ok := false;
      }
      loading := false;
    }

    method LoadRegistrosCompra(rows: Option<seq<RegistroCompraRow>>) returns (ok: bool)
      modifies this
      ensures ok <==> rows.Some?
      ensures ok ==> registrosCompra == MapSeq(rows.value, DbToRegistroCompra)
      ensures !ok ==> registrosCompra == old(registrosCompra)
      ensures produtos == old(produtos)
      ensures !loading
    {
      loading := true;
      if rows.Some? {
        registrosCompra := MapSeq(rows.value, DbToRegistroCompra);
        ok := true;
      } else {
        ok := false;
      }
      loading := false;
    }

    method AdicionarProduto(produto: Produto, insert: Insert) returns (ok: bool)
      modifies this
      ensures ok <==> insert.Inserted?
      ensures ok ==> produtos == old(produtos) + [produto.(id := insert.id)]
      ensures !ok ==> produtos == old(produtos)
      ensures registrosCompra == old(registrosCompra) && loading == old(loading)
    {
      var dbData := ProdutoToDb(produto);
      if insert.InsertFailed? {
        return false;
      }
      var novo := DbToProduto(ProdutoInserted(dbData, insert.id, insert.createdAt));
      ProdutoRoundTrip(produto, insert.id, insert.createdAt);
      produtos := produtos + [novo];
      ok := true;
    }

    method EditarProduto(id: string, produto: Produto, remoteOk: bool) returns (ok: bool)
      modifies this
      ensures ok == remoteOk
      ensures ok ==> produtos == UpdateById(old(produtos), (p: Produto) => p.id, id,
                                            _ => produto.(id := id))
      ensures !ok ==> produtos == old(produtos)
      ensures registrosCompra == old(registrosCompra) && loading == old(loading)
    {
      var dbData := ProdutoToDb(produto);
      if !remoteOk {
        return false;
      }
      produtos := UpdateById(produtos, (p: Produto) => p.id, id, _ => produto.(id := id));
      ok := true;
    }

    method ExcluirProduto(id: string, remoteOk: bool) returns (ok: bool)
      modifies this
      ensures ok == remoteOk
      ensures ok ==> produtos == RemoveById(old(produtos), (p: Produto) => p.id, id)
      ensures !ok ==> produtos == old(produtos)
      ensures registrosCompra == old(registrosCompra) && loading == old(loading)
    {
      if !remoteOk {
        return false;
      }
      produtos := RemoveById(produtos, (p: Produto) => p.id, id);
      ok := true;
    }

    /** Records a purchase: the stored record is appended first; then the remote stock
        update runs and, only if it succeeds, the local stock of the product grows. A
        failing stock update therefore leaves the record appended and the stock as it
        was. */
    method AdicionarCompra(compra: RegistroCompra, insert: Insert, stockOk: bool)
      returns (ok: bool)
      modifies this
      ensures ok <==> insert.Inserted? && stockOk
      ensures insert.InsertFailed? ==> registrosCompra == old(registrosCompra)
      ensures insert.Inserted? ==>
                registrosCompra == old(registrosCompra) + [compra.(id := insert.id)]
      ensures ok ==> produtos == AddStock(old(produtos), compra.produtoId, compra.quantidade)
      ensures !ok ==> produtos == old(produtos)
      ensures loading == old(loading)
    {
      var dbData := RegistroCompraToDb(compra);
      if insert.InsertFailed? {
        return false;
      }
      var novaCompra := DbToRegistroCompra(RegistroCompraInserted(dbData, insert.id,
                                                                  insert.createdAt));
      RegistroCompraRoundTrip(compra, insert.id, insert.createdAt);
      registrosCompra := registrosCompra + [novaCompra];
      if !stockOk {
        return false;
      }
      produtos := AddStock(produtos, compra.produtoId, compra.quantidade);
      ok := true;
    }
  }
}
