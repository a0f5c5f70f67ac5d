/** The stock purchase dialog of src/components/Estoque/FormularioCompra.tsx: its schema,
    the defaults it opens with, the summary shown while typing, and the submit that
    records the purchase through the products store. */
module PurchaseForm {
  import opened Wrappers
  import opened Types
  import opened Seqs
  import opened Stores

  /** The two number fields; `None` is a field that does not hold a number (empty or not
      numeric), which the browser reports as NaN. */
  datatype CompraForm = CompraForm(quantidade: Option<real>, custoUnitario: Option<real>)

  /** The schema: a quantity of at least 0.01 and a unit cost of at least 0, both numbers. */
  predicate SchemaValid(f: CompraForm) {
    f.quantidade.Some? && f.quantidade.value >= 0.01 &&
    f.custoUnitario.Some? && f.custoUnitario.value >= 0.0
  }

  /** The values the dialog is reset to when it receives a product: one unit at the
      product's registered cost. */
  function Defaults(produto: Produto): (f: CompraForm)
    ensures produto.custoUnitario >= 0.0 ==> SchemaValid(f)
    ensures f.quantidade == Some(1.0) && f.custoUnitario == Some(produto.custoUnitario)
  {
    CompraForm(Some(1.0), Some(produto.custoUnitario))
  }

  /** A watched field as the summary reads it: anything that is not a number counts as 0. */
  function OrZero(x: Option<real>): real {
    if x.Some? then x.value else 0.0
  }

  datatype Resumo = Resumo(quantidade: real, custoUnitario: real, valorTotal: real,
                           novoEstoque: real)

  /** The summary box: quantity, unit cost, their product, and the stock after the
      purchase. */
  function ResumoDe(produto: Produto, f: CompraForm): (r: Resumo)
    ensures r.valorTotal == r.quantidade * r.custoUnitario
    ensures r.novoEstoque - produto.quantidadeAtual == r.quantidade
    ensures SchemaValid(f) ==> r.quantidade == f.quantidade.value &&
                               r.custoUnitario == f.custoUnitario.value &&
                               r.valorTotal >= 0.0 && r.novoEstoque > produto.quantidadeAtual
  {
    var q, c := OrZero(f.quantidade), OrZero(f.custoUnitario);
    Resumo(q, c, q * c, produto.quantidadeAtual + q)
  }

  /** The record the submit hands to the store; the store assigns its id. */
  function NovaCompra(produto: Produto, f: CompraForm, now: Timestamp): (c: RegistroCompra)
    requires SchemaValid(f)
    ensures c.produtoId == produto.id && c.dataCompra == now
    ensures c.quantidade == ResumoDe(produto, f).quantidade
    ensures c.custoUnitario == ResumoDe(produto, f).custoUnitario
    ensures c.valorTotal == ResumoDe(produto, f).valorTotal
  {
    var q, cu := f.quantidade.value, f.custoUnitario.value;
    RegistroCompra("", produto.id, q, cu, q * cu, now)
  }

  /** After a purchase whose stock update succeeds, the product shown in the dialog, when
      it is the store's current record, holds the new stock the summary announced. */
  lemma PreviewMatchesStore(produtos: seq<Produto>, produto: Produto, f: CompraForm,
                            now: Timestamp, i: nat)
    requires SchemaValid(f)
    requires i < |produtos| && produtos[i] == produto
    ensures AddStock(produtos, produto.id, NovaCompra(produto, f, now).quantidade)[i].quantidadeAtual
            == ResumoDe(produto, f).novoEstoque
  {
  }

  datatype SubmitResult = Invalid | NoProduct | Submitted(toast: string)

  /** The dialog's submit. Invalid fields stop it; without a product nothing happens;
      otherwise the purchase goes to the store, which the dialog does not wait for, so the
      success message names the product whatever the store's outcome. */
  method Submit(store: ProdutosStore, produto: Option<Produto>, f: CompraForm, now: Timestamp,
                insert: Insert, stockOk: bool)
    returns (result: SubmitResult)
    modifies store
    ensures result == Invalid <==> !SchemaValid(f)
    ensures result == NoProduct <==> SchemaValid(f) && produto.None?
    ensures result.Submitted? ==>
              result.toast == "Estoque de " + produto.value.nome + " atualizado com sucesso!"
    ensures !result.Submitted? ==>
              store.produtos == old(store.produtos) &&
              store.registrosCompra == old(store.registrosCompra)
    ensures result.Submitted? ==>
              var compra := NovaCompra(produto.value, f, now);
              (insert.Inserted? ==>
                 store.registrosCompra == old(store.registrosCompra) + [compra.(id := insert.id)]) &&
              (insert.InsertFailed? ==> store.registrosCompra == old(store.registrosCompra)) &&
              store.produtos == if insert.Inserted? && stockOk
                                then AddStock(old(store.produtos), produto.value.id, compra.quantidade)
                                else old(store.produtos)
    ensures store.loading == old(store.loading)
  {
    if !SchemaValid(f) {
      return Invalid;
    }
    if produto.None? {
      return NoProduct;
    }
    var compra := NovaCompra(produto.value, f, now);
    var _ := store.AdicionarCompra(compra, insert, stockOk);
    result := Submitted("Estoque de " + produto.value.nome + " atualizado com sucesso!");
  }
}
