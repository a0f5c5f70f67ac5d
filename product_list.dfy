/** The stock list of src/components/Estoque/ListaProdutos.tsx: the case-insensitive
    search on name and brand, the low-stock products among those found, the value of
    the stock found, and deletion through the products store. */
module ProductList {
  import opened Wrappers
  import opened Types
  import opened Seqs
  import opened Stores
  import opened Text
  import Alerts

  /** The product's name or brand contains the search text, ignoring case. */
  predicate Corresponde(p: Produto, termo: string) {
    Contains(ToLower(p.nome), ToLower(termo)) || Contains(ToLower(p.marca), ToLower(termo))
  }

  /** The products found; the "total" card counts the whole catalogue, never fewer. */
  function ProdutosFiltrados(produtos: seq<Produto>, termo: string): (r: seq<Produto>)
    ensures |r| <= |produtos|
    ensures forall p :: p in r <==> p in produtos && Corresponde(p, termo)
    ensures termo == "" ==> r == produtos
  {
    var r := Filter(produtos, (p: Produto) => Corresponde(p, termo));
    forall p | p in produtos && Corresponde(p, termo) ensures p in r {
      var i :| 0 <= i < |produtos| && produtos[i] == p;
    }
    if termo == "" then
      forall i | 0 <= i < |produtos| ensures Corresponde(produtos[i], termo) {
        ContainsEmpty(ToLower(produtos[i].nome));
      }
      FilterAll(produtos, (p: Produto) => Corresponde(p, termo));
      r
    else r
  }

  /** Searching for a text and for its lower-case form finds the same products. */
  lemma BuscaIgnoraCaixa(produtos: seq<Produto>, termo: string)
    ensures ProdutosFiltrados(produtos, termo) == ProdutosFiltrados(produtos, ToLower(termo))
  {
    ToLowerIdempotent(termo);
    FilterExt(produtos, (p: Produto) => Corresponde(p, termo),
              (p: Produto) => Corresponde(p, ToLower(termo)));
  }

  /** The low-stock products among those found, in list order. */
  function ProdutosEstoqueBaixo(filtrados: seq<Produto>): (r: seq<Produto>)
    ensures |r| <= |filtrados|
    ensures forall p :: p in r <==> p in filtrados && p.quantidadeAtual <= p.estoqueMinimo
  {
    var r := Filter(filtrados, Alerts.EstoqueBaixoDe);
    forall p | p in filtrados && p.quantidadeAtual <= p.estoqueMinimo ensures p in r {
      var i :| 0 <= i < |filtrados| && filtrados[i] == p;
    }
    r
  }

  /** With no search text the list's low-stock card shows the products of the
      management panel's low-stock alert, in the same order. */
  lemma BaixoSemBuscaIsAlerta(produtos: seq<Produto>)
    ensures ProdutosEstoqueBaixo(ProdutosFiltrados(produtos, "")) == Alerts.BaixoEstoque(produtos)
  {
  }

  function ValorProduto(p: Produto): real {
    p.quantidadeAtual * p.custoUnitario
  }

  /** Value of the products found: stock times unit cost, summed. */
  function ValorTotalEstoque(filtrados: seq<Produto>): real {
    SumBy(filtrados, ValorProduto)
  }

  /** Stock and costs that are not negative give a stock value that is not negative. */
  lemma ValorTotalNonNegative(filtrados: seq<Produto>)
    requires forall i :: 0 <= i < |filtrados| ==>
               filtrados[i].quantidadeAtual >= 0.0 && filtrados[i].custoUnitario >= 0.0
    ensures ValorTotalEstoque(filtrados) >= 0.0
  {
    forall i | 0 <= i < |filtrados| ensures ValorProduto(filtrados[i]) >= 0.0 {
      var p := filtrados[i];
      assert p.quantidadeAtual * p.custoUnitario >= 0.0;
    }
    SumByNonNegative(filtrados, ValorProduto);
  }

  function CustoCompra(produtoId: string, quantidade: real): Produto -> real {
    (p: Produto) => if p.id == produtoId then quantidade * p.custoUnitario else 0.0
  }

  /** A purchase raises the value of the stock by its quantity times the unit cost of
      each product carrying its id, and leaves it as it was when none does. */
  lemma ValorAposCompra(produtos: seq<Produto>, produtoId: string, quantidade: real)
    ensures ValorTotalEstoque(AddStock(produtos, produtoId, quantidade)) ==
            ValorTotalEstoque(produtos) + SumBy(produtos, CustoCompra(produtoId, quantidade))
  {
    var r := AddStock(produtos, produtoId, quantidade);
    forall i | 0 <= i < |produtos|
      ensures ValorProduto(r[i]) == ValorProduto(produtos[i]) + CustoCompra(produtoId, quantidade)(produtos[i])
    {
      var p := produtos[i];
      if p.id == produtoId {
        assert (p.quantidadeAtual + quantidade) * p.custoUnitario ==
               p.quantidadeAtual * p.custoUnitario + quantidade * p.custoUnitario;
      }
    }
    SumByPointwise(produtos, r, ValorProduto, CustoCompra(produtoId, quantidade), ValorProduto);
  }

  /** `handleExcluirProduto`: deletion through the store, which the component does not
      wait for, so the success message is shown whatever the outcome. */
  method HandleExcluirProduto(store: ProdutosStore, produtoId: string, remoteOk: bool)
    returns (toast: string)
    modifies store
    ensures toast == "Produto excluído com sucesso!"
    ensures remoteOk ==> store.produtos == RemoveById(old(store.produtos), (p: Produto) => p.id, produtoId)
    ensures !remoteOk ==> store.produtos == old(store.produtos)
    ensures store.registrosCompra == old(store.registrosCompra)
  {
    var _ := store.ExcluirProduto(produtoId, remoteOk);
    toast := "Produto excluído com sucesso!";
  }
}
