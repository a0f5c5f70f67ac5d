/** The team list of src/components/Funcionarias/ListaFuncionarias.tsx: the
    case-insensitive search on name and role, the owner shown apart from the others,
    the count of non-owners, and deletion, which refuses the owner. */
module StaffList {
  import opened Wrappers
  import opened Types
  import opened Seqs
  import opened Stores
  import opened Text

  /** The name or the role contains the search text, ignoring case. */
  predicate Corresponde(f: Funcionaria, termo: string) {
    Contains(ToLower(f.nome), ToLower(termo)) || Contains(ToLower(f.cargo), ToLower(termo))
  }

  function FuncionariasFiltradas(funcionarias: seq<Funcionaria>, termo: string): (r: seq<Funcionaria>)
    ensures forall f :: f in r <==> f in funcionarias && Corresponde(f, termo)
    ensures termo == "" ==> r == funcionarias
  {
    var r := Filter(funcionarias, (f: Funcionaria) => Corresponde(f, termo));
    forall f | f in funcionarias && Corresponde(f, termo) ensures f in r {
      var i :| 0 <= i < |funcionarias| && funcionarias[i] == f;
    }
    if termo == "" then
      forall i | 0 <= i < |funcionarias| ensures Corresponde(funcionarias[i], termo) {
        ContainsEmpty(ToLower(funcionarias[i].nome));
      }
      FilterAll(funcionarias, (f: Funcionaria) => Corresponde(f, termo));
      r
    else r
  }

  predicate IsDona(f: Funcionaria) {
    f.isDona
  }

  predicate NaoDona(f: Funcionaria) {
    !f.isDona
  }

  /** The owner card: the first owner among those found. */
  function Dona(filtradas: seq<Funcionaria>): (r: Option<Funcionaria>)
    ensures r.Some? <==> exists i :: 0 <= i < |filtradas| && filtradas[i].isDona
    ensures r.Some? ==> r.value.isDona && r.value in filtradas
  {
    Find(filtradas, IsDona)
  }

  /** The other cards: every non-owner found, in list order. */
  function Outras(filtradas: seq<Funcionaria>): (r: seq<Funcionaria>)
    ensures forall f :: f in r <==> f in filtradas && !f.isDona
  {
    var r := Filter(filtradas, NaoDona);
    forall f | f in filtradas && !f.isDona ensures f in r {
      var i :| 0 <= i < |filtradas| && filtradas[i] == f;
    }
    r
  }

  /** With at most one owner, every staff member found gets exactly one card: the owner
      card or one of the others. A second owner would get none. */
  lemma CardsCoverFound(filtradas: seq<Funcionaria>, f: Funcionaria)
    requires forall i, j ::
               0 <= i < |filtradas| && 0 <= j < |filtradas| && filtradas[i].isDona && filtradas[j].isDona
               ==> filtradas[i] == filtradas[j]
    requires f in filtradas
    ensures (Dona(filtradas) == Some(f)) != (f in Outras(filtradas))
  {
    if f.isDona {
      var d := Dona(filtradas);
      var k :| 0 <= k < |filtradas| && filtradas[k] == f;
      assert d.Some?;
      var j :| 0 <= j < |filtradas| && filtradas[j] == d.value;
    }
  }

  /** The "active" card counts the staff who are not the owner, over the whole team
      regardless of the search. */
  function Ativas(funcionarias: seq<Funcionaria>): (n: nat)
    ensures n == |funcionarias| - Count(funcionarias, IsDona)
  {
    CountSplit(funcionarias, IsDona, NaoDona);
    Count(funcionarias, NaoDona)
  }

  /** The team after a delete request: the owner, when the first record with that id is
      the owner, is refused; otherwise the store deletes every record with the id when
      the remote delete succeeds. */
  function AposExcluir(funcionarias: seq<Funcionaria>, funcionariaId: string, remoteOk: bool)
    : seq<Funcionaria>
  {
    var alvo := Find(funcionarias, (f: Funcionaria) => f.id == funcionariaId);
    if alvo.Some? && alvo.value.isDona then funcionarias
    else if remoteOk then RemoveById(funcionarias, (f: Funcionaria) => f.id, funcionariaId)
    else funcionarias
  }

  predicate IdsUnicos(funcionarias: seq<Funcionaria>) {
    forall i, j ::
      0 <= i < |funcionarias| && 0 <= j < |funcionarias| && funcionarias[i].id == funcionarias[j].id
      ==> i == j
  }

  /** With distinct ids no delete request removes an owner, and a granted request
      removes exactly the record with that id. */
  lemma OwnerProtected(funcionarias: seq<Funcionaria>, funcionariaId: string, remoteOk: bool)
    requires IdsUnicos(funcionarias)
    ensures forall f :: f in funcionarias && f.isDona ==> f in AposExcluir(funcionarias, funcionariaId, remoteOk)
    ensures forall f :: f in AposExcluir(funcionarias, funcionariaId, remoteOk) ==> f in funcionarias
    ensures forall f :: f in funcionarias && !f.isDona && f.id == funcionariaId && remoteOk ==>
              f !in AposExcluir(funcionarias, funcionariaId, remoteOk)
    ensures forall f :: f in funcionarias && f.id != funcionariaId ==>
              f in AposExcluir(funcionarias, funcionariaId, remoteOk)
  {
    var idOf := (f: Funcionaria) => f.id;
    RemoveByIdSpec(funcionarias, idOf, funcionariaId);
    var alvo := Find(funcionarias, (f: Funcionaria) => f.id == funcionariaId);
    forall f | f in funcionarias && f.isDona
      ensures f in AposExcluir(funcionarias, funcionariaId, remoteOk)
    {
      if f.id == funcionariaId {
        var i :| 0 <= i < |funcionarias| && funcionarias[i] == f;
        assert alvo.Some?;
        var k := FindIndex(funcionarias, (f: Funcionaria) => f.id == funcionariaId);
        assert funcionarias[k].id == funcionarias[i].id;
      }
    }
    forall f | f in funcionarias && !f.isDona && f.id == funcionariaId && remoteOk
      ensures f !in AposExcluir(funcionarias, funcionariaId, remoteOk)
    {
      var i :| 0 <= i < |funcionarias| && funcionarias[i] == f;
      var k := FindIndex(funcionarias, (f: Funcionaria) => f.id == funcionariaId);
      assert funcionarias[k].id == funcionarias[i].id;
    }
  }

  /** `handleExcluirFuncionaria`. */
  method HandleExcluirFuncionaria(store: FuncionariasStore, funcionariaId: string, remoteOk: bool)
    returns (toast: string)
    modifies store
    ensures store.funcionarias == AposExcluir(old(store.funcionarias), funcionariaId, remoteOk)
    ensures var alvo := Find(old(store.funcionarias), (f: Funcionaria) => f.id == funcionariaId);
            toast == if alvo.Some? && alvo.value.isDona
                     then "Não é possível excluir a proprietária do salão!"
                     else "Funcionária excluída com sucesso!"
    ensures store.loading == old(store.loading)
  {
    var funcionaria := Find(store.funcionarias, (f: Funcionaria) => f.id == funcionariaId);
    if funcionaria.Some? && funcionaria.value.isDona {
      return "Não é possível excluir a proprietária do salão!";
    }
    var _ := store.Excluir(funcionariaId, remoteOk);
    toast := "Funcionária excluída com sucesso!";
  }
}
