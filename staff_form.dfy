/** The staff dialog of src/components/Funcionarias/FormularioFuncionaria.tsx: its
    schema, the values it opens with, and the submit that edits the given staff member
    or adds a new one through the staff store. */
module StaffForm {
  import opened Wrappers
  import opened Types
  import opened Seqs
  import opened Stores
  import StaffList

  datatype FuncionariaForm = FuncionariaForm(nome: string, cargo: string)

  /** The schema: a name and a role, neither empty. */
  predicate SchemaValid(f: FuncionariaForm) {
    |f.nome| >= 1 && |f.cargo| >= 1
  }

  /** The dialog opens with the staff member's name and role when editing and with two
      empty fields, which the schema refuses, when creating. */
  function Defaults(editing: Option<Funcionaria>): (f: FuncionariaForm)
    ensures editing.Some? ==> f.nome == editing.value.nome && f.cargo == editing.value.cargo
    ensures editing.None? ==> !SchemaValid(f)
  {
    if editing.Some? then FuncionariaForm(editing.value.nome, editing.value.cargo)
    else FuncionariaForm("", "")
  }

  /** The record sent to the store: the typed name and role; an edit keeps the owner
      flag of the staff member edited, a creation never makes an owner. */
  function NovaFuncionaria(data: FuncionariaForm, editing: Option<Funcionaria>): (r: Funcionaria)
    ensures r.nome == data.nome && r.cargo == data.cargo
    ensures r.isDona <==> editing.Some? && editing.value.isDona
  {
    Funcionaria("", data.nome, data.cargo, editing.Some? && editing.value.isDona)
  }

  /** The team after a valid submit: an edit replaces the records with the edited id when
      the remote update succeeds; a creation appends the record under the id the
      database assigns when the insert succeeds. */
  function AposSalvar(funcionarias: seq<Funcionaria>, data: FuncionariaForm,
                      editing: Option<Funcionaria>, remoteOk: bool, insert: Insert)
    : seq<Funcionaria>
  {
    var nova := NovaFuncionaria(data, editing);
    if editing.Some? then
      if remoteOk then
        UpdateById(funcionarias, (f: Funcionaria) => f.id, editing.value.id, _ => nova.(id := editing.value.id))
      else funcionarias
    else if insert.Inserted? then funcionarias + [nova.(id := insert.id)]
    else funcionarias
  }

  /** With distinct ids, editing a staff member of the team or creating one leaves the
      number of owners as it was: the dialog can neither make nor unmake an owner. */
  lemma OwnersPreserved(funcionarias: seq<Funcionaria>, data: FuncionariaForm,
                        editing: Option<Funcionaria>, remoteOk: bool, insert: Insert)
    requires StaffList.IdsUnicos(funcionarias)
    requires editing.Some? ==> editing.value in funcionarias
    ensures Count(AposSalvar(funcionarias, data, editing, remoteOk, insert), StaffList.IsDona) ==
            Count(funcionarias, StaffList.IsDona)
  {
    var nova := NovaFuncionaria(data, editing);
    var r := AposSalvar(funcionarias, data, editing, remoteOk, insert);
    if editing.Some? && remoteOk {
      var e := editing.value;
      var k :| 0 <= k < |funcionarias| && funcionarias[k] == e;
      forall i | 0 <= i < |funcionarias|
        ensures StaffList.IsDona(r[i]) == StaffList.IsDona(funcionarias[i])
      {
        if funcionarias[i].id == e.id {
          assert funcionarias[i].id == funcionarias[k].id;
        }
      }
      CountPointwise(funcionarias, r, StaffList.IsDona);
    } else if editing.None? && insert.Inserted? {
      CountSnoc(funcionarias, nova.(id := insert.id), StaffList.IsDona);
    }
  }

  datatype SubmitResult = Invalid | Saved(toast: string)

  /** The dialog's submit. The store calls are not awaited, so the success message
      appears whatever their outcome. */
  method Submit(store: FuncionariasStore, data: FuncionariaForm, editing: Option<Funcionaria>,
                remoteOk: bool, insert: Insert)
    returns (result: SubmitResult)
    modifies store
    ensures result == Invalid <==> !SchemaValid(data)
    ensures result == Invalid ==> store.funcionarias == old(store.funcionarias)
    ensures result.Saved? ==>
              store.funcionarias == AposSalvar(old(store.funcionarias), data, editing, remoteOk, insert) &&
              result.toast == if editing.Some? then "Funcionária atualizada com sucesso!"
                              else "Funcionária criada com sucesso!"
    ensures store.loading == old(store.loading)
  {
    if !SchemaValid(data) {
      return Invalid;
    }
    var nova := NovaFuncionaria(data, editing);
    if editing.Some? {
      var _ := store.Editar(editing.value.id, nova, remoteOk);
      return Saved("Funcionária atualizada com sucesso!");
    }
    var _ := store.Adicionar(nova, insert);
    return Saved("Funcionária criada com sucesso!");
  }
}
