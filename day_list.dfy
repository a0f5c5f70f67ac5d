/** The day list of src/components/Agenda/ListaAgendamentosDia.tsx: the appointments of
    the selected day in start order, the status buttons and the status labels. */
module DayList {
  import opened Wrappers
  import opened Types
  import opened Seqs
  import opened DataTransformers
  import opened Stores

  function StartKey(a: Agendamento): real {
    a.dataHora as real
  }

  predicate OnDay(a: Agendamento, selectedDate: Timestamp) {
    Day(a.dataHora) == Day(selectedDate)
  }

  /** Exactly the appointments on the selected day, earliest first. */
  function AgendamentosDia(agendamentos: seq<Agendamento>, selectedDate: Timestamp)
    : (dia: seq<Agendamento>)
    ensures forall a :: a in dia <==> a in agendamentos && OnDay(a, selectedDate)
    ensures multiset(dia) == multiset(Filter(agendamentos, a => OnDay(a, selectedDate)))
    ensures forall i, j :: 0 <= i < j < |dia| ==> dia[i].dataHora <= dia[j].dataHora
  {
    var doDia := Filter(agendamentos, a => OnDay(a, selectedDate));
    var dia := SortBy(doDia, StartKey);
    forall a ensures a in dia <==> a in doDia {
      SameMultisetSameElements(dia, doDia, a);
    }
    forall a | a in agendamentos && OnDay(a, selectedDate) ensures a in doDia {
      var i :| 0 <= i < |agendamentos| && agendamentos[i] == a;
    }
    dia
  }

  /** The patch of a status button: the new status and nothing else. */
  function StatusPatch(novoStatus: string): (p: AgendamentoPatch)
    ensures AgendamentoUpdateData(p) == map[StatusCol := Text(novoStatus)]
  {
    var p := EmptyPatch.(status := Some(novoStatus));
    assert forall c :: c in AgendamentoUpdateData(p) <==> c == StatusCol;
    p
  }

  /** A status change touches only the status of the appointments with that id. */
  lemma StatusChangeOnlyStatus(s: seq<Agendamento>, id: string, novoStatus: string)
    ensures |MergeById(s, id, StatusPatch(novoStatus))| == |s|
    ensures forall i :: 0 <= i < |s| ==>
              MergeById(s, id, StatusPatch(novoStatus))[i]
              == if s[i].id == id then s[i].(status := novoStatus) else s[i]
  {
  }

  /** `handleStatusChange`: the success message is shown whatever the outcome. */
  method HandleStatusChange(store: AgendamentosStore, agendamentoId: string, novoStatus: string,
                            remoteOk: bool)
    returns (toast: string)
    modifies store
    ensures toast == "Status do agendamento atualizado!"
    ensures remoteOk ==>
              store.agendamentos == MergeById(old(store.agendamentos), agendamentoId,
                                              StatusPatch(novoStatus))
    ensures !remoteOk ==> store.agendamentos == old(store.agendamentos)
    ensures store.loading == old(store.loading)
  {
    var _, _ := store.Editar(agendamentoId, StatusPatch(novoStatus), remoteOk);
    toast := "Status do agendamento atualizado!";
  }

  /** `handleExcluirAgendamento`: the success message is shown whatever the outcome. */
  method HandleExcluir(store: AgendamentosStore, agendamentoId: string, remoteOk: bool)
    returns (toast: string)
    modifies store
    ensures toast == "Agendamento excluído com sucesso!"
    ensures remoteOk ==>
              store.agendamentos == RemoveById(old(store.agendamentos),
                                               (a: Agendamento) => a.id, agendamentoId)
    ensures !remoteOk ==> store.agendamentos == old(store.agendamentos)
    ensures store.loading == old(store.loading)
  {
    var _ := store.Excluir(agendamentoId, remoteOk);
    toast := "Agendamento excluído com sucesso!";
  }

  /** Badge classes: one per declared status, grey for anything else. */
  function StatusColor(status: string): (c: string)
    ensures status != Agendado && status != Concluido && status != NaoCompareceu ==>
              c == "bg-gray-100 text-gray-800"
    ensures status == Agendado ==> c == "bg-blue-100 text-blue-800"
    ensures status == Concluido ==> c == "bg-green-100 text-green-800"
    ensures status == NaoCompareceu ==> c == "bg-red-100 text-red-800"
  {
    if status == Agendado then "bg-blue-100 text-blue-800"
    else if status == Concluido then "bg-green-100 text-green-800"
    else if status == NaoCompareceu then "bg-red-100 text-red-800"
    else "bg-gray-100 text-gray-800"
  }

  /** The three declared statuses get three different badge colours, none of them the
      grey of an unknown status. */
  lemma StatusColorsDistinct()
    ensures StatusColor(Agendado) != StatusColor(Concluido)
    ensures StatusColor(Concluido) != StatusColor(NaoCompareceu)
    ensures StatusColor(Agendado) != StatusColor(NaoCompareceu)
    ensures forall s :: s in {Agendado, Concluido, NaoCompareceu} ==>
              StatusColor(s) != StatusColor("")
  {
  }

  /** Labels: a fixed one per declared status; any other string is shown as it is. */
  function StatusLabel(status: string): (text: string)
    ensures status == Agendado ==> text == "Agendado"
    ensures status == Concluido ==> text == "Concluído"
    ensures status == NaoCompareceu ==> text == "Não compareceu"
    ensures status != Agendado && status != Concluido && status != NaoCompareceu ==>
              text == status
  {
    if status == Agendado then "Agendado"
    else if status == Concluido then "Concluído"
    else if status == NaoCompareceu then "Não compareceu"
    else status
  }

  /** The three declared statuses get three different labels, none of which is a
      declared status itself. */
  lemma StatusLabelsDistinct()
    ensures StatusLabel(Agendado) != StatusLabel(Concluido)
    ensures StatusLabel(Concluido) != StatusLabel(NaoCompareceu)
    ensures StatusLabel(Agendado) != StatusLabel(NaoCompareceu)
    ensures forall s :: s in {Agendado, Concluido, NaoCompareceu} ==>
              StatusLabel(s) !in {Agendado, Concluido, NaoCompareceu}
  {
  }
}
