/** The appointment form of src/components/Agenda/FormularioAgendamento.tsx: the schema,
    the per-staff conflict scan and the submit handler that edits, or creates an
    appointment and its weekly repetitions. */
module AgendaForm {
  import opened Wrappers
  import opened Types
  import opened Seqs
  import opened DateUtils
  import opened DataTransformers
  import opened Stores

  /** The submitted form. `dataHora` is the instant `data` and `hora` name together; the
      parsing of the two strings is not modelled. */
  datatype AgendamentoForm = AgendamentoForm(
    clienteNome: string, clienteWhatsapp: string, funcionariaId: string, servicoId: string,
    preco: real, duracaoMinutos: int, data: string, hora: string, dataHora: Timestamp,
    cor: string, observacoes: Option<string>, recorrente: Option<bool>,
    semanasRecorrencia: Option<int>)

  /** The form schema: required strings are non-empty, the price is not negative, a
      booking lasts at least 15 minutes and a repetition count lies in 1..52. */
  predicate SchemaValid(f: AgendamentoForm) {
    |f.clienteNome| >= 1 && |f.clienteWhatsapp| >= 1 && |f.funcionariaId| >= 1 &&
    |f.servicoId| >= 1 && f.preco >= 0.0 && f.duracaoMinutos >= 15 &&
    |f.data| >= 1 && |f.hora| >= 1 && |f.cor| >= 1 &&
    (f.semanasRecorrencia.Some? ==> 1 <= f.semanasRecorrencia.value <= 52)
  }

  const WeekMs: int := 7 * MsPerDay

  // ---------------------------------------------------------------- conflict scan

  /** `a` clashes with a booking of staff member `funcionariaId` from `start` lasting
      `duracaoMinutos`, and is not the appointment being edited. The exclusion needs a
      truthy id: an empty id excludes nothing. */
  predicate ConflictsWith(a: Agendamento, start: Timestamp, duracaoMinutos: int,
                          funcionariaId: string, agendamentoId: Option<string>)
  {
    !(agendamentoId.Some? && agendamentoId.value != "" && a.id == agendamentoId.value) &&
    a.funcionariaId == funcionariaId &&
    CheckTimeConflict(start, AddMinutesToDate(start, duracaoMinutos),
                      a.dataHora, AddMinutesToDate(a.dataHora, a.duracaoMinutos))
  }

  /** The appointments of the list that clash with the booking, in list order. */
  function VerificarConflito(agendamentos: seq<Agendamento>, start: Timestamp,
                             duracaoMinutos: int, funcionariaId: string,
                             agendamentoId: Option<string>): seq<Agendamento>
  {
    Filter(agendamentos,
           a => ConflictsWith(a, start, duracaoMinutos, funcionariaId, agendamentoId))
  }

  /** The scan reports exactly the clashing appointments: each one it reports is listed,
      belongs to the same staff member, is not the excluded appointment and overlaps the
      booking; each listed clashing appointment is reported. */
  lemma VerificarConflitoSpec(agendamentos: seq<Agendamento>, start: Timestamp,
                              duracaoMinutos: int, funcionariaId: string,
                              agendamentoId: Option<string>)
    ensures var conflitos := VerificarConflito(agendamentos, start, duracaoMinutos,
                                               funcionariaId, agendamentoId);
            (forall a :: a in conflitos ==>
               a in agendamentos && a.funcionariaId == funcionariaId) &&
            (forall a :: a in conflitos && agendamentoId.Some? && agendamentoId.value != "" ==>
               a.id != agendamentoId.value) &&
            (forall a :: a in conflitos ==>
               CheckTimeConflict(start, AddMinutesToDate(start, duracaoMinutos),
                                 a.dataHora, AddMinutesToDate(a.dataHora, a.duracaoMinutos))) &&
            (forall i :: 0 <= i < |agendamentos| &&
               ConflictsWith(agendamentos[i], start, duracaoMinutos, funcionariaId, agendamentoId)
               ==> agendamentos[i] in conflitos)
  {
    var p := a => ConflictsWith(a, start, duracaoMinutos, funcionariaId, agendamentoId);
    forall a | a in Filter(agendamentos, p) ensures p(a) {
      FilterHolds(agendamentos, p, a);
    }
  }

  /** Whether the scan reports anything. */
  predicate HasConflict(agendamentos: seq<Agendamento>, start: Timestamp, duracaoMinutos: int,
                        funcionariaId: string, agendamentoId: Option<string>)
  {
    |VerificarConflito(agendamentos, start, duracaoMinutos, funcionariaId, agendamentoId)| > 0
  }

  /** A booking is free exactly when no listed appointment clashes with it. */
  lemma HasConflictIff(agendamentos: seq<Agendamento>, start: Timestamp, duracaoMinutos: int,
                       funcionariaId: string, agendamentoId: Option<string>)
    ensures HasConflict(agendamentos, start, duracaoMinutos, funcionariaId, agendamentoId)
        <==> exists i :: 0 <= i < |agendamentos| &&
               ConflictsWith(agendamentos[i], start, duracaoMinutos, funcionariaId, agendamentoId)
  {
    var r := VerificarConflito(agendamentos, start, duracaoMinutos, funcionariaId, agendamentoId);
    VerificarConflitoSpec(agendamentos, start, duracaoMinutos, funcionariaId, agendamentoId);
    if |r| > 0 {
      assert r[0] in agendamentos;
      var i :| 0 <= i < |agendamentos| && agendamentos[i] == r[0];
      assert ConflictsWith(agendamentos[i], start, duracaoMinutos, funcionariaId, agendamentoId);
    }
  }

  // ---------------------------------------------------------------- submit

  /** The appointment the form describes, without id: the typed fields, the instant of
      the chosen date and time, and always the status 'agendado'. A form the schema
      accepts gives a named client, staff member and service, a price that is not
      negative and at least 15 minutes. */
  function NovoAgendamento(f: AgendamentoForm): (a: Agendamento)
    ensures a.status == Agendado
    ensures a.clienteNome == f.clienteNome && a.clienteWhatsapp == f.clienteWhatsapp &&
            a.funcionariaId == f.funcionariaId && a.servicoId == f.servicoId
    ensures a.preco == f.preco && a.duracaoMinutos == f.duracaoMinutos &&
            a.dataHora == f.dataHora && a.cor == f.cor && a.observacoes == f.observacoes
    ensures SchemaValid(f) ==>
              |a.clienteNome| >= 1 && |a.funcionariaId| >= 1 && |a.servicoId| >= 1 &&
              a.preco >= 0.0 && a.duracaoMinutos >= 15
  {
    Agendamento("", f.clienteNome, f.clienteWhatsapp, f.funcionariaId, f.servicoId, f.preco,
                f.duracaoMinutos, f.dataHora, f.cor, f.observacoes, Agendado)
  }

  /** An edit sends the whole new record as the patch. */
  function FullPatch(a: Agendamento): AgendamentoPatch {
    AgendamentoPatch(Some(a.clienteNome), Some(a.clienteWhatsapp), Some(a.funcionariaId),
                     Some(a.servicoId), Some(a.preco), Some(a.duracaoMinutos),
                     Some(a.dataHora), Some(a.cor), Some(a.observacoes), Some(a.status))
  }

  /** Merging a full record replaces every field but the id. */
  lemma FullPatchReplaces(prior: Agendamento, a: Agendamento)
    ensures MergePatch(prior, FullPatch(a)) == a.(id := prior.id)
  {
  }

  /** The repetition `i` weeks after `base`: the same booking in every field but its
      start, moved by exactly `i` weeks; repetition 0 is the base itself. */
  function Occurrence(base: Agendamento, i: nat): (a: Agendamento)
    ensures a.dataHora - base.dataHora == i * WeekMs
    ensures a.(dataHora := base.dataHora) == base
    ensures i == 0 ==> a == base
  {
    base.(dataHora := base.dataHora + i * WeekMs)
  }

  /** Whether the form asks for weekly repetitions. */
  predicate Recorrente(f: AgendamentoForm) {
    f.recorrente == Some(true) && f.semanasRecorrencia.Some? && f.semanasRecorrencia.value > 1
  }

  /** Whether the repetition `i` weeks after `base` clashes with nothing in `snapshot`
      (no id is excluded). */
  predicate Livre(base: Agendamento, snapshot: seq<Agendamento>, i: nat) {
    !HasConflict(snapshot, base.dataHora + i * WeekMs, base.duracaoMinutos,
                 base.funcionariaId, None)
  }

  /** Weeks `i` in 1..n-1 whose repetition is free in `snapshot`, in increasing order. */
  function FreeWeeks(base: Agendamento, snapshot: seq<Agendamento>, n: nat): seq<nat> {
    if n <= 1 then []
    else FreeWeeks(base, snapshot, n - 1) + (if Livre(base, snapshot, n - 1) then [n - 1] else [])
  }

  /** The weeks a creating submit adds: week 0, then the free repetitions. */
  function RequestedWeeks(f: AgendamentoForm, snapshot: seq<Agendamento>): seq<nat> {
    [0] + (if Recorrente(f)
           then FreeWeeks(NovoAgendamento(f), snapshot, f.semanasRecorrencia.value) else [])
  }

  /** What the list gains from the adds for `weeks`: the stored repetition, with the id
      the database gave it, for every insert that succeeded. */
  function AddedRecords(base: Agendamento, weeks: seq<nat>, insertFor: nat -> Insert)
    : seq<Agendamento>
  {
    if weeks == [] then []
    else
      var i := weeks[|weeks| - 1];
      AddedRecords(base, weeks[..|weeks| - 1], insertFor) +
      (if insertFor(i).Inserted? then [Occurrence(base, i).(id := insertFor(i).id)] else [])
  }

  /** The free weeks below `n` are increasing and lie in 1..n-1. */
  lemma {:induction false} FreeWeeksShape(base: Agendamento, snapshot: seq<Agendamento>, n: nat)
    ensures |FreeWeeks(base, snapshot, n)| <= if n == 0 then 0 else n - 1
    ensures forall k :: 0 <= k < |FreeWeeks(base, snapshot, n)| ==>
              1 <= FreeWeeks(base, snapshot, n)[k] < n
    ensures forall k, l :: 0 <= k < l < |FreeWeeks(base, snapshot, n)| ==>
              FreeWeeks(base, snapshot, n)[k] < FreeWeeks(base, snapshot, n)[l]
  {
    if n > 1 {
      FreeWeeksShape(base, snapshot, n - 1);
    }
  }

  /** A week in 1..n-1 is among the free weeks below `n` exactly when its repetition does
      not clash with anything in `snapshot`. */
  lemma {:induction false} FreeWeeksMembers(base: Agendamento, snapshot: seq<Agendamento>, n: nat)
    ensures forall i: nat :: 1 <= i < n ==>
              (i in FreeWeeks(base, snapshot, n) <==> Livre(base, snapshot, i))
  {
    if n > 1 {
      FreeWeeksMembers(base, snapshot, n - 1);
      FreeWeeksShape(base, snapshot, n - 1);
    }
  }

  /** A creating submit adds week 0 first and then at most `semanasRecorrencia - 1`
      repetitions, in increasing week order; a repetition is added exactly when no
      appointment of the list captured at submit clashes with it (no id is excluded). */
  lemma RequestedWeeksShape(f: AgendamentoForm, snapshot: seq<Agendamento>)
    ensures RequestedWeeks(f, snapshot)[0] == 0
    ensures |RequestedWeeks(f, snapshot)| <= if Recorrente(f) then f.semanasRecorrencia.value else 1
    ensures !Recorrente(f) ==> RequestedWeeks(f, snapshot) == [0]
    ensures forall k, l :: 0 <= k < l < |RequestedWeeks(f, snapshot)| ==>
              RequestedWeeks(f, snapshot)[k] < RequestedWeeks(f, snapshot)[l]
    ensures Recorrente(f) ==>
              forall i: nat :: 1 <= i < f.semanasRecorrencia.value ==>
                (i in RequestedWeeks(f, snapshot) <==>
                 !HasConflict(snapshot, f.dataHora + i * WeekMs, f.duracaoMinutos,
                              f.funcionariaId, None))
  {
    var r := RequestedWeeks(f, snapshot);
    if Recorrente(f) {
      var base := NovoAgendamento(f);
      var n := f.semanasRecorrencia.value;
      FreeWeeksShape(base, snapshot, n);
      FreeWeeksMembers(base, snapshot, n);
      var w := FreeWeeks(base, snapshot, n);
      assert r == [0] + w;
      forall i: nat | 1 <= i < n
        ensures i in r <==> !HasConflict(snapshot, f.dataHora + i * WeekMs, f.duracaoMinutos,
                                         f.funcionariaId, None)
      {
        assert i in r <==> i in w;
      }
      forall k, l | 0 <= k < l < |r| ensures r[k] < r[l] {
        assert r[l] == w[l - 1];
        if k > 0 {
          assert r[k] == w[k - 1];
        }
      }
    }
  }

  /** Every appointment a creating submit adds is a copy of the form's appointment
      ('agendado', same staff member and duration) moved by a whole number of weeks
      from the requested list, and there are at most as many as weeks requested. */
  lemma {:induction false} AddedRecordsShape(base: Agendamento, weeks: seq<nat>,
                                             insertFor: nat -> Insert)
    ensures |AddedRecords(base, weeks, insertFor)| <= |weeks|
    ensures forall a :: a in AddedRecords(base, weeks, insertFor) ==>
              a.status == base.status && a.funcionariaId == base.funcionariaId &&
              a.duracaoMinutos == base.duracaoMinutos &&
              exists k :: 0 <= k < |weeks| && a.dataHora == base.dataHora + weeks[k] * WeekMs
  {
    if weeks != [] {
      var init := weeks[..|weeks| - 1];
      AddedRecordsShape(base, init, insertFor);
      forall a | a in AddedRecords(base, weeks, insertFor)
        ensures exists k :: 0 <= k < |weeks| && a.dataHora == base.dataHora + weeks[k] * WeekMs
      {
        if a in AddedRecords(base, init, insertFor) {
          var k :| 0 <= k < |init| && a.dataHora == base.dataHora + init[k] * WeekMs;
          assert weeks[k] == init[k];
        } else {
          assert a.dataHora == base.dataHora + weeks[|weeks| - 1] * WeekMs;
        }
      }
    }
  }

  lemma {:induction false} AddedRecordsConcat(base: Agendamento, a: seq<nat>, b: seq<nat>,
                                              insertFor: nat -> Insert)
    ensures AddedRecords(base, a + b, insertFor)
            == AddedRecords(base, a, insertFor) + AddedRecords(base, b, insertFor)
    decreases |b|
  {
    if b == [] {
      assert a + b == a;
    } else {
      assert (a + b)[..|a + b| - 1] == a + b[..|b| - 1];
      AddedRecordsConcat(base, a, b[..|b| - 1], insertFor);
    }
  }

  /** What week `i` of the repetition loop adds: its repetition, when it is free in
      `snapshot` and its insert succeeds. */
  function WeekRecords(base: Agendamento, snapshot: seq<Agendamento>, i: nat,
                       insertFor: nat -> Insert): seq<Agendamento>
  {
    if Livre(base, snapshot, i) && insertFor(i).Inserted?
    then [Occurrence(base, i).(id := insertFor(i).id)]
    else []
  }

  lemma AddedRecordsSnoc(base: Agendamento, weeks: seq<nat>, i: nat, insertFor: nat -> Insert)
    ensures AddedRecords(base, weeks + [i], insertFor) ==
            AddedRecords(base, weeks, insertFor) +
            (if insertFor(i).Inserted? then [Occurrence(base, i).(id := insertFor(i).id)] else [])
  {
    assert (weeks + [i])[..|weeks + [i]| - 1] == weeks;
  }

  /** One more week of the repetition loop extends the records of the free weeks by that
      week's own. */
  lemma FreeWeeksNext(base: Agendamento, snapshot: seq<Agendamento>, i: nat,
                      insertFor: nat -> Insert)
    requires i >= 1
    ensures AddedRecords(base, FreeWeeks(base, snapshot, i + 1), insertFor) ==
            AddedRecords(base, FreeWeeks(base, snapshot, i), insertFor) +
            WeekRecords(base, snapshot, i, insertFor)
  {
    var w := FreeWeeks(base, snapshot, i);
    assert FreeWeeks(base, snapshot, i + 1) == w + (if Livre(base, snapshot, i) then [i] else []);
    if Livre(base, snapshot, i) {
      AddedRecordsSnoc(base, w, i, insertFor);
    } else {
      assert w + [] == w;
      var r := AddedRecords(base, w, insertFor);
      assert r + [] == r;
    }
  }

  /** One week of the repetition loop: the repetition `i` weeks after `novo` is added
      when nothing in `snapshot` clashes with it. */
  method AdicionarSemana(store: AgendamentosStore, novo: Agendamento,
                         snapshot: seq<Agendamento>, i: nat, insertFor: nat -> Insert)
    modifies store
    ensures store.agendamentos ==
              old(store.agendamentos) + WeekRecords(novo, snapshot, i, insertFor)
    ensures store.loading == old(store.loading)
  {
    var dataRecorrente := novo.dataHora + i * WeekMs;
    var conflitosRecorrencia := VerificarConflito(snapshot, dataRecorrente,
                                                  novo.duracaoMinutos, novo.funcionariaId,
                                                  None);
    if |conflitosRecorrencia| == 0 {
      var _ := store.Adicionar(Occurrence(novo, i), insertFor(i));
    }
  }

  /** The repetition loop: week by week from 1 to `semanas - 1`, each repetition free in
      `snapshot` is added; a clashing one is skipped. */
  method AdicionarRepeticoes(store: AgendamentosStore, novo: Agendamento,
                             snapshot: seq<Agendamento>, semanas: int, insertFor: nat -> Insert)
    requires semanas > 1
    modifies store
    ensures store.agendamentos ==
              old(store.agendamentos) + AddedRecords(novo, FreeWeeks(novo, snapshot, semanas),
                                                     insertFor)
    ensures store.loading == old(store.loading)
  {
    ghost var start := store.agendamentos;
    for i := 1 to semanas
      invariant store.loading == old(store.loading)
      invariant store.agendamentos ==
                  start + AddedRecords(novo, FreeWeeks(novo, snapshot, i), insertFor)
    {
      AdicionarSemana(store, novo, snapshot, i, insertFor);
      FreeWeeksNext(novo, snapshot, i, insertFor);
    }
  }

  datatype SubmitResult = Invalid | ConflictDetected | Saved

  /** The form's submit. Validation runs first; then the booking is checked against the
      current list (ignoring the appointment being edited); a clash stops everything.
      Otherwise an edit sends the full record, and a creation adds the booking and, when
      asked, each free weekly repetition, checked against the list captured at submit.
      The outcome of each remote call is a parameter: `editOk` for the edit and
      `insertFor(i)` for the add of week `i`. */
  method Submit(store: AgendamentosStore, f: AgendamentoForm, editing: Option<Agendamento>,
                editOk: bool, insertFor: nat -> Insert)
    returns (result: SubmitResult)
    modifies store
    ensures result == Invalid <==> !SchemaValid(f)
    ensures result == ConflictDetected <==>
              SchemaValid(f) &&
              HasConflict(old(store.agendamentos), f.dataHora, f.duracaoMinutos,
                          f.funcionariaId, if editing.Some? then Some(editing.value.id) else None)
    ensures result != Saved ==> store.agendamentos == old(store.agendamentos)
    ensures result == Saved && editing.Some? ==>
              store.agendamentos ==
                if editOk then MergeById(old(store.agendamentos), editing.value.id,
                                         FullPatch(NovoAgendamento(f)))
                else old(store.agendamentos)
    ensures result == Saved && editing.None? ==>
              store.agendamentos ==
                old(store.agendamentos) +
                AddedRecords(NovoAgendamento(f),
                             RequestedWeeks(f, old(store.agendamentos)), insertFor)
    ensures store.loading == old(store.loading)
  {
    if !SchemaValid(f) {
      return Invalid;
    }
    var snapshot := store.agendamentos;
    var excluir := if editing.Some? then Some(editing.value.id) else None;
    var conflitos := VerificarConflito(snapshot, f.dataHora, f.duracaoMinutos,
                                       f.funcionariaId, excluir);
    if |conflitos| > 0 {
      return ConflictDetected;
    }
    var novo := NovoAgendamento(f);
    if editing.Some? {
      var _, _ := store.Editar(editing.value.id, FullPatch(novo), editOk);
      return Saved;
    }
    Criar(store, f, insertFor);
    return Saved;
  }

  /** The creating branch of the submit: the booking itself, then, when asked, the loop
      over its weekly repetitions, each checked against the list as it was before. */
  method Criar(store: AgendamentosStore, f: AgendamentoForm, insertFor: nat -> Insert)
    modifies store
    ensures store.agendamentos ==
              old(store.agendamentos) +
              AddedRecords(NovoAgendamento(f), RequestedWeeks(f, old(store.agendamentos)),
                           insertFor)
    ensures store.loading == old(store.loading)
  {
    var snapshot := store.agendamentos;
    var novo := NovoAgendamento(f);
    var _ := store.Adicionar(novo, insertFor(0));
    ghost var first := store.agendamentos;
    assert first == snapshot + AddedRecords(novo, [0], insertFor) by {
      assert [0][..0] == [];
    }
    if Recorrente(f) {
      AdicionarRepeticoes(store, novo, snapshot, f.semanasRecorrencia.value, insertFor);
      AddedRecordsConcat(novo, [0], FreeWeeks(novo, snapshot, f.semanasRecorrencia.value),
                         insertFor);
    }
  }
}
