# Só Elas Studio salon dashboard — a Dafny model of its business rules

The application manages a beauty salon: appointments (with staff members, services,
prices, durations and a status among `agendado`, `concluido` and `nao_compareceu`),
the team (one of whom is the owner, `isDona`), the service catalogue, the product stock
and its purchase records. Its rules live in React components and hooks over in-memory
lists. This project models those rules in Dafny and proves what they guarantee:

- **Scheduling** (`DateUtils`, `AgendaForm`). The interval-conflict test and the
  07:00–20:00 slot grid. The per-staff conflict scan, which ignores the appointment
  being edited. The appointment form's submit, with its weekly repetitions that skip
  clashing weeks.
- **Stores** (`Stores`). The four data hooks are classes holding a `seq` per list:
  append, replace-by-id, merge-by-id and delete-by-id. The remote call comes first and
  may fail, and only then does the local list change. A purchase appends its record
  and then raises one product's stock.
- **Record mappers** (`DataTransformers`). Each mapper renames fields between the
  application records and the table rows, and round-trips. The partial-update encoder
  emits exactly the defined fields.
- **Dashboard** (`DashboardPeriod`, `Kpis`, `Charts`, `Ranking`, `RevenueChart`,
  `Alerts`, `Forecasts`, `FilterHandlers`). These cover:
  - the status-and-period filter;
  - the indicator cards and their comparison with the previous period;
  - per-service and per-staff charts, built by one group-by fold (`Tally`);
  - the staff ranking;
  - the daily revenue series;
  - the management alerts;
  - month-over-month growth and forecasts;
  - the two filter panels' handlers.
- **Stock and team screens** (`PurchaseReport`, `ProductList`, `PurchaseForm`,
  `StaffList`, `StaffForm`). These cover:
  - the purchase report's date window, order and totals;
  - the product search, low-stock view and stock value;
  - the purchase dialog;
  - the team search, owner card and owner-protected delete;
  - the staff dialog.
- **Session** (`Auth`): fixed-credential login and logout, as a class.

Model conventions:
- Instants are integer milliseconds of local time, and `Day(t)` is the calendar day.
- "A month ago" and "two months ago" come in through a `Clock` record.
- Money and quantities are reals.
- Statuses are plain strings, because stored rows are cast without validation.
- Each remote outcome is a parameter: `Insert` for an insert, a `bool` for an update
  or delete.

## Model

| member | source | states |
|---|---|---|
| DateUtils.OverlapConflicts | src/lib/dateUtils.ts:91 | strictly overlapping intervals conflict |
| DateUtils.SharedEndpointConflicts | src/lib/dateUtils.ts:92-93 | equal starts or equal ends conflict, zero-length intervals included |
| DateUtils.ConflictSymmetric | src/lib/dateUtils.ts:84-95 | swapping the new and existing interval gives the same answer |
| DateUtils.BackToBackNoConflict | src/lib/dateUtils.ts:90-94 | positive-length bookings that touch end-to-start do not conflict |
| DateUtils.ConflictIsOverlap | src/lib/dateUtils.ts:84-95 | for positive lengths the test is exactly half-open interval overlap |
| DateUtils.ZeroLengthConflict | src/lib/dateUtils.ts:92-93 | two zero-length bookings conflict iff they are at the same instant |
| DateUtils.AddMinutesCompose | src/lib/dateUtils.ts:97-99 | shifting by a then b is shifting by a+b; shifting back by the same amount restores the date; two shifts of one date agree iff the amounts do |
| DateUtils.AddMinutesMonotone | src/lib/dateUtils.ts:97-99 | the shift is later iff minutes > 0 and equal iff minutes = 0 |
| DateUtils.SlotsShape | src/lib/dateUtils.ts:73-79 | slots start at 07:00, end at 20:00, strictly increase, stay in 07:00–20:00 and sit on the interval grid |
| DateUtils.HalfHourGrid | src/lib/dateUtils.ts:73-79 | with 30 minutes there are exactly 27 slots |
| DateUtils.PushHour | src/lib/dateUtils.ts:74-78 | the inner loop appends exactly the slots of its hour: the whole row before 20:00, 20:00 alone in the last hour |
| DateUtils.CreateTimeSlots | src/lib/dateUtils.ts:69-82 | the nested loops with the 20:00 break produce exactly the slot grid whose shape `SlotsShape` states |
| AgendaForm.VerificarConflitoSpec | src/components/Agenda/FormularioAgendamento.tsx:123-138 | reports exactly the same-staff appointments that clash, never the one being edited (when its id is non-empty) |
| AgendaForm.HasConflictIff | src/components/Agenda/FormularioAgendamento.tsx:127-135 | a booking is reported iff some listed appointment of that staff member clashes with it |
| AgendaForm.NovoAgendamento | src/components/Agenda/FormularioAgendamento.tsx:158-169 | each field is the form's own, the start is the chosen instant and the status is 'agendado'; a form the schema accepts gives a non-empty client, staff member and service, a price ≥ 0 and at least 15 minutes |
| AgendaForm.FullPatchReplaces | src/components/Agenda/FormularioAgendamento.tsx:171-174 | an edit replaces every field but the id |
| AgendaForm.Occurrence | src/components/Agenda/FormularioAgendamento.tsx:182-183 | repetition i is the base appointment moved by exactly i weeks, every other field unchanged; repetition 0 is the base |
| AgendaForm.FreeWeeksShape | src/components/Agenda/FormularioAgendamento.tsx:181-198 | the weeks kept are strictly increasing and lie within 1..n-1 |
| AgendaForm.FreeWeeksMembers | src/components/Agenda/FormularioAgendamento.tsx:181-198 | a week in 1..n-1 is kept iff its repetition clashes with nothing in the snapshot |
| AgendaForm.FreeWeeksNext | src/components/Agenda/FormularioAgendamento.tsx:181-198 | one more loop step extends the added records by exactly that week's own |
| AgendaForm.RequestedWeeksShape | src/components/Agenda/FormularioAgendamento.tsx:177-199 | a creation adds week 0 and at most `semanasRecorrencia - 1` repetitions, only when recurrence is asked for with more than one week |
| AgendaForm.AddedRecordsShape | src/components/Agenda/FormularioAgendamento.tsx:194-197 | every added record is the form's appointment moved by its week, under the database's id |
| AgendaForm.AdicionarSemana | src/components/Agenda/FormularioAgendamento.tsx:182-197 | one step adds the repetition i weeks on iff it is free in the snapshot and its insert succeeds |
| AgendaForm.AdicionarRepeticoes | src/components/Agenda/FormularioAgendamento.tsx:181-199 | the repetition loop appends exactly the stored free repetitions, each checked against the list captured at submit |
| AgendaForm.Criar | src/components/Agenda/FormularioAgendamento.tsx:176-199 | a creation appends the booking and then its free repetitions, checked against the list from before |
| AgendaForm.Submit | src/components/Agenda/FormularioAgendamento.tsx:140-210 | an invalid form or a clash changes nothing; otherwise an edit merges the full record, a creation appends the booking and its free repetitions |
| Stores.RemoveByIdSpec | src/hooks/useAgendamentos.ts:52 | delete keeps exactly the records with another id, and drops one per occurrence |
| Stores.RemoveByIdKeepsOrder | src/hooks/useAgendamentos.ts:52 | delete preserves the relative order of the rest |
| Stores.RemoveByIdLaws | src/hooks/useAgendamentos.ts:49-57 | deleting an absent id changes nothing and deleting twice is deleting once |
| Stores.UpdateById | src/hooks/useFuncionarias.ts:40-42 | replace-by-id keeps length, changes the matching records and leaves the others identical |
| Stores.UpdateByIdLaws | src/hooks/useServicos.ts:40-42 | an id-keeping update keeps the ids and their order, and an idempotent update applied twice is applied once |
| Stores.MergeByIdLaws | src/hooks/useAgendamentos.ts:40-42 | merge keeps length and ids, turns each record with that id into its merge with the patch, leaves other records identical, and merging again changes nothing |
| Stores.AddStock | src/hooks/useProdutos.ts:86-92 | every product with the purchased id gains the quantity; nothing else changes |
| Stores.AddStockTotal | src/hooks/useProdutos.ts:86-92 | total stock grows by the quantity per matching product and not at all when no product matches |
| Stores.AgendamentosStore.Load | src/hooks/useAgendamentos.ts:10-22 | a fetched list replaces the local one mapped record by record; a failure keeps it |
| Stores.AgendamentosStore.Adicionar | src/hooks/useAgendamentos.ts:24-34 | a successful insert appends exactly the record under the new id; a failure changes nothing |
| Stores.AgendamentosStore.Editar | src/hooks/useAgendamentos.ts:36-47 | sends the corrected update payload; a successful update merges the patch into every record with that id; a failure changes nothing |
| Stores.AgendamentosStore.Excluir | src/hooks/useAgendamentos.ts:49-57 | a successful delete removes every record with that id; a failure changes nothing |
| Stores.FuncionariasStore.Load | src/hooks/useFuncionarias.ts:10-22 | as for appointments |
| Stores.FuncionariasStore.Adicionar | src/hooks/useFuncionarias.ts:24-34 | appends exactly one record, only after a successful insert |
| Stores.FuncionariasStore.Editar | src/hooks/useFuncionarias.ts:36-47 | replaces the records with that id by the new fields and the same id, only after success |
| Stores.FuncionariasStore.Excluir | src/hooks/useFuncionarias.ts:49-57 | removes every record with that id after success, with no owner check |
| Stores.ServicosStore.Load | src/hooks/useServicos.ts:10-22 | as for appointments |
| Stores.ServicosStore.Adicionar | src/hooks/useServicos.ts:24-34 | appends exactly one service, only after a successful insert |
| Stores.ServicosStore.Editar | src/hooks/useServicos.ts:36-47 | replaces the matching services keeping their id, only after success |
| Stores.ServicosStore.Excluir | src/hooks/useServicos.ts:49-57 | removes every service with that id after success |
| Stores.ProdutosStore.LoadProdutos | src/hooks/useProdutos.ts:11-23 | fetched products replace the list; purchase records untouched |
| Stores.ProdutosStore.LoadRegistrosCompra | src/hooks/useProdutos.ts:25-37 | fetched purchase records replace theirs; products untouched |
| Stores.ProdutosStore.AdicionarProduto | src/hooks/useProdutos.ts:39-49 | appends exactly one product after a successful insert |
| Stores.ProdutosStore.EditarProduto | src/hooks/useProdutos.ts:51-62 | replaces the matching products keeping their id, after success |
| Stores.ProdutosStore.ExcluirProduto | src/hooks/useProdutos.ts:64-72 | removes every product with that id after success |
| Stores.ProdutosStore.AdicionarCompra | src/hooks/useProdutos.ts:74-98 | the record is appended after its insert; the stock grows only if the stock update also succeeds, so a failed stock update leaves the record appended and the stock unchanged |
| DataTransformers.FuncionariaRoundTrip | src/utils/dataTransformers.ts:12-27 | a staff record sent and read back is the same record under the database's id |
| DataTransformers.FuncionariaRowRoundTrip | src/utils/dataTransformers.ts:12-27 | a row read and sent back is the same row |
| DataTransformers.ServicoRoundTrip | src/utils/dataTransformers.ts:30-47 | services round-trip |
| DataTransformers.AgendamentoRoundTrip | src/utils/dataTransformers.ts:50-79 | appointments round-trip, whatever their status string |
| DataTransformers.AgendamentoRowRoundTrip | src/utils/dataTransformers.ts:50-79 | appointment rows round-trip |
| DataTransformers.ProdutoRoundTrip | src/utils/dataTransformers.ts:99-120 | products round-trip |
| DataTransformers.RegistroCompraRoundTrip | src/utils/dataTransformers.ts:123-142 | purchase records round-trip |
| DataTransformers.AgendamentoPartialToDb | src/utils/dataTransformers.ts:81-96 | the name, start and status columns are present iff their fields are defined, the start as its instant; `observacoes: undefined` leaves its column out; the empty patch gives the empty map |
| DataTransformers.PartialToDbText | src/utils/dataTransformers.ts:84-93 | each of the six text columns is present iff its field is defined, and then holds that field's value |
| DataTransformers.PartialToDbValues | src/utils/dataTransformers.ts:84-93 | the price, duration, start and note columns likewise; a note carried as `undefined` is left out |
| DataTransformers.UpdateMatchesLocalMerge | src/utils/dataTransformers.ts:81-96 | the row after the update, read back, equals the locally merged record exactly when the patch does not carry `observacoes: undefined` for a row that has a note |
| DataTransformers.ClearedNoteDiverges | src/utils/dataTransformers.ts:92 | a patch carrying `observacoes: undefined` clears a note locally while the updated row keeps it |
| DataTransformers.AgendamentoUpdateData | src/utils/dataTransformers.ts:81-96 | the payload above plus, when the patch carries `observacoes: undefined`, that column set to null |
| DataTransformers.UpdateDataMatchesLocalMerge | src/hooks/useAgendamentos.ts:36-42 | with the corrected payload the updated row, read back, always equals the locally merged record |
| DataTransformers.MergePatchLaws | src/hooks/useAgendamentos.ts:41 | each of the ten fields the patch carries takes the patch's value, every other field and the id are kept; merging the empty patch changes nothing; merging twice is merging once |
| DashboardPeriod.Filtrados | src/components/Dashboard/DashboardKPIs.tsx:26-64 | keeps exactly the appointments passing the status and period clauses |
| DashboardPeriod.StatusFilterExact | src/components/Dashboard/DashboardKPIs.tsx:30-32 | with a real status set, every kept appointment has it |
| DashboardPeriod.UnrestrictedKeepsAll | src/components/Dashboard/DashboardKPIs.tsx:50-59 | no status and an unrestricted period keep the whole list |
| DashboardPeriod.HojeKeepsToday | src/components/Dashboard/DashboardKPIs.tsx:40-41 | 'hoje' keeps exactly today's appointments passing the status clause |
| DashboardPeriod.BoundsInclusive | src/components/Dashboard/DashboardKPIs.tsx:62-63 | both window ends are kept |
| Kpis.ConcluidosSpec | src/components/Dashboard/DashboardKPIs.tsx:67-68 | concluded appointments are the filtered ones with status 'concluido', a subset of the filtered list |
| Kpis.KpisFor | src/components/Dashboard/DashboardKPIs.tsx:66-129 | the filtered count and the concluded count among them; revenue over the concluded; the ticket is their mean; the attendance rate is `Percent` of concluded over filtered (in [0,100], 0 on empty); previous values only over concluded; both variations are `Variation` of current against previous (0 on a zero base, with the sign of the change) |
| Kpis.DashboardKpis | src/components/Dashboard/DashboardKPIs.tsx:99-100 | no previous period for 'personalizado': both variations 0; other periods as written |
| Kpis.PeriodoAnterior | src/components/Dashboard/DashboardKPIs.tsx:75-104 | previous windows of 14..7 days and 2..1 months ago, none for other periods |
| Kpis.PeriodoAnteriorHojeIsYesterday | src/components/Dashboard/DashboardKPIs.tsx:81-86 | the corrected 'hoje' window holds exactly yesterday |
| Kpis.HojePreviousWindowIsInstant | src/components/Dashboard/DashboardKPIs.tsx:81-86 | as written, the 'hoje' window holds a single instant |
| Kpis.HojeComparisonMissesYesterday | src/components/Dashboard/DashboardKPIs.tsx:106-120 | a concluded appointment yesterday is missed by the written comparison and counted by the corrected one |
| Ratios.Percent | src/components/Dashboard/DashboardKPIs.tsx:70-72 | 0 on an empty whole; otherwise the rate times the whole is the part times 100, and it is 100 iff part = whole; never negative, at most 100 when part ≤ whole |
| Ratios.Mean | src/components/Dashboard/DashboardKPIs.tsx:69 | 0 for no items, otherwise times n gives the total |
| Ratios.Variation | src/components/Dashboard/DashboardKPIs.tsx:123-129 | 0 on a non-positive base, otherwise positive iff the value grew |
| Tally.BumpSpec | src/components/Dashboard/GraficoServicos.tsx:68 | one fold step grows the group of the key or creates it at the end |
| Tally.GroupByKeys | src/components/Dashboard/GraficoServicos.tsx:63-70 | groups have distinct keys, one for exactly each key met, and sizes sum to the keyed count |
| Tally.GroupByStats | src/components/Dashboard/GraficoProfissionais.tsx:61-82 | each group holds exactly its count, concluded count and concluded revenue |
| Tally.GroupBySizes | src/components/Dashboard/GraficoProfissionais.tsx:75-79 | every group is non-empty and concluded ≤ size |
| Charts.DadosServicos | src/components/Dashboard/GraficoServicos.tsx:73-79 | empty iff no appointment passes the filter; each entry's share is `Percent` of its count over the filtered count |
| Charts.DadosServicosSpec | src/components/Dashboard/GraficoServicos.tsx:63-82 | each entry counts the filtered appointments whose service has that name, at least 1; names distinct; counts sum to the filtered total |
| Charts.UnknownServiceGrouped | src/components/Dashboard/GraficoServicos.tsx:65-66 | an unknown service id is counted under 'Não especificado' |
| Charts.DadosProfissionais | src/components/Dashboard/GraficoProfissionais.tsx:85-89 | each entry's completion rate is `Percent` of its concluded over its appointments (in [0,100]); its ticket is the `Mean` of its revenue over its concluded (0 without concluded) |
| Charts.DadosProfissionaisSpec | src/components/Dashboard/GraficoProfissionais.tsx:61-82 | per name: its count, concluded count and concluded revenue; concluded ≤ count; names distinct; counts sum to the filtered total |
| Ranking.EntriesSpec | src/components/Dashboard/RankingFuncionarias.tsx:70-91 | one entry per known staff member met, with its name, role, count of filtered appointments and revenue of concluded ones |
| Ranking.PerfOfMetrics | src/components/Dashboard/RankingFuncionarias.tsx:94-102 | a group with its own concluded count yields a record whose concluded count is at most its count, whose rate is `Percent` of concluded over booked, within 0–100%, and whose ticket times the concluded count is its revenue (0 without concluded) |
| Ranking.EntriesMetrics | src/components/Dashboard/RankingFuncionarias.tsx:94-102 | corrected: every record of the ranking has those consistent metrics, its rate being its own concluded share of its own appointments |
| Ranking.EntriesDistinct | src/components/Dashboard/RankingFuncionarias.tsx:71-79 | no staff id has two records |
| Ranking.EntriesCover | src/components/Dashboard/RankingFuncionarias.tsx:71-72 | a filtered appointment has the record of its staff id iff that staff member is known; unknown ones are skipped |
| Ranking.Desempenho | src/components/Dashboard/RankingFuncionarias.tsx:70-91 | the accumulation loop yields the group-by over known staff |
| Ranking.RankingFuncionarias | src/components/Dashboard/RankingFuncionarias.tsx:18-107 | the ranking is a permutation of the entries, sorted by revenue descending |
| Ranking.RateAbove100AsWritten | src/components/Dashboard/RankingFuncionarias.tsx:95-101 | as written, two staff with one concluded appointment each get a 200% rate; the corrected entries give 100% |
| RevenueChart.SerieDiasShape | src/components/Dashboard/GraficoFaturamento.tsx:26-58 | 1, 7 or 30 consecutive days ending today; a custom period has `DiffDays` + 1 consecutive days from the start date; empty without both dates |
| RevenueChart.DiasDoPeriodo | src/components/Dashboard/GraficoFaturamento.tsx:26-58 | the loops produce the day series |
| RevenueChart.Pontos | src/components/Dashboard/GraficoFaturamento.tsx:61-71 | one point per day with that day's concluded revenue |
| RevenueChart.FaturamentoDiaIsDayRevenue | src/components/Dashboard/GraficoFaturamento.tsx:62-64 | a day's value is the revenue of concluded appointments of that calendar day |
| RevenueChart.SeriesTotal | src/components/Dashboard/GraficoFaturamento.tsx:74 | over consecutive days the points sum to the revenue of those days, nothing counted twice |
| RevenueChart.TotalIsRecentRevenue | src/components/Dashboard/GraficoFaturamento.tsx:74 | the total is the revenue of the last 1, 7 or 30 calendar days |
| RevenueChart.StatusIgnored | src/components/Dashboard/GraficoFaturamento.tsx:20 | the status filter does not change the chart |
| RevenueChart.GraficoFaturamento | src/components/Dashboard/GraficoFaturamento.tsx:18-75 | points, total and daily mean (0 for an empty series) |
| Alerts.TaxaFaltas | src/components/Dashboard/AlertasGestao.tsx:94-97 | `Percent` of the no-shows over the appointments of the last 30 days: 0 with no appointment, otherwise in [0,100] |
| Alerts.MaisPopularSpec | src/components/Dashboard/AlertasGestao.tsx:111-117 | none iff the week is empty; the pick has the week's count of its service and no service has more |
| Alerts.AlertaEstoque | src/components/Dashboard/AlertasGestao.tsx:27-37 | present iff some product has stock ≤ minimum |
| Alerts.AlertaHoje | src/components/Dashboard/AlertasGestao.tsx:40-54 | present iff there are appointments today; pending ≤ total |
| Alerts.AlertaSemana | src/components/Dashboard/AlertasGestao.tsx:66-84 | nothing iff 300 ≤ revenue ≤ 1000; 'ótima' iff > 1000; 'baixo' iff < 300 |
| Alerts.AlertaFaltas | src/components/Dashboard/AlertasGestao.tsx:99-108 | present iff the 30-day no-show rate exceeds 20 |
| Alerts.AlertaPopular | src/components/Dashboard/AlertasGestao.tsx:119-131 | present iff the top service exists in the catalogue |
| Alerts.AlertasGestao | src/components/Dashboard/AlertasGestao.tsx:20-133 | the push sequence yields the five blocks in order |
| Alerts.AlertasOrder | src/components/Dashboard/AlertasGestao.tsx:26-133 | at most 5 alerts, blocks strictly in the order stock, today, week, no-show, popular |
| Alerts.AlertasPresenceGoodWeek | src/components/Dashboard/AlertasGestao.tsx:66-84 | the good-week alert appears iff the week's revenue is above 1000 |
| Alerts.AlertasPresenceWeakWeek | src/components/Dashboard/AlertasGestao.tsx:66-84 | the weak-week alert appears iff the week's revenue is below 300, so never together with the good-week one |
| Alerts.AlertasPresenceStockToday | src/components/Dashboard/AlertasGestao.tsx:27-54 | the stock and today alerts appear iff their conditions hold |
| Alerts.AlertasPresenceNoShow | src/components/Dashboard/AlertasGestao.tsx:94-108 | the no-show alert appears iff the rate exceeds 20 |
| Alerts.AlertasPresencePopular | src/components/Dashboard/AlertasGestao.tsx:116-131 | the popular alert appears iff the top service is in the catalogue |
| Alerts.AlertasCoerentes | src/components/Dashboard/AlertasGestao.tsx:26-133 | every alert carries the numbers its condition was computed from |
| Forecasts.MonthsDisjoint | src/components/Dashboard/PrevisoesTendencias.tsx:30-39 | the last-month and previous-month windows share no appointment |
| Forecasts.ClientesBound | src/components/Dashboard/PrevisoesTendencias.tsx:49-50 | distinct client names are at most the appointments and at least 1 when there are some |
| Forecasts.QuantidadeDeIsCount | src/components/Dashboard/PrevisoesTendencias.tsx:61-69 | the previous count of a service is its number of appointments, 0 when absent |
| Forecasts.CrescimentoServico | src/components/Dashboard/PrevisoesTendencias.tsx:70-72 | 100 with no previous count; otherwise the relative growth with its sign |
| Forecasts.CandidatosSpec | src/components/Dashboard/PrevisoesTendencias.tsx:67-75 | each candidate carries its service's last-month count (at least 1), the growth of that count over the previous month's count of the same service, and the catalogue's service of that id iff there is one |
| Forecasts.CandidatosDistinct | src/components/Dashboard/PrevisoesTendencias.tsx:67-68 | no service has two candidates |
| Forecasts.CandidatosCover | src/components/Dashboard/PrevisoesTendencias.tsx:67-68 | every service booked last month has a candidate |
| Forecasts.CandidatosBooked | src/components/Dashboard/PrevisoesTendencias.tsx:67-68 | every candidate's service was booked last month |
| Forecasts.TopTresSpec | src/components/Dashboard/PrevisoesTendencias.tsx:77-78 | exactly min(3, n) elements, sorted by growth descending, drawn from the input |
| Forecasts.TopTresBest | src/components/Dashboard/PrevisoesTendencias.tsx:77-78 | no left-out element grows faster than the last one kept |
| Forecasts.ServicosEmAltaSpec | src/components/Dashboard/PrevisoesTendencias.tsx:67-78 | trending services are known, grew by more than 20, at most 3, sorted descending |
| Forecasts.PrevisaoAgendamentos | src/components/Dashboard/PrevisoesTendencias.tsx:81-82 | the forecast count equals last month's concluded count |
| Forecasts.PrevisaoFaturamento | src/components/Dashboard/PrevisoesTendencias.tsx:83 | last month's revenue without a base, otherwise last²/previous |
| Forecasts.MelhorDiaSpec | src/components/Dashboard/PrevisoesTendencias.tsx:86-105 | none iff no appointment; otherwise no weekday has more appointments than the best day's count |
| Forecasts.MelhorDiaNome | src/components/Dashboard/PrevisoesTendencias.tsx:92-105 | the best day is a weekday shown by its name with that weekday's own count |
| Forecasts.Analises | src/components/Dashboard/PrevisoesTendencias.tsx:22-109 | growth 0 on a zero base, clients ≤ appointments, forecast = count, at most 3 trending, best day none iff empty |
| FilterHandlers.HandlePeriodoChange | src/components/Dashboard/FiltrosDashboard.tsx:24-29 | only the four periods are applied; other fields kept; validity preserved |
| FilterHandlers.HandleStatusChange | src/components/Dashboard/FiltrosDashboard.tsx:31-39 | 'todos' clears, a known status is stored, anything else ignored; other fields kept |
| FilterHandlers.HandleDataInicioChange | src/components/Dashboard/FiltrosDashboard.tsx:41-46 | empty text clears the date, other text is parsed; other fields kept |
| FilterHandlers.HandleDataFimChange | src/components/Dashboard/FiltrosDashboard.tsx:48-53 | as for the start date |
| FilterHandlers.RawPeriodoAgrees | src/components/Dashboard/DashboardFilters.tsx:19-26 | on a declared period the unvalidated handler is the validated one plus clearing both dates; from a valid record it gives a valid one iff the period is declared |
| FilterHandlers.RawStatusAgrees | src/components/Dashboard/DashboardFilters.tsx:28-33 | on a declared status the unvalidated handler is the validated one; from a valid record it gives a valid one iff the status is declared |
| FilterHandlers.RawDatesAgree | src/components/Dashboard/DashboardFilters.tsx:35-47 | storing the date a text field reads is what the validated date handlers do; any stored date keeps a record valid |
| FilterHandlers.CanceladoLeavesType | src/components/Dashboard/DashboardFilters.tsx:86 | the offered 'cancelado' leaves the declared filter type; the validated panel ignores it |
| FilterHandlers.CanceladoHidesAll | src/components/Dashboard/DashboardFilters.tsx:28-33 | with 'cancelado' stored, no appointment of a declared status is shown |
| FilterHandlers.TodosSameAsNone | src/components/Dashboard/DashboardFilters.tsx:28-33 | a raw 'todos' filters exactly like the cleared status |
| PurchaseReport.Janela | src/components/Estoque/RelatorioCompras.tsx:33-69 | 'hoje' is exactly today; 'semana' the last 7 days; custom dates run to the end of the end day; otherwise the last month |
| PurchaseReport.FimDoDia | src/components/Estoque/RelatorioCompras.tsx:57 | an instant is at or before the end of day iff its day is not later |
| PurchaseReport.RegistrosFiltrados | src/components/Estoque/RelatorioCompras.tsx:72-79 | exactly the records in the inclusive window, a permutation of the filter, newest first |
| PurchaseReport.EstatisticasDe | src/components/Estoque/RelatorioCompras.tsx:82-94 | count of purchases, ticket the mean, all zero for no purchase |
| PurchaseReport.EstatisticasNonNegative | src/components/Estoque/RelatorioCompras.tsx:83-86 | non-negative values give non-negative totals and ticket |
| PurchaseReport.RelatorioTotals | src/components/Estoque/RelatorioCompras.tsx:83-85 | totals are those of the records in the window, regardless of the order |
| ProductList.ProdutosFiltrados | src/components/Estoque/ListaProdutos.tsx:40-43 | exactly the products whose name or brand contains the text ignoring case; empty text keeps all |
| ProductList.BuscaIgnoraCaixa | src/components/Estoque/ListaProdutos.tsx:40-43 | searching a text and its lower-case form finds the same products |
| ProductList.ProdutosEstoqueBaixo | src/components/Estoque/ListaProdutos.tsx:46-48 | exactly the found products with stock ≤ minimum |
| ProductList.BaixoSemBuscaIsAlerta | src/components/Estoque/ListaProdutos.tsx:46-48 | without search, the low-stock card equals the stock alert's list |
| ProductList.ValorTotalNonNegative | src/components/Estoque/ListaProdutos.tsx:55-62 | non-negative stock and costs give a non-negative value |
| ProductList.ValorAposCompra | src/components/Estoque/ListaProdutos.tsx:55-62 | a purchase raises the stock value by quantity × unit cost of the matching products |
| ProductList.HandleExcluirProduto | src/components/Estoque/ListaProdutos.tsx:50-53 | deletes through the store and shows the success message whatever the outcome |
| PurchaseForm.Defaults | src/components/Estoque/FormularioCompra.tsx:50-56 | one unit at the product's cost, valid for a non-negative cost |
| PurchaseForm.ResumoDe | src/components/Estoque/FormularioCompra.tsx:45-47 | total = quantity × cost, new stock = stock + quantity, and for a valid form a non-negative total and a strictly larger stock |
| PurchaseForm.NovaCompra | src/components/Estoque/FormularioCompra.tsx:63-69 | the record carries the product id, the quantities and the summary's total |
| PurchaseForm.PreviewMatchesStore | src/components/Estoque/FormularioCompra.tsx:145 | the announced new stock is what the store's increment produces |
| PurchaseForm.Submit | src/components/Estoque/FormularioCompra.tsx:59-77 | invalid fields or no product change nothing; otherwise the store records the purchase |
| StaffList.FuncionariasFiltradas | src/components/Funcionarias/ListaFuncionarias.tsx:37-40 | exactly the staff whose name or role contains the text ignoring case |
| StaffList.Dona | src/components/Funcionarias/ListaFuncionarias.tsx:55 | the first owner found, present iff some owner was found |
| StaffList.Outras | src/components/Funcionarias/ListaFuncionarias.tsx:56 | exactly the non-owners found |
| StaffList.CardsCoverFound | src/components/Funcionarias/ListaFuncionarias.tsx:55-56 | with at most one owner, each person found has exactly one card |
| StaffList.Ativas | src/components/Funcionarias/ListaFuncionarias.tsx:81 | the team size minus the owners, over the unfiltered team |
| StaffList.OwnerProtected | src/components/Funcionarias/ListaFuncionarias.tsx:42-52 | with distinct ids no owner is deleted, nothing is added, every record with another id is kept, and a granted delete of a non-owner removes it |
| StaffList.HandleExcluirFuncionaria | src/components/Funcionarias/ListaFuncionarias.tsx:42-52 | refuses the owner with its message; otherwise deletes through the store |
| StaffForm.Defaults | src/components/Funcionarias/FormularioFuncionaria.tsx:58-70 | the edited person's name and role, or empty fields the schema refuses |
| StaffForm.OwnersPreserved | src/components/Funcionarias/FormularioFuncionaria.tsx:72-94 | with distinct ids, saving never changes the number of owners: an edit keeps the edited person's owner flag and a creation never adds an owner |
| StaffForm.Submit | src/components/Funcionarias/FormularioFuncionaria.tsx:72-94 | invalid input changes nothing; otherwise edits by id or adds |
| DayList.AgendamentosDia | src/components/Agenda/ListaAgendamentosDia.tsx:32-34 | exactly the appointments of the day, a permutation of the filter, earliest first |
| DayList.StatusPatch | src/components/Agenda/ListaAgendamentosDia.tsx:36-37 | the status button sends only the status column |
| DayList.StatusChangeOnlyStatus | src/components/Agenda/ListaAgendamentosDia.tsx:36-38 | a status change alters only the status of that appointment |
| DayList.HandleStatusChange | src/components/Agenda/ListaAgendamentosDia.tsx:36-39 | the store merges the status patch when the update succeeds; the success message is shown whatever the outcome |
| DayList.HandleExcluir | src/components/Agenda/ListaAgendamentosDia.tsx:41-44 | the store deletes the appointment when the delete succeeds; the success message is shown whatever the outcome |
| DayList.StatusColor | src/components/Agenda/ListaAgendamentosDia.tsx:46-57 | blue for 'agendado', green for 'concluido', red for 'nao_compareceu', grey for anything else |
| DayList.StatusColorsDistinct | src/components/Agenda/ListaAgendamentosDia.tsx:46-57 | the three declared statuses get three different colours, none of them the grey of an unknown status |
| DayList.StatusLabelsDistinct | src/components/Agenda/ListaAgendamentosDia.tsx:59-70 | the three labels differ from each other and from every declared status |
| Auth.AuthSession.Login | src/contexts/AuthContext.tsx:28-41 | true iff admin/acesso123; then the admin user is signed in and saved; otherwise nothing changes |
| Auth.AuthSession.Logout | src/contexts/AuthContext.tsx:43-46 | no user and no saved session |
| Auth.AuthSession.Restore | src/contexts/AuthContext.tsx:19-26 | a saved session becomes the user; loading ends |
| Auth.FreshStartRefusesOthers | src/contexts/AuthContext.tsx:28-41 | from a fresh start, someone is signed in iff the fixed credentials were given |

## Findings

| source | as written | input that shows it | evidently intended | confidence | as-written member | corrected member |
|---|---|---|---|---|---|---|
| src/components/Dashboard/DashboardKPIs.tsx:81-86 | for 'hoje' the previous window starts and ends at the same instant, yesterday at the current time | one concluded appointment yesterday at 10:00, viewed today at 15:00: the previous revenue is 0 | the previous window is the whole of yesterday | not executed | Kpis.HojeComparisonMissesYesterday | Kpis.PeriodoAnteriorHojeIsYesterday |
| src/components/Dashboard/RankingFuncionarias.tsx:95-101 | the concluded count of every entry is either the whole filtered concluded count or 0, not the staff member's own | staff Ana and Bia, one concluded appointment each, period 'todos': Ana's rate is 200% | each entry counts its own concluded appointments, so the rate stays within 0–100% | not executed | Ranking.RateAbove100AsWritten | Ranking.EntriesMetrics |
| src/utils/dataTransformers.ts:92 | a patch carrying `observacoes: undefined` leaves the column out of the update, yet the hook's spread (src/hooks/useAgendamentos.ts:41) clears the note locally; latent: the appointment form always sends the note as a string (src/components/Agenda/FormularioAgendamento.tsx:93,167) and the status buttons send only the status (src/components/Agenda/ListaAgendamentosDia.tsx:37), so the divergence is a property of the hook's interface | editing an appointment whose note is "x" with a patch whose `observacoes` is undefined: the list shows no note, the table still holds "x" | the table and the local list agree after every edit, so a cleared note is sent as null | not executed | DataTransformers.ClearedNoteDiverges | DataTransformers.UpdateDataMatchesLocalMerge |

The rest of the model uses the corrected definitions: `Kpis.DashboardKpis`,
`Ranking.Entries` (through `Ranking.RankingFuncionarias`) and
`DataTransformers.AgendamentoUpdateData` (through `Stores.AgendamentosStore.Editar`).
The as-written forms are `Kpis.PeriodoAnteriorAsWritten`, `Kpis.DashboardKpisAsWritten`,
`Ranking.EntriesAsWritten` and `DataTransformers.AgendamentoPartialToDb`.

## Left out

- The remote database client is not part of this model. Each call is an outcome parameter: an insert's id, or a success flag. The stock update's read-modify-write on the server is not modelled.
- Asynchrony is not modelled. Handlers that do not wait for a store call are modelled as if it completed before the message. The message itself is still the success text whatever the outcome.
- Calendar arithmetic is not modelled:
  - `setMonth` with its month-length rules, time zones and daylight saving. Instants are local milliseconds, and the month-ago instants are inputs.
  - `setDate(d - 7)` is taken as exactly 7 × 24 h.
  - Date strings are read by an uninterpreted `parse` function.
- Floating point is not modelled: money, means and percentages are exact reals. `toFixed` formatting of the chart percentages and messages is not modelled.
- `toLowerCase` folds only the letters A–Z. Other Unicode case mappings are not modelled.
- JavaScript object key order is taken as insertion order for the grouped records. Weekday indices are the exception: they are integer keys, so their order is ascending, and `Forecasts.ContagemDias` follows that order.
- `DataTransformers.AgendamentoPartialToDb` is one map construction rather than the source's step-by-step field assignments.
- DataTransformers.MergePatch: an explicit `undefined` is modelled only for `observacoes`. A patch carrying any other field as `undefined` would blank that field locally in the source, while the model keeps the old value. No screen of the application sends such a patch.
- DateUtils.CreateTimeSlots: the source's slots are `Date` objects made from `new Date()`, so they carry today's date and the current seconds and milliseconds. The model's slots are minutes since midnight, and it does not capture that date or those seconds.
- DateUtils.CreateTimeSlots: `requires intervalMinutes > 0` excludes the intervals for which the source's inner loop never ends (0 or less). The default interval is 30, and the one call in the application (src/components/Agenda/CalendarioSemanal.tsx:31) passes 30.
- Document export (PDF, spreadsheet), the calendar views, page layout, the login form and the data-context loader are not part of this model.
- The browser's saved session is a field of `Auth.AuthSession`. Its JSON encoding and decoding are taken as exact.
- Form libraries are reduced to their schema checks. A number field that does not hold a number is `None`.
- The revenue chart's custom period with an end date before the start date still counts forward from the start date. The model keeps that behaviour.
