# Dashboard de gestiones, modelled in Dafny

This project models the logic of a React dashboard that runs on mock data. It has four areas.

- **Case workflow ("gestión").** A case record carries `estado`, `responsable`, `documentos`, `historial` and `comentariosRechazo`. Four action widgets move it along:
  - assignment, with a deferred step into execution;
  - report upload;
  - approval or rejection by the general manager;
  - purchase-order check and invoicing.

  A dispatcher picks the single widget, or the waiting message, shown for a status and a user. The whole page is also modelled as a state machine over events, and its reachable states are characterised by an invariant.
- **Client task analytics.** This covers:
  - the grid of tasks: search, sort, selection, header checkbox and inline editing;
  - the queue of tasks: filter, sort, due-date label and colour;
  - the timeline: zoom, drag-pan and task aging;
  - the filter panel: filter record, active count, save and load;
  - the page that hosts them: saved filters, the "filtros activos" badge, view modes.
- **Operations centre.** This covers:
  - the page's global filter merge and its four single-key handlers;
  - the alerts feed: severity tabs, counts and "hace …" labels;
  - the workflow table: sort state, row selection, select-all, status and priority lookups, due labels;
  - the workflow heat map: zoom, colour, intensity, cell selection and highlight.
- **Performance analytics.** This covers:
  - the page: filters, bookmarks, tabs and which blocks each tab shows;
  - the advanced filters: single-key change, bookmarks, chips and clear;
  - the export panel: export and schedule configs, recipient list;
  - the workflow-template ranking: sorts, performance colour, ranks;
  - the breadcrumb trail.

Component state slots that handlers update in place are Dafny classes whose methods carry `modifies` clauses. The rules behind them are functions, and lemmas state the properties. Sorting is an in-place insertion sort on an `array` where the source sorts in place (`Array.prototype.sort` on the grid of tasks). Where the source sorts a copy, the same sort runs on a fresh array built from the list. The shared modules are:

- `Wrappers`: `Option`;
- `JsValues`: JavaScript values, truthiness, object spread;
- `Text`: lower-casing, `includes`, `split`, `trim`, string `<` and `${n}`;
- `Seqs`: `filter`, `slice`;
- `Sorting`: comparator sorts;
- `Dates`: day and minute differences.

## Model

All source paths are under `react_app/src/`.

| member | source | states |
|---|---|---|
| GestionDetalle.CurrentUserStub | react_app/src/pages/gestion/GestionDetalle.jsx:12-16 | the stub user is always the general manager "Carlos Rodriguez" |
| GestionDetalle.InitialGestionState | react_app/src/pages/gestion/GestionDetalle.jsx:19-27 | the empty case: no id, status NUEVA, nobody responsible, no documents, no history, no comment |
| GestionDetalle.LoadedGestion | react_app/src/pages/gestion/GestionDetalle.jsx:40-51 | the loaded case has the route id, its derived name, status PENDIENTE_ASIGNACION, Alicia Vega responsible, and one creation entry by "Cliente" |
| GestionDetalle.Rechazar | react_app/src/pages/gestion/GestionDetalle.jsx:56-66 | rejection moves the case to REQUIERE_CORRECCION and keeps the comment; it appends exactly one entry by the user with the comment, the old history staying a prefix; id, name, responsible and documents are unchanged |
| GestionDetalle.RenderCurrentAction | react_app/src/pages/gestion/GestionDetalle.jsx:69-106 | each widget is shown iff the status and role (and, for the upload, the responsible's name) match its branch; NUEVA, ASIGNADA, PENDIENTE_PAGO and FINALIZADA always get a message; a case with no responsible never offers the upload |
| GestionDetalle.GestionPage.constructor | react_app/src/pages/gestion/GestionDetalle.jsx:29-53 | after the load effect the page holds the loaded case for the route id |
| GestionDetalle.GestionPage.HandleRechazarInforme | react_app/src/pages/gestion/GestionDetalle.jsx:56-66 | the page's case becomes the rejection of the old case by the page's user |
| AccionAsignar.Asignar | react_app/src/pages/gestion/components/AccionAsignar.jsx:6-15 | assignment sets ASIGNADA and makes Alicia Vega responsible; it appends exactly one "Asignación a Alicia Vega" entry by the user; documents, comment, id and name are unchanged |
| AccionAsignar.IniciarEjecucion | react_app/src/pages/gestion/components/AccionAsignar.jsx:18-20 | the deferred step sets EN_EJECUCION and changes no other field, history included |
| AccionAsignar.HandleAsignar | react_app/src/pages/gestion/components/AccionAsignar.jsx:10-15 | the click applies the assignment to the page's case |
| AccionAsignar.TimerFires | react_app/src/pages/gestion/components/AccionAsignar.jsx:18-20 | the timer applies the deferred step to the page's case as it is then |
| AccionAsignar.AssignedProfessionalUploads | react_app/src/pages/gestion/components/AccionAsignar.jsx:6-20 | after assignment and the deferred step, a user is offered the upload iff that user is the professional Alicia Vega |
| AccionSubirInforme.SubirInforme | react_app/src/pages/gestion/components/AccionSubirInforme.jsx:6-17 | upload sets PENDIENTE_APROBACION_GM and clears the comment; the documents grow by exactly informe_final_v1.pdf at the end; exactly one "Subida de informe" entry by the user is appended; the responsible, id and name are unchanged |
| AccionSubirInforme.CorrectionBanner | react_app/src/pages/gestion/components/AccionSubirInforme.jsx:21-26 | the banner is shown iff the status is REQUIERE_CORRECCION, and it quotes the rejection comment |
| AccionSubirInforme.HandleSubirInforme | react_app/src/pages/gestion/components/AccionSubirInforme.jsx:10-16 | the click applies the upload to the page's case |
| AccionSubirInforme.UploadClearsBanner | react_app/src/pages/gestion/components/AccionSubirInforme.jsx:12-21 | after an upload the correction banner is gone |
| AccionAprobarGM.Aprobar | react_app/src/pages/gestion/components/AccionAprobarGM.jsx:7-14 | approval sets EN_ADMINISTRACION and appends one "Aprobación de informe" entry by "Gestor General"; documents, responsible, comment, id and name are unchanged |
| AccionAprobarGM.RechazoGuard | react_app/src/pages/gestion/components/AccionAprobarGM.jsx:16-23 | the rejection goes ahead iff the comment is non-empty (white space counts), and it passes exactly that text |
| AccionAprobarGM.AprobarPanel.constructor | react_app/src/pages/gestion/components/AccionAprobarGM.jsx:5 | the comment box starts empty |
| AccionAprobarGM.AprobarPanel.SetComentarios | react_app/src/pages/gestion/components/AccionAprobarGM.jsx:54-57 | typing replaces the comment |
| AccionAprobarGM.AprobarPanel.HandleAprobar | react_app/src/pages/gestion/components/AccionAprobarGM.jsx:7-14 | the click applies the approval to the page's case |
| AccionAprobarGM.AprobarPanel.HandleRechazarClick | react_app/src/pages/gestion/components/AccionAprobarGM.jsx:16-23 | with an empty comment the case is unchanged; otherwise it becomes the page's rejection with that comment |
| AccionFacturacion.EmitirFactura | react_app/src/pages/gestion/components/AccionFacturacion.jsx:7-14 | invoicing sets PENDIENTE_PAGO and appends one "Emisión de factura" entry by "Administración"; everything else is unchanged |
| AccionFacturacion.Answer | react_app/src/pages/gestion/components/AccionFacturacion.jsx:21-27 | an answer is recorded only while none is; once given it never changes |
| AccionFacturacion.BlockedStaysBlocked | react_app/src/pages/gestion/components/AccionFacturacion.jsx:42-48 | after "No", any sequence of answer clicks leaves the order invalid |
| AccionFacturacion.FacturacionPanel.constructor | react_app/src/pages/gestion/components/AccionFacturacion.jsx:5 | `ordenValida` starts unanswered |
| AccionFacturacion.FacturacionPanel.AnswerClick | react_app/src/pages/gestion/components/AccionFacturacion.jsx:21-27 | a Sí/No click records the answer as `Answer` says |
| AccionFacturacion.FacturacionPanel.EmitClick | react_app/src/pages/gestion/components/AccionFacturacion.jsx:30-40 | the invoice is emitted iff the emit button is shown (order valid); otherwise the case is unchanged |
| GestionLifecycle.InitInv | react_app/src/pages/gestion/GestionDetalle.jsx:40-51 | the loaded case satisfies the workflow invariant |
| GestionLifecycle.StepInv | react_app/src/pages/gestion/GestionDetalle.jsx:69-106 | every possible event preserves the invariant: never NUEVA or FINALIZADA; timer pending iff ASIGNADA; comment held iff correction needed; answer only while billing; Alicia Vega responsible; a document from approval on |
| GestionLifecycle.RunInv | react_app/src/pages/gestion/GestionDetalle.jsx:69-106 | every possible run preserves the invariant |
| GestionLifecycle.FinalizadaUnreachable | react_app/src/pages/gestion/GestionDetalle.jsx:97-104 | no run from a loaded case reaches FINALIZADA or returns to NUEVA |
| GestionLifecycle.StepHistory | react_app/src/pages/gestion/GestionDetalle.jsx:56-66 | one event keeps the history as a prefix and adds one entry exactly when it logs; the case keeps its id and name |
| GestionLifecycle.RunHistory | react_app/src/pages/gestion/GestionDetalle.jsx:56-66 | over any run the history only grows, by one entry per logging event, and the case keeps its identity |
| GestionLifecycle.NoStepFromPendientePago | react_app/src/pages/gestion/GestionDetalle.jsx:97-98 | in PENDIENTE_PAGO no event by anyone is possible |
| GestionLifecycle.NoStepWhenOrderInvalid | react_app/src/pages/gestion/components/AccionFacturacion.jsx:42-48 | after an invalid order no event by anyone is possible |
| GestionLifecycle.BlockedRunsAreEmpty | react_app/src/pages/gestion/components/AccionFacturacion.jsx:42-48 | from a blocked state the only possible run is the empty one |
| GestionLifecycle.StubUserStopsAtExecution | react_app/src/pages/gestion/GestionDetalle.jsx:12-16 | with only the stub user acting, a case waiting for assignment never gets past EN_EJECUCION |
| GestionLifecycle.HappyPathWithOneRejection | react_app/src/pages/gestion/GestionDetalle.jsx:69-106 | assign, timer, upload, empty and real rejection, upload, approve, valid order and invoice reach PENDIENTE_PAGO with seven entries and two documents |
| TaskDataGrid.TasksData | react_app/src/clientPages/home/components/TaskDataGrid.jsx:98 | the mock list is used exactly when the prop is empty; the result is never empty |
| TaskDataGrid.NextSort | react_app/src/clientPages/home/components/TaskDataGrid.jsx:148-153 | the clicked column becomes the key; direction is desc iff that column was already ascending |
| TaskDataGrid.SortClicksAlternate | react_app/src/clientPages/home/components/TaskDataGrid.jsx:148-153 | clicking the same column twice alternates the direction |
| TaskDataGrid.SearchFilter | react_app/src/clientPages/home/components/TaskDataGrid.jsx:114-122 | an empty term keeps every task; otherwise a task is kept iff the lower-cased term occurs in its lower-cased title, assignee, department or a tag; multiplicities are kept |
| TaskDataGrid.SearchIgnoresCase | react_app/src/clientPages/home/components/TaskDataGrid.jsx:116-120 | the search gives the same rows for a term and its lower-cased form |
| TaskDataGrid.FilteredAndSorted | react_app/src/clientPages/home/components/TaskDataGrid.jsx:111-146 | the shown rows are sorted by the column in the configured direction and are a permutation of the search result; with no term the caller's array itself is sorted, with a term it is untouched |
| TaskDataGrid.Ids | react_app/src/clientPages/home/components/TaskDataGrid.jsx:157 | the ids of the rows, in row order |
| TaskDataGrid.AllSelectedNotIndeterminate | react_app/src/clientPages/home/components/TaskDataGrid.jsx:231-232 | the header checkbox is never both checked and indeterminate |
| TaskDataGrid.HeaderCheckedWithUncheckedRow | react_app/src/clientPages/home/components/TaskDataGrid.jsx:231 | see Findings: the count test checks the header while a shown row is unchecked |
| TaskDataGrid.HeaderAgreesOnCleanSelection | react_app/src/clientPages/home/components/TaskDataGrid.jsx:231 | when the selection has distinct ids that are all shown, the count test agrees with "every shown row checked" |
| TaskDataGrid.SelectAllChecksHeader | react_app/src/clientPages/home/components/TaskDataGrid.jsx:155-161 | right after select-all on non-empty rows the header is checked by both tests |
| TaskDataGrid.ApplyEdit | react_app/src/clientPages/home/components/TaskDataGrid.jsx:349 | an edit input replaces its own field of the edit values and no other |
| TaskDataGrid.TaskGrid.constructor | react_app/src/clientPages/home/components/TaskDataGrid.jsx:8-12 | nothing selected, sort by due date ascending, empty search, no edit in progress |
| TaskDataGrid.TaskGrid.SetSearchTerm | react_app/src/clientPages/home/components/TaskDataGrid.jsx:10 | only the search term changes |
| TaskDataGrid.TaskGrid.HandleSort | react_app/src/clientPages/home/components/TaskDataGrid.jsx:148-153 | the sort config becomes `NextSort` of the old one; nothing else changes |
| TaskDataGrid.TaskGrid.HandleSelectAll | react_app/src/clientPages/home/components/TaskDataGrid.jsx:155-161 | checked selects exactly the shown ids in row order; unchecked empties the selection |
| TaskDataGrid.TaskGrid.HandleSelectTask | react_app/src/clientPages/home/components/TaskDataGrid.jsx:163-169 | checking appends the id even if present; unchecking removes every copy |
| TaskDataGrid.TaskGrid.HandleEditStart | react_app/src/clientPages/home/components/TaskDataGrid.jsx:171-180 | editing starts on that row's task with its five editable values |
| TaskDataGrid.TaskGrid.HandleEditField | react_app/src/clientPages/home/components/TaskDataGrid.jsx:349 | an input changes one field of the edit values |
| TaskDataGrid.TaskGrid.HandleEditSave | react_app/src/clientPages/home/components/TaskDataGrid.jsx:182-186 | the callback receives the edited task and its values; the edit is then cleared |
| TaskDataGrid.TaskGrid.HandleEditCancel | react_app/src/clientPages/home/components/TaskDataGrid.jsx:188-191 | the edit is cleared and nothing else changes |
| TaskQueue.TasksData | react_app/src/clientPages/home/components/TaskQueue.jsx:68 | the mock list is used exactly when the prop is empty |
| TaskQueue.PriorityRank | react_app/src/clientPages/home/components/TaskQueue.jsx:104 | critical 4, high 3, medium 2, low 1 |
| TaskQueue.FilterTasks | react_app/src/clientPages/home/components/TaskQueue.jsx:118-121 | "all" keeps the list; otherwise exactly those tasks whose status it names are kept, each as often as before |
| TaskQueue.FilterKeepsUniformList | react_app/src/clientPages/home/components/TaskQueue.jsx:118-121 | filtering a list whose tasks all have the status returns it unchanged |
| TaskQueue.QueueState.constructor | react_app/src/clientPages/home/components/TaskQueue.jsx:6-7 | sort by priority, filter "all" |
| TaskQueue.QueueState.SetSortBy | react_app/src/clientPages/home/components/TaskQueue.jsx:176 | only the sort order changes |
| TaskQueue.QueueState.SetFilterBy | react_app/src/clientPages/home/components/TaskQueue.jsx:192 | only the filter changes |
| TaskQueue.QueueState.ProcessedTasks | react_app/src/clientPages/home/components/TaskQueue.jsx:100-123 | the result is sorted by the chosen order and is a permutation of the filtered list; the input array is not modified |
| TaskQueue.PrioritySortDescends | react_app/src/clientPages/home/components/TaskQueue.jsx:103-105 | after a priority sort, ranks do not increase |
| TaskQueue.NumericSortsAscend | react_app/src/clientPages/home/components/TaskQueue.jsx:106-109 | after a due-date or estimated-time sort, the key does not decrease |
| TaskQueue.FormatDueDate | react_app/src/clientPages/home/components/TaskQueue.jsx:125-134 | d<0 "Vencido", d=0 "Hoy", d=1 "Mañana", otherwise "d días" |
| TaskQueue.DueDateColor | react_app/src/clientPages/home/components/TaskQueue.jsx:136-145 | error iff d<0, warning iff 0≤d≤1, accent iff 2≤d≤3, muted iff d>3 |
| TaskQueue.ColorMonotone | react_app/src/clientPages/home/components/TaskQueue.jsx:136-145 | a nearer due date is never shown less urgent |
| TaskQueue.LabelAndColorAgree | react_app/src/clientPages/home/components/TaskQueue.jsx:125-145 | "Vencido" iff error colour; "Hoy"/"Mañana" are warning; the number in "d días" reads back as d |
| WorkflowDataGrid.Ids | react_app/src/pages/Centro-de-operaciones/components/WorkflowDataGrid.jsx:132 | the ids of the workflows, in table order |
| WorkflowDataGrid.DeclaredIdsDistinct | react_app/src/pages/Centro-de-operaciones/components/WorkflowDataGrid.jsx:11-82 | the declared workflows have distinct ids |
| WorkflowDataGrid.StatusConfig | react_app/src/pages/Centro-de-operaciones/components/WorkflowDataGrid.jsx:91-99 | each known status has its caption; every other status gets the in-progress config |
| WorkflowDataGrid.PriorityConfig | react_app/src/pages/Centro-de-operaciones/components/WorkflowDataGrid.jsx:101-109 | each known priority has its caption; every other priority gets the medium config |
| WorkflowDataGrid.DueLabel | react_app/src/pages/Centro-de-operaciones/components/WorkflowDataGrid.jsx:313-315 | "|d| días atrasado" for d<0, "Vence hoy" for 0, "d días restantes" otherwise |
| WorkflowDataGrid.DueTone | react_app/src/pages/Centro-de-operaciones/components/WorkflowDataGrid.jsx:309-311 | red iff d<0, orange iff 0≤d≤2, secondary iff d>2 |
| WorkflowDataGrid.DueLabelAndToneAgree | react_app/src/pages/Centro-de-operaciones/components/WorkflowDataGrid.jsx:309-316 | an overdue label is red and its number reads back as the days late; "Vence hoy" is orange |
| WorkflowDataGrid.BulkLabel | react_app/src/pages/Centro-de-operaciones/components/WorkflowDataGrid.jsx:172 | singular "flujo seleccionado" iff one row is selected |
| WorkflowDataGrid.NextSort | react_app/src/pages/Centro-de-operaciones/components/WorkflowDataGrid.jsx:111-118 | the same field flips the direction; another field becomes the sort field, ascending |
| WorkflowDataGrid.TwoClicksRestore | react_app/src/pages/Centro-de-operaciones/components/WorkflowDataGrid.jsx:111-118 | two clicks on the current field restore the sort state |
| WorkflowDataGrid.ToggleRow | react_app/src/pages/Centro-de-operaciones/components/WorkflowDataGrid.jsx:120-126 | a present id is removed and an absent one appended, so membership flips |
| WorkflowDataGrid.ToggleTwice | react_app/src/pages/Centro-de-operaciones/components/WorkflowDataGrid.jsx:120-126 | toggling the same row twice restores the set of selected ids |
| WorkflowDataGrid.ToggleKeepsClean | react_app/src/pages/Centro-de-operaciones/components/WorkflowDataGrid.jsx:120-126 | toggling a table row keeps the selection distinct and within the table |
| WorkflowDataGrid.RemoveAllKeepsClean | react_app/src/pages/Centro-de-operaciones/components/WorkflowDataGrid.jsx:123 | removing an id keeps a clean selection clean |
| WorkflowDataGrid.HeaderMeansAllSelected | react_app/src/pages/Centro-de-operaciones/components/WorkflowDataGrid.jsx:196 | on a clean selection, "as many selected as rows" iff every row is selected |
| WorkflowDataGrid.WorkflowGrid.constructor | react_app/src/pages/Centro-de-operaciones/components/WorkflowDataGrid.jsx:7-9 | sort by priority descending, nothing selected |
| WorkflowDataGrid.WorkflowGrid.HandleSort | react_app/src/pages/Centro-de-operaciones/components/WorkflowDataGrid.jsx:111-118 | the sort state becomes `NextSort` of the old one; the selection is kept |
| WorkflowDataGrid.WorkflowGrid.HandleRowSelect | react_app/src/pages/Centro-de-operaciones/components/WorkflowDataGrid.jsx:120-126 | the selection becomes the toggle of the row and stays clean |
| WorkflowDataGrid.WorkflowGrid.HandleSelectAll | react_app/src/pages/Centro-de-operaciones/components/WorkflowDataGrid.jsx:128-134 | a full selection is cleared; otherwise every id is selected in table order |
| WorkflowDataGrid.WorkflowGrid.SortedRows | react_app/src/pages/Centro-de-operaciones/components/WorkflowDataGrid.jsx:7-8 | see Findings: the rows in the order the sort state names, a permutation of the declared rows |
| WorkflowDataGrid.WorkflowGrid.HeaderChecked | react_app/src/pages/Centro-de-operaciones/components/WorkflowDataGrid.jsx:196 | the header is checked when the selection is as long as the table; for a selection the handlers have kept clean, that is iff every row's checkbox is |
| WorkflowDataGrid.WorkflowGrid.RenderedRows | react_app/src/pages/Centro-de-operaciones/components/WorkflowDataGrid.jsx:228 | the rows drawn are the declared list in its declared order, whatever the sort state holds |
| WorkflowDataGrid.PriorityRank | react_app/src/pages/Centro-de-operaciones/components/WorkflowDataGrid.jsx:84-89 | low 1, medium 2, high 3, critical 4 |
| WorkflowDataGrid.SortStateIgnored | react_app/src/pages/Centro-de-operaciones/components/WorkflowDataGrid.jsx:228 | see Findings: with "by name ascending" the drawn rows are not in name order |
| WorkflowTemplateRanking.GetSortedTemplates | react_app/src/pages/Analisis-de-rendimiento/components/WorkflowTemplateRanking.jsx:104-117 | the result is sorted by the chosen key and direction and is a permutation of the templates, which are left as they were |
| WorkflowTemplateRanking.SortedTemplatesOrder | react_app/src/pages/Analisis-de-rendimiento/components/WorkflowTemplateRanking.jsx:107-116 | completion, usage and efficiency (the default) do not increase down the list; cycle time does not decrease |
| WorkflowTemplateRanking.PerformanceColor | react_app/src/pages/Analisis-de-rendimiento/components/WorkflowTemplateRanking.jsx:131-136 | success iff ≥95, accent iff 90–95, warning iff 85–90, error below 85 |
| WorkflowTemplateRanking.PerformanceColorMonotone | react_app/src/pages/Analisis-de-rendimiento/components/WorkflowTemplateRanking.jsx:131-136 | a higher efficiency never gets a worse band |
| WorkflowTemplateRanking.Ranked | react_app/src/pages/Analisis-de-rendimiento/components/WorkflowTemplateRanking.jsx:140-149 | each template keeps its place and gets a rank |
| WorkflowTemplateRanking.RanksAreOneToN | react_app/src/pages/Analisis-de-rendimiento/components/WorkflowTemplateRanking.jsx:149 | ranks run 1, 2, …, n down the list |
| Sorting.SortInPlace | react_app/src/clientPages/home/components/TaskDataGrid.jsx:126-143 | the array ends sorted by the key in the direction and is a permutation of its old contents |
| Sorting.InsertLast | react_app/src/clientPages/home/components/TaskDataGrid.jsx:126-143 | one insertion step: with the first i elements in order, the first i + 1 end in order and the array keeps the same elements |
| Sorting.SortedCopy | react_app/src/clientPages/home/components/TaskQueue.jsx:101 | a sorted permutation of the list, built in a fresh array |
| Dates.DaysUntil | react_app/src/clientPages/home/components/TaskQueue.jsx:126-128 | the day difference rounded up, as `Math.ceil` of milliseconds over a day |
| Dates.DaysUntilMonotone | react_app/src/clientPages/home/components/TaskQueue.jsx:126-128 | a later due date never gives fewer days |
| Dates.MinutesSince | react_app/src/pages/Centro-de-operaciones/components/AlertsFeed.jsx:97-98 | the elapsed minutes rounded down |
| JsValues.Spread | react_app/src/pages/Centro-de-operaciones/Index.jsx:68 | `{...prev, ...next}`: the keys of both; next's values win |
| JsValues.With | react_app/src/pages/Analisis-de-rendimiento/components/AdvancedFilters.jsx:51 | `{...prev, [key]: value}`: one key set, every other key kept |
| JsValues.SpreadIdempotent | react_app/src/pages/Centro-de-operaciones/Index.jsx:68 | spreading the same update twice equals spreading it once |
| Text.Split | react_app/src/pages/Analisis-de-rendimiento/components/ExportOptionsPanel.jsx:48 | `split` on one character: one piece more than separators, none containing it |
| Text.SplitAround | react_app/src/pages/Analisis-de-rendimiento/components/ExportOptionsPanel.jsx:48 | splitting `a + sep + b` gives the pieces of `a` followed by the pieces of `b` |
| Text.SplitWithoutSeparator | react_app/src/pages/Analisis-de-rendimiento/components/ExportOptionsPanel.jsx:48 | splitting on an absent separator gives the input alone |
| Text.JoinSplit | react_app/src/pages/Analisis-de-rendimiento/components/ExportOptionsPanel.jsx:48 | joining the pieces with the separator gives back the input |
| Text.TrimEmptyIffBlank | react_app/src/clientPages/home/components/FilterPanel.jsx:97 | the trim is empty iff the string is white space only |
| Text.LowerChar | react_app/src/clientPages/home/components/TaskDataGrid.jsx:116-120 | an upper-case ASCII letter becomes its lower-case letter (code point + 32), every other character is kept |
| Text.UpperChar | react_app/src/components/ui/BreadcrumbTrail.jsx:24 | a lower-case ASCII letter becomes its upper-case letter (code point − 32), every other character is kept |
| Text.ToLower | react_app/src/clientPages/home/components/TaskDataGrid.jsx:116-120 | `toLowerCase`: each character lower-cased in place, so the length is kept and no upper-case letter is left |
| Text.ToLowerIdempotent | react_app/src/clientPages/home/components/TaskDataGrid.jsx:116-120 | lower-casing twice is lower-casing once |
| Text.IncludesIffOccurs | react_app/src/clientPages/home/components/TaskDataGrid.jsx:117 | `includes` holds iff the needle occurs at some offset |
| Text.Trim | react_app/src/clientPages/home/components/FilterPanel.jsx:97 | the trim is no longer than the input and neither starts nor ends with white space |
| Text.TrimIdempotent | react_app/src/clientPages/home/components/FilterPanel.jsx:97 | trimming twice is trimming once |
| Text.Decimal | react_app/src/clientPages/home/components/TaskQueue.jsx:133 | `${n}` prints digits only, without a leading zero |
| Text.DecimalRoundTrip | react_app/src/clientPages/home/components/TaskQueue.jsx:133 | reading the printed digits gives back the number |
| Text.IntText | react_app/src/clientPages/home/components/TaskQueue.jsx:133 | a negative number prints as a minus sign before the digits of its magnitude |
| Text.LexLessTotal | react_app/src/clientPages/home/components/TaskQueue.jsx:110-111 | two different names are always ordered one way or the other |
| Text.LexLessTransitive | react_app/src/clientPages/home/components/TaskQueue.jsx:110-111 | the name order is transitive |
| Seqs.Filter | react_app/src/clientPages/home/components/TaskQueue.jsx:118-121 | `filter` keeps exactly the passing elements, each as often as before, and no more |
| Seqs.FilterAppend | react_app/src/clientPages/home/components/TaskQueue.jsx:118-121 | filtering a concatenation filters each part in order, so the order is kept |
| Seqs.RemoveAll | react_app/src/clientPages/home/components/TaskDataGrid.jsx:167 | `filter(id => id !== v)` drops every copy of v and keeps the rest as often as before |
| Seqs.Take | react_app/src/pages/Analisis-de-rendimiento/components/AdvancedFilters.jsx:133 | `slice(0, n)` is the first n elements, or all when fewer |
| JsValues.WithIsSpread | react_app/src/pages/Analisis-de-rendimiento/components/AdvancedFilters.jsx:51 | a computed-key update is a spread of a one-key object |
| AlertsFeed.FilteredAlerts | react_app/src/pages/Centro-de-operaciones/components/AlertsFeed.jsx:106-108 | "all" keeps every alert; otherwise exactly the alerts of that severity, in order, at most as many as there are |
| AlertsFeed.SeverityCounts | react_app/src/pages/Centro-de-operaciones/components/AlertsFeed.jsx:110-114 | each count is the length of the list filtered by that severity |
| AlertsFeed.CountsAddUp | react_app/src/pages/Centro-de-operaciones/components/AlertsFeed.jsx:110-114 | when every alert has a known severity, the three counts add up to the "Todas" count |
| AlertsFeed.DeclaredCountsTotal | react_app/src/pages/Centro-de-operaciones/components/AlertsFeed.jsx:8-69 | the declared alerts' three counts add up to six |
| AlertsFeed.SeverityConfig | react_app/src/pages/Centro-de-operaciones/components/AlertsFeed.jsx:71-93 | critical and warning have their icons; any other severity falls back to the info look |
| AlertsFeed.FormatTimeAgo | react_app/src/pages/Centro-de-operaciones/components/AlertsFeed.jsx:95-104 | under an hour "hace Nm", under a day "hace Nh" with hours from floored minutes, otherwise the locale date |
| AlertsFeed.FormatTimeAgoBands | react_app/src/pages/Centro-de-operaciones/components/AlertsFeed.jsx:98-103 | minutes iff less than an hour has passed; the locale date iff at least a day has |
| AlertsFeed.FooterLabel | react_app/src/pages/Centro-de-operaciones/components/AlertsFeed.jsx:217 | singular "alerta" iff the count is 1 |
| AlertsFeed.AlertsFeedState.constructor | react_app/src/pages/Centro-de-operaciones/components/AlertsFeed.jsx:6 | the "all" tab is selected |
| AlertsFeed.AlertsFeedState.SetFilter | react_app/src/pages/Centro-de-operaciones/components/AlertsFeed.jsx:140 | clicking a tab selects it |
| FilterPanel.ActiveCountBounds | react_app/src/clientPages/home/components/FilterPanel.jsx:115-124 | the count is at most 6, and 0 iff the record is the initial one |
| FilterPanel.OneCategoryMovesCountByOne | react_app/src/clientPages/home/components/FilterPanel.jsx:115-124 | changing one category moves the count by that category's own contribution only |
| FilterPanel.ApplyChange | react_app/src/clientPages/home/components/FilterPanel.jsx:68-73 | the named key takes the new value and every other category is unchanged |
| FilterPanel.ApplyDateChange | react_app/src/clientPages/home/components/FilterPanel.jsx:75-83 | one bound of the range is set and the other kept; nothing else changes |
| FilterPanel.SaveFilter | react_app/src/clientPages/home/components/FilterPanel.jsx:96-108 | a filter is saved iff the name is not blank, with that name and the current record |
| FilterPanel.SaveLoadRoundTrip | react_app/src/clientPages/home/components/FilterPanel.jsx:96-113 | loading a saved filter gives back the record that was saved |
| FilterPanel.FilterPanelState.constructor | react_app/src/clientPages/home/components/FilterPanel.jsx:8-19 | the initial record, dialog closed, empty name, panel expanded |
| FilterPanel.FilterPanelState.HandleFilterChange | react_app/src/clientPages/home/components/FilterPanel.jsx:68-73 | the record takes the change; dialog, name and expansion are unchanged |
| FilterPanel.FilterPanelState.HandleDateRangeChange | react_app/src/clientPages/home/components/FilterPanel.jsx:75-83 | the record takes the date change; nothing else changes |
| FilterPanel.FilterPanelState.HandleClearFilters | react_app/src/clientPages/home/components/FilterPanel.jsx:85-94 | the initial record comes back and the count is 0 |
| FilterPanel.FilterPanelState.SetShowSaveDialog | react_app/src/clientPages/home/components/FilterPanel.jsx:17 | only the dialog flag changes |
| FilterPanel.FilterPanelState.SetFilterName | react_app/src/clientPages/home/components/FilterPanel.jsx:18 | only the name changes |
| FilterPanel.FilterPanelState.ToggleExpanded | react_app/src/clientPages/home/components/FilterPanel.jsx:151 | only the expansion flips |
| FilterPanel.FilterPanelState.HandleSaveFilter | react_app/src/clientPages/home/components/FilterPanel.jsx:96-108 | saves as `SaveFilter` says; on a save the name is reset and the dialog closed, otherwise both are kept |
| FilterPanel.FilterPanelState.HandleLoadFilter | react_app/src/clientPages/home/components/FilterPanel.jsx:110-113 | the record becomes the saved one, which is passed on |
| FilterPanel.FilterPanelState.GetActiveFiltersCount | react_app/src/clientPages/home/components/FilterPanel.jsx:115-124 | the count of non-default categories, at most 6, and 0 iff the clear button is disabled |
| ClientHomeIndex.StrArr | react_app/src/clientPages/home/components/FilterPanel.jsx:9-12 | a list of strings as an array value of the same length |
| ClientHomeIndex.BadgeCount | react_app/src/clientPages/home/Index.jsx:228-231 | the number of keys that count, at most the number of keys |
| ClientHomeIndex.CountedStrArr | react_app/src/clientPages/home/Index.jsx:229-230 | a string array counts, in either count, iff it is not empty |
| ClientHomeIndex.BadgeCountAddKey | react_app/src/clientPages/home/Index.jsx:228-231 | a new key adds one to the badge iff its value counts |
| ClientHomeIndex.SelectPartCount | react_app/src/clientPages/home/Index.jsx:228-231 | the four multi-select categories count as the panel counts them |
| ClientHomeIndex.BadgeCountOfPanelRecord | react_app/src/clientPages/home/Index.jsx:228-231 | see Findings: on the panel's record the badge is the panel's count plus one when the date range is empty |
| ClientHomeIndex.DefaultRecordCountsOne | react_app/src/clientPages/home/Index.jsx:228-231 | see Findings: the initial record counts 0 in the panel but 1 in the badge |
| ClientHomeIndex.BadgeCountFixed | react_app/src/clientPages/home/Index.jsx:228-231 | the corrected count, at most the number of keys |
| ClientHomeIndex.BadgeCountFixedAddKey | react_app/src/clientPages/home/Index.jsx:228-231 | a new key adds one to the corrected badge iff its value counts |
| ClientHomeIndex.SelectPartCountFixed | react_app/src/clientPages/home/Index.jsx:228-231 | the four multi-select categories count in the corrected badge as in the panel |
| ClientHomeIndex.BadgeCountFixedOfPanelRecord | react_app/src/clientPages/home/Index.jsx:228-231 | see Findings: the corrected badge equals the panel's own count on every record |
| ClientHomeIndex.RenderedPanels | react_app/src/clientPages/home/Index.jsx:238-269 | the timeline is shown iff the mode is "timeline", the predictions iff "predictions" |
| ClientHomeIndex.TaskAnalyticsCenter.Panels | react_app/src/clientPages/home/Index.jsx:238-269 | the page's panels for its mode: the grid exactly once, the timeline iff "timeline", the predictions iff "predictions" |
| ClientHomeIndex.TaskAnalyticsCenter.ActiveFiltersBadge | react_app/src/clientPages/home/Index.jsx:228-231 | the page's badge as written: at most one per filter key, none without filters |
| ClientHomeIndex.GridRenderedOnce | react_app/src/clientPages/home/Index.jsx:246-269 | whatever the view mode, the grid of tasks appears exactly once |
| ClientHomeIndex.TaskAnalyticsCenter.constructor | react_app/src/clientPages/home/Index.jsx:17-20 | no active filters, no saved filters, no selection, timeline view |
| ClientHomeIndex.TaskAnalyticsCenter.HandleFiltersChange | react_app/src/clientPages/home/Index.jsx:65-67 | the active filters are replaced whole; nothing else changes |
| ClientHomeIndex.TaskAnalyticsCenter.HandleSaveFilter | react_app/src/clientPages/home/Index.jsx:69-71 | exactly one saved filter is appended at the end, the earlier ones kept |
| ClientHomeIndex.TaskAnalyticsCenter.HandleLoadFilter | react_app/src/clientPages/home/Index.jsx:73-75 | the active filters become exactly the saved record |
| ClientHomeIndex.TaskAnalyticsCenter.HandleBulkAction | react_app/src/clientPages/home/Index.jsx:87-90 | the selection is emptied for every action |
| ClientHomeIndex.TaskAnalyticsCenter.SetViewMode | react_app/src/clientPages/home/Index.jsx:20 | only the view mode changes |
| AdvancedFilters.FilterChange | react_app/src/pages/Analisis-de-rendimiento/components/AdvancedFilters.jsx:50-52 | the emitted filters have the key set to the value and every other key unchanged |
| AdvancedFilters.BookmarkSave | react_app/src/pages/Analisis-de-rendimiento/components/AdvancedFilters.jsx:54-59 | a bookmark is made iff the prompt answer is a non-empty name, and it holds the current filters |
| AdvancedFilters.BookmarkRoundTrip | react_app/src/pages/Analisis-de-rendimiento/components/AdvancedFilters.jsx:54-63 | applying a saved bookmark gives back the filters it was saved with |
| AdvancedFilters.ClearFilters | react_app/src/pages/Analisis-de-rendimiento/components/AdvancedFilters.jsx:228 | after clearing no chip is shown |
| AdvancedFilters.RemoveChip | react_app/src/pages/Analisis-de-rendimiento/components/AdvancedFilters.jsx:250 | removing a chip sets its key to null |
| AdvancedFilters.RemoveChipRemovesOne | react_app/src/pages/Analisis-de-rendimiento/components/AdvancedFilters.jsx:238-250 | removing a chip hides exactly that chip, while the summary row stays |
| AdvancedFilters.ShownValue | react_app/src/pages/Analisis-de-rendimiento/components/AdvancedFilters.jsx:95-117 | a select shows the filter value when truthy, otherwise its default |
| AdvancedFilters.VisibleBookmarks | react_app/src/pages/Analisis-de-rendimiento/components/AdvancedFilters.jsx:133 | at most the first three bookmarks, in order |
| AdvancedFilters.AdvancedFiltersPanel.constructor | react_app/src/pages/Analisis-de-rendimiento/components/AdvancedFilters.jsx:8-9 | advanced section hidden, comparison off |
| AdvancedFilters.AdvancedFiltersPanel.ToggleAdvanced | react_app/src/pages/Analisis-de-rendimiento/components/AdvancedFilters.jsx:82 | only the advanced section flips |
| AdvancedFilters.AdvancedFiltersPanel.SetComparisonMode | react_app/src/pages/Analisis-de-rendimiento/components/AdvancedFilters.jsx:127 | only the comparison mode changes |
| AnalisisIndex.InitialFilters | react_app/src/pages/Analisis-de-rendimiento/Index.jsx:17-22 | dateRange "month"; area, taskType and userRole "all" |
| AnalisisIndex.InitialChips | react_app/src/pages/Analisis-de-rendimiento/Index.jsx:17-22 | with the initial filters only the dateRange chip is shown |
| AnalisisIndex.MainComponents | react_app/src/pages/Analisis-de-rendimiento/Index.jsx:188-209 | each block appears iff its tab or overview is active; the ranking appears twice on overview |
| AnalisisIndex.MobileComponents | react_app/src/pages/Analisis-de-rendimiento/Index.jsx:213-226 | at most one block: the chart, ranking, funnel or predictive module for its own tab, none on overview or an unknown tab; that block is also in the wide layout for the tab |
| AnalisisIndex.TrendsTabBlock | react_app/src/pages/Analisis-de-rendimiento/Index.jsx:188-209 | the trends tab shows only the trend chart and its ranking |
| AnalisisIndex.TemplatesTabBlock | react_app/src/pages/Analisis-de-rendimiento/Index.jsx:199-209 | the templates tab shows only the standalone ranking |
| AnalisisIndex.PerformanceAnalytics.constructor | react_app/src/pages/Analisis-de-rendimiento/Index.jsx:17-28 | the initial filters and two bookmarks, overview tab, export panel closed |
| AnalisisIndex.PerformanceAnalytics.HandleFilterChange | react_app/src/pages/Analisis-de-rendimiento/Index.jsx:55-57 | the filters are replaced whole |
| AnalisisIndex.PerformanceAnalytics.HandleBookmarkSave | react_app/src/pages/Analisis-de-rendimiento/Index.jsx:59-61 | exactly one bookmark is appended at the end |
| AnalisisIndex.PerformanceAnalytics.SetActiveTab | react_app/src/pages/Analisis-de-rendimiento/Index.jsx:172 | only the tab changes |
| AnalisisIndex.PerformanceAnalytics.SetShowExportPanel | react_app/src/pages/Analisis-de-rendimiento/Index.jsx:130 | only the export panel flag changes |
| CentroIndex.InitialGlobalFilters | react_app/src/pages/Centro-de-operaciones/Index.jsx:13-18 | production, today, ventas and marketing, auto-refresh on |
| CentroIndex.MergeFilters | react_app/src/pages/Centro-de-operaciones/Index.jsx:67-69 | keys in the update overwrite; every other key is unchanged |
| CentroIndex.MergeIdempotent | react_app/src/pages/Centro-de-operaciones/Index.jsx:68 | the same update twice equals it once |
| CentroIndex.MergeKeepsKeys | react_app/src/pages/Centro-de-operaciones/Index.jsx:68 | an update of existing keys keeps the key set |
| CentroIndex.OperationsCommandCenter.constructor | react_app/src/pages/Centro-de-operaciones/Index.jsx:12-18 | the initial filters with auto-refresh on, sidebar open |
| CentroIndex.OperationsCommandCenter.HandleFilterChange | react_app/src/pages/Centro-de-operaciones/Index.jsx:67-69 | the filters become the merge of the old ones and the update |
| CentroIndex.OperationsCommandCenter.HandleEnvironmentChange | react_app/src/pages/Centro-de-operaciones/Index.jsx:71-73 | only `environment` changes, and the four keys stay |
| CentroIndex.OperationsCommandCenter.HandleAutoRefreshToggle | react_app/src/pages/Centro-de-operaciones/Index.jsx:75-77 | only `autoRefresh` changes, and the refresh gate is open iff it is enabled |
| CentroIndex.OperationsCommandCenter.HandleTimeRangeChange | react_app/src/pages/Centro-de-operaciones/Index.jsx:79-81 | only `timeRange` changes |
| CentroIndex.OperationsCommandCenter.HandleAreaFilterChange | react_app/src/pages/Centro-de-operaciones/Index.jsx:83-85 | only `selectedAreas` changes |
| CentroIndex.OperationsCommandCenter.HandleSidebarToggle | react_app/src/pages/Centro-de-operaciones/Index.jsx:63-65 | only the sidebar flips |
| BreadcrumbTrail.Segments | react_app/src/components/ui/BreadcrumbTrail.jsx:16 | the pieces between slashes with every empty piece dropped and every other piece kept as often as it occurs, none empty or holding a slash |
| BreadcrumbTrail.SegmentsOfPath | react_app/src/components/ui/BreadcrumbTrail.jsx:16-23 | a path built as `"/" + segment` per segment splits back into exactly those segments, in order |
| BreadcrumbTrail.Dehyphen | react_app/src/components/ui/BreadcrumbTrail.jsx:24 | every hyphen becomes a space, every other character is kept |
| BreadcrumbTrail.TitleCase | react_app/src/components/ui/BreadcrumbTrail.jsx:24 | the character at each word start is replaced by its upper-case letter, every other character is kept |
| BreadcrumbTrail.TitleCaseIdempotent | react_app/src/components/ui/BreadcrumbTrail.jsx:24 | title-casing twice is title-casing once |
| BreadcrumbTrail.LabelFor | react_app/src/components/ui/BreadcrumbTrail.jsx:8-13 | a known route has its label; any other segment is title-cased with hyphens as spaces, so it keeps its length and has no hyphen |
| BreadcrumbTrail.Breadcrumbs | react_app/src/components/ui/BreadcrumbTrail.jsx:15-34 | the home crumb first, then one crumb per non-empty segment |
| BreadcrumbTrail.OnlyFinalCrumbIsLast | react_app/src/components/ui/BreadcrumbTrail.jsx:29 | only the crumb of the final segment is marked last |
| BreadcrumbTrail.PathsExtend | react_app/src/components/ui/BreadcrumbTrail.jsx:21-23 | each crumb's path is the previous one plus "/" and its segment |
| BreadcrumbTrail.PathSlashCount | react_app/src/components/ui/BreadcrumbTrail.jsx:23 | the path of k segments holds exactly k slashes |
| BreadcrumbTrail.GenerateBreadcrumbs | react_app/src/components/ui/BreadcrumbTrail.jsx:15-34 | the loop builds exactly the crumbs `Breadcrumbs` describes |
| BreadcrumbTrail.Render | react_app/src/components/ui/BreadcrumbTrail.jsx:36-41 | nothing is rendered iff the pathname is "/" |
| BreadcrumbTrail.FilterBadge | react_app/src/components/ui/BreadcrumbTrail.jsx:81-87 | no badge without filters; singular iff there is one |
| ExportOptionsPanel.TrimAll | react_app/src/pages/Analisis-de-rendimiento/components/ExportOptionsPanel.jsx:48 | each piece trimmed, the count kept |
| ExportOptionsPanel.Recipients | react_app/src/pages/Analisis-de-rendimiento/components/ExportOptionsPanel.jsx:48 | recipient k is the k-th piece between commas, trimmed; one recipient more than commas, none holding a comma or edge white space; the empty input gives one empty recipient |
| ExportOptionsPanel.TrimInside | react_app/src/pages/Analisis-de-rendimiento/components/ExportOptionsPanel.jsx:48 | trimming adds no character |
| ExportOptionsPanel.SingleRecipient | react_app/src/pages/Analisis-de-rendimiento/components/ExportOptionsPanel.jsx:48 | input without a comma gives the one trimmed recipient |
| ExportOptionsPanel.RecipientsAround | react_app/src/pages/Analisis-de-rendimiento/components/ExportOptionsPanel.jsx:48 | a comma splits the field: the recipients of the text before it, then those of the text after it |
| ExportOptionsPanel.ExportOptionsState.constructor | react_app/src/pages/Analisis-de-rendimiento/components/ExportOptionsPanel.jsx:8-13 | pdf, charts on, raw data off, predictions on, weekly, no recipients |
| ExportOptionsPanel.ExportOptionsState.SetExportFormat | react_app/src/pages/Analisis-de-rendimiento/components/ExportOptionsPanel.jsx:91 | only the format changes |
| ExportOptionsPanel.ExportOptionsState.SetIncludes | react_app/src/pages/Analisis-de-rendimiento/components/ExportOptionsPanel.jsx:114-126 | only the three include flags change |
| ExportOptionsPanel.ExportOptionsState.SetScheduleFrequency | react_app/src/pages/Analisis-de-rendimiento/components/ExportOptionsPanel.jsx:153 | only the frequency changes |
| ExportOptionsPanel.ExportOptionsState.SetEmailRecipients | react_app/src/pages/Analisis-de-rendimiento/components/ExportOptionsPanel.jsx:162 | only the recipient text changes |
| ExportOptionsPanel.ExportOptionsState.HandleExport | react_app/src/pages/Analisis-de-rendimiento/components/ExportOptionsPanel.jsx:29-42 | the optional export callback gets the format, the three flags and the timestamp; `onClose` is always called, last |
| ExportOptionsPanel.ExportOptionsState.HandleSchedule | react_app/src/pages/Analisis-de-rendimiento/components/ExportOptionsPanel.jsx:44-58 | the optional schedule callback gets the format, frequency, recipients and flags; `onClose` is always called, last |
| ExportOptionsPanel.ExportOptionsState.Render | react_app/src/pages/Analisis-de-rendimiento/components/ExportOptionsPanel.jsx:60 | nothing is rendered iff the panel is closed |
| TimelineVisualization.ZoomIn | react_app/src/clientPages/home/components/TimelineVisualization.jsx:120-124 | the zoom grows up to 4 and never leaves the range |
| TimelineVisualization.ZoomOut | react_app/src/clientPages/home/components/TimelineVisualization.jsx:126-130 | the zoom shrinks down to 0.5 and never leaves the range |
| TimelineVisualization.ZoomInOutRestores | react_app/src/clientPages/home/components/TimelineVisualization.jsx:120-130 | away from the clamp, zooming in then out restores the zoom |
| TimelineVisualization.ZoomOutInRestores | react_app/src/clientPages/home/components/TimelineVisualization.jsx:120-130 | away from the clamp, zooming out then in restores the zoom |
| TimelineVisualization.PannedViewport | react_app/src/clientPages/home/components/TimelineVisualization.jsx:140-142 | the panned viewport is never negative; no pointer movement keeps it; dragging right never moves it past where the drag started |
| TimelineVisualization.TaskAging | react_app/src/clientPages/home/components/TimelineVisualization.jsx:99-109 | overdue iff now is past the end; critical iff more than 80% elapsed and not past the end; warning iff more than 60% and at most 80%; normal iff at most 60%; a zero-length task is overdue iff now is past its start and normal otherwise |
| TimelineVisualization.AgingMonotone | react_app/src/clientPages/home/components/TimelineVisualization.jsx:105-108 | as time passes a task's aging never gets milder |
| TimelineVisualization.Timeline.constructor | react_app/src/clientPages/home/components/TimelineVisualization.jsx:6-9 | zoom 1, viewport 0, not dragging |
| TimelineVisualization.Timeline.HandleZoomIn | react_app/src/clientPages/home/components/TimelineVisualization.jsx:120-124 | the zoom is zoomed in, stays in range, and the callback gets the new zoom |
| TimelineVisualization.Timeline.HandleZoomOut | react_app/src/clientPages/home/components/TimelineVisualization.jsx:126-130 | the zoom is zoomed out, stays in range, and the callback gets the new zoom |
| TimelineVisualization.Timeline.HandleMouseDown | react_app/src/clientPages/home/components/TimelineVisualization.jsx:132-135 | dragging starts from the pointer and the current viewport |
| TimelineVisualization.Timeline.HandleMouseMove | react_app/src/clientPages/home/components/TimelineVisualization.jsx:137-143 | without a drag nothing changes; during one the viewport is panned |
| TimelineVisualization.Timeline.HandleMouseUp | react_app/src/clientPages/home/components/TimelineVisualization.jsx:145-148 | dragging ends and the start is forgotten |
| WorkflowHeatMap.StatusColor | react_app/src/pages/Centro-de-operaciones/components/WorkflowHeatMap.jsx:52-56 | red iff critical, orange iff warning, green otherwise |
| WorkflowHeatMap.StatusColorIgnoresValue | react_app/src/pages/Centro-de-operaciones/components/WorkflowHeatMap.jsx:52 | the value never changes the colour |
| WorkflowHeatMap.StatusIntensity | react_app/src/pages/Centro-de-operaciones/components/WorkflowHeatMap.jsx:58-63 | 90 iff ≥80, 70 iff 60–80, 50 iff 40–60, 30 below 40 |
| WorkflowHeatMap.IntensityMonotone | react_app/src/pages/Centro-de-operaciones/components/WorkflowHeatMap.jsx:58-63 | a higher value is never drawn fainter |
| WorkflowHeatMap.ZoomIn | react_app/src/pages/Centro-de-operaciones/components/WorkflowHeatMap.jsx:87 | the zoom grows by 0.2 up to 2 and never leaves the range |
| WorkflowHeatMap.ZoomOut | react_app/src/pages/Centro-de-operaciones/components/WorkflowHeatMap.jsx:93 | the zoom shrinks by 0.2 down to 0.8 and never leaves the range |
| WorkflowHeatMap.ZoomInOutRestores | react_app/src/pages/Centro-de-operaciones/components/WorkflowHeatMap.jsx:87-93 | away from the clamp, in then out restores the zoom |
| WorkflowHeatMap.NoCellEverHighlighted | react_app/src/pages/Centro-de-operaciones/components/WorkflowHeatMap.jsx:146 | see Findings: the highlight test as written fails for every cell and selection |
| WorkflowHeatMap.DeclaredCellsNamedApart | react_app/src/pages/Centro-de-operaciones/components/WorkflowHeatMap.jsx:9-50 | the declared grid has distinct areas and, within an area, distinct stage names |
| WorkflowHeatMap.HeatMap.Ringed | react_app/src/pages/Centro-de-operaciones/components/WorkflowHeatMap.jsx:146 | the page's ring test as written: no cell is ever ringed, whatever is selected |
| WorkflowHeatMap.ClickRingsOnlyThatCell | react_app/src/pages/Centro-de-operaciones/components/WorkflowHeatMap.jsx:146-150 | see Findings: with the corrected test a clicked cell, and no other, is ringed |
| WorkflowHeatMap.HeatMap.constructor | react_app/src/pages/Centro-de-operaciones/components/WorkflowHeatMap.jsx:6-7 | no selection, zoom 1 |
| WorkflowHeatMap.HeatMap.HandleZoomIn | react_app/src/pages/Centro-de-operaciones/components/WorkflowHeatMap.jsx:87 | the zoom is zoomed in and stays in range |
| WorkflowHeatMap.HeatMap.HandleZoomOut | react_app/src/pages/Centro-de-operaciones/components/WorkflowHeatMap.jsx:93 | the zoom is zoomed out and stays in range |
| WorkflowHeatMap.HeatMap.HandleZoomReset | react_app/src/pages/Centro-de-operaciones/components/WorkflowHeatMap.jsx:99 | the zoom is 1 again |
| WorkflowHeatMap.HeatMap.HandleCellClick | react_app/src/pages/Centro-de-operaciones/components/WorkflowHeatMap.jsx:65-68 | the cell is stored and the drill-down gets the same area and stage |
| WorkflowHeatMap.HeatMap.HandleDetailsClick | react_app/src/pages/Centro-de-operaciones/components/WorkflowHeatMap.jsx:167-189 | the details button exists iff a cell is selected, and it drills into that cell |

## Left out

- Data loading and routing are not modelled: the load effect, `useParams`, and the route table. The loaded case is the page constructor's starting state.
- The `setTimeout` in the assignment widget is not modelled as a timer. Its callback is an explicit second step, `TimerFires`. Like the source, it overwrites whatever status the case has when it runs.
- The metric jitter (`setInterval` with `Math.random`) is left out because it is randomness. Only its auto-refresh gate is modelled, as `CentroIndex.AutoRefreshOn`.
- The clock is a parameter: "now", `Date.now()` ids and `toISOString` stamps are inputs. `toLocaleDateString` is kept as a value that is not computed (`LocaleDate(timestamp)`).
- Sorting.SortInPlace: the contract states sorted order and the same elements, not stability (equal keys keeping their relative order, which `Array.prototype.sort` promises), so the model fixes the sorted lists only up to the order of equal keys.
- TaskQueue.MockTasks: the mock due dates are fixed millisecond values for midnight UTC, while `new Date(2025, 9, x)` builds local midnight; the time-zone offset of the running browser is not modelled.
- Dates are millisecond or day numbers, not `Date` objects.
- `localeCompare` for the assignee sort is approximated by code-unit string order (`Text.LexLess`), because Unicode collation is out of reach.
- A priority outside the rank table ranks 0. The source compares `undefined` there and gets `NaN`, which makes its comparator inconsistent.
- Numbers are exact reals or integers, not IEEE doubles. Zoom products and quotients are therefore exact.
- `\w`, `\b`, upper-casing and lower-casing cover ASCII only. `trim` uses the JavaScript white-space set.
- `parseInt` on the progress input is not modelled. The edited progress is taken as an integer.
- `console.log`, `alert` and CSS class strings are not modelled, nor is JSX markup. `prompt` is an input (`Option<string>`, where `None` is a cancelled prompt).
- The `currentPath` prop of the breadcrumb trail is shadowed in the source and never read, so it is not modelled.
- Object key order (`Object.keys`, `Object.entries`) is not modelled. Objects are maps, so only the set of keys and their values matter.
- The charts, predictive modules, metric strips, funnel, global controls, connection indicator and gestiones dashboard are presentation over mock literals. They are not part of this model.
- `getAgingColor`, `getPriorityConfig`/`getStatusConfig` of the grid of tasks and queue, and `calculateTaskPosition` are colour tables and floating-point layout. They are not part of this model.
- TaskDataGrid.TaskGrid.HandleEditField: the edit values are a record of five fields, not an open object, so a field set on an empty `{}` after save or cancel is ignored.
- TimelineVisualization.PannedViewport: stated for positive zoom only, which is all the zoom handlers can produce.
- Stale closures over React state are not modelled: every handler reads the state as it is when it runs.

## Findings

| source | as written | input that shows it | evidently intended | confidence | as-written member | corrected member |
|---|---|---|---|---|---|---|
| react_app/src/clientPages/home/components/TaskDataGrid.jsx:231 | the header checkbox is checked when the number of selected ids equals the number of shown rows | tasks 1, 2, 3; rows 1 and 3 checked; then a search for "i" shows tasks 1 and 2: the header is checked while row 2 is not | checked iff every shown row is checked | not executed | TaskDataGrid.HeaderCheckedWithUncheckedRow | TaskDataGrid.HeaderAgreesOnCleanSelection |
| react_app/src/pages/Centro-de-operaciones/components/WorkflowDataGrid.jsx:228 | `sortField`/`sortDirection` change on header clicks, but the rows are drawn from the declared list | click "Flujo de Trabajo": the state is name ascending, yet "Proceso de Onboarding…" is drawn above "Campaña Q4…" | rows drawn in the order the sort state names | not executed | WorkflowDataGrid.SortStateIgnored | WorkflowDataGrid.WorkflowGrid.SortedRows |
| react_app/src/pages/Centro-de-operaciones/components/WorkflowHeatMap.jsx:146 | the ring test compares the stored `stage`, which is the stage object, with the stage name using `===` | click any cell: no cell gets the ring | the clicked cell, and only it, is ringed | not executed | WorkflowHeatMap.NoCellEverHighlighted | WorkflowHeatMap.ClickRingsOnlyThatCell |
| react_app/src/clientPages/home/Index.jsx:228-231 | the badge counts every truthy non-array value that is not "all", and the panel's `dateRange` object is always truthy | the initial filters: the panel counts 0 active filters, and the page reads "1 filtros activos" | the badge agrees with the panel's own count | not executed | ClientHomeIndex.DefaultRecordCountsOne | ClientHomeIndex.BadgeCountFixedOfPanelRecord |
