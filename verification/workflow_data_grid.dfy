/**
 * The workflow table of the operations centre (`WorkflowDataGrid`): five
 * declared workflows, a sort state changed by the column headers, a row
 * selection, and per-row status, priority and due-date labels.
 */
module WorkflowDataGrid {
  import opened Text
  import opened Sorting
  import opened Seqs
  import opened Dates

  datatype Workflow = Workflow(
    id: string,
    name: string,
    area: string,
    status: string,
    priority: string,
    assignee: string,
    progress: int,
    dueDate: int,
    tasksCompleted: int,
    totalTasks: int,
    bottleneck: bool)

  /** The declared rows, due dates as time values of midnight UTC. */
  function Workflows(): seq<Workflow> {
    [
      Workflow("WF-001", "Proceso de Onboarding - Juan Pérez", "RRHH", "in_progress", "high", "María González",
               65, 1728691200000, 8, 12, false),
      Workflow("WF-002", "Campaña Q4 - Lanzamiento Producto", "Marketing", "blocked", "critical", "Carlos Ruiz",
               35, 1728950400000, 4, 15, true),
      Workflow("WF-003", "Procesamiento Pedido #12345", "Operaciones", "in_progress", "medium", "Ana Martín",
               80, 1728518400000, 12, 15, false),
      Workflow("WF-004", "Aprobación Presupuesto 2025", "Finanzas", "pending_approval", "high", "Roberto Silva",
               90, 1728604800000, 9, 10, false),
      Workflow("WF-005", "Migración Sistema CRM", "IT", "in_progress", "critical", "Laura Vega",
               45, 1729382400000, 18, 40, true)
    ]
  }

  /** `workflows.map(w => w.id)`. */
  function Ids(ws: seq<Workflow>): (r: seq<string>)
    ensures |r| == |ws| && forall i :: 0 <= i < |r| ==> r[i] == ws[i].id
  {
    seq(|ws|, i requires 0 <= i < |ws| => ws[i].id)
  }

  lemma DeclaredIdsDistinct()
    ensures Distinct(Ids(Workflows()))
  {
    var ids := Ids(Workflows());
    assert ids == ["WF-001", "WF-002", "WF-003", "WF-004", "WF-005"];
  }

  // ----- labels --------------------------------------------------------------

  datatype Config = Config(caption: string, color: string)

  const InProgressConfig := Config("En Progreso", "bg-blue-100 text-blue-800")
  const MediumConfig := Config("Media", "bg-yellow-100 text-yellow-800")

  /** `getStatusConfig`: the four known statuses have their own look; any other status looks "in progress". */
  function StatusConfig(status: string): (c: Config)
    ensures status == "blocked" ==> c.caption == "Bloqueado"
    ensures status == "pending_approval" ==> c.caption == "Pendiente Aprobación"
    ensures status == "completed" ==> c.caption == "Completado"
    ensures status !in {"blocked", "pending_approval", "completed"} ==> c == InProgressConfig
    ensures c.caption == "En Progreso" <==> status !in {"blocked", "pending_approval", "completed"}
  {
    if status == "blocked" then Config("Bloqueado", "bg-red-100 text-red-800")
    else if status == "pending_approval" then Config("Pendiente Aprobación", "bg-orange-100 text-orange-800")
    else if status == "completed" then Config("Completado", "bg-green-100 text-green-800")
    else InProgressConfig
  }

  /** `getPriorityConfig`: the four known priorities have their own look; any other priority looks "medium". */
  function PriorityConfig(priority: string): (c: Config)
    ensures priority == "low" ==> c.caption == "Baja"
    ensures priority == "high" ==> c.caption == "Alta"
    ensures priority == "critical" ==> c.caption == "Crítica"
    ensures priority !in {"low", "high", "critical"} ==> c == MediumConfig
    ensures c.caption == "Media" <==> priority !in {"low", "high", "critical"}
  {
    if priority == "low" then Config("Baja", "bg-gray-100 text-gray-800")
    else if priority == "high" then Config("Alta", "bg-orange-100 text-orange-800")
    else if priority == "critical" then Config("Crítica", "bg-red-100 text-red-800")
    else MediumConfig
  }

  /** The due-date line of a row for a day difference `d`. */
  function DueLabel(d: int): (s: string)
    ensures d < 0 ==> s == Decimal(-d) + " días atrasado"
    ensures d == 0 ==> s == "Vence hoy"
    ensures d > 0 ==> s == Decimal(d) + " días restantes"
  {
    if d < 0 then IntText(-d) + " días atrasado"
    else if d == 0 then "Vence hoy"
    else IntText(d) + " días restantes"
  }

  datatype Tone = Red | Orange | Secondary

  /** The colour of the due-date line: red when overdue, orange up to two days ahead. */
  function DueTone(d: int): (t: Tone)
    ensures t == Red <==> d < 0
    ensures t == Orange <==> 0 <= d <= 2
    ensures t == Secondary <==> d > 2
  {
    if d < 0 then Red else if d <= 2 then Orange else Secondary
  }

  /** An overdue row reads "atrasado" and is red; "Vence hoy" is orange; an overdue label reads back the days late. */
  lemma {:induction false} DueLabelAndToneAgree(d: int)
    ensures d < 0 ==> DueTone(d) == Red && DigitsValue(DueLabel(d)[..|DueLabel(d)| - 14]) == -d
    ensures DueLabel(d) == "Vence hoy" ==> DueTone(d) == Orange
  {
    if d < 0 {
      OverdueLabelReadsBack(d);
    } else if d > 0 {
      LaterLabelNotToday(d);
    }
  }

  lemma OverdueLabelReadsBack(d: int)
    requires d < 0
    ensures |DueLabel(d)| >= 14 && AllDigits(DueLabel(d)[..|DueLabel(d)| - 14])
    ensures DigitsValue(DueLabel(d)[..|DueLabel(d)| - 14]) == -d
  {
    var s, digits := DueLabel(d), Decimal(-d);
    assert s == digits + " días atrasado";
    assert s[..|s| - 14] == digits;
    DecimalRoundTrip(-d);
  }

  lemma LaterLabelNotToday(d: int)
    requires d > 0
    ensures DueLabel(d) != "Vence hoy"
  {
    var s, digits := DueLabel(d), Decimal(d);
    assert s == digits + " días restantes";
    assert |s| == |digits| + 15;
  }

  /** The bulk bar's text: plural endings unless exactly one row is selected. */
  function BulkLabel(n: nat): (s: string)
    ensures n == 1 ==> s == "1 flujo seleccionado"
    ensures n != 1 ==> s == Decimal(n) + " flujos seleccionados"
  {
    var plural := if n != 1 then "s" else "";
    Decimal(n) + " flujo" + plural + " seleccionado" + plural
  }

  // ----- sort state ------------------------------------------------------------

  /** The fields the sort state can name: the two clickable headers and the initial `priority`. */
  datatype SortField = Name | Area | PriorityField

  /** `handleSort`: the same field flips the direction; a new field sorts ascending. */
  function NextSort(field: SortField, dir: Direction, f: SortField): (r: (SortField, Direction))
    ensures r.0 == f
    ensures field == f ==> r.1 != dir
    ensures field != f ==> r.1 == Asc
  {
    if field == f then (field, if dir == Asc then Desc else Asc) else (f, Asc)
  }

  /** Two clicks on the same header give back the direction it had. */
  lemma TwoClicksRestore(field: SortField, dir: Direction, f: SortField)
    ensures var (f1, d1) := NextSort(field, dir, f);
            NextSort(f1, d1, f) == (f, if field == f then dir else Desc)
  {
  }

  // ----- selection ---------------------------------------------------------------

  /** `handleRowSelect`: a selected id is removed, an unselected one appended. */
  function ToggleRow(selected: seq<string>, id: string): (r: seq<string>)
    ensures id in selected ==> r == RemoveAll(selected, id)
    ensures id !in selected ==> r == selected + [id]
    ensures id in r <==> id !in selected
  {
    if id in selected then RemoveAll(selected, id) else selected + [id]
  }

  /** Toggling the same row twice gives back the same set of selected rows. */
  lemma ToggleTwice(selected: seq<string>, id: string)
    ensures (set x | x in ToggleRow(ToggleRow(selected, id), id)) == (set x | x in selected)
  {
    var once := ToggleRow(selected, id);
    var twice := ToggleRow(once, id);
    if id in selected {
      assert twice == once + [id];
      forall x ensures x in twice <==> x in selected {
        if x != id {
          assert x in once <==> multiset(once)[x] > 0;
          assert multiset(once)[x] == multiset(selected)[x];
        }
      }
    } else {
      assert once == selected + [id];
      forall x ensures x in twice <==> x in selected {
        if x != id {
          assert multiset(twice)[x] == multiset(once)[x];
          assert x in once <==> x in selected;
        }
      }
    }
  }

  /** The selection holds ids of declared rows, each at most once. */
  predicate CleanSelection(selected: seq<string>, ws: seq<Workflow>) {
    Distinct(selected) && forall i :: 0 <= i < |selected| ==> selected[i] in Ids(ws)
  }

  /** Toggling a row's id keeps the selection clean. */
  lemma ToggleKeepsClean(selected: seq<string>, ws: seq<Workflow>, id: string)
    requires CleanSelection(selected, ws) && id in Ids(ws)
    ensures CleanSelection(ToggleRow(selected, id), ws)
  {
    var r := ToggleRow(selected, id);
    if id in selected {
      RemoveAllKeepsClean(selected, ws, id);
    } else {
      forall i, j | 0 <= i < j < |r| ensures r[i] != r[j] {
        if j == |selected| {
          assert r[i] == selected[i];
        }
      }
    }
  }

  lemma {:induction false} RemoveAllKeepsClean(selected: seq<string>, ws: seq<Workflow>, id: string)
    requires CleanSelection(selected, ws)
    ensures CleanSelection(RemoveAll(selected, id), ws)
    decreases |selected|
  {
    if |selected| > 0 {
      var rest := selected[1..];
      assert CleanSelection(rest, ws) by {
        forall i | 0 <= i < |rest| ensures rest[i] in Ids(ws) { assert rest[i] == selected[i + 1]; }
      }
      RemoveAllKeepsClean(rest, ws, id);
      if selected[0] != id {
        var r := RemoveAll(selected, id);
        assert r == [selected[0]] + RemoveAll(rest, id);
        assert selected[0] !in rest;
        assert selected[0] !in RemoveAll(rest, id) by {
          assert multiset(RemoveAll(rest, id))[selected[0]] == multiset(rest)[selected[0]];
        }
      }
    }
  }

  /** The header checkbox means every declared row is selected, as long as the selection is clean. */
  lemma HeaderMeansAllSelected(selected: seq<string>, ws: seq<Workflow>)
    requires CleanSelection(selected, ws) && Distinct(Ids(ws))
    ensures |selected| == |ws| <==> forall i :: 0 <= i < |ws| ==> ws[i].id in selected
  {
    var sel := set x | x in selected;
    var ids := set x | x in Ids(ws);
    DistinctCard(selected);
    DistinctCard(Ids(ws));
    assert sel <= ids;
    if |selected| == |ws| {
      SubsetSameSize(sel, ids);
      forall i | 0 <= i < |ws| ensures ws[i].id in selected {
        assert Ids(ws)[i] == ws[i].id;
        assert ws[i].id in ids;
        assert ws[i].id in sel;
      }
    }
    if forall i :: 0 <= i < |ws| ==> ws[i].id in selected {
      assert ids <= sel by {
        forall x | x in ids ensures x in sel {
          var i :| 0 <= i < |Ids(ws)| && Ids(ws)[i] == x;
        }
      }
      assert sel == ids;
    }
  }

  /** The workflow table's state. */
  class WorkflowGrid {
    var sortField: SortField
    var sortDirection: Direction
    var selectedRows: seq<string>

    /** The rows never change: they are a literal of the component. */
    predicate Valid()
      reads this
    {
      CleanSelection(selectedRows, Workflows())
    }

    constructor ()
      ensures Valid()
      ensures sortField == PriorityField && sortDirection == Desc && selectedRows == []
    {
      sortField := PriorityField;
      sortDirection := Desc;
      selectedRows := [];
    }

    method HandleSort(f: SortField)
      modifies this
      ensures (sortField, sortDirection) == NextSort(old(sortField), old(sortDirection), f)
      ensures selectedRows == old(selectedRows)
    {
      if sortField == f {
        sortDirection := if sortDirection == Asc then Desc else Asc;
      } else {
        sortField := f;
        sortDirection := Asc;
      }
    }

    /** A click on a row's checkbox, which passes that row's id. */
    method HandleRowSelect(workflowId: string)
      requires Valid() && workflowId in Ids(Workflows())
      modifies this
      ensures Valid()
      ensures selectedRows == ToggleRow(old(selectedRows), workflowId)
      ensures sortField == old(sortField) && sortDirection == old(sortDirection)
    {
      ToggleKeepsClean(selectedRows, Workflows(), workflowId);
      if workflowId in selectedRows {
        selectedRows := RemoveAll(selectedRows, workflowId);
      } else {
        selectedRows := selectedRows + [workflowId];
      }
    }

    /** `handleSelectAll`: clears a full selection, otherwise selects every row in table order. */
    method HandleSelectAll()
      requires Valid()
      modifies this
      ensures Valid()
      ensures |old(selectedRows)| == |Workflows()| ==> selectedRows == []
      ensures |old(selectedRows)| != |Workflows()| ==> selectedRows == Ids(Workflows())
      ensures sortField == old(sortField) && sortDirection == old(sortDirection)
    {
      if |selectedRows| == |Workflows()| {
        selectedRows := [];
      } else {
        DeclaredIdsDistinct();
        selectedRows := Ids(Workflows());
      }
    }

    /**
     * The header checkbox: the selection is as long as the table. For a
     * selection the handlers have kept clean, that is exactly when every
     * row's checkbox is checked.
     */
    function HeaderChecked(): (b: bool)
      reads this
      ensures Valid() ==> (b <==> forall i :: 0 <= i < |Workflows()| ==> Workflows()[i].id in selectedRows)
    {
      DeclaredIdsDistinct();
      if Valid() then
        HeaderMeansAllSelected(selectedRows, Workflows());
        |selectedRows| == |Workflows()|
      else
        |selectedRows| == |Workflows()|
    }

    /**
     * The rows in the order the table draws them: `workflows.map(...)` over
     * the declared list, in its declared order; neither `sortField` nor
     * `sortDirection` is read (see `SortStateIgnored`).
     */
    function RenderedRows(): (rows: seq<Workflow>)
      reads this
      ensures rows == Workflows()
    {
      Workflows()
    }

    /** The rows in the order the sort state names, the intended use of `sortField` and `sortDirection`. */
    method SortedRows() returns (rows: seq<Workflow>)
      ensures SortedBy(rows, FieldKey(sortField), sortDirection)
      ensures multiset(rows) == multiset(Workflows())
    {
      rows := SortedCopy(Workflows(), FieldKey(sortField), sortDirection);
    }
  }

  /** The rank of a priority in the order the priority select lists them: low, medium, high, critical. */
  function PriorityRank(p: string): (r: int)
    ensures 0 <= r <= 4
    ensures p == "low" ==> r == 1
    ensures p == "medium" ==> r == 2
    ensures p == "high" ==> r == 3
    ensures p == "critical" ==> r == 4
  {
    if p == "low" then 1 else if p == "medium" then 2 else if p == "high" then 3
    else if p == "critical" then 4 else 0
  }

  /** What each sort field compares. */
  function FieldKey(f: SortField): Workflow -> SortKey {
    match f
    case Name => (w: Workflow) => Str(w.name)
    case Area => (w: Workflow) => Str(w.area)
    case PriorityField => (w: Workflow) => Num(PriorityRank(w.priority) as real)
  }

  /**
   * The sort state does not reach the table: after a click on "Flujo de
   * Trabajo" the state says "by name, ascending", yet the drawn rows start
   * with "Proceso de Onboarding…" above "Campaña Q4…".
   */
  lemma SortStateIgnored(g: WorkflowGrid)
    requires g.sortField == Name && g.sortDirection == Asc
    ensures !SortedBy(g.RenderedRows(), FieldKey(g.sortField), g.sortDirection)
  {
    var rows := g.RenderedRows();
    assert rows[0].name[0] == 'P' && rows[1].name[0] == 'C';
    assert LexLess(rows[1].name, rows[0].name);
    assert !InOrder(FieldKey(Name)(rows[0]), FieldKey(Name)(rows[1]), Asc);
  }
}
