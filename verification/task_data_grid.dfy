/**
 * The table of tasks on the client home page (`TaskDataGrid`): the search box,
 * the sortable columns, the row and header checkboxes and the inline editor.
 * Dates are kept as day numbers (days since 1 January 1970), which order the
 * tasks exactly as their time values do.
 */
module TaskDataGrid {
  import opened Wrappers
  import opened Text
  import opened Sorting
  import opened Seqs

  datatype GridTask = GridTask(
    id: int,
    title: string,
    assignee: string,
    department: string,
    priority: string,
    status: string,
    progress: int,
    dueDate: int,
    tags: seq<string>)

  /** The five tasks the table falls back on. */
  function MockTasks(): seq<GridTask> {
    [
      GridTask(1, "Análisis de mercado Q4", "Ana García", "Marketing", "high", "in_progress", 75, 20376,
               ["análisis", "mercado", "q4"]),
      GridTask(2, "Desarrollo módulo pagos", "Carlos López", "Tecnología", "critical", "in_progress", 45, 20386,
               ["desarrollo", "pagos", "backend"]),
      GridTask(3, "Revisión presupuesto anual", "María Rodríguez", "Finanzas", "medium", "completed", 100, 20381,
               ["presupuesto", "anual", "finanzas"]),
      GridTask(4, "Campaña redes sociales", "Juan Martínez", "Marketing", "low", "pending", 0, 20391,
               ["campaña", "social", "marketing"]),
      GridTask(5, "Auditoría de seguridad", "Sofía Hernández", "Tecnología", "high", "blocked", 60, 20383,
               ["auditoría", "seguridad", "compliance"])
    ]
  }

  /** `tasksData`: the list passed in, or the mock list when none are. */
  function TasksData(tasks: seq<GridTask>): (r: seq<GridTask>)
    ensures |tasks| == 0 ==> r == MockTasks()
    ensures |tasks| > 0 ==> r == tasks
    ensures |r| > 0
  {
    if |tasks| > 0 then tasks else MockTasks()
  }

  /** The sortable columns; the actions column has no sort. */
  datatype Column = Title | Assignee | Department | Priority | Status | Progress | DueDate

  datatype SortConfig = SortConfig(key: Column, direction: Direction)

  /** `a[sortConfig.key]`: strings compare as strings, progress and dates as numbers. */
  function ColumnKey(t: GridTask, c: Column): SortKey {
    match c
    case Title => Str(t.title)
    case Assignee => Str(t.assignee)
    case Department => Str(t.department)
    case Priority => Str(t.priority)
    case Status => Str(t.status)
    case Progress => Num(t.progress as real)
    case DueDate => Num(t.dueDate as real)
  }

  /** The order a configuration sorts by. */
  function KeyOf(c: Column): GridTask -> SortKey {
    (t: GridTask) => ColumnKey(t, c)
  }

  /**
   * `handleSort`: a click on a column sorts by it, descending only when it
   * was already the ascending sort column; otherwise ascending.
   */
  function NextSort(prev: SortConfig, c: Column): (r: SortConfig)
    ensures r.key == c
    ensures r.direction == Desc <==> prev == SortConfig(c, Asc)
  {
    SortConfig(c, if prev.key == c && prev.direction == Asc then Desc else Asc)
  }

  /** Clicking the same column again always flips the direction. */
  lemma SortClicksAlternate(prev: SortConfig, c: Column)
    ensures NextSort(NextSort(prev, c), c).direction != NextSort(prev, c).direction
  {
  }

  /** Some tag of the list includes `q`. */
  predicate SomeTagIncludes(tags: seq<string>, q: string)
    decreases |tags|
  {
    |tags| > 0 && (Includes(ToLower(tags[0]), q) || SomeTagIncludes(tags[1..], q))
  }

  /** The search test: the lower-cased term occurs in the lower-cased title, assignee, department or a tag. */
  predicate Matches(t: GridTask, term: string) {
    var q := ToLower(term);
    Includes(ToLower(t.title), q) || Includes(ToLower(t.assignee), q)
    || Includes(ToLower(t.department), q) || SomeTagIncludes(t.tags, q)
  }

  /** The search step of `filteredAndSortedTasks`: an empty term keeps every task. */
  function SearchFilter(tasks: seq<GridTask>, term: string): (r: seq<GridTask>)
    ensures term == "" ==> r == tasks
    ensures forall t | t in r :: t in tasks
    ensures term != "" ==> forall t | t in tasks :: t in r <==> Matches(t, term)
    ensures forall t | t in r :: multiset(r)[t] == multiset(tasks)[t]
  {
    if term == "" then tasks else Filter(tasks, MatchesTerm(term))
  }

  /** The search test as the function `filter` is given. */
  function MatchesTerm(term: string): GridTask -> bool {
    (t: GridTask) => Matches(t, term)
  }

  /** The search does not care about the case of the term. */
  lemma SearchIgnoresCase(tasks: seq<GridTask>, term: string)
    ensures SearchFilter(tasks, ToLower(term)) == SearchFilter(tasks, term)
  {
    ToLowerIdempotent(term);
    FilterSame(tasks, MatchesTerm(ToLower(term)), MatchesTerm(term));
  }

  /**
   * `filteredAndSortedTasks`. With a search term the matching tasks are
   * copied out and the copy is sorted; with none, `Array.prototype.sort`
   * runs on the table's own task array, which is left sorted.
   */
  method FilteredAndSorted(tasksData: array<GridTask>, searchTerm: string, config: SortConfig)
    returns (shown: seq<GridTask>)
    modifies tasksData
    ensures SortedBy(shown, KeyOf(config.key), config.direction)
    ensures multiset(shown) == multiset(SearchFilter(old(tasksData[..]), searchTerm))
    ensures searchTerm == "" ==> tasksData[..] == shown
    ensures searchTerm != "" ==> tasksData[..] == old(tasksData[..])
  {
    if searchTerm == "" {
      SortInPlace(tasksData, KeyOf(config.key), config.direction);
      shown := tasksData[..];
    } else {
      var filtered := SearchFilter(tasksData[..], searchTerm);
      shown := SortedCopy(filtered, KeyOf(config.key), config.direction);
    }
  }

  /** `tasks.map(task => task.id)`. */
  function Ids(tasks: seq<GridTask>): (r: seq<int>)
    ensures |r| == |tasks| && forall i :: 0 <= i < |r| ==> r[i] == tasks[i].id
  {
    seq(|tasks|, i requires 0 <= i < |tasks| => tasks[i].id)
  }

  /** A row's checkbox: checked when its task's id is in the selection. */
  predicate RowChecked(selected: seq<int>, t: GridTask) {
    t.id in selected
  }

  /** `isAllSelected` as written: as many selected ids as shown rows, and at least one row. */
  predicate IsAllSelected(selected: seq<int>, shown: seq<GridTask>) {
    |selected| == |shown| && |shown| > 0
  }

  /** `isIndeterminate`: some ids selected, fewer than the shown rows. */
  predicate IsIndeterminate(selected: seq<int>, shown: seq<GridTask>) {
    |selected| > 0 && |selected| < |shown|
  }

  /** The header checkbox is never both checked and half-checked. */
  lemma AllSelectedNotIndeterminate(selected: seq<int>, shown: seq<GridTask>)
    ensures !(IsAllSelected(selected, shown) && IsIndeterminate(selected, shown))
  {
  }

  /** What the header checkbox means to say: there are rows and every one of them is checked. */
  predicate AllShownSelected(selected: seq<int>, shown: seq<GridTask>) {
    |shown| > 0 && forall i :: 0 <= i < |shown| ==> RowChecked(selected, shown[i])
  }

  /**
   * The count test goes wrong once the selection and the shown rows drift
   * apart. Tasks 1, 2 and 3; the rows of 1 and 3 checked; a search for "i"
   * that leaves 1 and 2 on screen. The header shows "all selected" while the
   * row of task 2 is unchecked.
   */
  lemma HeaderCheckedWithUncheckedRow()
    ensures var shown := SearchFilter([DriftTask(1, "ia"), DriftTask(2, "ib"), DriftTask(3, "c")], "i");
            var selected := [1, 3];
            shown == [DriftTask(1, "ia"), DriftTask(2, "ib")] && IsAllSelected(selected, shown)
            && !RowChecked(selected, shown[1]) && !AllShownSelected(selected, shown)
  {
    DriftSearch();
    var shown := [DriftTask(1, "ia"), DriftTask(2, "ib")];
    assert !RowChecked([1, 3], shown[1]);
  }

  /** Which of the three example tasks the term "i" matches. */
  lemma DriftMatches()
    ensures Matches(DriftTask(1, "ia"), "i") && Matches(DriftTask(2, "ib"), "i")
    ensures !Matches(DriftTask(3, "c"), "i")
  {
    var t1, t2, t3 := DriftTask(1, "ia"), DriftTask(2, "ib"), DriftTask(3, "c");
    assert ToLower("i") == "i";
    assert Matches(t1, "i") by { assert ToLower(t1.title) == "ia"; assert StartsWith("ia", "i"); }
    assert Matches(t2, "i") by { assert ToLower(t2.title) == "ib"; assert StartsWith("ib", "i"); }
    assert !Matches(t3, "i") by {
      assert ToLower("c") == "c";
      assert !Includes("c", "i") by {
        assert !StartsWith("c", "i") by { assert "c"[..1][0] == 'c'; }
        assert "c"[1..] == "";
        assert !Includes("", "i");
      }
      assert !SomeTagIncludes(t3.tags, "i");
    }
  }

  /** Searching the three example tasks for "i" leaves the first two. */
  lemma DriftSearch()
    ensures SearchFilter([DriftTask(1, "ia"), DriftTask(2, "ib"), DriftTask(3, "c")], "i")
            == [DriftTask(1, "ia"), DriftTask(2, "ib")]
  {
    var t1, t2, t3 := DriftTask(1, "ia"), DriftTask(2, "ib"), DriftTask(3, "c");
    DriftMatches();
    var p := MatchesTerm("i");
    assert [t1, t2, t3][1..] == [t2, t3];
    assert [t2, t3][1..] == [t3];
    assert Filter([t3], p) == [];
    assert Filter([t2, t3], p) == [t2];
    assert Filter([t1, t2, t3], p) == [t1, t2];
  }

  /** A task of the example above: all text fields but the title read "c". */
  function DriftTask(id: int, title: string): GridTask {
    GridTask(id, title, "c", "c", "low", "pending", 0, 20376, [])
  }

  /** A string shorter than the search term cannot include it. */
  lemma NotIncludedShort(s: string, t: string)
    requires |s| < |t|
    ensures !Includes(s, t)
  {
    IncludesIffOccurs(s, t);
  }

  /**
   * The two tests agree while the selection holds only ids of shown rows,
   * each once, and the shown rows have distinct ids: then "as many" is
   * "all of them".
   */
  lemma HeaderAgreesOnCleanSelection(selected: seq<int>, shown: seq<GridTask>)
    requires Distinct(selected) && Distinct(Ids(shown))
    requires forall i :: 0 <= i < |selected| ==> selected[i] in Ids(shown)
    ensures IsAllSelected(selected, shown) <==> AllShownSelected(selected, shown)
  {
    var sel := set x | x in selected;
    var ids := set x | x in Ids(shown);
    DistinctCard(selected);
    DistinctCard(Ids(shown));
    assert sel <= ids;
    if IsAllSelected(selected, shown) {
      SubsetSameSize(sel, ids);
      forall i | 0 <= i < |shown|
        ensures RowChecked(selected, shown[i])
      {
        assert Ids(shown)[i] == shown[i].id;
        assert shown[i].id in ids;
      }
    }
    if AllShownSelected(selected, shown) {
      assert ids <= sel by {
        forall x | x in ids ensures x in sel {
          var i :| 0 <= i < |Ids(shown)| && Ids(shown)[i] == x;
          assert RowChecked(selected, shown[i]);
        }
      }
      assert sel == ids;
    }
  }

  /** The values the inline editor holds while a row is being edited. */
  datatype EditValues = EditValues(title: string, assignee: string, priority: string, status: string, progress: int)

  /** One change typed into the inline editor. */
  datatype EditField =
    | EditTitle(title: string)
    | EditAssignee(assignee: string)
    | EditPriority(priority: string)
    | EditStatus(status: string)
    | EditProgress(progress: int)

  /** `setEditValues(prev => ({ ...prev, <field>: value }))`: that field changes, the others stay. */
  function ApplyEdit(v: EditValues, f: EditField): (r: EditValues)
    ensures f.EditTitle? ==> r == v.(title := f.title)
    ensures f.EditAssignee? ==> r == v.(assignee := f.assignee)
    ensures f.EditPriority? ==> r == v.(priority := f.priority)
    ensures f.EditStatus? ==> r == v.(status := f.status)
    ensures f.EditProgress? ==> r == v.(progress := f.progress)
  {
    match f
    case EditTitle(x) => v.(title := x)
    case EditAssignee(x) => v.(assignee := x)
    case EditPriority(x) => v.(priority := x)
    case EditStatus(x) => v.(status := x)
    case EditProgress(x) => v.(progress := x)
  }

  /** The table's own state. */
  class TaskGrid {
    var selectedTasks: seq<int>
    var sortConfig: SortConfig
    var searchTerm: string
    var editingTask: Option<int>
    var editValues: Option<EditValues>

    constructor ()
      ensures selectedTasks == [] && sortConfig == SortConfig(DueDate, Asc) && searchTerm == ""
      ensures editingTask.None? && editValues.None?
    {
      selectedTasks := [];
      sortConfig := SortConfig(DueDate, Asc);
      searchTerm := "";
      editingTask := None;
      editValues := None;
    }

    method SetSearchTerm(term: string)
      modifies this
      ensures searchTerm == term
      ensures selectedTasks == old(selectedTasks) && sortConfig == old(sortConfig)
      ensures editingTask == old(editingTask) && editValues == old(editValues)
    {
      searchTerm := term;
    }

    method HandleSort(c: Column)
      modifies this
      ensures sortConfig == NextSort(old(sortConfig), c)
      ensures selectedTasks == old(selectedTasks) && searchTerm == old(searchTerm)
      ensures editingTask == old(editingTask) && editValues == old(editValues)
    {
      sortConfig := SortConfig(c, if sortConfig.key == c && sortConfig.direction == Asc then Desc else Asc);
    }

    /** `handleSelectAll`: the ids of the shown rows, in the order shown, or nothing. */
    method HandleSelectAll(checked: bool, shown: seq<GridTask>)
      modifies this
      ensures checked ==> selectedTasks == Ids(shown)
      ensures !checked ==> selectedTasks == []
      ensures sortConfig == old(sortConfig) && searchTerm == old(searchTerm)
      ensures editingTask == old(editingTask) && editValues == old(editValues)
    {
      if checked {
        selectedTasks := Ids(shown);
      } else {
        selectedTasks := [];
      }
    }

    /** `handleSelectTask`: a check appends the id, even when it is already there; an uncheck removes every copy. */
    method HandleSelectTask(id: int, checked: bool)
      modifies this
      ensures checked ==> selectedTasks == old(selectedTasks) + [id]
      ensures !checked ==> selectedTasks == RemoveAll(old(selectedTasks), id)
      ensures sortConfig == old(sortConfig) && searchTerm == old(searchTerm)
      ensures editingTask == old(editingTask) && editValues == old(editValues)
    {
      if checked {
        selectedTasks := selectedTasks + [id];
      } else {
        selectedTasks := RemoveAll(selectedTasks, id);
      }
    }

    method HandleEditStart(t: GridTask)
      modifies this
      ensures editingTask == Some(t.id)
      ensures editValues == Some(EditValues(t.title, t.assignee, t.priority, t.status, t.progress))
      ensures selectedTasks == old(selectedTasks) && sortConfig == old(sortConfig) && searchTerm == old(searchTerm)
    {
      editingTask := Some(t.id);
      editValues := Some(EditValues(t.title, t.assignee, t.priority, t.status, t.progress));
    }

    /** A change in one of the editor's inputs, which exist only while a row is being edited. */
    method HandleEditField(f: EditField)
      modifies this
      ensures old(editValues).Some? ==> editValues == Some(ApplyEdit(old(editValues).value, f))
      ensures old(editValues).None? ==> editValues == old(editValues)
      ensures editingTask == old(editingTask)
      ensures selectedTasks == old(selectedTasks) && sortConfig == old(sortConfig) && searchTerm == old(searchTerm)
    {
      if editValues.Some? {
        editValues := Some(ApplyEdit(editValues.value, f));
      }
    }

    /** `handleEditSave`: hands the edited id and values to `onTaskEdit`, then leaves the editor. */
    method HandleEditSave() returns (task: Option<int>, values: Option<EditValues>)
      modifies this
      ensures task == old(editingTask) && values == old(editValues)
      ensures editingTask.None? && editValues.None?
      ensures selectedTasks == old(selectedTasks) && sortConfig == old(sortConfig) && searchTerm == old(searchTerm)
    {
      task, values := editingTask, editValues;
      editingTask := None;
      editValues := None;
    }

    method HandleEditCancel()
      modifies this
      ensures editingTask.None? && editValues.None?
      ensures selectedTasks == old(selectedTasks) && sortConfig == old(sortConfig) && searchTerm == old(searchTerm)
    {
      editingTask := None;
      editValues := None;
    }
  }

  /** After "select all" the header is checked by either test, as soon as there is a row. */
  lemma SelectAllChecksHeader(shown: seq<GridTask>)
    requires |shown| > 0
    ensures IsAllSelected(Ids(shown), shown) && AllShownSelected(Ids(shown), shown)
  {
    forall i | 0 <= i < |shown|
      ensures RowChecked(Ids(shown), shown[i])
    {
      assert Ids(shown)[i] == shown[i].id;
    }
  }
}
