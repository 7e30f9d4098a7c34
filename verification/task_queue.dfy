/**
 * The queue of tasks on the client home page (`TaskQueue`): a status filter, a
 * choice of four orders, and due-date labels and colours. Dates are time
 * values in milliseconds; "now" is a parameter, and the labels and colours
 * take the day difference `Dates.DaysUntil(task.dueDate, now)`.
 */
module TaskQueue {
  import opened Text
  import opened Sorting
  import opened Seqs
  import opened Dates

  datatype QueueTask = QueueTask(
    id: int,
    title: string,
    priority: string,
    assignee: string,
    department: string,
    dueDate: int,
    estimatedTime: int,
    status: string,
    tags: seq<string>)

  /** The five tasks the queue falls back on (due dates at midnight UTC). */
  function MockTasks(): seq<QueueTask> {
    [
      QueueTask(1, "Revisar propuesta cliente ABC", "critical", "Ana García", "Ventas", 1760140800000, 2,
                "pending", ["urgente", "cliente-vip"]),
      QueueTask(2, "Actualizar documentación API", "high", "Carlos López", "Tecnología", 1760227200000, 4,
                "in_progress", ["documentación", "api"]),
      QueueTask(3, "Análisis de costos Q4", "medium", "María Rodríguez", "Finanzas", 1760486400000, 6,
                "pending", ["análisis", "trimestral"]),
      QueueTask(4, "Diseño campaña navideña", "medium", "Juan Martínez", "Marketing", 1760745600000, 8,
                "pending", ["diseño", "campaña"]),
      QueueTask(5, "Capacitación nuevo personal", "low", "Sofía Hernández", "Recursos Humanos", 1760918400000, 3,
                "scheduled", ["capacitación", "rrhh"])
    ]
  }

  /** `tasksData`: the list passed in, or the mock list when none are. */
  function TasksData(tasks: seq<QueueTask>): (r: seq<QueueTask>)
    ensures |tasks| == 0 ==> r == MockTasks()
    ensures |tasks| > 0 ==> r == tasks
  {
    if |tasks| > 0 then tasks else MockTasks()
  }

  /** The four orders the "Ordenar por" select offers. */
  datatype SortBy = ByPriority | ByDueDate | ByEstimatedTime | ByAssignee

  /** `priorityOrder`: critical 4, high 3, medium 2, low 1; any other priority ranks below all four. */
  function PriorityRank(p: string): (r: int)
    ensures p == "critical" ==> r == 4
    ensures p == "high" ==> r == 3
    ensures p == "medium" ==> r == 2
    ensures p == "low" ==> r == 1
    ensures 0 <= r <= 4
  {
    if p == "critical" then 4
    else if p == "high" then 3
    else if p == "medium" then 2
    else if p == "low" then 1
    else 0
  }

  /** What each comparator compares. */
  function SortKeyOf(order: SortBy): QueueTask -> SortKey {
    match order
    case ByPriority => (t: QueueTask) => Num(PriorityRank(t.priority) as real)
    case ByDueDate => (t: QueueTask) => Num(t.dueDate as real)
    case ByEstimatedTime => (t: QueueTask) => Num(t.estimatedTime as real)
    case ByAssignee => (t: QueueTask) => Str(t.assignee)
  }

  /** Highest priority first; the other three orders ascend. */
  function SortDirection(order: SortBy): Direction {
    if order == ByPriority then Desc else Asc
  }

  /** A status test as the function `filter` is given. */
  function StatusIs(s: string): QueueTask -> bool {
    (t: QueueTask) => t.status == s
  }

  /** `filterTasks`: "all" keeps the list as it is; any other value keeps those tasks whose status is exactly that value, in order. */
  function FilterTasks(tasks: seq<QueueTask>, filterBy: string): (r: seq<QueueTask>)
    ensures filterBy == "all" ==> r == tasks
    ensures filterBy != "all" ==> forall t | t in r :: t.status == filterBy
    ensures filterBy != "all" ==> forall t | t in tasks && t.status == filterBy :: multiset(r)[t] == multiset(tasks)[t]
    ensures forall t | t in r :: t in tasks
  {
    if filterBy == "all" then tasks else Filter(tasks, StatusIs(filterBy))
  }

  /** Filtering by one status keeps a list whose tasks all have that status. */
  lemma FilterKeepsUniformList(tasks: seq<QueueTask>, s: string)
    requires forall t | t in tasks :: t.status == s
    ensures FilterTasks(tasks, s) == tasks
  {
    if s != "all" {
      FilterAll(tasks, StatusIs(s));
    }
  }

  /** The queue's two selects. */
  class QueueState {
    var sortBy: SortBy
    var filterBy: string

    constructor ()
      ensures sortBy == ByPriority && filterBy == "all"
    {
      sortBy := ByPriority;
      filterBy := "all";
    }

    method SetSortBy(order: SortBy)
      modifies this
      ensures sortBy == order && filterBy == old(filterBy)
    {
      sortBy := order;
    }

    method SetFilterBy(f: string)
      modifies this
      ensures filterBy == f && sortBy == old(sortBy)
    {
      filterBy := f;
    }

    /**
     * `processedTasks = sortTasks(filterTasks(tasksData))`: the filtered
     * tasks in the chosen order. The sort works on a copy: the method may not
     * write to `tasksData`, so the caller's array is left as it was.
     */
    method ProcessedTasks(tasksData: array<QueueTask>) returns (r: seq<QueueTask>)
      ensures SortedBy(r, SortKeyOf(sortBy), SortDirection(sortBy))
      ensures multiset(r) == multiset(FilterTasks(tasksData[..], filterBy))
    {
      var filtered := FilterTasks(tasksData[..], filterBy);
      r := SortedCopy(filtered, SortKeyOf(sortBy), SortDirection(sortBy));
    }
  }

  /** The priority order puts higher ranks first: ranks never increase along the result. */
  lemma PrioritySortDescends(r: seq<QueueTask>, i: int, j: int)
    requires SortedBy(r, SortKeyOf(ByPriority), Desc)
    requires 0 <= i < j < |r|
    ensures PriorityRank(r[i].priority) >= PriorityRank(r[j].priority)
  {
    assert InOrder(SortKeyOf(ByPriority)(r[i]), SortKeyOf(ByPriority)(r[j]), Desc);
  }

  /** The due-date and estimated-time orders never decrease along the result. */
  lemma NumericSortsAscend(r: seq<QueueTask>, i: int, j: int)
    requires 0 <= i < j < |r|
    ensures SortedBy(r, SortKeyOf(ByDueDate), Asc) ==> r[i].dueDate <= r[j].dueDate
    ensures SortedBy(r, SortKeyOf(ByEstimatedTime), Asc) ==> r[i].estimatedTime <= r[j].estimatedTime
  {
    if SortedBy(r, SortKeyOf(ByDueDate), Asc) {
      assert InOrder(SortKeyOf(ByDueDate)(r[i]), SortKeyOf(ByDueDate)(r[j]), Asc);
    }
    if SortedBy(r, SortKeyOf(ByEstimatedTime), Asc) {
      assert InOrder(SortKeyOf(ByEstimatedTime)(r[i]), SortKeyOf(ByEstimatedTime)(r[j]), Asc);
    }
  }

  /** `formatDueDate` for a day difference `d`. */
  function FormatDueDate(d: int): (s: string)
    ensures d < 0 ==> s == "Vencido"
    ensures d == 0 ==> s == "Hoy"
    ensures d == 1 ==> s == "Mañana"
    ensures d >= 2 ==> s == Decimal(d) + " días"
  {
    if d < 0 then "Vencido"
    else if d == 0 then "Hoy"
    else if d == 1 then "Mañana"
    else IntText(d) + " días"
  }

  /** The colour classes of `getDueDateColor`. */
  datatype DueColor = Error | Warning | Accent | Muted

  /** `getDueDateColor` for a day difference `d`. */
  function DueDateColor(d: int): (c: DueColor)
    ensures c == Error <==> d < 0
    ensures c == Warning <==> 0 <= d <= 1
    ensures c == Accent <==> 2 <= d <= 3
    ensures c == Muted <==> d > 3
  {
    if d < 0 then Error
    else if d <= 1 then Warning
    else if d <= 3 then Accent
    else Muted
  }

  /** How urgent a colour is, most urgent highest. */
  function Urgency(c: DueColor): nat {
    match c
    case Error => 3
    case Warning => 2
    case Accent => 1
    case Muted => 0
  }

  /** A later due date is never coloured more urgently. */
  lemma ColorMonotone(d1: int, d2: int)
    requires d1 <= d2
    ensures Urgency(DueDateColor(d1)) >= Urgency(DueDateColor(d2))
  {
  }

  /** The label and the colour agree: overdue is red, today and tomorrow are amber, and a label with a number of days reads back that number. */
  lemma {:induction false} LabelAndColorAgree(d: int)
    ensures FormatDueDate(d) == "Vencido" <==> DueDateColor(d) == Error
    ensures FormatDueDate(d) in {"Hoy", "Mañana"} ==> DueDateColor(d) == Warning
    ensures d >= 2 ==> DigitsValue(FormatDueDate(d)[..|FormatDueDate(d)| - 5]) == d
  {
    if d >= 2 {
      var s := FormatDueDate(d);
      assert s[..|s| - 5] == Decimal(d);
      DecimalRoundTrip(d);
    } else if d >= 0 {
      assert FormatDueDate(d) != "Vencido";
    }
  }
}
