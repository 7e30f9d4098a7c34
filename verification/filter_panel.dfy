/**
 * The filter panel of the analytics page for tasks (`FilterPanel`): the filter
 * record, edited one category at a time, cleared, saved under a name and
 * loaded back, and the count of categories that differ from the default.
 */
module FilterPanel {
  import opened Wrappers
  import opened Text

  datatype DateRange = DateRange(start: string, end: string)

  /** The filter record: four multi-selects, a date range and a status. */
  datatype Filters = Filters(
    departments: seq<string>,
    taskTypes: seq<string>,
    priorities: seq<string>,
    assignees: seq<string>,
    dateRange: DateRange,
    status: string)

  /** The record the panel starts with and the clear button restores. */
  const DefaultFilters := Filters([], [], [], [], DateRange("", ""), "all")

  /** The six categories the badge counts. */
  datatype Category = DepartmentsCat | TaskTypesCat | PrioritiesCat | AssigneesCat | DateRangeCat | StatusCat

  /** A category is active when it holds something: a selection, a date bound, or a status other than "all". */
  predicate CategoryActive(f: Filters, c: Category) {
    match c
    case DepartmentsCat => |f.departments| > 0
    case TaskTypesCat => |f.taskTypes| > 0
    case PrioritiesCat => |f.priorities| > 0
    case AssigneesCat => |f.assignees| > 0
    case DateRangeCat => f.dateRange.start != "" || f.dateRange.end != ""
    case StatusCat => f.status != "all"
  }

  function Ind(b: bool): nat { if b then 1 else 0 }

  /** One for each active category. */
  function ActiveCount(f: Filters): nat {
    Ind(CategoryActive(f, DepartmentsCat)) + Ind(CategoryActive(f, TaskTypesCat))
    + Ind(CategoryActive(f, PrioritiesCat)) + Ind(CategoryActive(f, AssigneesCat))
    + Ind(CategoryActive(f, DateRangeCat)) + Ind(CategoryActive(f, StatusCat))
  }

  /** The count is at most six and is zero exactly for the default record. */
  lemma ActiveCountBounds(f: Filters)
    ensures ActiveCount(f) <= 6
    ensures ActiveCount(f) == 0 <==> f == DefaultFilters
  {
  }

  /** `f` and `g` agree on every category except possibly `c`. */
  predicate AgreeOutside(f: Filters, g: Filters, c: Category) {
    && (c != DepartmentsCat ==> g.departments == f.departments)
    && (c != TaskTypesCat ==> g.taskTypes == f.taskTypes)
    && (c != PrioritiesCat ==> g.priorities == f.priorities)
    && (c != AssigneesCat ==> g.assignees == f.assignees)
    && (c != DateRangeCat ==> g.dateRange == f.dateRange)
    && (c != StatusCat ==> g.status == f.status)
  }

  /** Changing one category moves the count by that category's own contribution and no other. */
  lemma OneCategoryMovesCountByOne(f: Filters, g: Filters, c: Category)
    requires AgreeOutside(f, g, c)
    ensures ActiveCount(g) == ActiveCount(f) - Ind(CategoryActive(f, c)) + Ind(CategoryActive(g, c))
  {
  }

  /** The key and value `handleFilterChange` receives from one of the selects. */
  datatype FilterChange =
    | Departments(values: seq<string>)
    | TaskTypes(values: seq<string>)
    | Priorities(values: seq<string>)
    | Assignees(values: seq<string>)
    | Status(value: string)

  function CategoryOf(ch: FilterChange): Category {
    match ch
    case Departments(_) => DepartmentsCat
    case TaskTypes(_) => TaskTypesCat
    case Priorities(_) => PrioritiesCat
    case Assignees(_) => AssigneesCat
    case Status(_) => StatusCat
  }

  /** `{ ...prev, [key]: value }` on the filter record: the key takes the value, the rest stays. */
  function ApplyChange(f: Filters, ch: FilterChange): (r: Filters)
    ensures AgreeOutside(f, r, CategoryOf(ch))
    ensures ch.Departments? ==> r.departments == ch.values
    ensures ch.TaskTypes? ==> r.taskTypes == ch.values
    ensures ch.Priorities? ==> r.priorities == ch.values
    ensures ch.Assignees? ==> r.assignees == ch.values
    ensures ch.Status? ==> r.status == ch.value
  {
    match ch
    case Departments(v) => f.(departments := v)
    case TaskTypes(v) => f.(taskTypes := v)
    case Priorities(v) => f.(priorities := v)
    case Assignees(v) => f.(assignees := v)
    case Status(v) => f.(status := v)
  }

  datatype RangeField = Start | End

  /** `handleDateRangeChange`: one bound of the range takes the value, the other bound and every other category stay. */
  function ApplyDateChange(f: Filters, field: RangeField, value: string): (r: Filters)
    ensures AgreeOutside(f, r, DateRangeCat)
    ensures field == Start ==> r.dateRange.start == value && r.dateRange.end == f.dateRange.end
    ensures field == End ==> r.dateRange.end == value && r.dateRange.start == f.dateRange.start
  {
    if field == Start then f.(dateRange := f.dateRange.(start := value))
    else f.(dateRange := f.dateRange.(end := value))
  }

  /** A saved filter: its time stamps come from the clock, here the parameter `now`. */
  datatype SavedFilter = SavedFilter(id: int, name: string, filters: Filters, createdAt: int)

  /** `handleSaveFilter`'s outcome: a saved filter exactly when the name is not blank, holding the current record. */
  function SaveFilter(name: string, f: Filters, now: int): (r: Option<SavedFilter>)
    ensures r.Some? <==> !AllWhitespace(name)
    ensures r.Some? ==> r.value.name == name && r.value.filters == f
  {
    TrimEmptyIffBlank(name);
    if Trim(name) != "" then Some(SavedFilter(now, name, f, now)) else None
  }

  /** `handleLoadFilter`: the record becomes the saved one. */
  function LoadFilter(saved: SavedFilter): Filters {
    saved.filters
  }

  /** Saving and then loading what was saved gives back the record as it was when saved. */
  lemma SaveLoadRoundTrip(name: string, f: Filters, now: int)
    requires !AllWhitespace(name)
    ensures SaveFilter(name, f, now).Some? && LoadFilter(SaveFilter(name, f, now).value) == f
  {
  }

  /** The panel's state. */
  class FilterPanelState {
    var filters: Filters
    var showSaveDialog: bool
    var filterName: string
    var isExpanded: bool

    constructor ()
      ensures filters == DefaultFilters && !showSaveDialog && filterName == "" && isExpanded
    {
      filters := DefaultFilters;
      showSaveDialog := false;
      filterName := "";
      isExpanded := true;
    }

    method HandleFilterChange(ch: FilterChange)
      modifies this
      ensures filters == ApplyChange(old(filters), ch)
      ensures showSaveDialog == old(showSaveDialog) && filterName == old(filterName) && isExpanded == old(isExpanded)
    {
      filters := ApplyChange(filters, ch);
    }

    method HandleDateRangeChange(field: RangeField, value: string)
      modifies this
      ensures filters == ApplyDateChange(old(filters), field, value)
      ensures showSaveDialog == old(showSaveDialog) && filterName == old(filterName) && isExpanded == old(isExpanded)
    {
      filters := ApplyDateChange(filters, field, value);
    }

    /** `handleClearFilters`: back to the default record, so the badge shows nothing. */
    method HandleClearFilters()
      modifies this
      ensures filters == DefaultFilters && ActiveCount(filters) == 0
      ensures showSaveDialog == old(showSaveDialog) && filterName == old(filterName) && isExpanded == old(isExpanded)
    {
      filters := Filters([], [], [], [], DateRange("", ""), "all");
    }

    method SetShowSaveDialog(show: bool)
      modifies this
      ensures showSaveDialog == show
      ensures filters == old(filters) && filterName == old(filterName) && isExpanded == old(isExpanded)
    {
      showSaveDialog := show;
    }

    method SetFilterName(name: string)
      modifies this
      ensures filterName == name
      ensures filters == old(filters) && showSaveDialog == old(showSaveDialog) && isExpanded == old(isExpanded)
    {
      filterName := name;
    }

    method ToggleExpanded()
      modifies this
      ensures isExpanded == !old(isExpanded)
      ensures filters == old(filters) && showSaveDialog == old(showSaveDialog) && filterName == old(filterName)
    {
      isExpanded := !isExpanded;
    }

    /**
     * `handleSaveFilter`: with a name that is not blank, hands the saved
     * filter to `onSaveFilter`, clears the name and closes the dialog; with
     * a blank one, does nothing.
     */
    method HandleSaveFilter(now: int) returns (saved: Option<SavedFilter>)
      modifies this
      ensures saved == SaveFilter(old(filterName), old(filters), now)
      ensures filters == old(filters) && isExpanded == old(isExpanded)
      ensures saved.Some? ==> filterName == "" && !showSaveDialog
      ensures saved.None? ==> filterName == old(filterName) && showSaveDialog == old(showSaveDialog)
    {
      if Trim(filterName) != "" {
        saved := Some(SavedFilter(now, filterName, filters, now));
        filterName := "";
        showSaveDialog := false;
      } else {
        saved := None;
      }
    }

    /** `handleLoadFilter`: the record becomes the saved one, which is passed on to `onLoadFilter`. */
    method HandleLoadFilter(savedFilter: SavedFilter) returns (loaded: SavedFilter)
      modifies this
      ensures filters == LoadFilter(savedFilter) && loaded == savedFilter
      ensures showSaveDialog == old(showSaveDialog) && filterName == old(filterName) && isExpanded == old(isExpanded)
    {
      filters := savedFilter.filters;
      loaded := savedFilter;
    }

    /** `getActiveFiltersCount`: adds one for each active category. */
    method GetActiveFiltersCount() returns (count: nat)
      ensures count == ActiveCount(filters)
      ensures count <= 6
      ensures count == 0 <==> filters == DefaultFilters
    {
      count := 0;
      if |filters.departments| > 0 { count := count + 1; }
      if |filters.taskTypes| > 0 { count := count + 1; }
      if |filters.priorities| > 0 { count := count + 1; }
      if |filters.assignees| > 0 { count := count + 1; }
      if filters.dateRange.start != "" || filters.dateRange.end != "" { count := count + 1; }
      if filters.status != "all" { count := count + 1; }
      ActiveCountBounds(filters);
    }
  }
}
