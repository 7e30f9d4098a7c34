/**
 * The analytics page for tasks (`clientPages/home/Index`): the active filter
 * object it receives from the filter panel, the list of saved filters, the
 * bulk-selection reset, the "filtros activos" badge, and which panels each
 * view mode renders.
 */
module ClientHomeIndex {
  import opened JsValues
  import opened FilterPanel
  import opened Seqs

  /** A list of strings as a JavaScript array value. */
  function StrArr(s: seq<string>): (v: JsValue)
    ensures v.JArr? && |v.items| == |s|
  {
    JArr(seq(|s|, i requires 0 <= i < |s| => JStr(s[i])))
  }

  /** The four multi-select categories of the record as object keys. */
  function SelectPart(f: Filters): JsObject {
    map[]["departments" := StrArr(f.departments)]
         ["taskTypes" := StrArr(f.taskTypes)]
         ["priorities" := StrArr(f.priorities)]
         ["assignees" := StrArr(f.assignees)]
  }

  function DateObj(r: DateRange): JsValue {
    JObj(map["start" := JStr(r.start), "end" := JStr(r.end)])
  }

  /** The filter record as the plain object the panel hands to `onFiltersChange`. */
  function ToJs(f: Filters): JsObject {
    SelectPart(f)["dateRange" := DateObj(f.dateRange)]["status" := JStr(f.status)]
  }

  // ----- the badge, as written ----------------------------------------------

  /** A key counts when its value is truthy and is a non-empty array, or anything but an array and not "all". */
  predicate Counted(v: JsValue) {
    Truthy(v) && (if v.JArr? then |v.items| > 0 else v != JStr("all"))
  }

  function ActiveKeys(m: JsObject): set<string> {
    set k | k in m && Counted(m[k])
  }

  /** The badge's number as written: the keys that count; never more than the keys there are. */
  function BadgeCount(m: JsObject): (n: nat)
    ensures n <= |m.Keys|
  {
    SubsetCard(ActiveKeys(m), m.Keys);
    |ActiveKeys(m)|
  }

  /** An array of strings counts, in either count, exactly when it is not empty. */
  lemma CountedStrArr(s: seq<string>)
    ensures Counted(StrArr(s)) <==> |s| > 0
    ensures CountedFixed(StrArr(s)) <==> |s| > 0
  {
  }

  /** Adding a new key adds one to the count exactly when its value counts. */
  lemma BadgeCountAddKey(m: JsObject, k: string, v: JsValue)
    requires k !in m
    ensures BadgeCount(m[k := v]) == BadgeCount(m) + Ind(Counted(v))
  {
    if Counted(v) {
      assert ActiveKeys(m[k := v]) == ActiveKeys(m) + {k};
    } else {
      assert ActiveKeys(m[k := v]) == ActiveKeys(m);
    }
  }

  /** The four multi-selects count, each when it is not empty. */
  lemma {:induction false} SelectPartCount(f: Filters)
    ensures BadgeCount(SelectPart(f)) == Ind(CategoryActive(f, DepartmentsCat)) + Ind(CategoryActive(f, TaskTypesCat))
                                         + Ind(CategoryActive(f, PrioritiesCat)) + Ind(CategoryActive(f, AssigneesCat))
  {
    var m0: JsObject := map[];
    var m1 := m0["departments" := StrArr(f.departments)];
    var m2 := m1["taskTypes" := StrArr(f.taskTypes)];
    var m3 := m2["priorities" := StrArr(f.priorities)];
    assert ActiveKeys(m0) == {};
    CountedStrArr(f.departments);
    CountedStrArr(f.taskTypes);
    CountedStrArr(f.priorities);
    CountedStrArr(f.assignees);
    BadgeCountAddKey(m0, "departments", StrArr(f.departments));
    BadgeCountAddKey(m1, "taskTypes", StrArr(f.taskTypes));
    BadgeCountAddKey(m2, "priorities", StrArr(f.priorities));
    BadgeCountAddKey(m3, "assignees", StrArr(f.assignees));
  }

  /**
   * On the panel's record the badge counts the date range always: a date
   * range object is truthy even with both bounds empty. Every other
   * category counts as the panel counts it (the status select never offers
   * the empty string).
   */
  lemma {:induction false} BadgeCountOfPanelRecord(f: Filters)
    requires f.status != ""
    ensures BadgeCount(ToJs(f)) == ActiveCount(f) + 1 - Ind(CategoryActive(f, DateRangeCat))
  {
    PanelRecordSteps(f);
    SelectPartCount(f);
    DateObjCounts(f.dateRange);
    StatusCounts(f.status);
  }

  /** Both badges of the panel's record: the multi-selects, then the date range, then the status. */
  lemma PanelRecordSteps(f: Filters)
    ensures BadgeCount(ToJs(f)) == BadgeCount(SelectPart(f)) + Ind(Counted(DateObj(f.dateRange))) + Ind(Counted(JStr(f.status)))
    ensures BadgeCountFixed(ToJs(f))
            == BadgeCountFixed(SelectPart(f)) + Ind(CountedFixed(DateObj(f.dateRange))) + Ind(CountedFixed(JStr(f.status)))
  {
    var d := DateObj(f.dateRange);
    PanelKeysFresh(f);
    BadgeCountAddKey(SelectPart(f), "dateRange", d);
    BadgeCountAddKey(SelectPart(f)["dateRange" := d], "status", JStr(f.status));
    BadgeCountFixedAddKey(SelectPart(f), "dateRange", d);
    BadgeCountFixedAddKey(SelectPart(f)["dateRange" := d], "status", JStr(f.status));
  }

  /** The date range and status keys are added to an object that lacks them. */
  lemma PanelKeysFresh(f: Filters)
    ensures "dateRange" !in SelectPart(f)
    ensures "status" !in SelectPart(f)["dateRange" := DateObj(f.dateRange)]
  {
  }

  /** The date range object always counts as written, and by its bounds once corrected. */
  lemma DateObjCounts(r: DateRange)
    ensures Counted(DateObj(r))
    ensures CountedFixed(DateObj(r)) <==> r.start != "" || r.end != ""
  {
    var d := DateObj(r);
    if r.start != "" {
      assert Truthy(d.fields["start"]);
    } else if r.end != "" {
      assert Truthy(d.fields["end"]);
    }
  }

  /** A non-empty status counts, in either count, unless it is "all". */
  lemma StatusCounts(s: string)
    requires s != ""
    ensures Counted(JStr(s)) <==> s != "all"
    ensures CountedFixed(JStr(s)) <==> s != "all"
  {
  }

  /** With the default filters the panel shows no badge, yet the page reads "1 filtros activos". */
  lemma DefaultRecordCountsOne()
    ensures ActiveCount(DefaultFilters) == 0
    ensures BadgeCount(ToJs(DefaultFilters)) == 1
  {
    BadgeCountOfPanelRecord(DefaultFilters);
  }

  // ----- the badge, corrected -----------------------------------------------

  /** As `Counted`, except that an object counts only when one of its fields is truthy. */
  predicate CountedFixed(v: JsValue) {
    if v.JObj? then exists k | k in v.fields :: Truthy(v.fields[k]) else Counted(v)
  }

  function ActiveKeysFixed(m: JsObject): set<string> {
    set k | k in m && CountedFixed(m[k])
  }

  /** The badge's number with objects counted by their contents; never more than the keys there are. */
  function BadgeCountFixed(m: JsObject): (n: nat)
    ensures n <= |m.Keys|
  {
    SubsetCard(ActiveKeysFixed(m), m.Keys);
    |ActiveKeysFixed(m)|
  }

  lemma BadgeCountFixedAddKey(m: JsObject, k: string, v: JsValue)
    requires k !in m
    ensures BadgeCountFixed(m[k := v]) == BadgeCountFixed(m) + Ind(CountedFixed(v))
  {
    if CountedFixed(v) {
      assert ActiveKeysFixed(m[k := v]) == ActiveKeysFixed(m) + {k};
    } else {
      assert ActiveKeysFixed(m[k := v]) == ActiveKeysFixed(m);
    }
  }

  /** The four multi-selects count, each when it is not empty. */
  lemma {:induction false} SelectPartCountFixed(f: Filters)
    ensures BadgeCountFixed(SelectPart(f)) == Ind(CategoryActive(f, DepartmentsCat)) + Ind(CategoryActive(f, TaskTypesCat))
                                         + Ind(CategoryActive(f, PrioritiesCat)) + Ind(CategoryActive(f, AssigneesCat))
  {
    var m0: JsObject := map[];
    var m1 := m0["departments" := StrArr(f.departments)];
    var m2 := m1["taskTypes" := StrArr(f.taskTypes)];
    var m3 := m2["priorities" := StrArr(f.priorities)];
    assert ActiveKeysFixed(m0) == {};
    CountedStrArr(f.departments);
    CountedStrArr(f.taskTypes);
    CountedStrArr(f.priorities);
    CountedStrArr(f.assignees);
    BadgeCountFixedAddKey(m0, "departments", StrArr(f.departments));
    BadgeCountFixedAddKey(m1, "taskTypes", StrArr(f.taskTypes));
    BadgeCountFixedAddKey(m2, "priorities", StrArr(f.priorities));
    BadgeCountFixedAddKey(m3, "assignees", StrArr(f.assignees));
  }

  /** The corrected badge agrees with the panel's own count on every record the panel can hold. */
  lemma {:induction false} BadgeCountFixedOfPanelRecord(f: Filters)
    requires f.status != ""
    ensures BadgeCountFixed(ToJs(f)) == ActiveCount(f)
  {
    PanelRecordSteps(f);
    SelectPartCountFixed(f);
    DateObjCounts(f.dateRange);
    StatusCounts(f.status);
  }

  // ----- the main column ------------------------------------------------------

  datatype Panel = TimelinePanel | GridPanel | PredictionsPanel

  /** The panels of the main column, top to bottom, for a view mode. */
  function RenderedPanels(viewMode: string): (r: seq<Panel>)
    ensures TimelinePanel in r <==> viewMode == "timeline"
    ensures PredictionsPanel in r <==> viewMode == "predictions"
  {
    (if viewMode == "timeline" then [TimelinePanel] else [])
    + (if viewMode == "grid" then [GridPanel] else [])
    + (if viewMode == "predictions" then [PredictionsPanel] else [])
    + (if viewMode != "grid" then [GridPanel] else [])
  }

  /** Whatever the view mode, the grid of tasks is rendered exactly once. */
  lemma GridRenderedOnce(viewMode: string)
    ensures multiset(RenderedPanels(viewMode))[GridPanel] == 1
  {
  }

  /** The page's state. */
  class TaskAnalyticsCenter {
    var activeFilters: JsObject
    var savedFilters: seq<SavedFilter>
    var selectedTasks: seq<int>
    var viewMode: string

    constructor ()
      ensures activeFilters == map[] && savedFilters == [] && selectedTasks == [] && viewMode == "timeline"
    {
      activeFilters := map[];
      savedFilters := [];
      selectedTasks := [];
      viewMode := "timeline";
    }

    /** `handleFiltersChange`: the active filters are replaced whole. */
    method HandleFiltersChange(filters: JsObject)
      modifies this
      ensures activeFilters == filters
      ensures savedFilters == old(savedFilters) && selectedTasks == old(selectedTasks) && viewMode == old(viewMode)
    {
      activeFilters := filters;
    }

    /** `handleSaveFilter`: one more saved filter at the end, the earlier ones kept in order. */
    method HandleSaveFilter(savedFilter: SavedFilter)
      modifies this
      ensures |savedFilters| == |old(savedFilters)| + 1
      ensures savedFilters[..|old(savedFilters)|] == old(savedFilters) && savedFilters[|old(savedFilters)|] == savedFilter
      ensures activeFilters == old(activeFilters) && selectedTasks == old(selectedTasks) && viewMode == old(viewMode)
    {
      savedFilters := savedFilters + [savedFilter];
    }

    /** `handleLoadFilter`: the active filters become the saved record. */
    method HandleLoadFilter(savedFilter: SavedFilter)
      modifies this
      ensures activeFilters == ToJs(savedFilter.filters)
      ensures savedFilters == old(savedFilters) && selectedTasks == old(selectedTasks) && viewMode == old(viewMode)
    {
      activeFilters := ToJs(savedFilter.filters);
    }

    /** `handleBulkAction`: whatever the action and ids, the selection is emptied. */
    method HandleBulkAction(action: string, taskIds: seq<int>)
      modifies this
      ensures selectedTasks == []
      ensures activeFilters == old(activeFilters) && savedFilters == old(savedFilters) && viewMode == old(viewMode)
    {
      selectedTasks := [];
    }

    method SetViewMode(mode: string)
      modifies this
      ensures viewMode == mode
      ensures activeFilters == old(activeFilters) && savedFilters == old(savedFilters) && selectedTasks == old(selectedTasks)
    {
      viewMode := mode;
    }

    /**
     * The badge next to the view-mode buttons, as the page computes it: a
     * non-empty object counts whatever it holds (see `DefaultRecordCountsOne`;
     * `BadgeCountFixed` is the count that looks inside).
     */
    function ActiveFiltersBadge(): (n: nat)
      reads this
      ensures n <= |activeFilters.Keys|
      ensures activeFilters == map[] ==> n == 0
    {
      BadgeCount(activeFilters)
    }

    /** The panels drawn for the current view mode. */
    function Panels(): (r: seq<Panel>)
      reads this
      ensures multiset(r)[GridPanel] == 1
      ensures TimelinePanel in r <==> viewMode == "timeline"
      ensures PredictionsPanel in r <==> viewMode == "predictions"
    {
      GridRenderedOnce(viewMode);
      RenderedPanels(viewMode)
    }
  }
}
