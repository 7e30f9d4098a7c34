/**
 * The operations command centre page (`Centro-de-operaciones/Index`): its
 * global filter object, merged with every partial update, and the four
 * controls that each update one key of it.
 */
module CentroIndex {
  import opened JsValues

  /** The four keys the global filters always have. */
  const FilterKeys: set<string> := {"environment", "timeRange", "selectedAreas", "autoRefresh"}

  /** The starting filters: production, today, sales and marketing, auto-refresh on. */
  function InitialGlobalFilters(): (f: JsObject)
    ensures f.Keys == FilterKeys
    ensures f["environment"] == JStr("production") && f["timeRange"] == JStr("today")
    ensures f["selectedAreas"] == JArr([JStr("ventas"), JStr("marketing")])
    ensures f["autoRefresh"] == JBool(true)
  {
    map["environment" := JStr("production"),
        "timeRange" := JStr("today"),
        "selectedAreas" := JArr([JStr("ventas"), JStr("marketing")]),
        "autoRefresh" := JBool(true)]
  }

  /** `handleFilterChange`: `{ ...prev, ...newFilters }`. */
  function MergeFilters(prev: JsObject, newFilters: JsObject): (r: JsObject)
    ensures r.Keys == prev.Keys + newFilters.Keys
    ensures forall k | k in newFilters :: r[k] == newFilters[k]
    ensures forall k | k in prev && k !in newFilters :: r[k] == prev[k]
  {
    Spread(prev, newFilters)
  }

  /** Merging the same partial update twice gives what merging it once gives. */
  lemma MergeIdempotent(prev: JsObject, newFilters: JsObject)
    ensures MergeFilters(MergeFilters(prev, newFilters), newFilters) == MergeFilters(prev, newFilters)
  {
    SpreadIdempotent(prev, newFilters);
  }

  /** A merge that names only known keys keeps the key set. */
  lemma MergeKeepsKeys(prev: JsObject, newFilters: JsObject)
    requires newFilters.Keys <= prev.Keys
    ensures MergeFilters(prev, newFilters).Keys == prev.Keys
  {
  }

  /** What the periodic metric refresh is gated on: a truthy `autoRefresh`. */
  predicate AutoRefreshOn(f: JsObject) {
    "autoRefresh" in f && Truthy(f["autoRefresh"])
  }

  /** The page's state. */
  class OperationsCommandCenter {
    var globalFilters: JsObject
    var sidebarCollapsed: bool

    /** The filters keep the four keys they start with as long as the controls alone update them. */
    predicate Valid()
      reads this
    {
      globalFilters.Keys == FilterKeys
    }

    constructor ()
      ensures globalFilters == InitialGlobalFilters() && !sidebarCollapsed
      ensures Valid() && AutoRefreshOn(globalFilters)
    {
      globalFilters := InitialGlobalFilters();
      sidebarCollapsed := false;
    }

    method HandleFilterChange(newFilters: JsObject)
      modifies this
      ensures globalFilters == MergeFilters(old(globalFilters), newFilters)
      ensures sidebarCollapsed == old(sidebarCollapsed)
    {
      globalFilters := globalFilters + newFilters;
    }

    /** `handleEnvironmentChange`: only `environment` changes. */
    method HandleEnvironmentChange(environment: string)
      modifies this
      ensures old(Valid()) ==> Valid()
      ensures globalFilters == MergeFilters(old(globalFilters), map["environment" := JStr(environment)])
      ensures globalFilters["environment"] == JStr(environment)
      ensures forall k | k in old(globalFilters) && k != "environment" :: globalFilters[k] == old(globalFilters)[k]
      ensures sidebarCollapsed == old(sidebarCollapsed)
    {
      HandleFilterChange(map["environment" := JStr(environment)]);
    }

    /** `handleAutoRefreshToggle`: only `autoRefresh` changes, and the refresh gate follows it. */
    method HandleAutoRefreshToggle(enabled: bool)
      modifies this
      ensures old(Valid()) ==> Valid()
      ensures globalFilters == MergeFilters(old(globalFilters), map["autoRefresh" := JBool(enabled)])
      ensures AutoRefreshOn(globalFilters) <==> enabled
      ensures forall k | k in old(globalFilters) && k != "autoRefresh" :: globalFilters[k] == old(globalFilters)[k]
      ensures sidebarCollapsed == old(sidebarCollapsed)
    {
      HandleFilterChange(map["autoRefresh" := JBool(enabled)]);
    }

    /** `handleTimeRangeChange`: only `timeRange` changes. */
    method HandleTimeRangeChange(timeRange: string)
      modifies this
      ensures old(Valid()) ==> Valid()
      ensures globalFilters == MergeFilters(old(globalFilters), map["timeRange" := JStr(timeRange)])
      ensures globalFilters["timeRange"] == JStr(timeRange)
      ensures forall k | k in old(globalFilters) && k != "timeRange" :: globalFilters[k] == old(globalFilters)[k]
      ensures sidebarCollapsed == old(sidebarCollapsed)
    {
      HandleFilterChange(map["timeRange" := JStr(timeRange)]);
    }

    /** `handleAreaFilterChange`: only `selectedAreas` changes. */
    method HandleAreaFilterChange(selectedAreas: seq<string>)
      modifies this
      ensures old(Valid()) ==> Valid()
      ensures globalFilters == MergeFilters(old(globalFilters),
                                            map["selectedAreas" := JArr(seq(|selectedAreas|, i requires 0 <= i < |selectedAreas| => JStr(selectedAreas[i])))])
      ensures forall k | k in old(globalFilters) && k != "selectedAreas" :: globalFilters[k] == old(globalFilters)[k]
      ensures sidebarCollapsed == old(sidebarCollapsed)
    {
      HandleFilterChange(map["selectedAreas" := JArr(seq(|selectedAreas|, i requires 0 <= i < |selectedAreas| => JStr(selectedAreas[i])))]);
    }

    method HandleSidebarToggle()
      modifies this
      ensures sidebarCollapsed == !old(sidebarCollapsed) && globalFilters == old(globalFilters)
    {
      sidebarCollapsed := !sidebarCollapsed;
    }
  }
}
