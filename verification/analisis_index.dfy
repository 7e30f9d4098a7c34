/**
 * The performance analytics page (`Analisis-de-rendimiento/Index`): the
 * filters and bookmarks it keeps for the filter bar, the selected tab, and
 * which analysis components each tab renders.
 */
module AnalisisIndex {
  import opened JsValues
  import opened AdvancedFilters

  /** The page's starting filters. */
  function InitialFilters(): (f: JsObject)
    ensures f.Keys == {"dateRange", "area", "taskType", "userRole"}
    ensures f["dateRange"] == JStr("month")
    ensures forall k | k in f && k != "dateRange" :: f[k] == JStr("all")
  {
    map["dateRange" := JStr("month"), "area" := JStr("all"), "taskType" := JStr("all"), "userRole" := JStr("all")]
  }

  /** The two bookmarks the page starts with. */
  function InitialBookmarks(): seq<Bookmark> {
    [ Bookmark("Vista Mensual", map["dateRange" := JStr("month"), "area" := JStr("desarrollo")]),
      Bookmark("Análisis Trimestral", map["dateRange" := JStr("quarter"), "area" := JStr("all")]) ]
  }

  /** Only the period differs from "all" at the start, so the filter bar shows one chip. */
  lemma InitialChips()
    ensures ChipKeys(InitialFilters()) == {"dateRange"}
  {
    var f := InitialFilters();
    assert "dateRange" in ChipKeys(f);
  }

  datatype Component = TrendChart | TemplateRanking | Funnel | Predictive

  /** The tab content of the wide layout, top to bottom. */
  function MainComponents(tab: string): (r: seq<Component>)
    ensures TrendChart in r <==> tab == "overview" || tab == "trends"
    ensures Funnel in r <==> tab == "overview" || tab == "funnel"
    ensures Predictive in r <==> tab == "overview" || tab == "predictions"
    ensures multiset(r)[TemplateRanking] ==
              if tab == "overview" then 2 else if tab == "trends" || tab == "templates" then 1 else 0
  {
    (if tab == "overview" || tab == "trends" then [TrendChart, TemplateRanking] else [])
    + (if (tab == "overview" || tab == "templates") && tab != "trends" then [TemplateRanking] else [])
    + (if (tab == "overview" || tab == "funnel") && tab != "trends" && tab != "templates" then [Funnel] else [])
    + (if (tab == "overview" || tab == "predictions") && tab != "trends" && tab != "templates" && tab != "funnel"
       then [Predictive] else [])
  }

  /**
   * The narrow layout's extra block: the one component of a single-analysis
   * tab, nothing for the overview or an unknown tab. It repeats a component
   * the wide layout already holds for that tab.
   */
  function MobileComponents(tab: string): (r: seq<Component>)
    ensures |r| <= 1
    ensures tab == "trends" ==> r == [TrendChart]
    ensures tab == "templates" ==> r == [TemplateRanking]
    ensures tab == "funnel" ==> r == [Funnel]
    ensures tab == "predictions" ==> r == [Predictive]
    ensures tab != "trends" && tab != "templates" && tab != "funnel" && tab != "predictions" ==> r == []
    ensures forall c | c in r :: c in MainComponents(tab)
  {
    if tab == "trends" then [TrendChart]
    else if tab == "templates" then [TemplateRanking]
    else if tab == "funnel" then [Funnel]
    else if tab == "predictions" then [Predictive]
    else []
  }

  /** The trends tab renders, in the wide layout, only the trend chart and the ranking beside it. */
  lemma TrendsTabBlock()
    ensures MainComponents("trends") == [TrendChart, TemplateRanking]
  {
    assert "trends" != "overview";
  }

  /** The templates tab renders, in the wide layout, only the ranking. */
  lemma TemplatesTabBlock()
    ensures MainComponents("templates") == [TemplateRanking]
  {
    assert "templates" != "overview" && "templates" != "trends";
  }

  /** The page's state. */
  class PerformanceAnalytics {
    var filters: JsObject
    var bookmarks: seq<Bookmark>
    var activeTab: string
    var showExportPanel: bool

    constructor ()
      ensures filters == InitialFilters() && bookmarks == InitialBookmarks()
      ensures activeTab == "overview" && !showExportPanel
    {
      filters := map["dateRange" := JStr("month"), "area" := JStr("all"), "taskType" := JStr("all"), "userRole" := JStr("all")];
      bookmarks := InitialBookmarks();
      activeTab := "overview";
      showExportPanel := false;
    }

    /** `handleFilterChange`: the filters are replaced whole by what the filter bar emitted. */
    method HandleFilterChange(newFilters: JsObject)
      modifies this
      ensures filters == newFilters
      ensures bookmarks == old(bookmarks) && activeTab == old(activeTab) && showExportPanel == old(showExportPanel)
    {
      filters := newFilters;
    }

    /** `handleBookmarkSave`: one more bookmark at the end, the earlier ones kept in order. */
    method HandleBookmarkSave(bookmark: Bookmark)
      modifies this
      ensures |bookmarks| == |old(bookmarks)| + 1
      ensures bookmarks[..|old(bookmarks)|] == old(bookmarks) && bookmarks[|old(bookmarks)|] == bookmark
      ensures filters == old(filters) && activeTab == old(activeTab) && showExportPanel == old(showExportPanel)
    {
      bookmarks := bookmarks + [bookmark];
    }

    method SetActiveTab(tab: string)
      modifies this
      ensures activeTab == tab
      ensures filters == old(filters) && bookmarks == old(bookmarks) && showExportPanel == old(showExportPanel)
    {
      activeTab := tab;
    }

    method SetShowExportPanel(show: bool)
      modifies this
      ensures showExportPanel == show
      ensures filters == old(filters) && bookmarks == old(bookmarks) && activeTab == old(activeTab)
    {
      showExportPanel := show;
    }

    function Components(): seq<Component>
      reads this
    {
      MainComponents(activeTab)
    }
  }
}
