/**
 * The filter bar of the performance analytics page (`AdvancedFilters`).
 * The bar holds no filters of its own: each handler builds a new filter
 * object from the one it was given and hands it to the page. Only the two
 * display toggles are its own state.
 */
module AdvancedFilters {
  import opened Wrappers
  import opened JsValues
  import opened Seqs

  datatype Bookmark = Bookmark(name: string, filters: JsObject)

  /** `handleFilterChange(key, value)`: the object emitted has `key` set to `value` and every other key as before. */
  function FilterChange(filters: JsObject, key: string, value: JsValue): (r: JsObject)
    ensures r.Keys == filters.Keys + {key} && r[key] == value
    ensures forall k | k in filters && k != key :: r[k] == filters[k]
  {
    With(filters, key, value)
  }

  /**
   * `handleBookmarkSave`: `answer` is what the name prompt returned (`None`
   * when it was dismissed). A bookmark is handed on only for a non-empty
   * name, and it holds a copy of the current filters.
   */
  function BookmarkSave(filters: JsObject, answer: Option<string>): (r: Option<Bookmark>)
    ensures r.Some? <==> answer.Some? && answer.value != ""
    ensures r.Some? ==> r.value == Bookmark(answer.value, filters)
  {
    match answer
    case None => None
    case Some(name) => if Truthy(JStr(name)) then Some(Bookmark(name, filters)) else None
  }

  /** `applyBookmark`: the object emitted is the bookmark's own filters. */
  function ApplyBookmark(b: Bookmark): JsObject {
    b.filters
  }

  /** Applying a bookmark that was just saved emits the filters it was saved from. */
  lemma BookmarkRoundTrip(filters: JsObject, name: string)
    requires name != ""
    ensures BookmarkSave(filters, Some(name)).Some?
    ensures ApplyBookmark(BookmarkSave(filters, Some(name)).value) == filters
  {
  }

  /** "Limpiar Filtros": the empty object, with no chip at all. */
  function ClearFilters(): (r: JsObject)
    ensures ChipKeys(r) == {}
  {
    map[]
  }

  /** A chip is shown for a value that is truthy and not "all". */
  predicate ChipShown(v: JsValue) {
    Truthy(v) && v != JStr("all")
  }

  /** The keys that have a chip in the summary. */
  function ChipKeys(filters: JsObject): set<string> {
    set k | k in filters && ChipShown(filters[k])
  }

  /** The summary row is there as soon as the object has a key, even when no chip is shown. */
  predicate SummaryShown(filters: JsObject) {
    |filters| > 0
  }

  /** A chip's remove button: the key is set to `null`. */
  function RemoveChip(filters: JsObject, key: string): (r: JsObject)
    ensures key in r && r[key] == JNull
  {
    FilterChange(filters, key, JNull)
  }

  /** Removing a chip removes exactly that chip; the key itself stays, so the summary row stays too. */
  lemma RemoveChipRemovesOne(filters: JsObject, key: string)
    ensures ChipKeys(RemoveChip(filters, key)) == ChipKeys(filters) - {key}
    ensures SummaryShown(RemoveChip(filters, key))
  {
    var r := RemoveChip(filters, key);
    assert ChipKeys(r) == ChipKeys(filters) - {key} by {
      forall k | k in ChipKeys(r) ensures k in ChipKeys(filters) - {key} {
        assert k != key;
      }
    }
    assert key in r.Keys;
  }

  /** The value a select shows: the stored value when it is truthy, its default otherwise. */
  function ShownValue(filters: JsObject, key: string, default: JsValue): (v: JsValue)
    ensures key in filters && Truthy(filters[key]) ==> v == filters[key]
    ensures !(key in filters && Truthy(filters[key])) ==> v == default
  {
    if key in filters && Truthy(filters[key]) then filters[key] else default
  }

  /** The bookmark buttons: at most the first three bookmarks, in order. */
  function VisibleBookmarks(bookmarks: seq<Bookmark>): (r: seq<Bookmark>)
    ensures |r| <= 3 && |r| <= |bookmarks|
    ensures |bookmarks| >= 3 ==> |r| == 3
    ensures r == bookmarks[..|r|]
  {
    Take(bookmarks, 3)
  }

  /** The bar's own state: whether the advanced section is open, and the comparison checkbox. */
  class AdvancedFiltersPanel {
    var showAdvanced: bool
    var comparisonMode: bool

    constructor ()
      ensures !showAdvanced && !comparisonMode
    {
      showAdvanced := false;
      comparisonMode := false;
    }

    method ToggleAdvanced()
      modifies this
      ensures showAdvanced == !old(showAdvanced) && comparisonMode == old(comparisonMode)
    {
      showAdvanced := !showAdvanced;
    }

    method SetComparisonMode(checked: bool)
      modifies this
      ensures comparisonMode == checked && showAdvanced == old(showAdvanced)
    {
      comparisonMode := checked;
    }
  }
}
